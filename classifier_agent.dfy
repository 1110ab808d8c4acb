/**
 * The modular classifier agent: reads the model's JSON reply and corrects it
 * against the closed table of legal domains and their sub-domains.
 */
module ClassifierAgent {
  import opened Wrappers
  import opened Text
  import opened JsonValue
  import opened Llm
  import Confidence

  /** Domains with their sub-domains, in the table's (insertion) order. */
  type Table = seq<(string, seq<string>)>

  const LEGAL_DOMAINS: Table := [
    ("Consumer Law", ["Defective Product", "Service Deficiency", "Unfair Trade Practice",
                      "E-commerce Dispute", "Banking/Financial Service"]),
    ("Labour Law", ["Wage Dispute", "Wrongful Termination", "Workplace Harassment",
                    "Unpaid Benefits", "Working Conditions"]),
    ("Criminal Law", ["Theft/Robbery", "Assault/Violence", "Fraud/Cheating", "Cyber Crime",
                      "Domestic Violence"]),
    ("Family Law", ["Divorce", "Child Custody", "Maintenance/Alimony", "Domestic Violence",
                    "Inheritance"]),
    ("Property Law", ["Property Dispute", "Landlord-Tenant", "Real Estate Fraud", "Encroachment",
                      "Title Issues"]),
    ("Civil Law", ["Contract Dispute", "Recovery of Money", "Defamation", "Negligence", "Injunction"]),
    ("Constitutional Law", ["Fundamental Rights", "RTI Query", "Government Action", "Discrimination"])
  ]

  const UNKNOWN: string := "Unknown"

  /**
   * A classification dict. Domain, sub-domain, missing fields and reasoning are
   * whatever JSON values the reply held; confidence has been through `float()`.
   */
  datatype Classification = Classification(
    domain: Json,
    subDomain: Json,
    confidence: real,
    missingFields: Json,
    reasoning: Json)

  /** `_default_classification` */
  const DEFAULT_CLASSIFICATION: Classification := Classification(
    JStr(UNKNOWN), JStr(UNKNOWN), 0.0,
    JArr([JStr("unable to classify - please provide more details")]),
    JStr("Classification failed"))

  /** A computation that returns a value or raises an exception its caller does not catch. */
  datatype Outcome<T> = Done(value: T) | Raises

  // ===========================================================================
  // Parsing the reply

  /** Python's `float(value)` on a JSON value: a number, a ValueError, a TypeError or an OverflowError. */
  datatype FloatResult = FloatValue(x: real) | FloatValueError | FloatTypeError | FloatOverflowError

  /**
   * 2^1024 - 2^970: the least magnitude of an int that `float()` rounds (to
   * nearest, ties to even) past the largest double, and so rejects with
   * OverflowError.
   */
  const FLOAT_OVERFLOW: int := 0xfffffffffffffc00000000000000000000000000000000000000000000000000000000000000000000000000000000000000000000000000000000000000000000000000000000000000000000000000000000000000000000000000000000000000000000000000000000000000000000000000000000000000000000000000

  /** `float(i)` raises OverflowError. */
  predicate TooLargeForFloat(i: int) {
    i >= FLOAT_OVERFLOW || -i >= FLOAT_OVERFLOW
  }

  /**
   * `float(value)`. Numbers (bool included) convert, except an int too large
   * for a double, which raises OverflowError; a string converts when `floatOf`
   * accepts it and raises ValueError otherwise; anything else raises TypeError.
   */
  function FloatOf(j: Json, floatOf: string -> Option<real>): (r: FloatResult)
    ensures j.AsNumber().Some? && !(j.JInt? && TooLargeForFloat(j.i)) ==> r == FloatValue(j.AsNumber().value)
    ensures j.JStr? ==> (r.FloatValueError? <==> floatOf(j.s).None?)
    ensures r.FloatTypeError? <==> !j.JStr? && j.AsNumber().None?
    ensures r.FloatOverflowError? <==> j.JInt? && TooLargeForFloat(j.i)
  {
    match j
    case JStr(s) => (match floatOf(s) case Some(x) => FloatValue(x) case None => FloatValueError)
    case JInt(i) => if TooLargeForFloat(i) then FloatOverflowError else FloatValue(i as real)
    case _ => (match j.AsNumber() case Some(x) => FloatValue(x) case None => FloatTypeError)
  }

  /**
   * `_parse_response`: strip, cut out the fenced block, strip again and parse.
   * A JSONDecodeError or ValueError gives the default classification; a reply
   * that is not a JSON object, or a confidence `float()` rejects with a
   * TypeError or an OverflowError, raises out of the parser.
   */
  function ParseResponse(content: string, parse: Parser, floatOf: string -> Option<real>): (r: Outcome<Classification>)
    ensures parse(Strip(FencedContent(Strip(content)))).None? ==> r == Done(DEFAULT_CLASSIFICATION)
    ensures r.Raises? <==>
              match parse(Strip(FencedContent(Strip(content))))
              case None => false
              case Some(v) =>
                !v.JObj? || FloatOf(Get(v.fields, "confidence", JFloat(0.0)), floatOf).FloatTypeError?
                || FloatOf(Get(v.fields, "confidence", JFloat(0.0)), floatOf).FloatOverflowError?
    ensures r.Done? && r.value != DEFAULT_CLASSIFICATION ==>
              var v := parse(Strip(FencedContent(Strip(content)))).value;
              && v.JObj?
              && r.value.domain == Get(v.fields, "domain", JStr(UNKNOWN))
              && r.value.subDomain == Get(v.fields, "sub_domain", JStr(UNKNOWN))
              && FloatOf(Get(v.fields, "confidence", JFloat(0.0)), floatOf) == FloatValue(r.value.confidence)
              && r.value.missingFields == Get(v.fields, "missing_fields", JArr([]))
              && r.value.reasoning == Get(v.fields, "reasoning", JStr(""))
  {
    match parse(Strip(FencedContent(Strip(content))))
    case None => Done(DEFAULT_CLASSIFICATION)
    case Some(v) =>
      if !v.JObj? then Raises
      else
        match FloatOf(Get(v.fields, "confidence", JFloat(0.0)), floatOf)
        case FloatValue(x) =>
          Done(Classification(Get(v.fields, "domain", JStr(UNKNOWN)), Get(v.fields, "sub_domain", JStr(UNKNOWN)), x,
                              Get(v.fields, "missing_fields", JArr([])), Get(v.fields, "reasoning", JStr(""))))
        case FloatValueError => Done(DEFAULT_CLASSIFICATION)
        case FloatTypeError => Raises
        case FloatOverflowError => Raises
  }

  /**
   * A reply whose confidence is the int 2^1024 parses as JSON but makes
   * `float()` overflow, so the parser raises and `classify` falls back to the
   * default classification.
   */
  lemma HugeConfidenceFallsBack(content: string, parse: Parser, floatOf: string -> Option<real>)
    requires parse(Strip(FencedContent(Strip(content)))) == Some(JObj(map["confidence" := JInt(0x10000000000000000000000000000000000000000000000000000000000000000000000000000000000000000000000000000000000000000000000000000000000000000000000000000000000000000000000000000000000000000000000000000000000000000000000000000000000000000000000000000000000000000)]))
    ensures ParseResponse(content, parse, floatOf).Raises?
    ensures Classify(Text(content), parse, floatOf) == DEFAULT_CLASSIFICATION
  {
  }

  // ===========================================================================
  // Correcting against the table

  /** The domain names of the table, in order. */
  function Keys(domains: Table): (keys: seq<string>)
    ensures |keys| == |domains|
    ensures forall i :: 0 <= i < |domains| ==> keys[i] == domains[i].0
  {
    seq(|domains|, i requires 0 <= i < |domains| => domains[i].0)
  }

  /** `key in self.domains`: the position of the entry named `key`, if any. */
  function KeyIndex(domains: Table, key: string): (r: Option<nat>)
    ensures r.Some? ==> r.value < |domains| && domains[r.value].0 == key
    ensures r.Some? ==> forall j :: 0 <= j < r.value ==> domains[j].0 != key
    ensures r.None? ==> forall j :: 0 <= j < |domains| ==> domains[j].0 != key
  {
    if domains == [] then None
    else if domains[0].0 == key then Some(0)
    else match KeyIndex(domains[1..], key)
      case None => None
      case Some(k) => Some(k + 1)
  }

  /** `needle.lower() in name.lower()` */
  predicate Matches(needle: string, name: string) {
    Contains(Lower(name), Lower(needle))
  }

  /** The first name, in order, that contains `needle` case-insensitively. */
  function FirstContaining(needle: string, names: seq<string>): (r: Option<nat>)
    ensures r.Some? ==> r.value < |names| && Matches(needle, names[r.value])
    ensures r.Some? ==> forall j :: 0 <= j < r.value ==> !Matches(needle, names[j])
    ensures r.None? ==> forall j :: 0 <= j < |names| ==> !Matches(needle, names[j])
  {
    if names == [] then None
    else if Matches(needle, names[0]) then Some(0)
    else match FirstContaining(needle, names[1..])
      case None => None
      case Some(k) => Some(k + 1)
  }

  /**
   * The corrected domain: kept when it is a table key or "Unknown"; otherwise
   * the first key, in table order, that contains it case-insensitively, or
   * "Unknown" when none does.
   */
  function ResolveDomain(domain: string, domains: Table): (d: string)
    ensures d == UNKNOWN || KeyIndex(domains, d).Some?
    ensures KeyIndex(domains, domain).Some? || domain == UNKNOWN ==> d == domain
    ensures KeyIndex(domains, domain).None? && domain != UNKNOWN ==>
              match FirstContaining(domain, Keys(domains))
              case Some(i) => d == domains[i].0
              case None => d == UNKNOWN
  {
    if KeyIndex(domains, domain).Some? || domain == UNKNOWN then domain
    else match FirstContaining(domain, Keys(domains))
      case Some(i) => domains[i].0
      case None => UNKNOWN
  }

  /**
   * The corrected sub-domain for a known domain with sub-domains `subs`: kept
   * when listed; otherwise the first listed one that contains it
   * case-insensitively, else the first listed one ("General" for an empty list).
   * None: a sub-domain that is not a string makes `.lower()` raise in the first
   * round of the search, which an empty list never enters.
   */
  function ResolveSubDomain(sub: Json, subs: seq<string>): (r: Option<Json>)
    ensures r.None? <==> !sub.JStr? && subs != []
    ensures r.Some? ==> r.value.JStr? && (r.value.s in subs || (subs == [] && r.value.s == "General"))
    ensures sub.JStr? && sub.s in subs ==> r == Some(sub)
  {
    if sub.JStr? && sub.s in subs then Some(sub)
    else if subs == [] then Some(JStr("General"))
    else if !sub.JStr? then None
    else match FirstContaining(sub.s, subs)
      case Some(i) => Some(JStr(subs[i]))
      case None => Some(JStr(subs[0]))
  }

  /**
   * `_validate_classification` as a value; None when it raises (a domain that is
   * not a string, or a non-string sub-domain under a known domain with sub-domains).
   */
  function Validated(c: Classification, domains: Table): (r: Option<Classification>)
    ensures r.None? <==> !c.domain.JStr? ||
                         (var i := KeyIndex(domains, ResolveDomain(c.domain.s, domains));
                          i.Some? && !c.subDomain.JStr? && domains[i.value].1 != [])
    ensures r.Some? ==> r.value.domain.JStr? && (r.value.domain.s == UNKNOWN || KeyIndex(domains, r.value.domain.s).Some?)
    ensures r.Some? ==> r.value.domain == JStr(ResolveDomain(c.domain.s, domains))
    ensures r.Some? ==> 0.0 <= r.value.confidence <= 1.0 && r.value.confidence == Confidence.Clamp(c.confidence)
    ensures r.Some? ==> r.value.missingFields == c.missingFields && r.value.reasoning == c.reasoning
  {
    if !c.domain.JStr? then None
    else
      var d := ResolveDomain(c.domain.s, domains);
      match KeyIndex(domains, d)
      case None => Some(c.(domain := JStr(d), confidence := Confidence.Clamp(c.confidence)))
      case Some(i) =>
        match ResolveSubDomain(c.subDomain, domains[i].1)
        case None => None
        case Some(sub) => Some(c.(domain := JStr(d), subDomain := sub, confidence := Confidence.Clamp(c.confidence)))
  }

  /** Under a known domain the sub-domain ends up in that domain's list (or "General" for an empty list). */
  lemma ValidatedSubDomainListed(c: Classification, domains: Table)
    requires Validated(c, domains).Some?
    requires KeyIndex(domains, Validated(c, domains).value.domain.s).Some?
    ensures var r := Validated(c, domains).value;
            var subs := domains[KeyIndex(domains, r.domain.s).value].1;
            r.subDomain.JStr? && (r.subDomain.s in subs || (subs == [] && r.subDomain.s == "General"))
  {
  }

  /** Under "Unknown" (and no table entry by that name) the sub-domain is left as it was. */
  lemma ValidatedUnknownKeepsSubDomain(c: Classification, domains: Table)
    requires Validated(c, domains).Some?
    requires Validated(c, domains).value.domain == JStr(UNKNOWN) && KeyIndex(domains, UNKNOWN).None?
    ensures Validated(c, domains).value.subDomain == c.subDomain
  {
  }

  /** Re-validating a validated classification changes nothing. */
  lemma ValidatedIdempotent(c: Classification, domains: Table)
    requires Validated(c, domains).Some?
    ensures Validated(Validated(c, domains).value, domains) == Validated(c, domains)
  {
    var r := Validated(c, domains).value;
    var d := r.domain.s;
    assert ResolveDomain(d, domains) == d;
    match KeyIndex(domains, d)
    case None =>
    case Some(i) =>
      assert r.subDomain.JStr?;
      var subs := domains[i].1;
      if subs == [] && r.subDomain.s !in subs {
        assert FirstContaining(r.subDomain.s, subs).None?;
      }
  }

  /** An empty domain is contained in every key, so it becomes the first domain of the table. */
  lemma EmptyDomainBecomesConsumerLaw()
    ensures ResolveDomain("", LEGAL_DOMAINS) == "Consumer Law"
  {
    assert OccursAt(Lower(LEGAL_DOMAINS[0].0), Lower(""), 0);
    assert KeyIndex(LEGAL_DOMAINS, "").None?;
  }

  /** One for/else search of `_validate_classification`: the first name containing `needle`, case-insensitively. */
  method SearchContaining(needle: string, names: seq<string>) returns (r: Option<nat>)
    ensures r == FirstContaining(needle, names)
  {
    var i := 0;
    while i < |names|
      invariant 0 <= i <= |names|
      invariant forall j :: 0 <= j < i ==> !Matches(needle, names[j])
    {
      if IndexOf(Lower(names[i]), Lower(needle)).Some? {
        return Some(i);
      }
      i := i + 1;
    }
    return None;
  }

  /**
   * `_validate_classification` with its two for/else searches; None when it raises.
   */
  method ValidateClassification(c: Classification, domains: Table) returns (r: Option<Classification>)
    ensures r == Validated(c, domains)
  {
    if !c.domain.JStr? {
      return None;
    }
    var domain := c.domain.s;
    var subDomain := c.subDomain;
    if KeyIndex(domains, domain).None? && domain != UNKNOWN {
      var found := SearchContaining(domain, Keys(domains));
      domain := if found.Some? then domains[found.value].0 else UNKNOWN;
    }
    var known := KeyIndex(domains, domain);
    if known.Some? {
      var subs := domains[known.value].1;
      if !(subDomain.JStr? && subDomain.s in subs) {
        if subs == [] {
          subDomain := JStr("General");
        } else {
          // the search's first `.lower()` raises on a non-string
          if !subDomain.JStr? {
            return None;
          }
          var found := SearchContaining(subDomain.s, subs);
          subDomain := if found.Some? then JStr(subs[found.value]) else JStr(subs[0]);
        }
      }
    }
    return Some(c.(domain := JStr(domain), subDomain := subDomain, confidence := Confidence.Clamp(c.confidence)));
  }

  // ===========================================================================
  // classify

  /**
   * `classify` on the model's reply: any exception (the model call, a parser
   * TypeError or AttributeError, the validation) gives the default classification.
   */
  function Classify(reply: Reply, parse: Parser, floatOf: string -> Option<real>): (r: Classification)
    ensures r.domain.JStr? && (r.domain.s == UNKNOWN || KeyIndex(LEGAL_DOMAINS, r.domain.s).Some?)
    ensures 0.0 <= r.confidence <= 1.0
    ensures reply.Raised? ==> r == DEFAULT_CLASSIFICATION
    ensures reply.Text? && ParseResponse(reply.content, parse, floatOf).Done?
            && Validated(ParseResponse(reply.content, parse, floatOf).value, LEGAL_DOMAINS).Some? ==>
              r == Validated(ParseResponse(reply.content, parse, floatOf).value, LEGAL_DOMAINS).value
    ensures reply.Text? && (ParseResponse(reply.content, parse, floatOf).Raises?
            || Validated(ParseResponse(reply.content, parse, floatOf).value, LEGAL_DOMAINS).None?) ==>
              r == DEFAULT_CLASSIFICATION
  {
    match reply
    case Raised(_) => DEFAULT_CLASSIFICATION
    case Text(content) =>
      match ParseResponse(content, parse, floatOf)
      case Raises => DEFAULT_CLASSIFICATION
      case Done(parsed) =>
        match Validated(parsed, LEGAL_DOMAINS)
        case None => DEFAULT_CLASSIFICATION
        case Some(v) => v
  }
}
