/**
 * The two-tier safety validator: a rule tier over a table of unsafe patterns,
 * then, when a model is configured and the rules pass, a model tier whose JSON
 * verdict is read leniently; plus the replacement/redaction sanitiser.
 */
module SafetyAgent {
  import opened Wrappers
  import opened Text
  import opened Patterns
  import opened JsonValue
  import opened Llm

  /** The unsafe patterns, matched case-insensitively against the raw response. */
  const UNSAFE_PATTERNS: seq<Pattern> := [
    [Alt(["you should "]), Group(["definitely", "certainly", "absolutely"])],
    [Alt(["you must "]), Group(["sue", "file", "take legal action"])],
    [Alt(["i "]), Group(["advise", "recommend", "suggest"]), Alt([" "]), Group(["you", "that you"]), Alt([" "]), Group(["must", "should"])],
    [Alt(["you "]), Group(["will", "are going to"]), Alt([" "]), Group(["win", "lose", "succeed", "fail"])],
    [Group(["guaranteed", "certain", "definitely"]), Alt([" "]), Group(["outcome", "result", "win"])],
    [Alt(["the "]), Group(["court", "judge"]), Alt([" will "]), Group(["definitely", "certainly", "likely"])],
    [Alt(["you have a "]), Group(["strong", "weak", "good", "bad"]), Alt([" case"])],
    [Alt(["your chances "]), Group(["of winning", "are"])],
    [Alt(["contact "]), Group(["this", "my", "our"]), Alt([" lawyer"])],
    [Alt(["hire "]), Group(["this", "a specific"]), Alt([" advocate"])],
    PHONE_PATTERN,
    EMAIL_PATTERN
  ]

  /** A phone number after "phone:", "call:" or "contact:". */
  const PHONE_PATTERN: Pattern := [Alt(["phone", "call", "contact"]), Alt([":"]), Run(Space, 0), Alt(["+", ""]), Run(Digit, 10)]

  /** An e-mail address. */
  const EMAIL_PATTERN: Pattern := [Run(EmailLocal, 1), Alt(["@"]), Run(EmailDomain, 1), Alt(["."]), Run(EmailTail, 1)]

  const CONTACT_REMOVED: string := "[Contact information removed]"
  const EMAIL_REMOVED: string := "[Email removed]"

  /** The replacement table, applied in this order, each key matched literally and case-insensitively. */
  const REPLACEMENTS: seq<(string, string)> := [
    ("you should definitely", "you may consider"),
    ("you must sue", "you have the option to file a case"),
    ("you will win", "the outcome will depend on the merits of your case"),
    ("you will lose", "outcomes depend on various factors"),
    ("guaranteed", "possible"),
    ("i advise you to", "one option is to"),
    ("i recommend that you", "you might consider")
  ]

  /**
   * A rule-tier violation (type "pattern_match"): the pattern and at most three of
   * its `findall` items (the group's text for a pattern with one group, the tuple
   * of the groups' texts for one with several, the matched text for one with none).
   */
  datatype PatternViolation = PatternViolation(pattern: Pattern, matches: seq<FindItem>)

  datatype RuleCheck = RuleCheck(valid: bool, violations: seq<PatternViolation>)

  // ---------------------------------------------------------------------------
  // _rule_based_check

  function PatternReport(response: string, p: Pattern): (r: Option<PatternViolation>)
    ensures r.Some? <==> Search(response, p, true).Some?
    ensures r.Some? ==> r.value.pattern == p && 1 <= |r.value.matches| <= 3
    ensures r.Some? ==> r.value.matches[0] == Reported(response, p, true, Search(response, p, true).value)
    ensures r.Some? ==> var all := FindAll(response, p, true);
                        |r.value.matches| <= |all| && r.value.matches == all[..|r.value.matches|] &&
                        (|r.value.matches| < 3 ==> r.value.matches == all)
  {
    var matches := FindAll(response, p, true);
    if matches != [] then Some(PatternViolation(p, Take(matches, 3))) else None
  }

  function PatternReports(response: string): (rs: seq<Option<PatternViolation>>)
    ensures |rs| == |UNSAFE_PATTERNS|
    ensures forall i :: 0 <= i < |rs| ==> rs[i] == PatternReport(response, UNSAFE_PATTERNS[i])
  {
    seq(|UNSAFE_PATTERNS|, i requires 0 <= i < |UNSAFE_PATTERNS| => PatternReport(response, UNSAFE_PATTERNS[i]))
  }

  /** The result of the rule tier: one violation per matching pattern, in table order. */
  function RuleBased(response: string): (r: RuleCheck)
    ensures r.valid <==> r.violations == []
  {
    var vs := Somes(PatternReports(response));
    RuleCheck(vs == [], vs)
  }

  /** The rule tier passes exactly when no unsafe pattern matches anywhere. */
  lemma RuleBasedValid(response: string)
    ensures RuleBased(response).valid <==>
            forall i :: 0 <= i < |UNSAFE_PATTERNS| ==> Search(response, UNSAFE_PATTERNS[i], true).None?
  {
    SomesEmpty(PatternReports(response));
  }

  /** `_rule_based_check(response)`, appending in a loop. */
  method RuleBasedCheck(response: string) returns (r: RuleCheck)
    ensures r == RuleBased(response)
  {
    var violations: seq<PatternViolation> := [];
    ghost var reports := PatternReports(response);
    var i := 0;
    while i < |UNSAFE_PATTERNS|
      invariant 0 <= i <= |UNSAFE_PATTERNS|
      invariant violations == Somes(reports[..i])
    {
      var matches := FindAll(response, UNSAFE_PATTERNS[i], true);
      SomesPrefix(reports, i);
      if matches != [] {
        violations := violations + [PatternViolation(UNSAFE_PATTERNS[i], Take(matches, 3))];
      }
      i := i + 1;
    }
    SomesWhole(reports);
    r := RuleCheck(|violations| == 0, violations);
  }

  /**
   * The first unsafe pattern has one group, so its violation lists the group's
   * text ("definitely"), not the whole matched phrase.
   */
  lemma ShouldDefinitelyReportsGroup()
    ensures var r := PatternReport("you should definitely.", UNSAFE_PATTERNS[0]);
            r.Some? && r.value.matches[0] == Str("definitely")
  {
    var t := "you should definitely.";
    var g := Group(["definitely", "certainly", "absolutely"]);
    var p2: Pattern := [g];
    var p: Pattern := [Alt(["you should "])] + p2;
    assert UNSAFE_PATTERNS[0] == p;
    assert MatchLen(".", [], true) == Some(0);
    MatchFirstOption("definitely", ".", g, [], true, 0);
    assert [g] + [] == p2;
    assert "definitely" + "." == "definitely.";
    MatchFirstOption("you should ", "definitely.", Alt(["you should "]), p2, true, 10);
    assert "you should " + "definitely." == t;
    assert t[0..] == t;
    assert MatchesAt(t, p, true, 0);
    assert Search(t, p, true) == Some(Span(0, 21));
    assert Captures(t, p, true) == ["definitely"];
  }

  /** `quick_check(response)` */
  function QuickCheck(response: string): (ok: bool)
    ensures ok <==> forall i :: 0 <= i < |UNSAFE_PATTERNS| ==> Search(response, UNSAFE_PATTERNS[i], true).None?
  {
    RuleBasedValid(response);
    RuleBased(response).valid
  }

  // ---------------------------------------------------------------------------
  // _sanitize_response

  /** The sanitised text: the replacements, then phone numbers, then e-mail addresses redacted. */
  function Sanitized(response: string): (r: string)
  {
    var replaced := Replaced(response, REPLACEMENTS, |REPLACEMENTS|, true);
    var noPhone := SubAll(replaced, PHONE_PATTERN, CONTACT_REMOVED, true);
    SubAll(noPhone, EMAIL_PATTERN, EMAIL_REMOVED, false)
  }

  /** A response with no replacement key, phone number or e-mail address comes back unchanged. */
  lemma SanitizedClean(response: string)
    requires NoKeyOccurs(response, REPLACEMENTS, true)
    requires Search(response, PHONE_PATTERN, true).None?
    requires Search(response, EMAIL_PATTERN, false).None?
    ensures Sanitized(response) == response
  {
    ReplacedNoKey(response, REPLACEMENTS, |REPLACEMENTS|, true);
  }

  /** `_sanitize_response(response, violations)`: the violations are not consulted. */
  method SanitizeResponse(response: string, violations: seq<PatternViolation>) returns (sanitized: string)
    ensures sanitized == Sanitized(response)
  {
    sanitized := response;
    var n := 0;
    while n < |REPLACEMENTS|
      invariant 0 <= n <= |REPLACEMENTS|
      invariant sanitized == Replaced(response, REPLACEMENTS, n, true)
    {
      var (old_, new_) := REPLACEMENTS[n];
      sanitized := ReplaceAll(sanitized, old_, new_, true);
      n := n + 1;
    }
    sanitized := SubAll(sanitized, PHONE_PATTERN, CONTACT_REMOVED, true);
    sanitized := SubAll(sanitized, EMAIL_PATTERN, EMAIL_REMOVED, false);
  }

  // ---------------------------------------------------------------------------
  // _llm_based_check and validate

  /** What the model tier yields: it raised, or a verdict with its violations. */
  datatype ModelCheck = ModelRaised | ModelVerdict(valid: Json, violations: Json)

  /**
   * `_llm_based_check`: a raising call or a parsed value that is not a dict
   * (its `.get` raises) propagate as a raise; unparsable JSON reads as valid.
   */
  function LlmBasedCheck(reply: Reply, parse: Parser): (r: ModelCheck)
    ensures reply.Raised? ==> r.ModelRaised?
    ensures reply.Text? && parse(Strip(FencedContent(Strip(reply.content)))).None? ==>
              r == ModelVerdict(JBool(true), JArr([]))
  {
    match reply
    case Raised(_) => ModelRaised
    case Text(content) =>
      match parse(Strip(FencedContent(Strip(content))))
      case None => ModelVerdict(JBool(true), JArr([]))
      case Some(JObj(fields)) => ModelVerdict(Get(fields, "valid", JBool(true)), Get(fields, "violations", JArr([])))
      case Some(_) => ModelRaised
  }

  datatype CheckType = RuleBasedCheckType | LlmBasedCheckType | PassedCheckType {
    function Name(): string {
      match this
      case RuleBasedCheckType => "rule_based"
      case LlmBasedCheckType => "llm_based"
      case PassedCheckType => "passed"
    }
  }

  /** The violations a validation reports: the rule tier's list, or whatever the model returned. */
  datatype Found = PatternMatches(list: seq<PatternViolation>) | ModelReported(value: Json)

  datatype Validation = Validation(
    valid: bool,
    originalResponse: string,
    sanitizedResponse: string,
    violations: Found,
    checkType: CheckType,
    timestamp: string)

  /**
   * `validate(response)`. `model` is None when no model is configured, otherwise
   * the outcome of the model-tier call; `now` is the timestamp.
   */
  function Validate(response: string, model: Option<Reply>, parse: Parser, now: string): (r: Validation)
    ensures r.originalResponse == response
    ensures r.valid <==> r.checkType == PassedCheckType
    ensures r.valid ==> r.sanitizedResponse == response && r.violations == PatternMatches([])
    ensures !r.valid ==> r.sanitizedResponse == Sanitized(response)
    ensures !RuleBased(response).valid ==>
              r.checkType == RuleBasedCheckType && r.violations == PatternMatches(RuleBased(response).violations)
    ensures RuleBased(response).valid && model.Some? ==>
              (r.checkType == LlmBasedCheckType <==>
                 LlmBasedCheck(model.value, parse).ModelVerdict? && !LlmBasedCheck(model.value, parse).valid.Truthy())
    ensures RuleBased(response).valid && (model.None? || LlmBasedCheck(model.value, parse).ModelRaised?) ==> r.valid
  {
    var rules := RuleBased(response);
    if !rules.valid then
      Validation(false, response, Sanitized(response), PatternMatches(rules.violations), RuleBasedCheckType, now)
    else
      var verdict := if model.Some? then LlmBasedCheck(model.value, parse) else ModelRaised;
      if verdict.ModelVerdict? && !verdict.valid.Truthy() then
        Validation(false, response, Sanitized(response), ModelReported(verdict.violations), LlmBasedCheckType, now)
      else
        Validation(true, response, response, PatternMatches([]), PassedCheckType, now)
  }

  /** When the rule tier fails, the model tier is never consulted: its outcome cannot change the result. */
  lemma RuleFailureSkipsModel(response: string, m1: Option<Reply>, m2: Option<Reply>, parse: Parser, now: string)
    requires !RuleBased(response).valid
    ensures Validate(response, m1, parse, now) == Validate(response, m2, parse, now)
  {
  }
}
