/**
 * The modular clarification agent: asks one question for a missing field,
 * preferring a fixed template question over a model-written one.
 */
module ClarificationAgent {
  import opened Wrappers
  import opened Text
  import opened JsonValue
  import opened Llm

  /** Template key and question, in the table's order. */
  type Templates = seq<(string, string)>

  const QUESTION_TEMPLATES: Templates := [
    ("date", "When did this incident occur? Please provide an approximate date or time period."),
    ("location", "In which city and state did this happen?"),
    ("amount", "What is the approximate monetary value or amount involved?"),
    ("party", "Who is the other party involved? (company name, person's relation to you, etc.)"),
    ("document", "Do you have any documents related to this issue? (receipts, contracts, agreements)"),
    ("action_taken", "Have you already taken any steps to resolve this? (complained to company, filed police report, etc.)"),
    ("employment", "Is this related to your employment? If yes, are you still working there?"),
    ("relationship", "What is your relationship with the other party? (employer, seller, landlord, family member)"),
    ("purchase", "How did you make this purchase? (online, retail store, from individual)"),
    ("duration", "How long has this issue been ongoing?")
  ]

  const FALLBACK_QUESTION: string := "Could you please provide more specific details about your situation?"

  datatype Source = FromTemplate | FromModel | FromFallback {
    function Name(): string {
      match this
      case FromTemplate => "template"
      case FromModel => "llm"
      case FromFallback => "fallback"
    }
  }

  datatype Question = Question(question: string, field: string, source: Source, timestamp: string)

  // ===========================================================================
  // The template path

  /** The template's key occurs in the lowercased field and its question has not been asked. */
  predicate Applies(field: string, t: (string, string), asked: seq<string>) {
    Contains(Lower(field), t.0) && t.1 !in asked
  }

  /** The first template, in table order, that applies to `field`. */
  function FirstApplying(field: string, templates: Templates, asked: seq<string>): (r: Option<nat>)
    ensures r.Some? ==> r.value < |templates| && Applies(field, templates[r.value], asked)
    ensures r.Some? ==> forall j :: 0 <= j < r.value ==> !Applies(field, templates[j], asked)
    ensures r.None? ==> forall j :: 0 <= j < |templates| ==> !Applies(field, templates[j], asked)
  {
    if templates == [] then None
    else if Applies(field, templates[0], asked) then Some(0)
    else match FirstApplying(field, templates[1..], asked)
      case None => None
      case Some(k) => Some(k + 1)
  }

  /**
   * The template choice: the first missing field, in list order, that some
   * template applies to, with the first such template.
   */
  function TemplateChoice(fields: seq<string>, templates: Templates, asked: seq<string>): (r: Option<(nat, nat)>)
    ensures r.Some? ==> r.value.0 < |fields| && FirstApplying(fields[r.value.0], templates, asked) == Some(r.value.1)
    ensures r.Some? ==> forall i :: 0 <= i < r.value.0 ==> FirstApplying(fields[i], templates, asked).None?
    ensures r.None? ==> forall i :: 0 <= i < |fields| ==> FirstApplying(fields[i], templates, asked).None?
  {
    if fields == [] then None
    else match FirstApplying(fields[0], templates, asked)
      case Some(j) => Some((0, j))
      case None =>
        match TemplateChoice(fields[1..], templates, asked)
        case None => None
        case Some(p) => Some((p.0 + 1, p.1))
  }

  // ===========================================================================
  // The model path

  /** The leading characters removed from a model question: digits, '.', '-' and the bullet '•'. */
  const BULLET_CHARS: set<char> := {'0', '1', '2', '3', '4', '5', '6', '7', '8', '9', '.', '-', '\U{2022}'}

  /** The second half of the cleaning: drop the leading run of bullet characters, then strip. */
  function DropBullet(stripped: string): (q: string)
    ensures q != [] ==> !IsSpace(q[0]) && !IsSpace(q[|q| - 1])
    ensures exists j :: OccursAt(stripped, q, j)
  {
    var rest := LStripChars(stripped, BULLET_CHARS);
    var q := Strip(rest);
    OccursWithin(stripped, rest, q, |stripped| - |rest|, LeadingSpaces(rest));
    q
  }

  /**
   * The cleaning of `_generate_llm_question`: strip; when the text starts with a
   * digit or bullet character, remove the whole run of such characters and strip again.
   */
  function CleanQuestion(content: string): (q: string)
    ensures q != [] ==> !IsSpace(q[0]) && !IsSpace(q[|q| - 1])
    ensures exists i :: OccursAt(content, q, i)
    ensures Strip(content) == [] || Strip(content)[0] !in BULLET_CHARS ==> q == Strip(content)
  {
    var stripped := Strip(content);
    if stripped != [] && stripped[0] in BULLET_CHARS then
      var q := DropBullet(stripped);
      var j :| OccursAt(stripped, q, j);
      OccursWithin(content, stripped, q, LeadingSpaces(content), j);
      q
    else
      stripped
  }

  /** A numbered question loses its number and the space after it. */
  lemma CleanQuestionDropsNumbering(body: string)
    requires body != [] && !IsSpace(body[0]) && !IsSpace(body[|body| - 1]) && body[0] !in BULLET_CHARS
    ensures CleanQuestion("1. " + body) == body
  {
    var content := "1. " + body;
    assert content[0] == '1' && content[1] == '.' && content[2] == ' ';
    assert content[|content| - 1] == body[|body| - 1];
    StripUnpadded(content);
    assert LeadingIn(content, BULLET_CHARS) == 2;
    assert LStripChars(content, BULLET_CHARS) == " " + body;
    StripAfterSpace(body);
  }


  // ===========================================================================
  // generate_question

  /**
   * `generate_question`; `reply` is what the model answers to the question
   * prompt, consulted only when no template applies; `now` stands for the time.
   */
  function QuestionFor(fields: seq<string>, asked: Option<seq<string>>, reply: Reply, now: string): (r: Question)
    ensures r.source == FromTemplate ==> r.question !in asked.GetOr([]) && r.field in fields
    ensures r.source == FromTemplate <==> TemplateChoice(fields, QUESTION_TEMPLATES, asked.GetOr([])).Some?
    ensures r.source == FromTemplate ==>
              var c := TemplateChoice(fields, QUESTION_TEMPLATES, asked.GetOr([])).value;
              c.1 < |QUESTION_TEMPLATES| && r.question == QUESTION_TEMPLATES[c.1].1 && r.field == fields[c.0]
    ensures r.source == FromModel ==> reply.Text? && r.question == CleanQuestion(reply.content)
    ensures r.source == FromModel ==> r.field == (if fields != [] then fields[0] else "general")
    ensures r.source == FromFallback <==> TemplateChoice(fields, QUESTION_TEMPLATES, asked.GetOr([])).None? && reply.Raised?
    ensures r.source == FromFallback ==> r.question == FALLBACK_QUESTION && r.field == "general"
    ensures r.timestamp == now
  {
    var a := asked.GetOr([]);
    match TemplateChoice(fields, QUESTION_TEMPLATES, a)
    case Some((i, j)) => Question(QUESTION_TEMPLATES[j].1, fields[i], FromTemplate, now)
    case None =>
      match reply
      case Text(content) => Question(CleanQuestion(content), if fields != [] then fields[0] else "general", FromModel, now)
      case Raised(_) => Question(FALLBACK_QUESTION, "general", FromFallback, now)
  }

  /** The nested search of `generate_question`: fields in order, templates in order, first hit returns. */
  method SearchTemplates(fields: seq<string>, templates: Templates, asked: seq<string>) returns (r: Option<(nat, nat)>)
    ensures r == TemplateChoice(fields, templates, asked)
  {
    for i := 0 to |fields|
      invariant forall k :: 0 <= k < i ==> FirstApplying(fields[k], templates, asked).None?
    {
      var fieldLower := Lower(fields[i]);
      for j := 0 to |templates|
        invariant forall l :: 0 <= l < j ==> !Applies(fields[i], templates[l], asked)
      {
        var (key, question) := templates[j];
        if IndexOf(fieldLower, key).Some? && question !in asked {
          TemplateChoiceAt(fields, templates, asked, i, j);
          return Some((i, j));
        }
      }
    }
    return None;
  }

  /** `generate_question`: the template search, then the model, then the fallback. */
  method GenerateQuestion(fields: seq<string>, asked: Option<seq<string>>, reply: Reply, now: string) returns (r: Question)
    ensures r == QuestionFor(fields, asked, reply, now)
  {
    var a := asked.GetOr([]);
    var choice := SearchTemplates(fields, QUESTION_TEMPLATES, a);
    if choice.Some? {
      var (i, j) := choice.value;
      return Question(QUESTION_TEMPLATES[j].1, fields[i], FromTemplate, now);
    }
    match reply
    case Text(content) =>
      r := Question(CleanQuestion(content), if fields != [] then fields[0] else "general", FromModel, now);
    case Raised(_) =>
      r := Question(FALLBACK_QUESTION, "general", FromFallback, now);
  }

  /** The template choice is fixed by its characterisation. */
  lemma TemplateChoiceAt(fields: seq<string>, templates: Templates, asked: seq<string>, i: nat, j: nat)
    requires i < |fields| && j < |templates| && Applies(fields[i], templates[j], asked)
    requires forall l :: 0 <= l < j ==> !Applies(fields[i], templates[l], asked)
    requires forall k :: 0 <= k < i ==> FirstApplying(fields[k], templates, asked).None?
    ensures TemplateChoice(fields, templates, asked) == Some((i, j))
  {
    assert FirstApplying(fields[i], templates, asked) == Some(j);
  }

  /** Asking again with the chosen template question recorded never repeats it. */
  lemma TemplateNotRepeated(fields: seq<string>, asked: seq<string>, reply: Reply, now: string)
    requires QuestionFor(fields, Some(asked), reply, now).source == FromTemplate
    ensures var q := QuestionFor(fields, Some(asked), reply, now).question;
            var again := QuestionFor(fields, Some(asked + [q]), reply, now);
            again.source == FromTemplate ==> again.question != q
  {
    var q := QuestionFor(fields, Some(asked), reply, now).question;
    assert q in asked + [q];
  }

  // ===========================================================================
  // Priority fields

  const DEFAULT_PRIORITY_FIELDS: seq<string> := ["date", "location", "amount", "party"]

  const PRIORITY_MAP: map<string, seq<string>> := map[
    "Consumer Law" := ["purchase_date", "seller_name", "amount", "product_description"],
    "Labour Law" := ["employment_period", "employer_name", "salary", "termination_date"],
    "Criminal Law" := ["incident_date", "location", "police_report", "injuries"],
    "Family Law" := ["relationship", "marriage_date", "children", "residence"],
    "Property Law" := ["property_location", "ownership_docs", "dispute_type", "other_party"]
  ]

  /**
   * `get_priority_fields`: the domain's list, or the default list for any other
   * domain; None when the domain value is a list or dict, which cannot be a key.
   */
  function PriorityFields(classification: map<string, Json>): (r: Option<seq<string>>)
    ensures r.None? <==> Get(classification, "domain", JStr("Unknown")).JArr? || Get(classification, "domain", JStr("Unknown")).JObj?
    ensures r.Some? ==> |r.value| == 4
    ensures r.Some? && Get(classification, "domain", JStr("Unknown")).JStr? && Get(classification, "domain", JStr("Unknown")).s in PRIORITY_MAP ==>
              r.value == PRIORITY_MAP[Get(classification, "domain", JStr("Unknown")).s]
    ensures r.Some? && !(Get(classification, "domain", JStr("Unknown")).JStr? && Get(classification, "domain", JStr("Unknown")).s in PRIORITY_MAP) ==>
              r.value == DEFAULT_PRIORITY_FIELDS
  {
    match Get(classification, "domain", JStr("Unknown"))
    case JArr(_) => None
    case JObj(_) => None
    case JStr(d) => Some(if d in PRIORITY_MAP then PRIORITY_MAP[d] else DEFAULT_PRIORITY_FIELDS)
    case _ => Some(DEFAULT_PRIORITY_FIELDS)
  }

  /** Every default priority field has a template question of its own. */
  lemma DefaultFieldsHaveTemplates()
    ensures forall i :: 0 <= i < |DEFAULT_PRIORITY_FIELDS| ==>
              FirstApplying(DEFAULT_PRIORITY_FIELDS[i], QUESTION_TEMPLATES, []).Some?
  {
    forall i | 0 <= i < |DEFAULT_PRIORITY_FIELDS|
      ensures FirstApplying(DEFAULT_PRIORITY_FIELDS[i], QUESTION_TEMPLATES, []).Some?
    {
      var f := DEFAULT_PRIORITY_FIELDS[i];
      assert Lower(f) == f;
      assert QUESTION_TEMPLATES[i].0 == f;
      assert OccursAt(Lower(f), QUESTION_TEMPLATES[i].0, 0);
      assert Applies(f, QUESTION_TEMPLATES[i], []);
    }
  }
}
