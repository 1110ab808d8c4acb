/**
 * The tool adapters the graph nodes call: each wraps one language-model or
 * vector-store call and replaces any failure by a fixed fallback result.
 */
module Tools {
  import opened Wrappers
  import opened Text
  import opened JsonValue
  import opened Llm
  import opened AgentState
  import Guardrails
  import Prompts

  /**
   * What a node asks the language model: the values its prompt template is
   * filled with (the filled text is a function of them, see Prompts).
   */
  datatype Request =
    | ClassifyPrompt(userInput: string, context: string)
    | ClarifyPrompt(missingFields: Json, classification: ClassificationResult, userInput: string)
    | RespondPrompt(domain: Json, subDomain: Json, userInput: string, legalDocs: string, chatHistory: string)
    | SafetyPrompt(response: string)

  /** A configured language model: every `ainvoke` call answers or raises. */
  type Model = Request -> Reply

  // ---------------------------------------------------------------------------
  // ClassifierTool

  /** The classifier's fallback dict, with the given single missing field. */
  function ClassifierFallback(reason: string): (j: Json)
    ensures j.JObj?
    ensures Get(j.fields, "domain", JNull) == JStr("Unknown")
    ensures Get(j.fields, "sub_domain", JNull) == JStr("Unknown")
    ensures Get(j.fields, "confidence", JNull) == JFloat(0.0)
    ensures Get(j.fields, "missing_fields", JNull) == JArr([JStr(reason)])
  {
    JObj(map["domain" := JStr("Unknown"), "sub_domain" := JStr("Unknown"),
             "confidence" := JFloat(0.0), "missing_fields" := JArr([JStr(reason)])])
  }

  /**
   * `ClassifierTool._parse_json_response`: strip, cut out the fenced block, parse;
   * a parse failure gives the fallback. Whatever JSON value parses is returned as is.
   */
  function ParseClassification(content: string, parse: Parser): (j: Json)
    ensures parse(FencedContent(Strip(content))).None? ==> j == ClassifierFallback("classification failed")
    ensures parse(FencedContent(Strip(content))).Some? ==> j == parse(FencedContent(Strip(content))).value
  {
    match parse(FencedContent(Strip(content)))
    case None => ClassifierFallback("classification failed")
    case Some(v) => v
  }

  /** `ClassifierTool.run`: a raised model call gives the "unable to classify" fallback. */
  function ClassifierToolRun(reply: Reply, parse: Parser): (j: Json)
    ensures reply.Raised? ==> j == ClassifierFallback("unable to classify")
    ensures reply.Text? ==> j == ParseClassification(reply.content, parse)
  {
    match reply
    case Raised(_) => ClassifierFallback("unable to classify")
    case Text(content) => ParseClassification(content, parse)
  }

  /**
   * `ClassifierTool.run` as written: building the prompt comes first, and a
   * KeyError there is caught like a failed model call.
   */
  function ClassifierToolRunAsWritten(userInput: string, context: string, model: Model, parse: Parser): (j: Json)
    ensures Prompts.Format(Prompts.CLASSIFICATION_PROMPT, Prompts.ClassifyArgs(userInput, context)).KeyError? ==>
              j == ClassifierFallback("unable to classify")
    ensures Prompts.Format(Prompts.CLASSIFICATION_PROMPT, Prompts.ClassifyArgs(userInput, context)).Filled? ==>
              j == ClassifierToolRun(model(ClassifyPrompt(userInput, context)), parse)
  {
    match Prompts.Format(Prompts.CLASSIFICATION_PROMPT, Prompts.ClassifyArgs(userInput, context))
    case KeyError(_) => ClassifierFallback("unable to classify")
    case Filled(_) => ClassifierToolRun(model(ClassifyPrompt(userInput, context)), parse)
  }

  /** As written, the classifier never reaches the model: every call gives the "unable to classify" fallback. */
  lemma ClassifierAsWrittenFallsBack(userInput: string, context: string, model: Model, parse: Parser)
    ensures ClassifierToolRunAsWritten(userInput, context, model, parse) == ClassifierFallback("unable to classify")
  {
    Prompts.ClassificationPromptRaises(userInput, context);
  }

  /** `ClassifierTool.run` with the prompt's JSON example escaped: the model's reply is always read. */
  function ClassifierToolRunCorrected(userInput: string, context: string, model: Model, parse: Parser): (j: Json)
    ensures j == ClassifierToolRun(model(ClassifyPrompt(userInput, context)), parse)
  {
    Prompts.ClassificationPromptEscapedFills(userInput, context);
    match Prompts.Format(Prompts.CLASSIFICATION_PROMPT_ESCAPED, Prompts.ClassifyArgs(userInput, context))
    case KeyError(_) => ClassifierFallback("unable to classify")
    case Filled(_) => ClassifierToolRun(model(ClassifyPrompt(userInput, context)), parse)
  }

  /**
   * A model that answers with one ```json block around a parseable body: the
   * corrected classifier returns that body's value, the as-written one the fallback.
   */
  lemma ClassifierReadsFencedBlock(userInput: string, context: string, model: Model, parse: Parser, body: string, v: Json)
    requires model(ClassifyPrompt(userInput, context)) == Text(JSON_FENCE + body + FENCE)
    requires '`' !in body
    requires parse(body) == Some(v)
    ensures ClassifierToolRunCorrected(userInput, context, model, parse) == v
    ensures ClassifierToolRunAsWritten(userInput, context, model, parse) == ClassifierFallback("unable to classify")
  {
    var content := JSON_FENCE + body + FENCE;
    assert content == "" + JSON_FENCE + body + FENCE + "";
    StripUnpadded(content);
    FencedJsonBlock("", body, "");
    ClassifierAsWrittenFallsBack(userInput, context, model, parse);
  }

  // ---------------------------------------------------------------------------
  // ClarificationTool

  const CLARIFY_FALLBACK: string := "Could you please provide more details about your situation?"

  /** Can `", ".join(value)` run: a list of strings, a string (its characters) or a dict (its keys). */
  predicate Joinable(value: Json) {
    match value
    case JArr(items) => forall i :: 0 <= i < |items| ==> items[i].JStr?
    case JStr(_) => true
    case JObj(_) => true
    case _ => false
  }

  /** `ClarificationTool.run`: the stripped reply, or the fixed question when building the prompt or the call raises. */
  function ClarificationToolRun(missingFields: Json, reply: Reply): (q: string)
    ensures !Joinable(missingFields) || reply.Raised? ==> q == CLARIFY_FALLBACK
    ensures Joinable(missingFields) && reply.Text? ==> q == Strip(reply.content)
  {
    if !Joinable(missingFields) then CLARIFY_FALLBACK
    else match reply
      case Raised(_) => CLARIFY_FALLBACK
      case Text(content) => Strip(content)
  }

  // ---------------------------------------------------------------------------
  // RetrieverTool

  /** A row returned by the vector store's similarity search; each key may be absent. */
  datatype StoreDoc = StoreDoc(
    id: Option<string>,
    content: Option<string>,
    actName: Option<string>,
    section: Option<string>,
    sourceUrl: Option<string>,
    score: Option<real>)

  /** The outcome of one similarity-search call. */
  datatype Search = Hits(docs: seq<StoreDoc>) | SearchRaised(message: string)

  /** A similarity search: the query is built from the domain and sub-domain; `k` results at most are asked for. */
  datatype SearchRequest = SearchRequest(domain: Json, subDomain: Json, k: nat)

  /** The vector store as the retriever sees it. */
  type Store = SearchRequest -> Search

  /** `RetrieverTool.run`: the hits, or [] when the search raises. */
  function RetrieverToolRun(search: Search): (docs: seq<StoreDoc>)
    ensures search.SearchRaised? ==> docs == []
    ensures search.Hits? ==> docs == search.docs
  {
    match search
    case Hits(docs) => docs
    case SearchRaised(_) => []
  }

  // ---------------------------------------------------------------------------
  // SafetyValidatorTool

  /** The validator's fail-open dict. */
  const SAFETY_PASS: Json := JObj(map["valid" := JBool(true), "violations" := JArr([]), "suggested_fix" := JNull])

  /** `SafetyValidatorTool._parse_json_response`: as the classifier's, with the fail-open dict as fallback. */
  function ParseValidation(content: string, parse: Parser): (j: Json)
    ensures parse(FencedContent(Strip(content))).None? ==> j == SAFETY_PASS
    ensures parse(FencedContent(Strip(content))).Some? ==> j == parse(FencedContent(Strip(content))).value
  {
    match parse(FencedContent(Strip(content)))
    case None => SAFETY_PASS
    case Some(v) => v
  }

  /** `SafetyValidatorTool.run`: a raised model call fails open. */
  function SafetyValidatorRun(reply: Reply, parse: Parser): (j: Json)
    ensures reply.Raised? ==> j == SAFETY_PASS
    ensures reply.Text? ==> j == ParseValidation(reply.content, parse)
  {
    match reply
    case Raised(_) => SAFETY_PASS
    case Text(content) => ParseValidation(content, parse)
  }

  /** `SafetyValidatorTool.run` as written: a KeyError building the prompt fails open. */
  function SafetyValidatorRunAsWritten(response: string, model: Model, parse: Parser): (j: Json)
    ensures Prompts.Format(Prompts.SAFETY_PROMPT, map["response" := response]).KeyError? ==> j == SAFETY_PASS
    ensures Prompts.Format(Prompts.SAFETY_PROMPT, map["response" := response]).Filled? ==>
              j == SafetyValidatorRun(model(SafetyPrompt(response)), parse)
  {
    match Prompts.Format(Prompts.SAFETY_PROMPT, map["response" := response])
    case KeyError(_) => SAFETY_PASS
    case Filled(_) => SafetyValidatorRun(model(SafetyPrompt(response)), parse)
  }

  /** As written, the validator never reaches the model: every response passes. */
  lemma ValidatorAsWrittenPasses(response: string, model: Model, parse: Parser)
    ensures SafetyValidatorRunAsWritten(response, model, parse) == SAFETY_PASS
  {
    Prompts.SafetyPromptRaises(response);
  }

  /** `SafetyValidatorTool.run` with the prompt's JSON example escaped: the model's verdict is always read. */
  function SafetyValidatorRunCorrected(response: string, model: Model, parse: Parser): (j: Json)
    ensures j == SafetyValidatorRun(model(SafetyPrompt(response)), parse)
  {
    Prompts.SafetyPromptEscapedFills(response);
    match Prompts.Format(Prompts.SAFETY_PROMPT_ESCAPED, map["response" := response])
    case KeyError(_) => SAFETY_PASS
    case Filled(_) => SafetyValidatorRun(model(SafetyPrompt(response)), parse)
  }

  /**
   * A model that rejects the response in one ```json block: the corrected validator
   * returns that verdict, the as-written one passes the response.
   */
  lemma ValidatorReadsFencedBlock(response: string, model: Model, parse: Parser, body: string, v: Json)
    requires model(SafetyPrompt(response)) == Text(JSON_FENCE + body + FENCE)
    requires '`' !in body
    requires parse(body) == Some(v)
    ensures SafetyValidatorRunCorrected(response, model, parse) == v
    ensures SafetyValidatorRunAsWritten(response, model, parse) == SAFETY_PASS
  {
    var content := JSON_FENCE + body + FENCE;
    assert content == "" + JSON_FENCE + body + FENCE + "";
    StripUnpadded(content);
    FencedJsonBlock("", body, "");
    ValidatorAsWrittenPasses(response, model, parse);
  }

  /** Whenever the validator cannot give a verdict (call raised, or unparseable reply), it reads as valid. */
  lemma ValidatorFailsOpen(reply: Reply, parse: Parser)
    requires reply.Raised? || parse(FencedContent(Strip(reply.content))).None?
    ensures SafetyValidatorRun(reply, parse).JObj?
    ensures Get(SafetyValidatorRun(reply, parse).fields, "valid", JBool(true)) == JBool(true)
    ensures Get(SafetyValidatorRun(reply, parse).fields, "violations", JNull) == JArr([])
  {
  }

  // ---------------------------------------------------------------------------
  // quick_safety_check

  datatype QuickResult = QuickResult(valid: bool, violations: seq<string>)

  /** `quick_safety_check`: the guardrail verdict with each violation reduced to its description. */
  function QuickSafetyCheck(response: string): (r: QuickResult)
    ensures r.valid == Guardrails.Check(response).valid
    ensures |r.violations| == |Guardrails.Check(response).violations|
    ensures forall i :: 0 <= i < |r.violations| ==>
              r.violations[i] == Guardrails.Check(response).violations[i].description
    ensures r.valid <==> r.violations == []
  {
    var c := Guardrails.Check(response);
    QuickResult(c.valid, seq(|c.violations|, i requires 0 <= i < |c.violations| => c.violations[i].description))
  }
}
