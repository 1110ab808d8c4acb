/**
 * The fixed texts the pipeline appends or substitutes, and the prompt templates
 * with the `str.format` call that fills them.
 */
module Prompts {

  // ---------------------------------------------------------------------------
  // str.format

  /**
   * One piece of a `str.format` template: literal text (a doubled brace already
   * read as one), or a replacement field `{name:spec}`. The field name runs up to
   * the first ':' inside the braces, the spec from there to the matching '}'.
   */
  datatype TemplatePart = Lit(text: string) | Field(name: string, spec: string)

  type Template = seq<TemplatePart>

  /** The outcome of `template.format(**args)`: the text, or the KeyError raised for a field. */
  datatype Formatted = Filled(text: string) | KeyError(key: string)

  /** A field whose name is not among the keyword arguments. */
  predicate Unbound(part: TemplatePart, args: map<string, string>) {
    part.Field? && part.name !in args
  }

  /**
   * `t.format(**args)`: the parts are rendered left to right, and the first field
   * whose name is not an argument raises KeyError with that name. A bound field is
   * replaced by its value; every bound field in the templates below has an empty spec.
   */
  function Format(t: Template, args: map<string, string>): (r: Formatted)
    ensures r.KeyError? <==> exists i :: 0 <= i < |t| && Unbound(t[i], args)
    ensures r.KeyError? ==> exists i :: 0 <= i < |t| && Unbound(t[i], args) && t[i].name == r.key &&
                                        forall j :: 0 <= j < i ==> !Unbound(t[j], args)
  {
    if t == [] then Filled("")
    else if Unbound(t[0], args) then KeyError(t[0].name)
    else
      var head := if t[0].Lit? then t[0].text else args[t[0].name];
      match Format(t[1..], args)
      case KeyError(k) => KeyError(k)
      case Filled(rest) => Filled(head + rest)
  }

  /** The template that alternates the texts ls with fields named ns, each with an empty spec. */
  function Interleaved(ls: seq<string>, ns: seq<string>): (t: Template)
    requires |ls| == |ns| + 1
    ensures |t| == 2 * |ns| + 1 && t[0] == Lit(ls[0])
    decreases |ns|
  {
    if ns == [] then [Lit(ls[0])]
    else [Lit(ls[0]), Field(ns[0], "")] + Interleaved(ls[1..], ns[1..])
  }

  /** The texts ls with the values of the names ns between them. */
  function Filling(ls: seq<string>, ns: seq<string>, args: map<string, string>): string
    requires |ls| == |ns| + 1 && forall i :: 0 <= i < |ns| ==> ns[i] in args
    decreases |ns|
  {
    if ns == [] then ls[0] else ls[0] + args[ns[0]] + Filling(ls[1..], ns[1..], args)
  }

  /** A template whose field names are all arguments formats to its texts with the values in place. */
  lemma {:induction false} FormatFields(ls: seq<string>, ns: seq<string>, args: map<string, string>)
    requires |ls| == |ns| + 1 && forall i :: 0 <= i < |ns| ==> ns[i] in args
    ensures Format(Interleaved(ls, ns), args) == Filled(Filling(ls, ns, args))
    decreases |ns|
  {
    var t := Interleaved(ls, ns);
    if ns == [] {
      assert t[1..] == [];
      assert ls[0] + "" == ls[0];
    } else {
      var rest := Interleaved(ls[1..], ns[1..]);
      FormatFields(ls[1..], ns[1..], args);
      assert t[1..][1..] == rest;
      assert ls[0] + (args[ns[0]] + Filling(ls[1..], ns[1..], args)) == Filling(ls, ns, args);
    }
  }

  // ---------------------------------------------------------------------------
  // Prompt templates

  const CLASSIFY_INTRO: string :=
    "You are a legal issue classifier for an Indian legal aid system.\n"
    + "\n"
    + "Your task is to analyze the user's description and classify it into:\n"
    + "1. Legal Domain (e.g., Consumer Law, Labour Law, Criminal Law, Family Law, Property Law, etc.)\n"
    + "2. Sub-domain (e.g., Defective Product, Wage Dispute, Theft, Divorce, etc.)\n"
    + "3. Confidence score (0.0 to 1.0)\n"
    + "4. Missing information needed for accurate classification\n"
    + "\n"
    + "Respond ONLY in this JSON format:\n"

  /** The JSON example's braces, read as a field: its name ends at the first ':'. */
  const CLASSIFY_EXAMPLE_NAME: string := "\n    \"domain\""
  const CLASSIFY_EXAMPLE_SPEC: string :=
    " \"string\",\n"
    + "    \"sub_domain\": \"string\", \n"
    + "    \"confidence\": float,\n"
    + "    \"missing_fields\": [\"field1\", \"field2\"]\n"

  const CLASSIFY_RULES: string :=
    "\n"
    + "\n"
    + "Important:\n"
    + "- If the issue is unclear, set confidence below 0.7\n"
    + "- List specific missing information (e.g., \"date of incident\", \"location\", \"amount involved\")\n"
    + "- Do not guess if information is insufficient\n"
    + "- Focus on Indian law context\n"
    + "\n"
    + "User's description:\n"

  /** `CLASSIFICATION_PROMPT` as written: the JSON example's braces are not doubled. */
  const CLASSIFICATION_PROMPT: Template := [
    Lit(CLASSIFY_INTRO), Field(CLASSIFY_EXAMPLE_NAME, CLASSIFY_EXAMPLE_SPEC), Lit(CLASSIFY_RULES),
    Field("user_input", ""), Lit("\n\nPrevious context:\n"), Field("context", ""), Lit("\n")
  ]

  /** `CLASSIFICATION_PROMPT` with the JSON example's braces doubled, so they stay literal. */
  const CLASSIFY_ESCAPED_TEXTS: seq<string> :=
    [CLASSIFY_INTRO + "{" + CLASSIFY_EXAMPLE_NAME + ":" + CLASSIFY_EXAMPLE_SPEC + "}" + CLASSIFY_RULES,
     "\n\nPrevious context:\n", "\n"]
  const CLASSIFICATION_PROMPT_ESCAPED: Template := Interleaved(CLASSIFY_ESCAPED_TEXTS, ["user_input", "context"])

  const CLARIFY_INTRO: string :=
    "You are a legal aid assistant gathering information for case triage.\n"
    + "\n"
    + "Based on the classification attempt and missing fields, ask a clear, specific question to gather the needed information.\n"
    + "\n"
    + "Rules:\n"
    + "1. Ask ONE question at a time\n"
    + "2. Be specific, not vague\n"
    + "3. Use simple language (user may not know legal terms)\n"
    + "4. Focus on facts, not legal opinions\n"
    + "5. Be polite and professional\n"
    + "\n"
    + "Missing fields: "

  const CLARIFY_TEXTS: seq<string> :=
    [CLARIFY_INTRO, "\nCurrent classification: ", "\nUser's original input: ",
     "\n\nGenerate a single clarifying question:\n"]
  const CLARIFY_NAMES: seq<string> := ["missing_fields", "classification", "user_input"]
  const CLARIFICATION_PROMPT: Template := Interleaved(CLARIFY_TEXTS, CLARIFY_NAMES)

  const RESPOND_INTRO: string :=
    "You are a legal aid assistant providing PROCEDURAL GUIDANCE for Indian citizens.\n"
    + "\n"
    + "Based on the classified issue and retrieved legal documents, provide clear procedural guidance.\n"
    + "\n"
    + "STRICT RULES:\n"
    + "1. ONLY provide procedural steps (what to do, where to go, what to file)\n"
    + "2. NEVER give legal advice or predictions about outcomes\n"
    + "3. ALWAYS cite the relevant act/section when available\n"
    + "4. Use simple language\n"
    + "5. Include relevant authorities (courts, tribunals, police stations)\n"
    + "6. Mention time limits if applicable\n"
    + "7. Suggest when to consult a lawyer\n"
    + "\n"
    + "Issue Classification:\n"
    + "Domain: "

  const RESPOND_TEXTS: seq<string> :=
    [RESPOND_INTRO, "\nSub-domain: ", "\n\nUser's Situation:\n", "\n\nRelevant Legal Information:\n",
     "\n\nConversation History:\n", "\n\nProvide procedural guidance:\n"]
  const RESPOND_NAMES: seq<string> := ["domain", "sub_domain", "user_input", "legal_docs", "chat_history"]
  const RESPONSE_PROMPT: Template := Interleaved(RESPOND_TEXTS, RESPOND_NAMES)

  const SAFETY_INTRO: string :=
    "You are a safety validator for a legal aid system.\n"
    + "\n"
    + "Analyze the following response and check for violations:\n"
    + "\n"
    + "VIOLATIONS TO CHECK:\n"
    + "1. Legal advice (predicting outcomes, recommending specific actions as \"should\")\n"
    + "2. Specific lawyer recommendations\n"
    + "3. Predictions about case success/failure\n"
    + "4. Coercive or manipulative language\n"
    + "5. Incorrect legal citations\n"
    + "6. Information outside Indian law\n"
    + "7. Medical, financial, or personal advice\n"
    + "8. Discriminatory content\n"
    + "\n"
    + "Response to validate:\n"

  const SAFETY_EXAMPLE_NAME: string := "\n    \"valid\""
  const SAFETY_EXAMPLE_SPEC: string :=
    " boolean,\n"
    + "    \"violations\": [\"list of violations found\"],\n"
    + "    \"suggested_fix\": \"how to fix if invalid\"\n"

  /** `SAFETY_PROMPT` as written: the JSON example's braces are not doubled. */
  const SAFETY_PROMPT: Template := [
    Lit(SAFETY_INTRO), Field("response", ""), Lit("\n\nRespond in JSON:\n"),
    Field(SAFETY_EXAMPLE_NAME, SAFETY_EXAMPLE_SPEC), Lit("\n")
  ]

  /** `SAFETY_PROMPT` with the JSON example's braces doubled. */
  const SAFETY_ESCAPED_TEXTS: seq<string> :=
    [SAFETY_INTRO, "\n\nRespond in JSON:\n" + "{" + SAFETY_EXAMPLE_NAME + ":" + SAFETY_EXAMPLE_SPEC + "}" + "\n"]
  const SAFETY_PROMPT_ESCAPED: Template := Interleaved(SAFETY_ESCAPED_TEXTS, ["response"])

  /** The arguments `ClassifierTool.run` passes to `format`. */
  function ClassifyArgs(userInput: string, context: string): map<string, string> {
    map["user_input" := userInput, "context" := context]
  }

  /** The as-written classification prompt raises KeyError on the JSON example, whatever the input. */
  lemma ClassificationPromptRaises(userInput: string, context: string)
    ensures Format(CLASSIFICATION_PROMPT, ClassifyArgs(userInput, context)) == KeyError(CLASSIFY_EXAMPLE_NAME)
  {
    assert Unbound(CLASSIFICATION_PROMPT[1], ClassifyArgs(userInput, context));
  }

  /** The escaped classification prompt fills in the user's description and the context. */
  lemma ClassificationPromptEscapedFills(userInput: string, context: string)
    ensures Format(CLASSIFICATION_PROMPT_ESCAPED, ClassifyArgs(userInput, context)) ==
            Filled(CLASSIFY_ESCAPED_TEXTS[0] + userInput + CLASSIFY_ESCAPED_TEXTS[1] + context + CLASSIFY_ESCAPED_TEXTS[2])
  {
    FormatTwoFields(CLASSIFY_ESCAPED_TEXTS, "user_input", "context", ClassifyArgs(userInput, context));
  }

  lemma FormatTwoFields(ls: seq<string>, n0: string, n1: string, args: map<string, string>)
    requires |ls| == 3 && n0 in args && n1 in args
    ensures Format(Interleaved(ls, [n0, n1]), args) == Filled(ls[0] + args[n0] + ls[1] + args[n1] + ls[2])
  {
    var ns := [n0, n1];
    FormatFields(ls, ns, args);
    assert Filling(ls[2..], ns[2..], args) == ls[2];
  }

  /** The as-written safety prompt raises KeyError on the JSON example, whatever the response. */
  lemma SafetyPromptRaises(response: string)
    ensures Format(SAFETY_PROMPT, map["response" := response]) == KeyError(SAFETY_EXAMPLE_NAME)
  {
    var t, a := SAFETY_PROMPT, map["response" := response];
    assert Unbound(t[3], a);
    assert Format(t[3..], a) == KeyError(SAFETY_EXAMPLE_NAME);
    assert Format(t[2..], a) == KeyError(SAFETY_EXAMPLE_NAME);
    assert Format(t[1..], a) == KeyError(SAFETY_EXAMPLE_NAME);
  }

  /** The escaped safety prompt fills in the response. */
  lemma SafetyPromptEscapedFills(response: string)
    ensures Format(SAFETY_PROMPT_ESCAPED, map["response" := response]) ==
            Filled(SAFETY_ESCAPED_TEXTS[0] + response + SAFETY_ESCAPED_TEXTS[1])
  {
    var ls, ns, a := SAFETY_ESCAPED_TEXTS, ["response"], map["response" := response];
    FormatFields(ls, ns, a);
    assert Filling(ls[1..], ns[1..], a) == ls[1];
  }

  /** The clarification prompt has no stray brace: its three arguments fill it. */
  lemma ClarificationPromptFills(missingFields: string, classification: string, userInput: string)
    ensures Format(CLARIFICATION_PROMPT, map["missing_fields" := missingFields, "classification" := classification,
                                             "user_input" := userInput]).Filled?
  {
    FormatFields(CLARIFY_TEXTS, CLARIFY_NAMES, map["missing_fields" := missingFields, "classification" := classification,
                                                   "user_input" := userInput]);
  }

  /** The response prompt has no stray brace: its five arguments fill it. */
  lemma ResponsePromptFills(domain: string, subDomain: string, userInput: string, legalDocs: string, chatHistory: string)
    ensures Format(RESPONSE_PROMPT, map["domain" := domain, "sub_domain" := subDomain, "user_input" := userInput,
                                        "legal_docs" := legalDocs, "chat_history" := chatHistory]).Filled?
  {
    FormatFields(RESPOND_TEXTS, RESPOND_NAMES, map["domain" := domain, "sub_domain" := subDomain, "user_input" := userInput,
                                                   "legal_docs" := legalDocs, "chat_history" := chatHistory]);
  }

  /** The disclaimer appended to every generated answer; it starts and ends with a newline. */
  const DISCLAIMER: string :=
    "\n\U{26A0}\U{FE0F} **Important Disclaimer**\n"
    + "This is procedural guidance only, NOT legal advice. The information provided:\n"
    + "- Is general in nature and may not apply to your specific situation\n"
    + "- Should not be used as a substitute for professional legal counsel\n"
    + "- May not reflect the most recent legal developments\n"
    + "\n"
    + "Please consult a qualified legal professional for advice specific to your case.\n"
    + "For free legal aid, contact your nearest Legal Services Authority or call 15100.\n"

  /** The answer given when a request could not be processed. */
  const ERROR_RESPONSE: string :=
    "I apologize, but I encountered an issue processing your request. \n"
    + "\n"
    + "Please try:\n"
    + "1. Rephrasing your question\n"
    + "2. Providing more specific details\n"
    + "3. Starting a new conversation\n"
    + "\n"
    + "If the issue persists, please contact support.\n"
}
