/**
 * The graph's node functions. Each node updates the one state dict it is given
 * in place (its fields, and the shared `logs` list it appends to); here the dict
 * is the class StateDict and the list the class LogList. Every node method is
 * proved against a function on LegalAgentState values that states what the node
 * does; the prompt-formatting helpers are loops proved against their own
 * specification functions.
 */
module Nodes {
  import opened Wrappers
  import opened Text
  import opened JsonValue
  import opened Llm
  import opened AgentState
  import opened Tools
  import opened Prompts

  /** `settings.confidence_threshold` and `settings.max_clarification_loops`. */
  datatype Settings = Settings(confidenceThreshold: real, maxClarificationLoops: int)

  const DEFAULT_SETTINGS: Settings := Settings(0.7, 15)

  // ===========================================================================
  // The state dict

  /** The `logs` list of a state dict; a shallow copy of the dict shares it. */
  class LogList {
    var entries: seq<LogEntry>

    constructor (entries: seq<LogEntry>)
      ensures this.entries == entries
    {
      this.entries := entries;
    }

    method Append(e: LogEntry)
      modifies this
      ensures entries == old(entries) + [e]
    {
      entries := entries + [e];
    }
  }

  /** A LegalAgentState dict, updated in place by the nodes. */
  class StateDict {
    var userInput: string
    var sessionId: string
    var userId: string
    var chatHistory: seq<ChatMessage>
    var classification: Option<ClassificationResult>
    var confidence: Json
    var retrievedDocs: seq<RetrievedDocument>
    var needsClarification: bool
    var clarificationCount: int
    var clarificationQuestion: Option<string>
    var response: string
    var currentNode: string
    var error: Option<string>
    var logs: LogList

    /** The dict's current contents as a value. */
    function Value(): (s: LegalAgentState)
      reads this, logs
      ensures s.logs == logs.entries && s.response == response && s.currentNode == currentNode
    {
      LegalAgentState(userInput, sessionId, userId, chatHistory, classification, confidence,
                      retrievedDocs, needsClarification, clarificationCount, clarificationQuestion,
                      response, currentNode, error, logs.entries)
    }

    constructor (s: LegalAgentState)
      ensures Value() == s && fresh(logs)
    {
      userInput, sessionId, userId, chatHistory := s.userInput, s.sessionId, s.userId, s.chatHistory;
      classification, confidence, retrievedDocs := s.classification, s.confidence, s.retrievedDocs;
      needsClarification, clarificationCount := s.needsClarification, s.clarificationCount;
      clarificationQuestion, response, currentNode, error := s.clarificationQuestion, s.response, s.currentNode, s.error;
      logs := new LogList(s.logs);
    }

    /** `state.copy()`: a new dict with the same values, sharing the same logs list. */
    method Copy() returns (c: StateDict)
      ensures fresh(c) && c.logs == logs && c.Value() == Value()
    {
      c := new StateDict(Value());
      c.logs := logs;
    }
  }

  // ===========================================================================
  // Prompt-formatting helpers

  /** One line of `_build_context`: the capitalised role and the content cut to 500 characters. */
  function ContextLine(m: ChatMessage): (line: string)
    ensures |line| <= |m.role| + 2 + 500
  {
    Capitalize(m.role) + ": " + Take(m.content, 500)
  }

  /** One context line per message, in order. */
  function ContextLinesOf(ms: seq<ChatMessage>): (lines: seq<string>)
    ensures |lines| == |ms|
  {
    if ms == [] then [] else ContextLinesOf(ms[..|ms| - 1]) + [ContextLine(ms[|ms| - 1])]
  }

  lemma {:induction false} ContextLinesOfAt(ms: seq<ChatMessage>, k: nat)
    requires k < |ms|
    ensures ContextLinesOf(ms)[k] == ContextLine(ms[k])
  {
    if k < |ms| - 1 {
      ContextLinesOfAt(ms[..|ms| - 1], k);
    }
  }

  lemma ContextLinesOfStep(ms: seq<ChatMessage>, i: nat)
    requires i < |ms|
    ensures ContextLinesOf(ms[..i + 1]) == ContextLinesOf(ms[..i]) + [ContextLine(ms[i])]
  {
    assert ms[..i + 1][..i] == ms[..i];
  }

  /** The lines of `_build_context`: one per message of the last five, in order. */
  function ContextLines(history: seq<ChatMessage>): (lines: seq<string>)
    ensures |lines| == if |history| <= 5 then |history| else 5
  {
    ContextLinesOf(Last(history, 5))
  }

  /** Line i renders the i-th of the (at most five) newest messages. */
  lemma ContextLinesAt(history: seq<ChatMessage>, i: nat)
    requires i < |ContextLines(history)|
    ensures ContextLines(history)[i] == ContextLine(history[|history| - |ContextLines(history)| + i])
  {
    ContextLinesOfAt(Last(history, 5), i);
  }

  /** `_build_context` */
  function Context(history: seq<ChatMessage>): string {
    if history == [] then "No previous context." else Join(ContextLines(history), "\n")
  }

  method BuildContext(history: seq<ChatMessage>) returns (context: string)
    ensures context == Context(history)
  {
    if history == [] {
      return "No previous context.";
    }
    var recent := Last(history, 5);
    var parts: seq<string> := [];
    var i := 0;
    while i < |recent|
      invariant 0 <= i <= |recent|
      invariant parts == ContextLinesOf(recent[..i])
    {
      ContextLinesOfStep(recent, i);
      parts := parts + [ContextLine(recent[i])];
      i := i + 1;
    }
    assert recent[..i] == recent;
    context := Join(parts, "\n");
  }

  /**
   * One block of `_format_retrieved_docs`, numbered from 1. The documents in the
   * state carry their act under "title", so the "act_name" lookup always falls
   * back to "Unknown Act", whatever the document's title.
   */
  function DocBlock(number: nat, d: RetrievedDocument): (block: string)
    ensures |block| <= |NatToString(number)| + |d.section| + 900
    ensures IsPrefix("\nDocument " + NatToString(number) + ":\n- Source: Unknown Act\n", block)
  {
    var head := "\nDocument " + NatToString(number) + ":\n- Source: Unknown Act\n";
    var tail := "- Section: " + d.section + "\n- Content: " + Take(d.content, 800) + "\n";
    ConcatStarts(head, tail);
    head + tail
  }

  /** One block per document, numbered by position from 1. */
  function NumberedBlocks(docs: seq<RetrievedDocument>): (blocks: seq<string>)
    ensures |blocks| == |docs|
  {
    if docs == [] then [] else NumberedBlocks(docs[..|docs| - 1]) + [DocBlock(|docs|, docs[|docs| - 1])]
  }

  lemma {:induction false} NumberedBlocksAt(docs: seq<RetrievedDocument>, k: nat)
    requires k < |docs|
    ensures NumberedBlocks(docs)[k] == DocBlock(k + 1, docs[k])
  {
    if k < |docs| - 1 {
      NumberedBlocksAt(docs[..|docs| - 1], k);
    }
  }

  /** The blocks of `_format_retrieved_docs`: the first three documents, in order. */
  function DocBlocks(docs: seq<RetrievedDocument>): (blocks: seq<string>)
    ensures |blocks| == if |docs| <= 3 then |docs| else 3
  {
    NumberedBlocks(Take(docs, 3))
  }

  /** Block i is document i, numbered i + 1. */
  lemma DocBlocksAt(docs: seq<RetrievedDocument>, i: nat)
    requires i < |DocBlocks(docs)|
    ensures DocBlocks(docs)[i] == DocBlock(i + 1, docs[i])
  {
    NumberedBlocksAt(Take(docs, 3), i);
  }

  /** `_format_retrieved_docs` */
  function FormattedDocs(docs: seq<RetrievedDocument>): string {
    if docs == [] then "No specific legal documents retrieved." else Join(DocBlocks(docs), "\n")
  }

  method FormatRetrievedDocs(docs: seq<RetrievedDocument>) returns (text: string)
    ensures text == FormattedDocs(docs)
  {
    if docs == [] {
      return "No specific legal documents retrieved.";
    }
    var top := Take(docs, 3);
    var formatted: seq<string> := [];
    var i := 0;
    while i < |top|
      invariant 0 <= i <= |top|
      invariant formatted == NumberedBlocks(top[..i])
    {
      assert top[..i + 1][..i] == top[..i];
      formatted := formatted + [DocBlock(i + 1, top[i])];
      i := i + 1;
    }
    assert top[..i] == top;
    text := Join(formatted, "\n");
  }

  /** One line of `_format_chat_history`: "User" exactly for role "user", else "Assistant"; content cut to 300. */
  function HistoryLine(m: ChatMessage): (line: string)
    ensures m.role == "user" ==> line == "User: " + Take(m.content, 300)
    ensures m.role != "user" ==> line == "Assistant: " + Take(m.content, 300)
  {
    (if m.role == "user" then "User" else "Assistant") + ": " + Take(m.content, 300)
  }

  /** One history line per message, in order. */
  function HistoryLinesOf(ms: seq<ChatMessage>): (lines: seq<string>)
    ensures |lines| == |ms|
  {
    if ms == [] then [] else HistoryLinesOf(ms[..|ms| - 1]) + [HistoryLine(ms[|ms| - 1])]
  }

  lemma {:induction false} HistoryLinesOfAt(ms: seq<ChatMessage>, k: nat)
    requires k < |ms|
    ensures HistoryLinesOf(ms)[k] == HistoryLine(ms[k])
  {
    if k < |ms| - 1 {
      HistoryLinesOfAt(ms[..|ms| - 1], k);
    }
  }

  /** The lines of `_format_chat_history`: one per message of the last five, in order. */
  function HistoryLines(history: seq<ChatMessage>): (lines: seq<string>)
    ensures |lines| == if |history| <= 5 then |history| else 5
  {
    HistoryLinesOf(Last(history, 5))
  }

  /** Line i renders the i-th of the (at most five) newest messages. */
  lemma HistoryLinesAt(history: seq<ChatMessage>, i: nat)
    requires i < |HistoryLines(history)|
    ensures HistoryLines(history)[i] == HistoryLine(history[|history| - |HistoryLines(history)| + i])
  {
    HistoryLinesOfAt(Last(history, 5), i);
  }

  /** `_format_chat_history` */
  function FormattedHistory(history: seq<ChatMessage>): string {
    if history == [] then "No previous conversation." else Join(HistoryLines(history), "\n")
  }

  method FormatChatHistory(history: seq<ChatMessage>) returns (text: string)
    ensures text == FormattedHistory(history)
  {
    if history == [] {
      return "No previous conversation.";
    }
    var recent := Last(history, 5);
    var formatted: seq<string> := [];
    var i := 0;
    while i < |recent|
      invariant 0 <= i <= |recent|
      invariant formatted == HistoryLinesOf(recent[..i])
    {
      assert recent[..i + 1][..i] == recent[..i];
      formatted := formatted + [HistoryLine(recent[i])];
      i := i + 1;
    }
    assert recent[..i] == recent;
    text := Join(formatted, "\n");
  }

  // ---------------------------------------------------------------------------
  // _sanitize_response

  /** The replacement table of `_sanitize_response`, in the dict's order. */
  const NODE_REPLACEMENTS: seq<(string, string)> := [
    ("you should definitely", "you may consider"),
    ("you must", "you may need to"),
    ("i advise you to", "one option is to"),
    ("i recommend that you", "you might consider"),
    ("you will win", "the outcome depends on various factors"),
    ("you will lose", "the outcome depends on various factors"),
    ("guaranteed", "possible"),
    ("100% certain", "subject to case-specific factors")
  ]

  /** No ASCII capital letter. */
  predicate NoUpper(s: string) {
    forall i :: 0 <= i < |s| ==> !('A' <= s[i] <= 'Z')
  }

  /** The text after the first n rounds of "lower-case the whole text, then replace one key". */
  function LoweredReplaced(text: string, n: nat): (r: string)
    requires n <= |NODE_REPLACEMENTS|
  {
    if n == 0 then text
    else ReplaceAll(Lower(LoweredReplaced(text, n - 1)), NODE_REPLACEMENTS[n - 1].0, NODE_REPLACEMENTS[n - 1].1, false)
  }

  /** `_sanitize_response`: the lowered, replaced text followed by a blank line and the disclaimer. */
  function SanitizedResponse(response: string): (r: string)
    ensures r == LoweredReplaced(response, |NODE_REPLACEMENTS|) + "\n\n" + DISCLAIMER
  {
    LoweredReplaced(response, |NODE_REPLACEMENTS|) + "\n\n" + DISCLAIMER
  }

  /** `_sanitize_response`; the violations argument is not used. */
  method SanitizeResponse(response: string, violations: seq<string>) returns (sanitized: string)
    ensures sanitized == SanitizedResponse(response)
  {
    sanitized := response;
    var k := 0;
    while k < |NODE_REPLACEMENTS|
      invariant 0 <= k <= |NODE_REPLACEMENTS|
      invariant sanitized == LoweredReplaced(response, k)
    {
      sanitized := ReplaceAll(Lower(sanitized), NODE_REPLACEMENTS[k].0, NODE_REPLACEMENTS[k].1, false);
      k := k + 1;
    }
    sanitized := sanitized + "\n\n" + DISCLAIMER;
  }

  lemma {:induction false} ReplaceAllNoUpper(s: string, pat: string, rep: string)
    requires NoUpper(s) && NoUpper(rep)
    ensures NoUpper(ReplaceAll(s, pat, rep, false))
    decreases |s|
  {
    if pat == [] {
      if s != [] { ReplaceAllNoUpper(s[1..], pat, rep); }
    } else if s != [] {
      if OccursAtFront(s, pat, false) {
        ReplaceAllNoUpper(s[|pat|..], pat, rep);
      } else {
        ReplaceAllNoUpper(s[1..], pat, rep);
      }
    }
  }

  /** After at least one round the text has no capital letter (the replacements are all lower case). */
  lemma {:induction false} LoweredReplacedNoUpper(text: string, n: nat)
    requires 1 <= n <= |NODE_REPLACEMENTS|
    ensures NoUpper(LoweredReplaced(text, n))
  {
    var e := NODE_REPLACEMENTS[n - 1];
    assert NoUpper(e.1);
    ReplaceAllNoUpper(Lower(LoweredReplaced(text, n - 1)), e.0, e.1);
  }

  /** A lower-case text in which no key occurs only gains the disclaimer. */
  lemma {:induction false} LoweredReplacedClean(text: string, n: nat)
    requires n <= |NODE_REPLACEMENTS|
    requires NoUpper(text) && NoKeyOccurs(text, NODE_REPLACEMENTS, false)
    ensures LoweredReplaced(text, n) == text
  {
    if n > 0 {
      LoweredReplacedClean(text, n - 1);
      assert Lower(text) == text;
      var e := NODE_REPLACEMENTS[n - 1];
      assert e in NODE_REPLACEMENTS;
      ReplaceAllAbsent(text, e.0, e.1, false);
    }
  }

  /** `_sanitize_response` yields lower-case text followed by the disclaimer, and leaves clean lower-case text intact. */
  lemma SanitizedResponseShape(response: string)
    ensures var body := SanitizedResponse(response)[..|SanitizedResponse(response)| - |DISCLAIMER| - 2];
            NoUpper(body) && SanitizedResponse(response) == body + "\n\n" + DISCLAIMER
    ensures NoUpper(response) && NoKeyOccurs(response, NODE_REPLACEMENTS, false) ==>
              SanitizedResponse(response) == response + "\n\n" + DISCLAIMER
  {
    LoweredReplacedNoUpper(response, |NODE_REPLACEMENTS|);
    var body := LoweredReplaced(response, |NODE_REPLACEMENTS|);
    assert SanitizedResponse(response)[..|SanitizedResponse(response)| - |DISCLAIMER| - 2] == body;
    if NoUpper(response) && NoKeyOccurs(response, NODE_REPLACEMENTS, false) {
      LoweredReplacedClean(response, |NODE_REPLACEMENTS|);
    }
  }

  // ===========================================================================
  // The nodes, as functions on state values

  /** A node that may raise: the new state, or the exception's message. */
  datatype Step = Completed(state: LegalAgentState) | Failed(message: string)

  const SHORT_INPUT_PROMPT: string := "Could you please provide more details about your legal question?"

  /** `intake_node`: log the first 100 characters; ask for more when the stripped input is under 5 characters. */
  function Intake(s: LegalAgentState, now: string): (r: LegalAgentState)
    ensures r.logs == s.logs + [IntakeLog(now, Take(s.userInput, 100))]
    ensures |Strip(s.userInput)| < 5 ==>
              r.needsClarification && r.response == SHORT_INPUT_PROMPT && r.currentNode == "intake"
    ensures |Strip(s.userInput)| >= 5 ==>
              r.needsClarification == s.needsClarification && r.response == s.response && r.currentNode == "classify"
    ensures r == s.(needsClarification := r.needsClarification, response := r.response,
                    currentNode := r.currentNode, logs := r.logs)
  {
    var logged := s.(logs := s.logs + [IntakeLog(now, Take(s.userInput, 100))]);
    if |Strip(s.userInput)| < 5 then
      logged.(response := SHORT_INPUT_PROMPT, needsClarification := true, currentNode := "intake")
    else
      logged.(currentNode := "classify")
  }

  /** The classification dict the node stores: each key of the tool's result, or its default. */
  function ClassificationOf(fields: map<string, Json>): (c: ClassificationResult)
    ensures c.domain == Get(fields, "domain", JStr("Unknown"))
    ensures c.subDomain == Get(fields, "sub_domain", JStr("Unknown"))
    ensures c.confidence == Get(fields, "confidence", JFloat(0.0))
    ensures c.missingFields == Get(fields, "missing_fields", JArr([]))
  {
    ClassificationResult(Get(fields, "domain", JStr("Unknown")), Get(fields, "sub_domain", JStr("Unknown")),
                         Get(fields, "confidence", JFloat(0.0)), Get(fields, "missing_fields", JArr([])))
  }

  /**
   * What the classifier tool returns for this state, with its prompt escaped
   * (`ClassifierToolRunCorrected` is this value; as written the tool always falls back).
   */
  function ClassifierResult(s: LegalAgentState, model: Model, parse: Parser): Json {
    ClassifierToolRun(model(ClassifyPrompt(s.userInput, Context(s.chatHistory))), parse)
  }

  /**
   * `classify_node`. It raises without a model, when the tool's result is not a dict
   * (`.get` fails) and when the stored confidence is not a number (the `<` fails).
   * The confidence is stored as the model gave it, not clamped.
   */
  function Classify(s: LegalAgentState, llm: Option<Model>, parse: Parser, cfg: Settings, now: string): (r: Step)
    ensures llm.None? ==> r == Failed("LLM is required for classification node")
    ensures llm.Some? && !ClassifierResult(s, llm.value, parse).JObj? ==> r.Failed?
    ensures r.Completed? ==>
              var result := ClassifierResult(s, llm.value, parse);
              var c := ClassificationOf(result.fields);
              && result.JObj?
              && c.confidence.AsNumber().Some?
              && r.state.classification == Some(c)
              && r.state.confidence == c.confidence
              && (r.state.needsClarification <==>
                    c.confidence.AsNumber().value < cfg.confidenceThreshold
                    && s.clarificationCount < cfg.maxClarificationLoops)
              && r.state.currentNode == (if r.state.needsClarification then "clarify" else "retrieve")
              && r.state.logs == s.logs + [ClassifyLog(now, c, c.confidence)]
              && r.state == s.(classification := r.state.classification, confidence := r.state.confidence,
                               needsClarification := r.state.needsClarification,
                               currentNode := r.state.currentNode, logs := r.state.logs)
  {
    match llm
    case None => Failed("LLM is required for classification node")
    case Some(model) => StoreClassification(s, ClassifierResult(s, model, parse), cfg, now)
  }

  /** The part of `classify_node` after the tool call: the result stored, or the exception it raises. */
  function StoreClassification(s: LegalAgentState, result: Json, cfg: Settings, now: string): Step {
    if !result.JObj? then Failed(NoGetMessage(result))
    else
      var c := ClassificationOf(result.fields);
      match c.confidence.AsNumber()
      case None => Failed(LessThanMessage(c.confidence))
      case Some(x) =>
        var needs := x < cfg.confidenceThreshold && s.clarificationCount < cfg.maxClarificationLoops;
        Completed(s.(classification := Some(c), confidence := c.confidence, needsClarification := needs,
                     logs := s.logs + [ClassifyLog(now, c, c.confidence)],
                     currentNode := if needs then "clarify" else "retrieve"))
  }

  /** The classification the clarification node falls back on. */
  const UNKNOWN_CLASSIFICATION: ClassificationResult :=
    ClassificationResult(JStr("Unknown"), JStr("Unknown"), JFloat(0.0), JArr([]))

  /** `clarification_node`: one question, asked once; it raises only without a model. */
  function Clarify(s: LegalAgentState, llm: Option<Model>, now: string): (r: Step)
    ensures llm.None? <==> r.Failed?
    ensures r.Completed? ==>
              && r.state.clarificationCount == s.clarificationCount + 1
              && r.state.clarificationQuestion == Some(r.state.response)
              && r.state.currentNode == "end"
              && r.state.logs == s.logs + [ClarifyLog(now, r.state.response, r.state.clarificationCount)]
              && r.state == s.(clarificationQuestion := r.state.clarificationQuestion,
                               clarificationCount := r.state.clarificationCount, response := r.state.response,
                               currentNode := "end", logs := r.state.logs)
  {
    match llm
    case None => Failed("LLM is required for clarification node")
    case Some(model) =>
      var c := s.classification.GetOr(UNKNOWN_CLASSIFICATION);
      var question := ClarificationToolRun(c.missingFields, model(ClarifyPrompt(c.missingFields, c, s.userInput)));
      Completed(Asked(s, question, now))
  }

  /** The state after asking `question`: stored, counted, logged, and the run ends. */
  function Asked(s: LegalAgentState, question: string, now: string): LegalAgentState {
    var count := s.clarificationCount + 1;
    s.(clarificationQuestion := Some(question), clarificationCount := count, response := question,
       logs := s.logs + [ClarifyLog(now, question, count)], currentNode := "end")
  }

  /** A store row in the state's document format. */
  function MapDocument(d: StoreDoc): (r: RetrievedDocument)
    ensures r.title == d.actName.GetOr("Unknown Act") && r.score == d.score.GetOr(0.0)
    ensures r.id == d.id.GetOr("") && r.content == d.content.GetOr("") && r.section == d.section.GetOr("")
    ensures r.sourceUrl == d.sourceUrl
  {
    RetrievedDocument(d.id.GetOr(""), d.content.GetOr(""), d.actName.GetOr("Unknown Act"),
                      d.section.GetOr(""), d.sourceUrl, d.score.GetOr(0.0))
  }

  /** The classification the retrieve and respond nodes fall back on. */
  const GENERAL_CLASSIFICATION: ClassificationResult :=
    ClassificationResult(JStr("General"), JStr("Law"), JFloat(0.0), JArr([]))

  /** The search the retrieve node makes: "{domain} {sub_domain} procedure India", five results, filtered by domain. */
  function RetrieveRequest(s: LegalAgentState): SearchRequest {
    var c := s.classification.GetOr(GENERAL_CLASSIFICATION);
    SearchRequest(c.domain, c.subDomain, 5)
  }

  /** Every store row mapped to the state's document format, in order. */
  function MapDocuments(docs: seq<StoreDoc>): (rs: seq<RetrievedDocument>)
    ensures |rs| == |docs|
  {
    if docs == [] then [] else MapDocuments(docs[..|docs| - 1]) + [MapDocument(docs[|docs| - 1])]
  }

  lemma {:induction false} MapDocumentsAt(docs: seq<StoreDoc>, i: nat)
    requires i < |docs|
    ensures MapDocuments(docs)[i] == MapDocument(docs[i])
  {
    if i < |docs| - 1 {
      MapDocumentsAt(docs[..|docs| - 1], i);
    }
  }

  lemma MapDocumentsStep(docs: seq<StoreDoc>, i: nat)
    requires i < |docs|
    ensures MapDocuments(docs[..i + 1]) == MapDocuments(docs[..i]) + [MapDocument(docs[i])]
  {
    assert docs[..i + 1][..i] == docs[..i];
  }

  /** `retrieve_node`: the rows the tool finds, mapped, and the count logged. */
  function Retrieve(s: LegalAgentState, store: Store, now: string): LegalAgentState {
    var req := RetrieveRequest(s);
    var docs := RetrieverToolRun(store(req));
    s.(retrievedDocs := MapDocuments(docs),
       logs := s.logs + [RetrieveLog(now, req.domain, req.subDomain, |docs|)],
       currentNode := "respond")
  }

  /** Retrieval replaces the documents with one mapped row per row found, in order, and changes nothing else. */
  lemma RetrieveMapsRows(s: LegalAgentState, store: Store, now: string, i: nat)
    requires i < |RetrieverToolRun(store(RetrieveRequest(s)))|
    ensures var docs := RetrieverToolRun(store(RetrieveRequest(s)));
            var r := Retrieve(s, store, now);
            && |r.retrievedDocs| == |docs|
            && r.retrievedDocs[i] == MapDocument(docs[i])
            && r == s.(retrievedDocs := r.retrievedDocs, logs := r.logs, currentNode := "respond")
  {
    MapDocumentsAt(RetrieverToolRun(store(RetrieveRequest(s))), i);
  }


  /** What the response node asks the model. */
  function RespondRequest(s: LegalAgentState): Request {
    var c := s.classification.GetOr(GENERAL_CLASSIFICATION);
    RespondPrompt(c.domain, c.subDomain, s.userInput, FormattedDocs(s.retrievedDocs), FormattedHistory(s.chatHistory))
  }

  /** `response_node`: the stripped answer plus the disclaimer; a raised call ends with the error response. */
  function Respond(s: LegalAgentState, llm: Option<Model>, now: string): LegalAgentState {
    match llm
    case None => s.(error := Some("LLM is required for response node"), currentNode := "end")
    case Some(model) => Answered(s, model(RespondRequest(s)), now)
  }

  /**
   * The state after the model's reply: an error response when the call raised,
   * otherwise the stripped answer with the disclaimer appended, logged.
   */
  function Answered(s: LegalAgentState, reply: Reply, now: string): LegalAgentState {
    match reply
    case Raised(message) => s.(response := ERROR_RESPONSE, error := Some(message), currentNode := "end")
    case Text(content) =>
      var full := Strip(content) + "\n\n" + DISCLAIMER;
      s.(response := full, logs := s.logs + [RespondLog(now, |full|)], currentNode := "validate")
  }

  /**
   * The response node moves on to validation exactly when the model answered; that
   * answer ends with the disclaimer and keeps the error. Every other outcome sets an
   * error, ends the run and logs nothing. Only these four keys change.
   */
  lemma RespondOutcome(s: LegalAgentState, llm: Option<Model>, now: string)
    ensures var r := Respond(s, llm, now);
      && r == s.(response := r.response, error := r.error, logs := r.logs, currentNode := r.currentNode)
      && (r.currentNode == "validate" <==> llm.Some? && llm.value(RespondRequest(s)).Text?)
      && (r.currentNode == "validate" ==> EndsWith(r.response, "\n\n" + DISCLAIMER) && r.error == s.error)
      && (r.currentNode != "validate" ==> r.error.Some? && r.currentNode == "end" && r.logs == s.logs)
  {
    match llm
    case None =>
      assert "end" != "validate" by { assert "end"[0] != "validate"[0]; }
    case Some(model) =>
      AnsweredOutcome(s, model(RespondRequest(s)), now);
  }

  lemma AnsweredOutcome(s: LegalAgentState, reply: Reply, now: string)
    ensures var r := Answered(s, reply, now);
      && r == s.(response := r.response, error := r.error, logs := r.logs, currentNode := r.currentNode)
      && (r.currentNode == "validate" <==> reply.Text?)
      && (r.currentNode == "validate" ==> EndsWith(r.response, "\n\n" + DISCLAIMER) && r.error == s.error)
      && (r.currentNode != "validate" ==> r.error.Some? && r.currentNode == "end" && r.logs == s.logs)
  {
    match reply
    case Raised(_) =>
      assert "end" != "validate" by { assert "end"[0] != "validate"[0]; }
    case Text(content) =>
      ConcatEndsPair(Strip(content), "\n\n", DISCLAIMER);
  }

  const SAFE_FALLBACK: string :=
    "I can only provide general procedural guidance. "
    + "For specific advice on your situation, please consult with a qualified legal professional.\n\n"
    + DISCLAIMER

  /** The response after the rule tier: sanitised when the guardrails flag it. */
  function AfterQuickCheck(response: string): (r: string)
    ensures QuickSafetyCheck(response).valid ==> r == response
    ensures !QuickSafetyCheck(response).valid ==> r == SanitizedResponse(response)
  {
    if QuickSafetyCheck(response).valid then response else SanitizedResponse(response)
  }

  /**
   * The model tier's result for the response the rule tier passes on, with the
   * validator's prompt escaped (`SafetyValidatorRunCorrected` is this value).
   */
  function ModelVerdict(response: string, model: Model, parse: Parser): Json {
    SafetyValidatorRun(model(SafetyPrompt(AfterQuickCheck(response))), parse)
  }

  /**
   * The response after the model tier: the fixed safe text when the result is a
   * dict whose "valid" (default True) is falsy, else unchanged. A result that is
   * not a dict makes the `.get` raise, which the node catches: unchanged too.
   */
  function CheckedResponse(checked: string, v: Json): (r: string)
    ensures v.JObj? && !Get(v.fields, "valid", JBool(true)).Truthy() ==> r == SAFE_FALLBACK
    ensures !(v.JObj? && !Get(v.fields, "valid", JBool(true)).Truthy()) ==> r == checked
  {
    if v.JObj? && !Get(v.fields, "valid", JBool(true)).Truthy() then SAFE_FALLBACK else checked
  }

  /** The safety node's log entry: both verdicts, or the error message when the `.get` raised. */
  function SafetyEntry(quickValid: bool, v: Json, now: string): (e: LogEntry)
    ensures e.Node() == "safety"
    ensures v.JObj? ==> e == SafetyLog(now, quickValid, Get(v.fields, "valid", JBool(true)))
    ensures !v.JObj? ==> e == SafetyErrorLog(now, NoGetMessage(v))
  {
    if v.JObj? then SafetyLog(now, quickValid, Get(v.fields, "valid", JBool(true)))
    else SafetyErrorLog(now, NoGetMessage(v))
  }

  /** `safety_node`: the rule tier, then (with a model) the model tier; it always ends the run. */
  function Safety(s: LegalAgentState, llm: Option<Model>, parse: Parser, now: string): (r: LegalAgentState)
    ensures r == s.(response := r.response, logs := r.logs, currentNode := "end")
    ensures llm.None? ==> r.response == AfterQuickCheck(s.response) && r.logs == s.logs
    ensures llm.Some? ==>
              var v := ModelVerdict(s.response, llm.value, parse);
              && r.response == CheckedResponse(AfterQuickCheck(s.response), v)
              && r.logs == s.logs + [SafetyEntry(QuickSafetyCheck(s.response).valid, v, now)]
  {
    match llm
    case None => s.(response := AfterQuickCheck(s.response), currentNode := "end")
    case Some(model) =>
      var v := ModelVerdict(s.response, model, parse);
      s.(response := CheckedResponse(AfterQuickCheck(s.response), v),
         logs := s.logs + [SafetyEntry(QuickSafetyCheck(s.response).valid, v, now)],
         currentNode := "end")
  }

  /** `memory_node`: only logs. */
  function Memory(s: LegalAgentState, now: string): (r: LegalAgentState)
    ensures r == s.(logs := s.logs + [MemoryLog(now)])
  {
    s.(logs := s.logs + [MemoryLog(now)])
  }

  /** `error_node`: the error response, the error logged, and the end node. */
  function ErrorStep(s: LegalAgentState, now: string): (r: LegalAgentState)
    ensures r.response == ERROR_RESPONSE && r.currentNode == "end"
    ensures r == s.(response := ERROR_RESPONSE, logs := s.logs + [ErrorLog(now, s.error)], currentNode := "end")
  {
    s.(response := ERROR_RESPONSE, logs := s.logs + [ErrorLog(now, s.error)], currentNode := "end")
  }

  // ===========================================================================
  // The nodes, updating a state dict in place

  method IntakeNode(st: StateDict, now: string)
    modifies st, st.logs
    ensures st.logs == old(st.logs)
    ensures st.Value() == Intake(old(st.Value()), now)
  {
    st.logs.Append(IntakeLog(now, Take(st.userInput, 100)));
    var userInput := Strip(st.userInput);
    if |userInput| < 5 {
      st.response := SHORT_INPUT_PROMPT;
      st.needsClarification := true;
      st.currentNode := "intake";
      return;
    }
    var context := BuildContext(st.chatHistory);
    st.currentNode := "classify";
  }

  /** Returns the message of the exception the node raises, if it raises. */
  method ClassifyNode(st: StateDict, llm: Option<Model>, parse: Parser, cfg: Settings, now: string)
      returns (raised: Option<string>)
    modifies st, st.logs
    ensures st.logs == old(st.logs)
    ensures raised.None? ==> Classify(old(st.Value()), llm, parse, cfg, now) == Completed(st.Value())
    ensures raised.Some? ==> Classify(old(st.Value()), llm, parse, cfg, now) == Failed(raised.value)
    ensures raised.Some? ==> st.logs.entries == old(st.logs.entries)
  {
    if llm.None? {
      return Some("LLM is required for classification node");
    }
    var context := BuildContext(st.chatHistory);
    var result := ClassifierToolRun(llm.value(ClassifyPrompt(st.userInput, context)), parse);
    raised := StoreResult(st, result, cfg, now);
  }

  /** `classify_node` from the tool's result on: the state updated field by field. */
  method StoreResult(st: StateDict, result: Json, cfg: Settings, now: string) returns (raised: Option<string>)
    modifies st, st.logs
    ensures st.logs == old(st.logs)
    ensures raised.None? ==> StoreClassification(old(st.Value()), result, cfg, now) == Completed(st.Value())
    ensures raised.Some? ==> StoreClassification(old(st.Value()), result, cfg, now) == Failed(raised.value)
    ensures raised.Some? ==> st.logs.entries == old(st.logs.entries)
  {
    ghost var s := st.Value();
    if !result.JObj? {
      return Some(NoGetMessage(result));
    }
    var c := ClassificationOf(result.fields);
    var x := c.confidence.AsNumber();
    st.classification, st.confidence := Some(c), c.confidence;
    if x.None? {
      return Some(LessThanMessage(c.confidence));
    }
    var needs := x.value < cfg.confidenceThreshold && st.clarificationCount < cfg.maxClarificationLoops;
    var entry := ClassifyLog(now, c, c.confidence);
    st.needsClarification, st.currentNode := needs, if needs then "clarify" else "retrieve";
    assert st.Value() == s.(classification := Some(c), confidence := c.confidence, needsClarification := needs,
                            currentNode := if needs then "clarify" else "retrieve");
    st.logs.Append(entry);
    return None;
  }

  method ClarificationNode(st: StateDict, llm: Option<Model>, now: string) returns (raised: Option<string>)
    modifies st, st.logs
    ensures st.logs == old(st.logs)
    ensures raised.None? ==> Clarify(old(st.Value()), llm, now) == Completed(st.Value())
    ensures raised.Some? ==> Clarify(old(st.Value()), llm, now) == Failed(raised.value)
    ensures raised.Some? ==> st.Value() == old(st.Value())
  {
    if llm.None? {
      return Some("LLM is required for clarification node");
    }
    var c := st.classification.GetOr(UNKNOWN_CLASSIFICATION);
    var question := ClarificationToolRun(c.missingFields, llm.value(ClarifyPrompt(c.missingFields, c, st.userInput)));
    StoreQuestion(st, question, now);
    return None;
  }

  /** The updates `clarification_node` makes once it has its question. */
  method StoreQuestion(st: StateDict, question: string, now: string)
    modifies st, st.logs
    ensures st.logs == old(st.logs)
    ensures st.Value() == Asked(old(st.Value()), question, now)
  {
    st.clarificationQuestion := Some(question);
    st.clarificationCount := st.clarificationCount + 1;
    st.response := question;
    st.logs.Append(ClarifyLog(now, question, st.clarificationCount));
    st.currentNode := "end";
  }

  method RetrieveNode(st: StateDict, store: Store, now: string)
    modifies st, st.logs
    ensures st.logs == old(st.logs)
    ensures st.Value() == Retrieve(old(st.Value()), store, now)
  {
    var req := RetrieveRequest(st.Value());
    var documents := RetrieverToolRun(store(req));
    var mapped := MapRows(documents);
    st.retrievedDocs := mapped;
    st.logs.Append(RetrieveLog(now, req.domain, req.subDomain, |documents|));
    st.currentNode := "respond";
  }

  /** The loop of `retrieve_node` mapping each row in turn. */
  method MapRows(documents: seq<StoreDoc>) returns (mapped: seq<RetrievedDocument>)
    ensures mapped == MapDocuments(documents)
  {
    mapped := [];
    var i := 0;
    while i < |documents|
      invariant 0 <= i <= |documents|
      invariant mapped == MapDocuments(documents[..i])
    {
      MapDocumentsStep(documents, i);
      mapped := mapped + [MapDocument(documents[i])];
      i := i + 1;
    }
    assert documents[..i] == documents;
  }

  method ResponseNode(st: StateDict, llm: Option<Model>, now: string)
    modifies st, st.logs
    ensures st.logs == old(st.logs)
    ensures st.Value() == Respond(old(st.Value()), llm, now)
  {
    if llm.None? {
      st.error := Some("LLM is required for response node");
      st.currentNode := "end";
      return;
    }
    var request := BuildRespondRequest(st);
    var reply := llm.value(request);
    StoreAnswer(st, reply, now);
  }

  /** `response_node` from the model's reply on. */
  method StoreAnswer(st: StateDict, reply: Reply, now: string)
    modifies st, st.logs
    ensures st.logs == old(st.logs)
    ensures st.Value() == Answered(old(st.Value()), reply, now)
  {
    match reply
    case Raised(message) =>
      st.response := ERROR_RESPONSE;
      st.error := Some(message);
      st.currentNode := "end";
    case Text(content) =>
      var full := Strip(content) + "\n\n" + DISCLAIMER;
      st.response := full;
      st.logs.Append(RespondLog(now, |full|));
      st.currentNode := "validate";
  }

  /** The prompt `response_node` sends: the classification (default general), documents and history. */
  method BuildRespondRequest(st: StateDict) returns (request: Request)
    ensures request == RespondRequest(st.Value())
  {
    var c := st.classification.GetOr(GENERAL_CLASSIFICATION);
    var legalDocs := FormatRetrievedDocs(st.retrievedDocs);
    var chatHistory := FormatChatHistory(st.chatHistory);
    request := RespondPrompt(c.domain, c.subDomain, st.userInput, legalDocs, chatHistory);
  }

  method SafetyNode(st: StateDict, llm: Option<Model>, parse: Parser, now: string)
    modifies st, st.logs
    ensures st.logs == old(st.logs)
    ensures st.Value() == Safety(old(st.Value()), llm, parse, now)
  {
    var quickValid := RuleTier(st);
    if llm.None? {
      st.currentNode := "end";
      return;
    }
    ModelTier(st, llm.value, parse, now, quickValid);
    st.currentNode := "end";
  }

  /** The rule tier of `safety_node`: a response the rules reject is sanitised. */
  method RuleTier(st: StateDict) returns (quickValid: bool)
    modifies st
    ensures st.logs == old(st.logs)
    ensures quickValid == QuickSafetyCheck(old(st.response)).valid
    ensures st.Value() == old(st.Value()).(response := AfterQuickCheck(old(st.response)))
  {
    var quick := QuickSafetyCheck(st.response);
    if !quick.valid {
      st.response := SanitizeResponse(st.response, quick.violations);
    }
    quickValid := quick.valid;
  }

  /** The model tier of `safety_node`: the validator's verdict may replace the response, and is logged. */
  method ModelTier(st: StateDict, model: Model, parse: Parser, now: string, quickValid: bool)
    modifies st, st.logs
    ensures st.logs == old(st.logs)
    ensures var v := SafetyValidatorRun(model(SafetyPrompt(old(st.response))), parse);
            st.Value() == old(st.Value()).(response := CheckedResponse(old(st.response), v),
                                           logs := old(st.logs.entries) + [SafetyEntry(quickValid, v, now)])
  {
    var validation := SafetyValidatorRun(model(SafetyPrompt(st.response)), parse);
    if validation.JObj? {
      var verdict := Get(validation.fields, "valid", JBool(true));
      if !verdict.Truthy() {
        st.response := SAFE_FALLBACK;
      }
      st.logs.Append(SafetyLog(now, quickValid, verdict));
    } else {
      st.logs.Append(SafetyErrorLog(now, NoGetMessage(validation)));
    }
  }

  method MemoryNode(st: StateDict, now: string)
    modifies st.logs
    ensures st.Value() == Memory(old(st.Value()), now)
  {
    st.logs.Append(MemoryLog(now));
  }

  method ErrorNode(st: StateDict, now: string)
    modifies st, st.logs
    ensures st.logs == old(st.logs)
    ensures st.Value() == ErrorStep(old(st.Value()), now)
  {
    st.response := ERROR_RESPONSE;
    st.logs.Append(ErrorLog(now, st.error));
    st.currentNode := "end";
  }

  // ===========================================================================
  // What each node does to the logs

  /** `after` is `before` with entries appended whose node names are `names`. */
  predicate Appended(before: seq<LogEntry>, after: seq<LogEntry>, names: seq<string>) {
    |after| == |before| + |names| && after[..|before|] == before && Trace(after[|before|..]) == names
  }

  lemma AppendedTrans(a: seq<LogEntry>, b: seq<LogEntry>, c: seq<LogEntry>, n1: seq<string>, n2: seq<string>)
    requires Appended(a, b, n1) && Appended(b, c, n2)
    ensures Appended(a, c, n1 + n2)
  {
    assert c[|a|..] == b[|a|..] + c[|b|..];
    TraceAppend(b[|a|..], c[|b|..]);
  }

  /** Four appends in a row append the four name lists in turn. */
  lemma AppendedFour(l0: seq<LogEntry>, l1: seq<LogEntry>, l2: seq<LogEntry>, l3: seq<LogEntry>, l4: seq<LogEntry>,
                     n1: seq<string>, n2: seq<string>, n3: seq<string>, n4: seq<string>)
    requires Appended(l0, l1, n1) && Appended(l1, l2, n2) && Appended(l2, l3, n3) && Appended(l3, l4, n4)
    ensures Appended(l0, l4, n1 + n2 + n3 + n4)
  {
    AppendedTrans(l0, l1, l2, n1, n2);
    AppendedTrans(l0, l2, l3, n1 + n2, n3);
    AppendedTrans(l0, l3, l4, n1 + n2 + n3, n4);
  }

  lemma AppendedOne(logs: seq<LogEntry>, e: LogEntry)
    ensures Appended(logs, logs + [e], [e.Node()])
  {
    assert (logs + [e])[|logs|..] == [e];
  }

  lemma AppendedSingle(before: seq<LogEntry>, after: seq<LogEntry>, name: string)
    requires |after| == |before| + 1 && after[..|before|] == before && after[|before|].Node() == name
    ensures Appended(before, after, [name])
  {
    assert after[|before|..] == [after[|before|]];
  }

  lemma IntakeLogs(s: LegalAgentState, now: string)
    ensures Appended(s.logs, Intake(s, now).logs, ["intake"])
  {
    AppendedOne(s.logs, IntakeLog(now, Take(s.userInput, 100)));
  }

  lemma ClassifyLogs(s: LegalAgentState, llm: Option<Model>, parse: Parser, cfg: Settings, now: string)
    requires Classify(s, llm, parse, cfg, now).Completed?
    ensures Appended(s.logs, Classify(s, llm, parse, cfg, now).state.logs, ["classify"])
  {
    var r := Classify(s, llm, parse, cfg, now).state;
    AppendedOne(s.logs, r.logs[|s.logs|]);
    assert r.logs == s.logs + [r.logs[|s.logs|]];
  }

  lemma ClarifyLogs(s: LegalAgentState, llm: Option<Model>, now: string)
    requires llm.Some?
    ensures Appended(s.logs, Clarify(s, llm, now).state.logs, ["clarify"])
  {
    var r := Clarify(s, llm, now).state;
    AppendedOne(s.logs, r.logs[|s.logs|]);
    assert r.logs == s.logs + [r.logs[|s.logs|]];
  }

  lemma RetrieveLogs(s: LegalAgentState, store: Store, now: string)
    ensures Appended(s.logs, Retrieve(s, store, now).logs, ["retrieve"])
  {
    var r := Retrieve(s, store, now);
    AppendedOne(s.logs, r.logs[|s.logs|]);
    assert r.logs == s.logs + [r.logs[|s.logs|]];
  }

  lemma RespondLogs(s: LegalAgentState, llm: Option<Model>, now: string)
    requires llm.Some?
    ensures Appended(s.logs, Respond(s, llm, now).logs,
                     if llm.value(RespondRequest(s)).Text? then ["respond"] else [])
  {
    AnsweredLogs(s, llm.value(RespondRequest(s)), now);
  }

  lemma AnsweredLogs(s: LegalAgentState, reply: Reply, now: string)
    ensures Appended(s.logs, Answered(s, reply, now).logs, if reply.Text? then ["respond"] else [])
  {
    if reply.Text? {
      AppendedOne(s.logs, RespondLog(now, |Strip(reply.content) + "\n\n" + DISCLAIMER|));
    } else {
      assert s.logs[|s.logs|..] == [];
    }
  }

  lemma SafetyLogs(s: LegalAgentState, llm: Option<Model>, parse: Parser, now: string)
    requires llm.Some?
    ensures Appended(s.logs, Safety(s, llm, parse, now).logs, ["safety"])
  {
    var r := Safety(s, llm, parse, now);
    AppendedOne(s.logs, SafetyEntry(QuickSafetyCheck(s.response).valid, ModelVerdict(s.response, llm.value, parse), now));
  }

  lemma MemoryLogs(s: LegalAgentState, now: string)
    ensures Appended(s.logs, Memory(s, now).logs, ["memory"])
  {
    AppendedOne(s.logs, MemoryLog(now));
  }

  lemma ErrorLogs(s: LegalAgentState, now: string)
    ensures Appended(s.logs, ErrorStep(s, now).logs, ["error"])
  {
    AppendedOne(s.logs, ErrorLog(now, s.error));
  }
}
