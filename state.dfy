/**
 * The agent state record the graph threads through its nodes, and the records
 * it holds: chat messages, the classification, retrieved documents and the
 * audit log entries the nodes append.
 */
module AgentState {
  import opened Wrappers
  import opened JsonValue

  datatype ChatMessage = ChatMessage(role: string, content: string, timestamp: string)

  /**
   * The classification as the classify node stores it: each field is whatever
   * value the model's JSON held under that key (or the node's default), uncoerced.
   */
  datatype ClassificationResult = ClassificationResult(
    domain: Json,
    subDomain: Json,
    confidence: Json,
    missingFields: Json)

  datatype RetrievedDocument = RetrievedDocument(
    id: string,
    content: string,
    title: string,
    section: string,
    sourceUrl: Option<string>,
    score: real)

  /** One entry of the audit log, by the node that appended it. */
  datatype LogEntry =
    | IntakeLog(timestamp: string, input: string)
    | ClassifyLog(timestamp: string, classification: ClassificationResult, confidence: Json)
    | ClarifyLog(timestamp: string, question: string, count: int)
    | RetrieveLog(timestamp: string, domain: Json, subDomain: Json, docCount: nat)
    | RespondLog(timestamp: string, responseLength: nat)
    | SafetyLog(timestamp: string, quickValid: bool, llmValid: Json)
    | SafetyErrorLog(timestamp: string, error: string)
    | MemoryLog(timestamp: string)
    | ErrorLog(timestamp: string, reported: Option<string>)
  {
    /** The "node" key of the entry. */
    function Node(): string {
      match this
      case IntakeLog(_, _) => "intake"
      case ClassifyLog(_, _, _) => "classify"
      case ClarifyLog(_, _, _) => "clarify"
      case RetrieveLog(_, _, _, _) => "retrieve"
      case RespondLog(_, _) => "respond"
      case SafetyLog(_, _, _) => "safety"
      case SafetyErrorLog(_, _) => "safety"
      case MemoryLog(_) => "memory"
      case ErrorLog(_, _) => "error"
    }
  }

  /** The node names of a list of log entries, in order. */
  function Trace(logs: seq<LogEntry>): (names: seq<string>)
    ensures |names| == |logs|
    ensures forall i :: 0 <= i < |logs| ==> names[i] == logs[i].Node()
  {
    seq(|logs|, i requires 0 <= i < |logs| => logs[i].Node())
  }

  lemma TraceAppend(a: seq<LogEntry>, b: seq<LogEntry>)
    ensures Trace(a + b) == Trace(a) + Trace(b)
  {
  }

  datatype LegalAgentState = LegalAgentState(
    userInput: string,
    sessionId: string,
    userId: string,
    chatHistory: seq<ChatMessage>,
    classification: Option<ClassificationResult>,
    confidence: Json,
    retrievedDocs: seq<RetrievedDocument>,
    needsClarification: bool,
    clarificationCount: int,
    clarificationQuestion: Option<string>,
    response: string,
    currentNode: string,
    error: Option<string>,
    logs: seq<LogEntry>)

  /** A message of the caller's history: each key may be absent. */
  datatype RawMessage = RawMessage(role: Option<string>, content: Option<string>, createdAt: Option<string>)

  /** One history message in the state's format; `now` stands for the current UTC time. */
  function FormatMessage(m: RawMessage, now: string): (c: ChatMessage)
    ensures c.role == m.role.GetOr("user")
    ensures c.content == m.content.GetOr("")
    ensures c.timestamp == m.createdAt.GetOr(now)
  {
    ChatMessage(m.role.GetOr("user"), m.content.GetOr(""), m.createdAt.GetOr(now))
  }

  /** `create_initial_state`; `history` None stands for the omitted argument. */
  function CreateInitialState(userInput: string, sessionId: string, userId: string,
                              history: Option<seq<RawMessage>>, now: string): (s: LegalAgentState)
    ensures s.userInput == userInput && s.sessionId == sessionId && s.userId == userId
    ensures history.None? ==> s.chatHistory == []
    ensures history.Some? ==> |s.chatHistory| == |history.value|
    ensures history.Some? ==>
              forall i :: 0 <= i < |history.value| ==> s.chatHistory[i] == FormatMessage(history.value[i], now)
    ensures s.classification.None? && s.confidence == JFloat(0.0) && s.retrievedDocs == []
    ensures !s.needsClarification && s.clarificationCount == 0 && s.clarificationQuestion.None?
    ensures s.response == "" && s.currentNode == "start" && s.error.None? && s.logs == []
  {
    var formatted := match history
      case None => []
      case Some(h) => seq(|h|, i requires 0 <= i < |h| => FormatMessage(h[i], now));
    LegalAgentState(userInput, sessionId, userId, formatted, None, JFloat(0.0), [], false, 0, None,
                    "", "start", None, [])
  }
}
