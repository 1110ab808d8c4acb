/**
 * The agent graph and its runner. The graph's declared shape and routing rule
 * are data and a function; `run` drives the nodes itself, stage by stage, on a
 * shallow copy of the caller's state dict, and on an exception falls back to the
 * error node on the caller's own dict.
 */
module Graph {
  import opened Wrappers
  import opened Text
  import opened JsonValue
  import opened Llm
  import opened AgentState
  import opened Tools
  import opened Prompts
  import opened Nodes

  // ===========================================================================
  // The declared graph

  const END: string := "__end__"

  /** A state graph: nodes, entry point, plain edges and one conditional edge set. */
  datatype AgentGraph = AgentGraph(
    nodes: seq<string>,
    entry: string,
    edges: seq<(string, string)>,
    branchFrom: string,
    branches: map<string, string>)

  /** `create_agent_graph` */
  function CreateAgentGraph(): (g: AgentGraph)
    ensures g.entry in g.nodes
    ensures forall e :: e in g.edges ==> e.0 in g.nodes && (e.1 in g.nodes || e.1 == END)
    ensures forall l :: l in g.branches ==> g.branches[l] in g.nodes
  {
    AgentGraph(
      ["intake", "classify", "clarify", "retrieve", "respond", "validate", "memory", "error"],
      "intake",
      [("intake", "classify"), ("clarify", END), ("retrieve", "respond"), ("respond", "validate"),
       ("validate", "memory"), ("memory", END), ("error", END)],
      "classify",
      map["clarify" := "clarify", "retrieve" := "retrieve", "error" := "error"])
  }

  /** `state.get("error")` is truthy: set, and not the empty string. */
  predicate HasError(s: LegalAgentState) {
    s.error.Some? && s.error.value != ""
  }

  /** `_route_after_classify` */
  function RouteAfterClassify(s: LegalAgentState, cfg: Settings): (route: string)
    ensures HasError(s) ==> route == "error"
    ensures route == "clarify" <==>
              !HasError(s) && s.needsClarification && s.clarificationCount < cfg.maxClarificationLoops
    ensures route == "retrieve" <==>
              !HasError(s) && !(s.needsClarification && s.clarificationCount < cfg.maxClarificationLoops)
  {
    if HasError(s) then "error"
    else if s.needsClarification then
      (if s.clarificationCount >= cfg.maxClarificationLoops then "retrieve" else "clarify")
    else "retrieve"
  }

  /** Every label the routing function returns is a branch of the declared graph. */
  lemma RouteIsDeclared(s: LegalAgentState, cfg: Settings)
    ensures RouteAfterClassify(s, cfg) in CreateAgentGraph().branches
  {
  }

  // ===========================================================================
  // The run, on state values

  /**
   * Everything a run consults outside the state: whether `get_llm` raises (and
   * with what message), the model it returns, the JSON parser, the vector store
   * and the current time.
   */
  datatype Oracles = Oracles(getLlmError: Option<string>, model: Model, parse: Parser, store: Store, now: string)

  /** The state after intake, on the copy. */
  function AfterIntake(s: LegalAgentState, o: Oracles): LegalAgentState {
    Intake(s, o.now)
  }

  /** The outcome of classification, on the copy. */
  function ClassifyStep(s: LegalAgentState, o: Oracles, cfg: Settings): Step {
    Classify(AfterIntake(s, o), Some(o.model), o.parse, cfg, o.now)
  }

  /** Does the run take the clarification exit? */
  predicate Clarifies(s: LegalAgentState, o: Oracles, cfg: Settings) {
    && o.getLlmError.None?
    && ClassifyStep(s, o, cfg).Completed?
    && ClassifyStep(s, o, cfg).state.needsClarification
    && ClassifyStep(s, o, cfg).state.clarificationCount < cfg.maxClarificationLoops
  }

  /** The stages after classification when there is no clarification. */
  function AnswerStages(b: LegalAgentState, o: Oracles): LegalAgentState {
    var model := Some(o.model);
    Memory(Safety(Respond(Retrieve(b, o.store, o.now), model, o.now), model, o.parse, o.now), o.now)
  }

  /** `LegalTriageAgent.run` on the caller's state value. */
  function RunSpec(s: LegalAgentState, o: Oracles, cfg: Settings): LegalAgentState {
    match o.getLlmError
    case Some(message) => ErrorStep(s.(error := Some(message)), o.now)
    case None =>
      var a := AfterIntake(s, o);
      if a.currentNode == "end" then a
      else match ClassifyStep(s, o, cfg)
        case Failed(message) => ErrorStep(s.(error := Some(message), logs := a.logs), o.now)
        case Completed(b) => Branch(b, o, cfg)
  }

  /** After a successful classification: the clarification exit below the limit, else the answer stages. */
  function Branch(b: LegalAgentState, o: Oracles, cfg: Settings): LegalAgentState {
    if b.needsClarification && b.clarificationCount < cfg.maxClarificationLoops then
      Clarify(b, Some(o.model), o.now).state
    else AnswerStages(b, o)
  }

  /** A run whose classification raises ends in the error node, on the caller's state with intake's log. */
  lemma RunSpecClassifyFails(s: LegalAgentState, o: Oracles, cfg: Settings)
    requires o.getLlmError.None? && ClassifyStep(s, o, cfg).Failed?
    ensures RunSpec(s, o, cfg) ==
            ErrorStep(s.(error := Some(ClassifyStep(s, o, cfg).message), logs := AfterIntake(s, o).logs), o.now)
  {
    IntakeNeverEnds(s, o);
  }

  /** A run that takes the clarification exit returns the clarification node's state. */
  lemma RunSpecClarifies(s: LegalAgentState, o: Oracles, cfg: Settings)
    requires Clarifies(s, o, cfg)
    ensures RunSpec(s, o, cfg) == Clarify(ClassifyStep(s, o, cfg).state, Some(o.model), o.now).state
  {
    IntakeNeverEnds(s, o);
  }

  /** Any other successful classification goes through the answer stages. */
  lemma RunSpecAnswers(s: LegalAgentState, o: Oracles, cfg: Settings)
    requires o.getLlmError.None? && ClassifyStep(s, o, cfg).Completed? && !Clarifies(s, o, cfg)
    ensures RunSpec(s, o, cfg) == AnswerStages(ClassifyStep(s, o, cfg).state, o)
  {
    IntakeNeverEnds(s, o);
  }

  /** The node names a run logs, by the path it takes. */
  function RunPath(s: LegalAgentState, o: Oracles, cfg: Settings): seq<string> {
    if o.getLlmError.Some? then ["error"]
    else if ClassifyStep(s, o, cfg).Failed? then ["intake", "error"]
    else if Clarifies(s, o, cfg) then ["intake", "classify", "clarify"]
    else ["intake", "classify"] + AnswerPath(ClassifyStep(s, o, cfg).state, o)
  }

  /** The node names the answer stages log: respond only when the model answered. */
  function AnswerPath(b: LegalAgentState, o: Oracles): seq<string> {
    var c := Retrieve(b, o.store, o.now);
    ["retrieve"] + (if o.model(RespondRequest(c)).Text? then ["respond"] else []) + ["safety"] + ["memory"]
  }

  // ===========================================================================
  // Properties of a run

  /** Intake never ends the run: short input still goes on to classification. */
  lemma IntakeNeverEnds(s: LegalAgentState, o: Oracles)
    ensures AfterIntake(s, o).currentNode != "end"
  {
  }

  /** The answer stages append retrieve, respond (when the model answered), safety and memory. */
  lemma AnswerStagesLog(b: LegalAgentState, o: Oracles)
    ensures Appended(b.logs, AnswerStages(b, o).logs, AnswerPath(b, o))
  {
    var model := Some(o.model);
    var c := Retrieve(b, o.store, o.now);
    var d := Respond(c, model, o.now);
    var e := Safety(d, model, o.parse, o.now);
    RetrieveLogs(b, o.store, o.now);
    RespondLogs(c, model, o.now);
    SafetyLogs(d, model, o.parse, o.now);
    MemoryLogs(e, o.now);
    AppendedFour(b.logs, c.logs, d.logs, e.logs, Memory(e, o.now).logs,
                 ["retrieve"], if o.model(RespondRequest(c)).Text? then ["respond"] else [], ["safety"], ["memory"]);
  }

  /** The logs list is only appended to, and what a run appends names the nodes of its path, in order. */
  lemma RunTrace(s: LegalAgentState, o: Oracles, cfg: Settings)
    ensures Appended(s.logs, RunSpec(s, o, cfg).logs, RunPath(s, o, cfg))
  {
    if o.getLlmError.Some? {
      ErrorLogs(s.(error := o.getLlmError), o.now);
    } else if ClassifyStep(s, o, cfg).Failed? {
      RunTraceClassifyFails(s, o, cfg);
    } else {
      ClassifiedLogs(s, o, cfg);
      if Clarifies(s, o, cfg) {
        RunTraceClarifies(s, o, cfg);
      } else {
        RunTraceAnswers(s, o, cfg);
      }
    }
  }

  lemma RunTraceClassifyFails(s: LegalAgentState, o: Oracles, cfg: Settings)
    requires o.getLlmError.None? && ClassifyStep(s, o, cfg).Failed?
    ensures Appended(s.logs, RunSpec(s, o, cfg).logs, ["intake", "error"])
  {
    var a := AfterIntake(s, o);
    IntakeLogs(s, o.now);
    var message := ClassifyStep(s, o, cfg).message;
    var r := ErrorStep(s.(error := Some(message), logs := a.logs), o.now);
    RunSpecClassifyFails(s, o, cfg);
    ErrorLogs(s.(error := Some(message), logs := a.logs), o.now);
    AppendedTrans(s.logs, a.logs, r.logs, ["intake"], ["error"]);
  }

  /** Intake and a successful classification append their two entries. */
  lemma ClassifiedLogs(s: LegalAgentState, o: Oracles, cfg: Settings)
    requires ClassifyStep(s, o, cfg).Completed?
    ensures Appended(s.logs, ClassifyStep(s, o, cfg).state.logs, ["intake", "classify"])
  {
    var a := AfterIntake(s, o);
    IntakeLogs(s, o.now);
    ClassifyLogs(a, Some(o.model), o.parse, cfg, o.now);
    AppendedTrans(s.logs, a.logs, ClassifyStep(s, o, cfg).state.logs, ["intake"], ["classify"]);
  }

  lemma RunTraceClarifies(s: LegalAgentState, o: Oracles, cfg: Settings)
    requires Clarifies(s, o, cfg)
    requires Appended(s.logs, ClassifyStep(s, o, cfg).state.logs, ["intake", "classify"])
    ensures Appended(s.logs, RunSpec(s, o, cfg).logs, ["intake", "classify", "clarify"])
  {
    var b := ClassifyStep(s, o, cfg).state;
    var r := Clarify(b, Some(o.model), o.now).state;
    RunSpecClarifies(s, o, cfg);
    ClarifyLogs(b, Some(o.model), o.now);
    ClarifyTrace(s.logs, b.logs, r.logs);
  }

  lemma ClarifyTrace(a: seq<LogEntry>, b: seq<LogEntry>, c: seq<LogEntry>)
    requires Appended(a, b, ["intake", "classify"]) && Appended(b, c, ["clarify"])
    ensures Appended(a, c, ["intake", "classify", "clarify"])
  {
    AppendedTrans(a, b, c, ["intake", "classify"], ["clarify"]);
    assert ["intake", "classify"] + ["clarify"] == ["intake", "classify", "clarify"];
  }

  lemma RunTraceAnswers(s: LegalAgentState, o: Oracles, cfg: Settings)
    requires o.getLlmError.None? && ClassifyStep(s, o, cfg).Completed? && !Clarifies(s, o, cfg)
    requires Appended(s.logs, ClassifyStep(s, o, cfg).state.logs, ["intake", "classify"])
    ensures Appended(s.logs, RunSpec(s, o, cfg).logs, ["intake", "classify"] + AnswerPath(ClassifyStep(s, o, cfg).state, o))
  {
    var b := ClassifyStep(s, o, cfg).state;
    RunSpecAnswers(s, o, cfg);
    AnswerStagesLog(b, o);
    AppendedTrans(s.logs, b.logs, AnswerStages(b, o).logs, ["intake", "classify"], AnswerPath(b, o));
  }

  /** Classification keeps the clarification count and the documents of the caller's state. */
  lemma ClassifyKeeps(s: LegalAgentState, o: Oracles, cfg: Settings)
    requires ClassifyStep(s, o, cfg).Completed?
    ensures var b := ClassifyStep(s, o, cfg).state;
            && b.clarificationCount == s.clarificationCount
            && b.retrievedDocs == s.retrievedDocs
            && b.error == s.error
  {
    var a := AfterIntake(s, o);
    assert a.clarificationCount == s.clarificationCount && a.retrievedDocs == s.retrievedDocs && a.error == s.error;
  }

  /** The answer stages end the run and keep the clarification count. */
  lemma AnswerStagesEnd(b: LegalAgentState, o: Oracles)
    ensures AnswerStages(b, o).currentNode == "end"
    ensures AnswerStages(b, o).clarificationCount == b.clarificationCount
  {
    var model := Some(o.model);
    var c := Retrieve(b, o.store, o.now);
    var d := Respond(c, model, o.now);
    assert d.clarificationCount == b.clarificationCount;
    var e := Safety(d, model, o.parse, o.now);
    assert AnswerStages(b, o) == Memory(e, o.now);
  }

  /** Every run finishes at the end node. */
  lemma RunEndsAtEnd(s: LegalAgentState, o: Oracles, cfg: Settings)
    ensures RunSpec(s, o, cfg).currentNode == "end"
  {
    if o.getLlmError.None? {
      IntakeNeverEnds(s, o);
      var cs := ClassifyStep(s, o, cfg);
      if cs.Completed? && !Clarifies(s, o, cfg) {
        RunSpecAnswers(s, o, cfg);
        AnswerStagesEnd(cs.state, o);
      }
    }
  }

  /** A failure before the answer stages (no model, or classification raising) ends in the error response. */
  lemma RunFailureIsTerminal(s: LegalAgentState, o: Oracles, cfg: Settings)
    requires o.getLlmError.Some? || ClassifyStep(s, o, cfg).Failed?
    ensures var r := RunSpec(s, o, cfg);
            r.error.Some? && r.response == ERROR_RESPONSE && r.currentNode == "end"
    ensures o.getLlmError.Some? ==> RunSpec(s, o, cfg).error == o.getLlmError
    ensures o.getLlmError.None? ==> RunSpec(s, o, cfg).error == Some(ClassifyStep(s, o, cfg).message)
  {
    if o.getLlmError.None? {
      RunSpecClassifyFails(s, o, cfg);
    }
  }

  /**
   * A failed answer generation is kept as the error, and the run still ends; the
   * safety node may still sanitise or replace the error response.
   */
  lemma RunResponseFailure(s: LegalAgentState, o: Oracles, cfg: Settings)
    requires o.getLlmError.None? && ClassifyStep(s, o, cfg).Completed? && !Clarifies(s, o, cfg)
    requires o.model(RespondRequest(Retrieve(ClassifyStep(s, o, cfg).state, o.store, o.now))).Raised?
    ensures var r := RunSpec(s, o, cfg);
            && r.error == Some(o.model(RespondRequest(Retrieve(ClassifyStep(s, o, cfg).state, o.store, o.now))).message)
            && r.currentNode == "end"
            && r.response in {ERROR_RESPONSE, SanitizedResponse(ERROR_RESPONSE), SAFE_FALLBACK}
  {
    RunSpecAnswers(s, o, cfg);
  }

  /** A run asks at most one clarification, and only below the limit. */
  lemma RunClarificationBounded(s: LegalAgentState, o: Oracles, cfg: Settings)
    ensures var r := RunSpec(s, o, cfg);
            && (Clarifies(s, o, cfg) ==> r.clarificationCount == s.clarificationCount + 1)
            && (!Clarifies(s, o, cfg) ==> r.clarificationCount == s.clarificationCount)
            && (Clarifies(s, o, cfg) ==> s.clarificationCount < cfg.maxClarificationLoops)
    ensures s.clarificationCount <= cfg.maxClarificationLoops ==>
              RunSpec(s, o, cfg).clarificationCount <= cfg.maxClarificationLoops
  {
    var r := RunSpec(s, o, cfg);
    if o.getLlmError.None? {
      IntakeNeverEnds(s, o);
      var cs := ClassifyStep(s, o, cfg);
      if cs.Completed? {
        ClassifyKeeps(s, o, cfg);
        if Clarifies(s, o, cfg) {
          RunSpecClarifies(s, o, cfg);
        } else {
          RunSpecAnswers(s, o, cfg);
          AnswerStagesEnd(cs.state, o);
        }
      }
    }
  }

  /**
   * The clarification exit returns the question and skips retrieval, response and
   * validation; any other successful classification goes through all of them.
   */
  lemma RunClarifyExit(s: LegalAgentState, o: Oracles, cfg: Settings)
    requires Clarifies(s, o, cfg)
    ensures var r := RunSpec(s, o, cfg);
            && r.clarificationQuestion == Some(r.response)
            && r.retrievedDocs == s.retrievedDocs
            && r.error == s.error
  {
    RunSpecClarifies(s, o, cfg);
    ClassifyKeeps(s, o, cfg);
  }

  /** For a caller state without an error, the run's branch agrees with the declared routing function. */
  lemma RunAgreesWithRouting(s: LegalAgentState, o: Oracles, cfg: Settings)
    requires o.getLlmError.None? && ClassifyStep(s, o, cfg).Completed?
    requires !HasError(s)
    ensures Clarifies(s, o, cfg) <==> RouteAfterClassify(ClassifyStep(s, o, cfg).state, cfg) == "clarify"
    ensures !Clarifies(s, o, cfg) <==> RouteAfterClassify(ClassifyStep(s, o, cfg).state, cfg) == "retrieve"
  {
  }

  // ===========================================================================
  // The agent object

  /** The compiled form of a graph, as `graph.compile()` returns it. */
  class CompiledGraph {
    const graph: AgentGraph

    constructor (graph: AgentGraph)
      ensures this.graph == graph
    {
      this.graph := graph;
    }
  }

  class LegalTriageAgent {
    var llmProvider: string
    var graph: AgentGraph
    var compiled: Option<CompiledGraph>
    /** How many times the graph has been compiled. */
    ghost var compilations: nat

    ghost predicate Valid()
      reads this
    {
      && (compiled.None? ==> compilations == 0)
      && (compiled.Some? ==> compilations == 1 && compiled.value.graph == graph)
    }

    /** `llm_provider or settings.llm_provider`: an absent or empty name takes the configured one. */
    constructor (llmProvider: Option<string>, configured: string)
      ensures Valid()
      ensures this.llmProvider == (if llmProvider.Some? && llmProvider.value != "" then llmProvider.value else configured)
      ensures graph == CreateAgentGraph() && compiled.None?
    {
      this.llmProvider := if llmProvider.Some? && llmProvider.value != "" then llmProvider.value else configured;
      graph := CreateAgentGraph();
      compiled := None;
      compilations := 0;
    }

    /** `compiled_graph`: compiles on first use, then returns the same object. */
    method CompiledGraphOf() returns (g: CompiledGraph)
      requires Valid()
      modifies this
      ensures Valid() && compilations == 1 && compiled == Some(g) && g.graph == graph
      ensures old(compiled).Some? ==> g == old(compiled).value && compilations == old(compilations)
      ensures old(compiled).None? ==> fresh(g)
      ensures llmProvider == old(llmProvider) && graph == old(graph)
    {
      if compiled.None? {
        var c := new CompiledGraph(graph);
        compiled := Some(c);
        compilations := compilations + 1;
      }
      g := compiled.value;
    }

    /** Retrieve, respond, validate and memory, in that order. */
    static method AnswerNodes(current: StateDict, o: Oracles)
      modifies current, current.logs
      ensures current.logs == old(current.logs)
      ensures current.Value() == AnswerStages(old(current.Value()), o)
    {
      var llm := Some(o.model);
      RetrieveNode(current, o.store, o.now);
      ResponseNode(current, llm, o.now);
      SafetyNode(current, llm, o.parse, o.now);
      MemoryNode(current, o.now);
    }

    /** The conditional edge after classification, and the nodes it leads to. */
    static method BranchNodes(current: StateDict, o: Oracles, cfg: Settings)
      modifies current, current.logs
      ensures current.logs == old(current.logs)
      ensures current.Value() == Branch(old(current.Value()), o, cfg)
    {
      if current.needsClarification && current.clarificationCount < cfg.maxClarificationLoops {
        // with a model the clarification node does not raise
        var raised := ClarificationNode(current, Some(o.model), o.now);
      } else {
        AnswerNodes(current, o);
      }
    }

    /**
     * The nodes of a run from intake on, working on a shallow copy of st, which
     * shares st's logs list; raised is the message when classification raises.
     */
    static method RunOnCopy(st: StateDict, o: Oracles, cfg: Settings) returns (current: StateDict, raised: Option<string>)
      requires o.getLlmError.None?
      modifies st.logs
      ensures fresh(current) && current.logs == st.logs
      ensures raised.None? ==> current.Value() == RunSpec(old(st.Value()), o, cfg)
      ensures raised.Some? ==> ClassifyStep(old(st.Value()), o, cfg) == Failed(raised.value)
      ensures raised.Some? ==> st.logs.entries == AfterIntake(old(st.Value()), o).logs
    {
      current := st.Copy();
      IntakeNode(current, o.now);
      if current.currentNode == "end" {
        return current, None;
      }
      raised := ClassifyNode(current, Some(o.model), o.parse, cfg, o.now);
      if raised.None? {
        BranchNodes(current, o, cfg);
      }
    }

    /**
     * `run`. The nodes work on a shallow copy; when the copy is returned, the
     * caller's dict keeps its own values and only the shared logs list has grown.
     * On an exception the caller's own dict gets the error and the error node.
     */
    method Run(st: StateDict, o: Oracles, cfg: Settings) returns (r: StateDict)
      modifies st, st.logs
      ensures r == st || fresh(r)
      ensures r.logs == old(st.logs)
      ensures r.Value() == RunSpec(old(st.Value()), o, cfg)
      ensures fresh(r) ==> unchanged(st)
    {
      ghost var s := st.Value();
      if o.getLlmError.Some? {
        st.error := Some(o.getLlmError.value);
        ErrorNode(st, o.now);
        return st;
      }
      var current, raised := RunOnCopy(st, o, cfg);
      if raised.Some? {
        st.error := Some(raised.value);
        assert st.Value() == s.(error := Some(raised.value), logs := AfterIntake(s, o).logs);
        ErrorNode(st, o.now);
        RunSpecClassifyFails(s, o, cfg);
        return st;
      }
      return current;
    }
  }
}
