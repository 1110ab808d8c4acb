# Legal triage backend — a Dafny model

This project models the deterministic core of a legal-triage chat backend. A
user's question about Indian law goes through a fixed pipeline:

- intake cleans and checks the input;
- a classifier tool asks a language model for a legal domain and sub-domain
  (as written, building that tool's prompt always raises, so every input gets
  the "unable to classify" fallback; see "## Findings");
- the agent either asks one clarifying question, or retrieves statute passages
  from a vector store, drafts an answer, runs it through a two-tier safety
  check and records it in memory (as written, the second tier's prompt also
  raises, so that tier passes every response).

The graph's nodes are modelled with both prompts corrected, so that the
model's answers matter; the as-written tools are modelled beside them, with
lemmas showing that they never reach the model.

Around that pipeline sit:

- stand-alone stage agents: intake, classifier, clarification, retriever,
  response, safety and memory;
- a guardrail rule table and sanitisers;
- confidence arithmetic;
- a bounded conversation buffer and a summariser;
- the offline ingestion code: a document loader that reads act, section,
  chapter and domain from a file name, and a text chunker.

Everything non-deterministic is a parameter:

- **Language model**: a `Model` function from the request it is sent to a
  `Reply`, which is either `Text(content)` or `Raised(message)`.
- **Vector store**: a `Store` function from a query to the rows it returns, or
  to a failure.
- **JSON parser**: a `Parser` from a string to `Option<Json>`.
- **Python's `str()`**: a `show` function.
- **Clock**: a `now` string.
- **File libraries**: a `Reader` value.

`json.dfy` gives Python's dynamic values as a `Json` datatype, with Python
truthiness and `dict.get`. `text.dfy` gives the string primitives the code
relies on: strip, split, join, lower, whitespace collapse, replace and
slicing. `patterns.dfy` is a small backtracking matcher. It covers the regex
shapes the rule tables use: alternatives of literals, capturing groups of
literals, and runs of a character class. It also gives what `re.findall`
reports for each match: the matched text, the one group's text, or the tuple
of the groups' texts. `prompts.dfy` gives the prompt templates as sequences of
literal text and replacement fields, with a model of `str.format` that raises
`KeyError` for the first field without an argument.

Where the code mutates state, the model does too:

- **Node functions of `nodes.py`.** The graph's state dict is a class,
  `Nodes.StateDict`. Its `logs` list is a separate `Nodes.LogList` object.
  `graph.run`'s shallow `state.copy()` therefore shares the log list, as in
  Python: when the run fails, the caller's dict carries the entries that the
  nodes appended on the copy.
- **`ConversationMemory`** is a class with a `messages` field.
- **`TextChunker`** is a class.

Each method is proved against a specification function, and the properties
the code promises are lemmas about those functions.

## Model

| member | source | states |
|---|---|---|
| AgentState.CreateInitialState | backend/app/agent/state.py:71-113 | a fresh state copies input, session and user ids; its history has one formatted entry per input message, in order, and is empty for None; classification None, confidence 0.0, no documents, no clarification, count 0, response "", node "start", no error, empty logs |
| AgentState.FormatMessage | backend/app/agent/state.py:92-97 | a history entry's role defaults to "user", its content to "" and its timestamp to the current time |
| Graph.CreateAgentGraph | backend/app/agent/graph.py:28-85 | the entry point is a declared node, every edge joins declared nodes (or ends), and every conditional target is a declared node |
| Graph.RouteAfterClassify | backend/app/agent/graph.py:88-105 | an error routes to "error" whatever else holds; "clarify" exactly when there is no error, clarification is requested and the count is below the maximum; "retrieve" exactly when there is no error otherwise |
| Graph.RouteIsDeclared | backend/app/agent/graph.py:57-65 | every route the router returns is a key of the conditional edges |
| Graph.RunSpecClassifyFails | backend/app/agent/graph.py:160-187 | when classification raises, the run ends in the error node applied to the caller's own state, whose log list already holds intake's entry (the copy shares the list) |
| Graph.RunSpecClarifies | backend/app/agent/graph.py:163-167 | when clarification is needed below the limit, the run's result is the clarification node applied to the classified state |
| Graph.RunSpecAnswers | backend/app/agent/graph.py:169-181 | otherwise the run is retrieve, respond, validate and memory applied in that order to the classified state |
| Graph.IntakeNeverEnds | backend/app/agent/graph.py:156-158 | intake never sets the node to "end", so the early return after intake never fires and short input still goes on to classification |
| Graph.AnswerStagesLog | backend/app/agent/graph.py:169-179 | the answer stages append exactly retrieve, respond (only when the model answered), safety and memory entries to the log, keeping every earlier entry |
| Graph.RunTrace | backend/app/agent/graph.py:132-187 | the log is append-only across a run: the caller's entries stay in place, followed by exactly the node names of the path the run took |
| Graph.RunTraceClassifyFails | backend/app/agent/graph.py:160-187 | a run whose classification raises logs intake then error |
| Graph.ClassifiedLogs | backend/app/agent/graph.py:156-161 | a successful classification has appended intake then classify |
| Graph.RunTraceClarifies | backend/app/agent/graph.py:163-167 | a clarifying run logs intake, classify, clarify |
| Graph.RunTraceAnswers | backend/app/agent/graph.py:169-181 | an answering run logs intake, classify and then the answer stages |
| Graph.ClassifyKeeps | backend/app/agent/nodes.py:62-106 | intake and classification leave the clarification count, the documents and the error as they were |
| Graph.AnswerStagesEnd | backend/app/agent/graph.py:169-181 | the answer stages end at "end" and do not change the clarification count |
| Graph.RunEndsAtEnd | backend/app/agent/graph.py:132-187 | every run ends with the node "end" |
| Graph.RunFailureIsTerminal | backend/app/agent/graph.py:183-187 | a failure before or during classification gives a terminal state with the error set to that failure's message and the fixed error response |
| Graph.RunResponseFailure | backend/app/agent/graph.py:169-181 | a raising response model sets the error and ends the run; the response is the error response, possibly passed through the sanitiser or replaced by the safe text |
| Graph.RunClarificationBounded | backend/app/agent/graph.py:163-167 | a run adds exactly 1 to the clarification count when it clarifies and 0 otherwise, clarifies only below the maximum, and so never takes the count above the maximum |
| Graph.RunClarifyExit | backend/app/agent/graph.py:164-167 | after the clarification exit the question is the response, and documents and error are unchanged |
| Graph.RunAgreesWithRouting | backend/app/agent/graph.py:88-105 | without an error, the run's clarify/answer decision is exactly the declared router's "clarify"/"retrieve" choice |
| Graph.CompiledGraph.constructor | backend/app/agent/graph.py:126-130 | a compiled graph wraps the graph it was built from |
| Graph.LegalTriageAgent.constructor | backend/app/agent/graph.py:114-123 | the provider is the given one when non-empty, else the configured one; the graph is built and not yet compiled |
| Graph.LegalTriageAgent.CompiledGraphOf | backend/app/agent/graph.py:126-130 | the graph is compiled once, on first use; later calls return the same object |
| Graph.LegalTriageAgent.AnswerNodes | backend/app/agent/graph.py:169-181 | running the four answer nodes on the dict gives the answer stages' state, with the same log list object |
| Graph.LegalTriageAgent.BranchNodes | backend/app/agent/graph.py:163-181 | running the branch after classification on the dict gives the clarification node below the limit, else the answer stages, with the same log list object |
| Graph.LegalTriageAgent.RunOnCopy | backend/app/agent/graph.py:150-187 | the run on a shallow copy: without a raise, the copy's value is the run specification of the caller's state; in the model a raise can only come from classification (the retriever is taken to construct without error, see "## Left out"), and then the caller's shared log list holds intake's entry |
| Graph.LegalTriageAgent.Run | backend/app/agent/graph.py:132-187 | `run` returns the caller's dict or a fresh copy whose value is the run specification of the caller's state, sharing the caller's log list; when it returns a copy, the caller's dict fields are unchanged |
| Nodes.LogList.Append | backend/app/agent/nodes.py:39-43 | appending a log entry adds it at the end and keeps the earlier entries |
| Nodes.StateDict.Copy | backend/app/agent/graph.py:151 | a shallow copy is a fresh dict with the same value that shares the log list |
| Nodes.ContextLine | backend/app/agent/nodes.py:378-383 | a context line is at most the role, ": " and 500 characters of content long |
| Nodes.ContextLines | backend/app/agent/nodes.py:378 | the context uses at most the last 5 messages |
| Nodes.ContextLinesAt | backend/app/agent/nodes.py:378-383 | the i-th context line formats the i-th of the newest messages, in original order |
| Nodes.BuildContext | backend/app/agent/nodes.py:371-385 | `_build_context` is "No previous context." for no history, else the lines of the newest 5 messages joined by newlines |
| Nodes.DocBlock | backend/app/agent/nodes.py:394-400 | every block names its source as "Unknown Act", whatever the document's title, and is at most 900 characters longer than its number and section |
| Nodes.DocBlocks | backend/app/agent/nodes.py:394 | at most 3 documents are shown |
| Nodes.DocBlocksAt | backend/app/agent/nodes.py:394-400 | the i-th block is the i-th document numbered i+1 |
| Nodes.FormatRetrievedDocs | backend/app/agent/nodes.py:388-402 | `_format_retrieved_docs` is the fixed text for no documents, else the first 3 blocks joined by newlines |
| Nodes.HistoryLine | backend/app/agent/nodes.py:412-414 | a history line is "User: " or "Assistant: " by role, then at most 300 characters of content |
| Nodes.HistoryLines | backend/app/agent/nodes.py:411 | at most the last 5 messages are shown |
| Nodes.HistoryLinesAt | backend/app/agent/nodes.py:411-414 | the i-th line formats the i-th of the newest messages, in order |
| Nodes.FormatChatHistory | backend/app/agent/nodes.py:405-416 | `_format_chat_history` is "No previous conversation." when empty, else the lines joined by newlines |
| Nodes.SanitizedResponse | backend/app/agent/nodes.py:419-437 | the sanitised response is the replaced text followed by a blank line and the disclaimer |
| Nodes.SanitizeResponse | backend/app/agent/nodes.py:419-437 | `_sanitize_response` computes the sanitised response and ignores its violations argument |
| Nodes.LoweredReplacedNoUpper | backend/app/agent/nodes.py:435-436 | after any replacement round the text has no upper-case letter, because every round lower-cases the whole text |
| Nodes.LoweredReplacedClean | backend/app/agent/nodes.py:435-436 | a lower-case text containing none of the keys goes through the rounds unchanged |
| Nodes.SanitizedResponseShape | backend/app/agent/nodes.py:419-437 | the sanitised body has no upper-case letter and is followed by "\n\n" and the disclaimer; clean lower-case text only gains the disclaimer |
| Nodes.Intake | backend/app/agent/nodes.py:30-59 | intake logs the first 100 characters of the input; input whose stripped length is below 5 requests clarification with the fixed prompt and sets the node to "intake"; otherwise the node becomes "classify"; nothing else changes |
| Nodes.ClassificationOf | backend/app/agent/nodes.py:83-88 | the stored classification takes domain, sub-domain, confidence and missing fields from the tool result, with the code's defaults |
| Nodes.Classify | backend/app/agent/nodes.py:62-106 | classification fails without a model or when the tool result is not a dict; on success it stores the unclamped confidence, requests clarification exactly when confidence is below the threshold and the count is below the maximum, moves to "clarify" or "retrieve" accordingly, logs once and changes nothing else |
| Nodes.Clarify | backend/app/agent/nodes.py:109-150 | clarification fails exactly without a model; otherwise it adds exactly 1 to the count, makes the question the response, ends the run, logs once and changes nothing else |
| Nodes.MapDocument | backend/app/agent/nodes.py:183-190 | a store row becomes a document whose title is the row's act name or "Unknown Act", whose score defaults to 0.0, whose id, content and section default to "", and whose URL is copied |
| Nodes.MapDocuments | backend/app/agent/nodes.py:181-192 | mapping keeps the number of rows |
| Nodes.MapDocumentsAt | backend/app/agent/nodes.py:181-192 | the i-th mapped document is the i-th row mapped |
| Nodes.RetrieveMapsRows | backend/app/agent/nodes.py:153-203 | retrieval replaces the documents with the found rows mapped one for one, in order, moves to "respond" and changes nothing else |
| Nodes.RespondOutcome | backend/app/agent/nodes.py:211-275 | the response node moves to "validate" exactly when the model answered; that response ends with a blank line and the disclaimer and keeps the error; every other outcome sets an error, ends the run and logs nothing; only response, error, logs and node change |
| Nodes.AnsweredOutcome | backend/app/agent/nodes.py:252-275 | the same outcome law for a given reply of the model |
| Nodes.AfterQuickCheck | backend/app/agent/nodes.py:284-289 | a response that fails the rule check is replaced by its sanitised form; one that passes is kept |
| Nodes.CheckedResponse | backend/app/agent/nodes.py:298-310 | a model verdict that is a dict with a falsy "valid" replaces the response with the fixed safe text; any other verdict keeps it (fails open) |
| Nodes.SafetyEntry | backend/app/agent/nodes.py:312-327 | the safety log entry records both verdicts, or the error when the verdict is not a dict |
| Nodes.Safety | backend/app/agent/nodes.py:278-330 | the safety node changes only response, logs and node ("end"): the rule tier then, with a model, the model tier and one log entry |
| Nodes.Memory | backend/app/agent/nodes.py:333-348 | the memory node only appends its log entry |
| Nodes.ErrorStep | backend/app/agent/nodes.py:351-366 | the error node sets the fixed error response, logs the error and ends the run |
| Nodes.IntakeNode | backend/app/agent/nodes.py:30-59 | the dict after `intake_node` is the intake specification of the dict before, with the same log list |
| Nodes.ClassifyNode | backend/app/agent/nodes.py:62-106 | the dict after `classify_node` is the classification specification of the dict before, or the node raises with its message and has appended nothing |
| Nodes.StoreResult | backend/app/agent/nodes.py:83-105 | storing the tool result agrees with the classification specification |
| Nodes.ClarificationNode | backend/app/agent/nodes.py:109-150 | the dict after `clarification_node` is the clarification specification, or it raises and is unchanged |
| Nodes.StoreQuestion | backend/app/agent/nodes.py:137-149 | storing the question agrees with the clarification specification |
| Nodes.RetrieveNode | backend/app/agent/nodes.py:153-203 | the dict after `retrieve_node` is the retrieval specification |
| Nodes.MapRows | backend/app/agent/nodes.py:181-190 | the mapping loop agrees with the one-for-one mapping |
| Nodes.ResponseNode | backend/app/agent/nodes.py:211-275 | the dict after `response_node` is the response specification |
| Nodes.StoreAnswer | backend/app/agent/nodes.py:252-275 | storing the reply agrees with the response specification |
| Nodes.BuildRespondRequest | backend/app/agent/nodes.py:223-245 | the response prompt is built from the classification, input, formatted documents and formatted history |
| Nodes.SafetyNode | backend/app/agent/nodes.py:278-330 | the dict after `safety_node` is the safety specification |
| Nodes.RuleTier | backend/app/agent/nodes.py:284-289 | the rule tier reports the guardrail verdict and applies it to the response |
| Nodes.ModelTier | backend/app/agent/nodes.py:298-327 | the model tier applies the verdict to the response and logs once |
| Nodes.MemoryNode | backend/app/agent/nodes.py:333-348 | the dict after `memory_node` is the memory specification |
| Nodes.ErrorNode | backend/app/agent/nodes.py:351-366 | the dict after `error_node` is the error specification |
| Nodes.IntakeLogs | backend/app/agent/nodes.py:39-43 | intake appends exactly one "intake" entry |
| Nodes.ClassifyLogs | backend/app/agent/nodes.py:98-103 | a successful classification appends exactly one "classify" entry |
| Nodes.ClarifyLogs | backend/app/agent/nodes.py:142-147 | clarification appends exactly one "clarify" entry |
| Nodes.RetrieveLogs | backend/app/agent/nodes.py:195-200 | retrieval appends exactly one "retrieve" entry |
| Nodes.RespondLogs | backend/app/agent/nodes.py:261-265 | the response node appends one "respond" entry when the model answered, else none |
| Nodes.AnsweredLogs | backend/app/agent/nodes.py:261-265 | storing the reply appends one "respond" entry when the model answered, else none |
| Nodes.SafetyLogs | backend/app/agent/nodes.py:312-327 | with a model, the safety node appends exactly one "safety" entry |
| Nodes.MemoryLogs | backend/app/agent/nodes.py:343-346 | the memory node appends exactly one "memory" entry |
| Nodes.ErrorLogs | backend/app/agent/nodes.py:359-363 | the error node appends exactly one "error" entry |
| Llm.FencedContent | backend/app/agent/tools.py:74-80 | after the first "```json" fence the text runs to the next "```"; else after the first "```" to the next one; text without a fence is unchanged |
| Llm.FencedJsonBlock | backend/app/agent/tools.py:77-78 | a "```json" fence preceded by text without backticks yields the body up to the next fence |
| Prompts.Format | backend/app/agent/tools.py:44-47 | `format` raises `KeyError` exactly when some field has no argument, naming the first such field |
| Prompts.FormatFields | backend/app/agent/tools.py:44-47 | a template whose field names are all arguments formats to its texts with the values in place |
| Prompts.ClassificationPromptRaises | backend/app/agent/prompts.py:7-34 | the classification prompt raises `KeyError` on the first field of its JSON example, whatever the input and context |
| Prompts.ClassificationPromptEscapedFills | backend/app/agent/prompts.py:7-34 | with the example's braces doubled, the prompt is its text with the input and the context in place |
| Prompts.SafetyPromptRaises | backend/app/agent/prompts.py:86-109 | the safety prompt raises `KeyError` on the first field of its JSON example, whatever the response |
| Prompts.SafetyPromptEscapedFills | backend/app/agent/prompts.py:86-109 | with the example's braces doubled, the prompt is its text with the response in place |
| Prompts.ClarificationPromptFills | backend/app/agent/prompts.py:37-53 | the clarification prompt has no stray brace: its three arguments fill it |
| Prompts.ResponsePromptFills | backend/app/agent/prompts.py:56-83 | the response prompt has no stray brace: its five arguments fill it |
| Tools.ClassifierFallback | backend/app/agent/tools.py:63-68 | the fallback classification is Unknown/Unknown with confidence 0.0 and the reason as its one missing field |
| Tools.ParseClassification | backend/app/agent/tools.py:70-90 | an unparsable reply gives the "classification failed" fallback, a parsable one its parsed value |
| Tools.ClassifierToolRun | backend/app/agent/tools.py:48-68 | once the prompt is built, a raising model gives the "unable to classify" fallback, an answer is parsed |
| Tools.ClassifierToolRunAsWritten | backend/app/agent/tools.py:43-68 | a `KeyError` from formatting the prompt gives the "unable to classify" fallback; a filled prompt goes to the model |
| Tools.ClassifierAsWrittenFallsBack | backend/app/agent/tools.py:43-68 | as written, every call gives the "unable to classify" fallback, whatever the input and the model |
| Tools.ClassifierToolRunCorrected | backend/app/agent/tools.py:43-68 | with the prompt's braces escaped, the model's reply is always read |
| Tools.ClassifierReadsFencedBlock | backend/app/agent/tools.py:43-90 | a reply that is one fenced JSON block is read as that block's value by the corrected tool, while the as-written tool returns the fallback |
| Tools.ClarificationToolRun | backend/app/agent/tools.py:99-134 | the question is the stripped reply, or the fixed fallback question when the missing fields cannot be joined into the prompt or the model raises |
| Tools.RetrieverToolRun | backend/app/agent/tools.py:143-171 | the retriever tool returns the store's rows, or [] when the search raises |
| Tools.ParseValidation | backend/app/agent/tools.py:210-221 | an unparsable safety reply is read as a pass |
| Tools.SafetyValidatorRun | backend/app/agent/tools.py:193-208 | once the prompt is built, a raising model is read as a pass; an answer is parsed |
| Tools.SafetyValidatorRunAsWritten | backend/app/agent/tools.py:190-208 | a `KeyError` from formatting the prompt is read as a pass; a filled prompt goes to the model |
| Tools.ValidatorAsWrittenPasses | backend/app/agent/tools.py:190-208 | as written, every response passes, whatever the model would say |
| Tools.SafetyValidatorRunCorrected | backend/app/agent/tools.py:190-208 | with the prompt's braces escaped, the model's verdict is always read |
| Tools.ValidatorReadsFencedBlock | backend/app/agent/tools.py:190-221 | a verdict in one fenced JSON block is returned by the corrected validator, while the as-written validator passes the response |
| Tools.ValidatorFailsOpen | backend/app/agent/tools.py:205-221 | on an exception or a parse failure the validator reports valid with no violations |
| Tools.QuickSafetyCheck | backend/app/agent/tools.py:227-237 | `valid` is the guardrail check's flag and the violations are its descriptions, in the same order and number |
| IntakeAgent.Cleaned | backend/app/agents/intake_agent.py:69-85 | the cleaned input has every whitespace run collapsed to one space, starts with no space, is at most 5000 long, and is empty exactly when the input is all whitespace |
| IntakeAgent.CleanedFixpoint | backend/app/agents/intake_agent.py:69-85 | cleaning leaves already clean input unchanged |
| IntakeAgent.ValidateInput | backend/app/agents/intake_agent.py:87-109 | empty, short and one-word inputs are rejected, in that order, each with its own message; input is accepted exactly when it has at least 5 characters and 2 words |
| IntakeAgent.AcceptedHasSpace | backend/app/agents/intake_agent.py:42-52 | accepted cleaned input contains a space |
| IntakeAgent.DetectFollowup | backend/app/agents/intake_agent.py:111-146 | the scan returns true exactly when there is history and an indicator phrase occurs or the first word is a pronoun |
| IntakeAgent.FollowupIgnoresCase | backend/app/agents/intake_agent.py:133-143 | follow-up detection does not depend on the input's case |
| IntakeAgent.Truncated | backend/app/agents/intake_agent.py:165-167 | content up to 500 characters is kept, longer content becomes its first 500 plus "..." |
| IntakeAgent.ContextLines | backend/app/agents/intake_agent.py:158 | the context uses at most the 10 newest messages |
| IntakeAgent.ContextLinesAt | backend/app/agents/intake_agent.py:158-169 | the i-th line formats the i-th of the newest messages, in original order |
| IntakeAgent.ContextEndsWithNewest | backend/app/agents/intake_agent.py:148-170 | the newest message's line closes the context |
| IntakeAgent.BuildContext | backend/app/agents/intake_agent.py:148-170 | `_build_context` is "" without history, else the lines joined by newlines |
| IntakeAgent.Process | backend/app/agents/intake_agent.py:27-67 | `process` rejects exactly when validation fails, returning the error and the cleaned input; on acceptance it reports follow-up, context and context length |
| ClassifierAgent.FloatOf | backend/app/agents/classifier_agent.py:195 | `float()` of a number is that number, except an int of magnitude at least 2^1024 - 2^970, which overflows; of a string the parsed value or a value error; of anything else a type error |
| ClassifierAgent.ParseResponse | backend/app/agents/classifier_agent.py:178-202 | an unparsable reply gives the default classification; a non-dict, a confidence of the wrong type or an int confidence too large for a float raises; otherwise the fields are read with their defaults |
| ClassifierAgent.HugeConfidenceFallsBack | backend/app/agents/classifier_agent.py:165-167 | a reply with the int confidence 2^1024 makes the parser raise, and `classify` returns the default classification |
| ClassifierAgent.FirstContaining | backend/app/agents/classifier_agent.py:212-217 | the first name, in order, that contains the needle case-insensitively |
| ClassifierAgent.ResolveDomain | backend/app/agents/classifier_agent.py:206-217 | the domain becomes a table key or "Unknown"; an exact key is kept; another domain becomes the first key containing it, else "Unknown" |
| ClassifierAgent.ResolveSubDomain | backend/app/agents/classifier_agent.py:219-229 | a listed sub-domain is kept; another becomes the first listed one containing it, else the first listed one; an empty list gives "General" for any sub-domain; a non-string raises exactly when the list is not empty |
| ClassifierAgent.Validated | backend/app/agents/classifier_agent.py:204-237 | after validation the domain is a key or "Unknown" and the confidence is clamped to [0, 1]; missing fields and reasoning are kept; it raises exactly for a non-string domain or a non-string sub-domain of a known domain |
| ClassifierAgent.ValidatedSubDomainListed | backend/app/agents/classifier_agent.py:219-229 | for a known domain the sub-domain ends up in that domain's list |
| ClassifierAgent.ValidatedUnknownKeepsSubDomain | backend/app/agents/classifier_agent.py:219-232 | for "Unknown" the sub-domain is left unchanged |
| ClassifierAgent.ValidatedIdempotent | backend/app/agents/classifier_agent.py:204-237 | validating a validated classification changes nothing |
| ClassifierAgent.EmptyDomainBecomesConsumerLaw | backend/app/agents/classifier_agent.py:210-215 | an empty domain is contained in every key, so it becomes the first key, "Consumer Law" |
| ClassifierAgent.SearchContaining | backend/app/agents/classifier_agent.py:212-217 | the for/else search finds the first containing name |
| ClassifierAgent.ValidateClassification | backend/app/agents/classifier_agent.py:204-237 | the in-place validation agrees with the validation specification |
| ClassifierAgent.Classify | backend/app/agents/classifier_agent.py:112-167 | `classify` always returns a table domain or "Unknown" with confidence in [0, 1]; any failure gives the default classification |
| ClarificationAgent.FirstApplying | backend/app/agents/clarification_agent.py:93-94 | the first template, in table order, whose key occurs in the lowercased field and whose question was not asked |
| ClarificationAgent.TemplateChoice | backend/app/agents/clarification_agent.py:91-100 | the template path takes the first missing field, in list order, for which some template applies |
| ClarificationAgent.CleanQuestion | backend/app/agents/clarification_agent.py:159-166 | a model question is stripped, and leading digits, dots, dashes and bullets are dropped; the result is a piece of the reply |
| ClarificationAgent.CleanQuestionDropsNumbering | backend/app/agents/clarification_agent.py:163-164 | "1. " before a clean question is removed |
| ClarificationAgent.QuestionFor | backend/app/agents/clarification_agent.py:69-125 | the template path is taken exactly when one applies, and its question is the chosen template's text for the chosen field, not yet asked; otherwise the question is the cleaned model reply, reported for the first field or "general"; the fallback question with "general" exactly when no template applies and the model raises |
| ClarificationAgent.SearchTemplates | backend/app/agents/clarification_agent.py:91-100 | the nested search loop finds the template choice |
| ClarificationAgent.GenerateQuestion | backend/app/agents/clarification_agent.py:69-125 | `generate_question` agrees with the question specification |
| ClarificationAgent.TemplateNotRepeated | backend/app/agents/clarification_agent.py:88-100 | once asked, a template question is never returned again by the template path |
| ClarificationAgent.PriorityFields | backend/app/agents/clarification_agent.py:168-181 | a listed domain gives its four priority fields, any other string (or a missing domain) the default four; a list or dict domain raises, since it cannot be a dict key |
| ClarificationAgent.DefaultFieldsHaveTemplates | backend/app/agents/clarification_agent.py:41-52 | every default priority field has a template |
| RetrieverAgent.QueryOfSpelled | backend/app/agents/retriever_agent.py:82-100 | the query is the base, then the domain and sub-domain when given, then "procedure process India", single-spaced |
| RetrieverAgent.BuildQuery | backend/app/agents/retriever_agent.py:82-100 | `_build_query`'s list building agrees with that query |
| RetrieverAgent.FormatDoc | backend/app/agents/retriever_agent.py:106-116 | a formatted document has the eight fields, its title defaulting to "Legal Document", its score to 0.0 and the rest to "" |
| RetrieverAgent.FormatDocuments | backend/app/agents/retriever_agent.py:102-118 | formatting keeps count and order |
| RetrieverAgent.Retrieve | backend/app/agents/retriever_agent.py:27-80 | on success the documents are the formatted rows of the enhanced query and the count is their number; on failure no documents, count 0 and the original query |
| RetrieverAgent.SearchByKeywords | backend/app/agents/retriever_agent.py:155-180 | the keywords are joined into a query and its rows formatted, or [] on failure |
| RetrieverAgent.ActSections | backend/app/agents/retriever_agent.py:120-153 | at most one document per requested section; [] when any search raises |
| RetrieverAgent.ActSectionsAreFirstRows | backend/app/agents/retriever_agent.py:138-147 | every returned document is the first row of some section's search |
| RetrieverAgent.ActSectionsAllFound | backend/app/agents/retriever_agent.py:120-149 | when every section is found, the result is their first rows in request order |
| RetrieverAgent.GetActSections | backend/app/agents/retriever_agent.py:120-153 | the loop agrees with the act-sections specification |
| RagRetriever.RemoveMarkers | backend/app/rag/retriever.py:167 | removing "[n]" markers never lengthens the text and leaves text without "[" unchanged |
| RagRetriever.RemovePageNumbers | backend/app/rag/retriever.py:168 | removing "Page n" never lengthens the text and leaves text without a "p" unchanged |
| RagRetriever.CleanContent | backend/app/rag/retriever.py:159-170 | cleaned content is no longer than the original and has no surrounding whitespace |
| RagRetriever.CleanPlainContent | backend/app/rag/retriever.py:159-170 | content with no markers is only collapsed and stripped |
| RagRetriever.Citation | backend/app/rag/retriever.py:141-157 | the citation starts with the act name (or the title); it is "Legal Document" when act, section and chapter are all absent; a non-string name raises |
| RagRetriever.CitationOfFullDoc | backend/app/rag/retriever.py:141-157 | act, section and chapter give "act, Section s, Chapter c" |
| RagRetriever.Key | backend/app/rag/retriever.py:123-126 | the de-duplication key is the first 200 characters of the content before cleaning; content that is not a string has no key, and hashing it raises |
| RagRetriever.Processed | backend/app/rag/retriever.py:131-135 | a kept document gains its citation and cleaned content and keeps its other fields |
| RagRetriever.PostProcessed | backend/app/rag/retriever.py:112-139 | post-processing never lengthens the list and every kept document has a citation |
| RagRetriever.PostStep | backend/app/rag/retriever.py:122-137 | a document with a seen key is skipped; an unseen one is processed and appended |
| RagRetriever.PostProcessedCited | backend/app/rag/retriever.py:131-137 | every kept document has a string citation and string content |
| RagRetriever.PostProcessedCountsDistinctKeys | backend/app/rag/retriever.py:119-139 | the output holds one document per distinct key |
| RagRetriever.PostProcessedDistinctKeepsAll | backend/app/rag/retriever.py:112-139 | documents with distinct keys are all kept, in order, each processed |
| RagRetriever.PostProcessedAbortPersists | backend/app/rag/retriever.py:122-139 | once a document raises, the whole post-processing raises |
| RagRetriever.PostProcess | backend/app/rag/retriever.py:112-139 | the loop with its seen set agrees with the post-processing specification |
| RagRetriever.Retrieve | backend/app/rag/retriever.py:21-57 | `retrieve` is the post-processed rows, never more than the store returned, or [] on any failure |
| RagRetriever.RetrieveForClassification | backend/app/rag/retriever.py:59-85 | the result is the post-processed rows of the search for domain, sub-domain, "procedure" and the query, filtered by the domain with threshold 0.5, or [] when the search or the post-processing fails; every returned document has a citation and content |
| RagRetriever.ActQuery | backend/app/rag/retriever.py:102-104 | the act query starts with the act name and is the act name alone without a section |
| RagRetriever.GetActInfo | backend/app/rag/retriever.py:87-110 | `get_act_info` is the first result of a k=1 search, or None |
| ResponseAgent.Sliced | backend/app/agents/response_agent.py:142 | slicing works on strings and lists and raises on other values; a string is cut to the limit |
| ResponseAgent.Collect | backend/app/agents/response_agent.py:137-145 | rendering fails exactly when one part fails |
| ResponseAgent.DocBlock | backend/app/agents/response_agent.py:138-143 | a block is numbered and fails exactly when its content cannot be sliced |
| ResponseAgent.DocBlocksAt | backend/app/agents/response_agent.py:137-143 | the i-th block is the i-th document numbered i+1 |
| ResponseAgent.DocumentsText | backend/app/agents/response_agent.py:131-145 | no documents gives the fixed fallback text |
| ResponseAgent.DocumentsTextTopThree | backend/app/agents/response_agent.py:137 | only the first 3 documents matter |
| ResponseAgent.FormatDocuments | backend/app/agents/response_agent.py:131-145 | the loop agrees with the documents text |
| ResponseAgent.HistoryLine | backend/app/agents/response_agent.py:154-156 | a line is labelled "User" exactly when the role is "user", else "Assistant" |
| ResponseAgent.HistoryText | backend/app/agents/response_agent.py:147-158 | empty history gives "No previous conversation." |
| ResponseAgent.HistoryTextLastFive | backend/app/agents/response_agent.py:153 | only the last 5 messages matter |
| ResponseAgent.FormatHistory | backend/app/agents/response_agent.py:147-158 | the loop agrees with the history text |
| ResponseAgent.Source | backend/app/agents/response_agent.py:172-176 | a source keeps title and section and has the three fields |
| ResponseAgent.SourcesOf | backend/app/agents/response_agent.py:160-178 | de-duplication (keyed on the title and section pair) never lengthens the list |
| ResponseAgent.SourcesOfSnoc | backend/app/agents/response_agent.py:165-176 | a document adds its source exactly when its key was not seen before |
| ResponseAgent.SourcesOfDistinctCover | backend/app/agents/response_agent.py:160-178 | the sources have pairwise distinct keys and cover every key of the documents |
| ResponseAgent.SourcesOfFirstOccurrences | backend/app/agents/response_agent.py:160-178 | the sources are the first occurrences of each key, in order |
| ResponseAgent.SourcesAsWritten | backend/app/agents/response_agent.py:160-178 | the code as written, keyed on the joined string, never lengthens the list |
| ResponseAgent.SourcesAsWrittenSnoc | backend/app/agents/response_agent.py:165-176 | as written, a document adds its source exactly when its joined key was not seen before |
| ResponseAgent.ExtractSources | backend/app/agents/response_agent.py:160-178 | the loop with its set of joined keys agrees with the sources as written |
| ResponseAgent.SourcesAgreeWithoutCollision | backend/app/agents/response_agent.py:160-178 | when no two documents with different title/section pairs share a joined key, the sources as written are the pair-keyed sources |
| ResponseAgent.SourcesAsWrittenCollide | backend/app/agents/response_agent.py:169 | two documents with different title/section pairs share one joined key, and the second is wrongly dropped |
| ResponseAgent.FallbackText | backend/app/agents/response_agent.py:184-201 | the fallback text names the lowercased domain and ends with the disclaimer and a newline |
| ResponseAgent.FallbackResponse | backend/app/agents/response_agent.py:180-201 | the fallback raises exactly for a non-string domain, and otherwise ends with the disclaimer |
| ResponseAgent.AddDisclaimer | backend/app/agents/response_agent.py:203-205 | the response is kept and followed by a blank line and the disclaimer |
| ResponseAgent.AddDisclaimerNotIdempotent | backend/app/agents/response_agent.py:203-205 | adding the disclaimer twice adds it twice |
| ResponseAgent.FailureOf | backend/app/agents/response_agent.py:76-107 | generation fails on the first failing step: documents, history, then the model call |
| ResponseAgent.Generate | backend/app/agents/response_agent.py:76-120 | when the documents and the history render and the model replies, the response is the stripped reply with no disclaimer, plus the sources as `_extract_sources` writes them |
| ResponseAgent.GenerateFallsBack | backend/app/agents/response_agent.py:122-129 | when the documents or the history fail to render or the model call raises, the result is the fallback text with no sources and the first step's error, or nothing when the fallback itself raises |
| RagPrompt.Render | backend/app/rag/prompt.py:8 | a chunk renders as a "[Source: ...]" header and its content; it needs a content key |
| RagPrompt.Rendered | backend/app/rag/prompt.py:7-10 | rendering fails exactly when a chunk has no content, else renders each chunk in order |
| RagPrompt.PromptText | backend/app/rag/prompt.py:12-23 | the prompt holds the context and then the question after "Question:" |
| RagPrompt.BuildPrompt | backend/app/rag/prompt.py:3-23 | `build_prompt` fails exactly when a chunk lacks content, else joins the rendered chunks with blank lines into the prompt |
| RagPrompt.BuildPromptNoChunks | backend/app/rag/prompt.py:3-23 | no chunks give an empty context |
| RagPrompt.Framed | backend/app/rag/prompt.py:12-23 | stripping the framed template removes just its outer newlines, and the question follows "Question:" |
| RagPrompt.FramedStrip | backend/app/rag/prompt.py:12-23 | the stripped template is its text without the outer newlines |
| RagPrompt.FramedQuestion | backend/app/rag/prompt.py:12-23 | the question sits right after "Question:" |
| SafetyAgent.PatternReport | backend/app/agents/safety_agent.py:120-127 | a pattern is reported exactly when it matches; its matches are the first one to three `findall` items, the first being what `findall` reports for the leftmost match |
| SafetyAgent.ShouldDefinitelyReportsGroup | backend/app/agents/safety_agent.py:20 | the first unsafe pattern reports its group's text, "definitely", not the whole matched phrase |
| SafetyAgent.RuleBased | backend/app/agents/safety_agent.py:116-132 | the rule check is valid exactly when there are no violations |
| SafetyAgent.RuleBasedValid | backend/app/agents/safety_agent.py:116-132 | the rule check is valid exactly when no unsafe pattern matches |
| SafetyAgent.RuleBasedCheck | backend/app/agents/safety_agent.py:116-132 | the loop agrees with the rule check |
| SafetyAgent.QuickCheck | backend/app/agents/safety_agent.py:212-214 | `quick_check` holds exactly when no unsafe pattern matches |
| SafetyAgent.SanitizedClean | backend/app/agents/safety_agent.py:180-210 | a response with no replacement key, phone or e-mail is unchanged by sanitising |
| SafetyAgent.SanitizeResponse | backend/app/agents/safety_agent.py:180-210 | the replacement loop agrees with the sanitiser; the violations argument is ignored |
| SafetyAgent.LlmBasedCheck | backend/app/agents/safety_agent.py:134-178 | a raising model is reported as raised; an unparsable reply is read as valid |
| SafetyAgent.Validate | backend/app/agents/safety_agent.py:65-114 | a rule failure is "rule_based" with the rule violations; an invalid model verdict is "llm_based"; otherwise it passes with the original response and no violations; a model exception is ignored |
| SafetyAgent.RuleFailureSkipsModel | backend/app/agents/safety_agent.py:78-88 | after a rule failure the model's outcome does not affect the result |
| Guardrails.RuleViolation | backend/app/utils/guardrails.py:102-114 | a rule's violation carries its name, description and severity, and as its match `str` of the first `findall` item of the first pattern that matches |
| Guardrails.RuleViolationIffMatch | backend/app/utils/guardrails.py:104-114 | a rule is violated exactly when one of its patterns matches |
| Guardrails.Violations | backend/app/utils/guardrails.py:101-114 | there is at most one violation per rule |
| Guardrails.ViolationsFollowRules | backend/app/utils/guardrails.py:101-114 | the violations follow rule-table order, one for exactly each rule with a matching pattern, each with that rule's description and severity |
| Guardrails.OverallSeverity | backend/app/utils/guardrails.py:117-131 | the severity is high if any violation is high, else medium if any is medium, else low |
| Guardrails.Check | backend/app/utils/guardrails.py:87-133 | `valid` holds exactly when there are no violations, the count is their number, the violations are those of the lowercased text, and a valid text has severity low |
| Guardrails.CheckRule | backend/app/utils/guardrails.py:104-114 | the pattern loop with `break` agrees with the rule's violation |
| Guardrails.CollectViolations | backend/app/utils/guardrails.py:101-114 | the rule loop agrees with the violations |
| Guardrails.CheckGuardrails | backend/app/utils/guardrails.py:87-133 | `check_guardrails` agrees with the check |
| Guardrails.SanitizeText | backend/app/utils/guardrails.py:136-164 | the replacements apply in order, case-insensitively; a text with no key is unchanged; the violations are ignored |
| Guardrails.IsOutOfScope | backend/app/utils/guardrails.py:167-191 | a text is out of scope exactly when some out-of-scope phrase occurs in it, lowercased |
| Guardrails.SueThemIsLegalAdvice | backend/app/utils/guardrails.py:21-31 | "You should definitely sue them." is invalid, and its first violation is legal_advice with the match "('definitely', 'sue')" |
| Guardrails.SueThemMatches | backend/app/utils/guardrails.py:24 | the first legal-advice pattern matches the test sentence at its start, and its groups take "definitely" and "sue" |
| Guardrails.SueThemShown | backend/app/utils/guardrails.py:111 | `str` of the tuple ("definitely", "sue") is "('definitely', 'sue')" |
| Guardrails.SueThemMatch | backend/app/utils/guardrails.py:102-114 | the legal_advice rule on the lowered test sentence reports its name, description, high severity and the match "('definitely', 'sue')" |
| Patterns.Search | backend/app/utils/guardrails.py:188-190 | the search finds the leftmost match, and finds none exactly when no position matches |
| Patterns.Captures | backend/app/utils/guardrails.py:105-111 | the match gives one text per capturing group |
| Patterns.Reported | backend/app/utils/guardrails.py:105-111 | a `findall` item is the matched text for a pattern without groups, the group's text for one group, and the tuple of the groups' texts for several |
| Patterns.FindAll | backend/app/utils/guardrails.py:105-111 | `findall` is empty exactly when the search finds nothing, and its first item is what the leftmost match reports |
| Patterns.Show | backend/app/utils/guardrails.py:111 | `str` of a string item is the string; of a tuple, a parenthesised text |
| Patterns.MatchAltLiteral | backend/app/utils/guardrails.py:177-190 | a pattern of literal alternatives matches at the front of a text exactly when one alternative starts it |
| Patterns.SearchAltContains | backend/app/utils/guardrails.py:177-190 | searching for literal alternatives is substring search |
| Confidence.Clamp | backend/app/utils/confidence.py:41 | clamping gives a value in [0, 1] and keeps values already inside |
| Confidence.Weight | backend/app/utils/confidence.py:34-38 | a weight is the given one, or its default when the key is missing |
| Confidence.CalculateConfidence | backend/app/utils/confidence.py:9-41 | the combined confidence is the weighted sum of the three scores, with weights defaulting to 0.4, 0.35 and 0.25, clamped to [0, 1]; it is always in [0, 1] |
| Confidence.EmptyWeightsAreDefault | backend/app/utils/confidence.py:27-38 | an empty weights dict gives the same result as no weights: each missing key takes its default |
| Confidence.DefaultWeightsNeedNoClamp | backend/app/utils/confidence.py:27-41 | with the default weights 0.4, 0.35 and 0.25, scores in [0, 1] combine without clamping |
| Confidence.ShouldClarify | backend/app/utils/confidence.py:44-65 | no clarification at or past the maximum; below it, exactly when confidence is under the threshold |
| Confidence.ConfidenceToLevel | backend/app/utils/confidence.py:68-87 | the level bands start at 0.9, 0.7, 0.5 and 0.3, each lower bound included |
| Confidence.LevelMonotone | backend/app/utils/confidence.py:68-87 | the level is monotone in the confidence |
| Confidence.RankWeights | backend/app/utils/confidence.py:106 | one positive weight per document |
| Confidence.Scores | backend/app/utils/confidence.py:103 | a document's score defaults to 0.0 |
| Confidence.AggregateDocumentScores | backend/app/utils/confidence.py:90-110 | no documents give 0.0 |
| Confidence.AggregateWithinBounds | backend/app/utils/confidence.py:90-110 | the weighted mean lies between any lower and upper bound of the scores |
| Confidence.CriticalCount | backend/app/utils/confidence.py:131 | the number of critical missing fields is at most the number of fields |
| Confidence.MissingFieldsPenalty | backend/app/utils/confidence.py:113-134 | the penalty lies in [0, 0.5] and is 0 exactly for no missing fields |
| Summarizer.ClippedKeepsHead | backend/app/memory/summarizer.py:92-94 | a clipped content keeps the first 500 characters, adds "..." only when longer, and is at most 503 long |
| Summarizer.BlocksAt | backend/app/memory/summarizer.py:88-96 | the i-th block formats the i-th message |
| Summarizer.FormatMessages | backend/app/memory/summarizer.py:84-98 | the loop agrees with the transcript |
| Summarizer.TranscriptAppend | backend/app/memory/summarizer.py:84-98 | one more message adds a blank line and its block |
| Summarizer.WithRole | backend/app/memory/summarizer.py:102-103 | filtering by role keeps only messages of that role |
| Summarizer.FallbackQuotes | backend/app/memory/summarizer.py:102-115 | the fallback quotes the first user message and the last assistant message, each cut to 200 characters |
| Summarizer.FallbackCountOnly | backend/app/memory/summarizer.py:100-117 | without user or assistant messages the fallback is only the exchange count |
| Summarizer.FallbackSummarySpelled | backend/app/memory/summarizer.py:105-117 | the fallback is initial query, count and last guidance joined by a vertical bar with spaces |
| Summarizer.Conversation | backend/app/memory/summarizer.py:57-63 | an existing summary is put before the new messages; without one the transcript is sent alone |
| Summarizer.Summarize | backend/app/memory/summarizer.py:42-82 | the summary is the stripped reply, or the fallback summary when the model raises |
| Summarizer.SummaryOnFailureCounts | backend/app/memory/summarizer.py:80-82 | a failed summary still reports the exchange count |
| Summarizer.ShouldSummarizeMonotone | backend/app/memory/summarizer.py:119-137 | summarising is monotone in message count and token estimate; with the defaults it starts just past 20 messages or 4000 tokens |
| ShortTerm.Admitted | backend/app/memory/short_term.py:25-47 | the buffer never exceeds its maximum; below the maximum the message is appended; a full buffer drops its oldest message; a maximum of 0 keeps nothing |
| ShortTerm.ContextKeepsNewestWithinBudget | backend/app/memory/short_term.py:76-102 | the context keeps a chronological suffix of the messages within the budget, and stops at the first message that would overflow |
| ShortTerm.FitKeepsNewest | backend/app/memory/short_term.py:86-102 | the kept parts fit the budget, and the next older part would overflow it |
| ShortTerm.LastUserContent | backend/app/memory/short_term.py:110-115 | the newest user message's content, or None when there is none |
| ShortTerm.ChatsKnownRoles | backend/app/memory/short_term.py:131-140 | messages of known roles convert one for one with their content |
| ShortTerm.ClearedIsEmpty | backend/app/memory/short_term.py:117-119 | a cleared buffer has length 0 and is falsy |
| ShortTerm.RenderContext | backend/app/memory/short_term.py:86-102 | the loop with its running total agrees with the context string |
| ShortTerm.ConversationMemory.constructor | backend/app/memory/short_term.py:17-25 | a new buffer is empty with the given maximum |
| ShortTerm.ConversationMemory.AddMessage | backend/app/memory/short_term.py:27-47 | a message is admitted with metadata defaulting to {} |
| ShortTerm.ConversationMemory.AddUserMessage | backend/app/memory/short_term.py:49-51 | a user message is admitted |
| ShortTerm.ConversationMemory.AddAssistantMessage | backend/app/memory/short_term.py:53-59 | an assistant message is admitted |
| ShortTerm.ConversationMemory.GetMessages | backend/app/memory/short_term.py:61-74 | a missing or zero limit gives all messages, a positive one the newest that many, a negative one Python's slice from that negative start |
| ShortTerm.ConversationMemory.GetContextString | backend/app/memory/short_term.py:76-102 | the context string of the buffer |
| ShortTerm.ConversationMemory.GetLastMessage | backend/app/memory/short_term.py:104-108 | the newest message, or None for an empty buffer |
| ShortTerm.ConversationMemory.GetLastUserMessage | backend/app/memory/short_term.py:110-115 | the newest user message's content |
| ShortTerm.ConversationMemory.Clear | backend/app/memory/short_term.py:117-119 | clearing empties the buffer |
| ShortTerm.ConversationMemory.ToChatMessages | backend/app/memory/short_term.py:121-142 | messages of known roles are converted in order; others are skipped |
| ShortTerm.ConversationMemory.Length | backend/app/memory/short_term.py:144-145 | the length is the number of messages |
| MemoryAgent.FormatConversation | backend/app/agents/memory_agent.py:170-178 | the loop agrees with the conversation text |
| MemoryAgent.LineAgainstBlock | backend/app/agents/memory_agent.py:170-178 | a line cuts content to 500 characters with no ellipsis, unlike the summariser's block |
| MemoryAgent.EstimateTokens | backend/app/agents/memory_agent.py:196-200 | the estimate is the total content length divided by 4, rounded down |
| MemoryAgent.EstimateTokensAppend | backend/app/agents/memory_agent.py:196-200 | one more message never lowers the estimate |
| MemoryAgent.SummaryCoversAllButLastTen | backend/app/agents/memory_agent.py:126-168 | a summary is written only for more than 20 messages and covers all but the last 10 |
| MemoryAgent.Save | backend/app/agents/memory_agent.py:54-88 | `save` succeeds exactly when the store does, and then writes the summary the summary check produces, and no summary otherwise |
| MemoryAgent.SaveWithoutSummary | backend/app/agents/memory_agent.py:126-137 | without a model, or with at most 20 messages, no summary is written |
| MemoryAgent.EffectiveLimit | backend/app/agents/memory_agent.py:106 | a falsy limit is replaced by the maximum |
| MemoryAgent.Load | backend/app/agents/memory_agent.py:90-124 | `load`'s in-place insertion agrees with the loaded list |
| MemoryAgent.LoadedPrependsSummary | backend/app/agents/memory_agent.py:105-124 | a stored summary is put first as a system message before the fetched messages; [] when either store call raises |
| Chunker.WindowStart | backend/app/rag/chunker.py:154 | the search window starts at most 200 before the end and not before the start |
| Chunker.WindowEnd | backend/app/rag/chunker.py:155 | the search window ends at most 100 past the end and within the text |
| Chunker.BlankLine | backend/app/rag/chunker.py:158 | the result is the first blank line of the window from the given position, and there is none when nothing is returned |
| Chunker.FirstSentence | backend/app/rag/chunker.py:163 | the result is the first position where `[.!?]\s+` matches in the window, and there is none when nothing is returned |
| Chunker.SpaceRun | backend/app/rag/chunker.py:163 | the greedy `\s+` run: all whitespace, and followed by a non-space or the window's end |
| Chunker.SentenceEnd | backend/app/rag/chunker.py:163 | a sentence break is the end of the first `[.!?]\s+` match: after its punctuation and the whole whitespace run that follows; nothing when no match exists |
| Chunker.LastSpace | backend/app/rag/chunker.py:168 | the result is the last whitespace of the range, and there is none when nothing is returned |
| Chunker.BreakPointAsWritten | backend/app/rag/chunker.py:149-172 | the break point as written is at most 100 past the end and inside the window's end, and no more than 99 before the window's start |
| Chunker.BreakAtParagraph | backend/app/rag/chunker.py:157-160 | a blank line in the window wins: both searches break just after the first one |
| Chunker.BreakAtSentence | backend/app/rag/chunker.py:162-165 | without a blank line, both searches break at the end of the first sentence match |
| Chunker.BreakAtWord | backend/app/rag/chunker.py:167-172 | without either, the corrected break is just after the last whitespace before the end, else the end |
| Chunker.BreakAsWrittenAtWord | backend/app/rag/chunker.py:167-172 | without either, the break as written is the end moved back by the distance from the window's last whitespace to its last character, else the end |
| Chunker.BreakPointAsWrittenAdvances | backend/app/rag/chunker.py:136-145 | with a chunk size at least the overlap plus 300, the break as written lies more than the overlap past the chunk start, so the loop advances |
| Chunker.WordBreakOffByLookAhead | backend/app/rag/chunker.py:168-170 | as written, the word break is the last whitespace of the whole window moved back by 100 |
| Chunker.BreakPointAsWrittenStalls | backend/app/rag/chunker.py:149-172 | on "ab cd" with end 2 the break as written is 0, at the chunk start; the corrected break is 2 |
| Chunker.BreakPoint | backend/app/rag/chunker.py:149-172 | the break is within 100 past the end and inside the text, past the start for a non-empty chunk, no more than 199 before the end, and either the end itself or right after whitespace |
| Chunker.BreakPointBounds | backend/app/rag/chunker.py:149-172 | the break lies inside the search window and is the end or right after whitespace |
| Chunker.PieceOfText | backend/app/rag/chunker.py:130-138 | a stripped window is no longer than the window and occurs in the text |
| Chunker.FirstCut | backend/app/rag/chunker.py:88-95 | a section cut is a newline |
| Chunker.Pieces | backend/app/rag/chunker.py:102 | a split gives more than one part exactly when a heading follows a newline |
| Chunker.PiecesJoin | backend/app/rag/chunker.py:102 | the parts joined by newlines give back the text |
| Chunker.PiecesOccur | backend/app/rag/chunker.py:102 | every part occurs in the text |
| Chunker.TextChunker.constructor | backend/app/rag/chunker.py:18-34 | a chunker records its size, overlap and minimum; it is valid for the character loop exactly when the size is positive and the overlap is 0 or at least 200 below the size |
| Chunker.TextChunker.Kept | backend/app/rag/chunker.py:131-140 | a chunk is kept only when it reaches the minimum size |
| Chunker.TextChunker.NextStart | backend/app/rag/chunker.py:142-145 | the next start never passes the break point |
| Chunker.TextChunker.CharChunksStep | backend/app/rag/chunker.py:124-145 | one loop step keeps the stripped window and continues from the next start |
| Chunker.TextChunker.ChunkByCharacters | backend/app/rag/chunker.py:115-147 | the while loop agrees with the character chunks |
| Chunker.TextChunker.CharChunksArePieces | backend/app/rag/chunker.py:115-147 | every character chunk reaches the minimum, is at most chunk size plus 100 long and occurs in the text |
| Chunker.TextChunker.ChunkBySections | backend/app/rag/chunker.py:81-113 | the section loop agrees with the section chunks |
| Chunker.TextChunker.ScanHeadings | backend/app/rag/chunker.py:101-111 | the first heading pattern that splits the text is used |
| Chunker.TextChunker.ChunkParts | backend/app/rag/chunker.py:104-110 | short parts are dropped and long parts re-chunked by characters |
| Chunker.TextChunker.SectionChunksArePieces | backend/app/rag/chunker.py:81-113 | every section chunk occurs in the text |
| Chunker.TextChunker.ChunkDocument | backend/app/rag/chunker.py:36-79 | the method agrees with the document's chunk records |
| Chunker.TextChunker.DocChunks | backend/app/rag/chunker.py:53-54 | empty content gives no chunks |
| Chunker.TextChunker.EmitChunks | backend/app/rag/chunker.py:64-76 | the emit loop agrees with the emitted records |
| Chunker.TextChunker.EmittedCount | backend/app/rag/chunker.py:64-76 | one record per chunk whose stripped text reaches the minimum |
| Chunker.TextChunker.EmittedAt | backend/app/rag/chunker.py:64-76 | the k-th record is built from the k-th kept chunk, its raw index and the raw total |
| Chunker.TextChunker.RecordFields | backend/app/rag/chunker.py:69-75 | a record has content, source, index and total, plus the metadata's keys |
| Chunker.TextChunker.KeptIndicesComplete | backend/app/rag/chunker.py:64-76 | every chunk whose stripped text reaches the minimum size is emitted |
| Chunker.TextChunker.EmittedChunkAt | backend/app/rag/chunker.py:64-76 | every record's index is a raw position, its content the stripped raw chunk of at least the minimum size, a piece of the content, and its total the raw count |
| Chunker.TextChunker.DocChunkAt | backend/app/rag/chunker.py:36-79 | the same for `chunk_document`, with the source defaulting to "unknown" |
| Chunker.TextChunker.DocChunksIncreasing | backend/app/rag/chunker.py:64-76 | chunk indices strictly increase |
| Chunker.TextChunker.RawChunksArePieces | backend/app/rag/chunker.py:56-61 | every raw chunk, by sections or by characters, occurs in the content |
| Chunker.TextChunker.AllChunksAppend | backend/app/rag/chunker.py:187-191 | chunking a concatenation of documents gives the concatenation of their chunks |
| Chunker.TextChunker.ChunkDocuments | backend/app/rag/chunker.py:174-193 | the loop agrees with the in-order concatenation |
| Loader.Name | backend/app/rag/loader.py:108 | a file's name ends its path and holds no "/" |
| Loader.StemAndSuffix | backend/app/rag/loader.py:76 | a name is its stem then its suffix, and a suffix is "." and more characters without a dot |
| Loader.FirstDomain | backend/app/rag/loader.py:221-224 | the first domain, in table order, with a keyword in the lowercased name, or None |
| Loader.InferDomain | backend/app/rag/loader.py:204-226 | the nested loop agrees with the domain of a non-empty act name, and None otherwise |
| Loader.ScanDomains | backend/app/rag/loader.py:221-224 | the table scan finds the first matching domain |
| Loader.ConsumerActs | backend/app/rag/loader.py:213-224 | an act name starting "Consumer" is Consumer Law |
| Loader.Underscored | backend/app/rag/loader.py:174 | every "-" becomes "_" and nothing else changes |
| Loader.Tokens | backend/app/rag/loader.py:170-174 | the tokens joined by "_" give the stem with dashes as underscores; no token holds either |
| Loader.MarkedValueIsLast | backend/app/rag/loader.py:184-190 | a section or chapter is the token after the last marker that has a token after it; a trailing marker sets nothing |
| Loader.ActPartsAreTokens | backend/app/rag/loader.py:191-194 | the act name's tokens are non-marker tokens among the first three or act indicators, in order |
| Loader.Metadata | backend/app/rag/loader.py:157-202 | the metadata has exactly act name, section, chapter and domain |
| Loader.ExtractMetadata | backend/app/rag/loader.py:157-202 | the token loop agrees with the metadata |
| Loader.PagesWithText | backend/app/rag/loader.py:97-101 | only pages with text are kept |
| Loader.NonBlank | backend/app/rag/loader.py:142 | only non-blank paragraphs are kept |
| Loader.FileDoc | backend/app/rag/loader.py:105-111 | a loaded document records content, path, file name, type and name metadata |
| Loader.KindOf | backend/app/rag/loader.py:76-88 | the reader is chosen by extension; ".md" is read as text; other extensions are unsupported |
| Loader.ReadText | backend/app/rag/loader.py:90-145 | the text of a PDF is its pages with text joined by blank lines, of a text file the file's text, of a Word file its non-blank paragraphs joined by blank lines; None when the reader raises |
| Loader.LoadFile | backend/app/rag/loader.py:60-88 | a document is returned only for an existing file with a supported extension whose reader does not raise; its content is the text read, its source the path, its type that of the reader, with the name's metadata |
| Loader.LoadFileSupported | backend/app/rag/loader.py:60-88 | a supported file that reads loads; a missing one does not |
| Loader.LoadFromText | backend/app/rag/loader.py:228-250 | the text document has type "text", the source as file name (default "manual") and metadata defaulting to {} |

## Left out

- Regular expressions are not re-implemented. `Patterns` covers the pattern
  shapes the tables use: literal alternatives, capturing groups of literals,
  runs of a character class, and case folding. Case folding is ASCII only, and
  `str.lower` on other letters is not modelled. Whitespace is Python's
  `str.isspace` set.
- `\d` is ASCII digits only (`Text.IsDigit`), while Python's `\d` on a `str`
  also matches other Unicode decimal digits such as "५". This affects the phone
  patterns, the heading numbers and the marker and page-number removal. The
  members concerned are listed on the lines below.
- SanitizeResponse (`SafetyAgent.SanitizeResponse`): its phone pattern counts
  ASCII digits only.
- SanitizedClean (`SafetyAgent.SanitizedClean`): "no phone" means no run of
  ASCII digits of the phone pattern's shape.
- ScanHeadings (`Chunker.TextChunker.ScanHeadings`): heading numbers are ASCII
  digits only.
- ChunkBySections (`Chunker.TextChunker.ChunkBySections`): heading numbers are
  ASCII digits only. Long sections are re-chunked with the corrected break
  point (see ChunkParts below).
- RuleViolation (`Guardrails.RuleViolation`), and through it Violations,
  Check, CheckRule, CollectViolations and CheckGuardrails: the
  specific_lawyer rule's phone pattern counts ASCII digits only.
- RemoveMarkers (`RagRetriever.RemoveMarkers`) and RemovePageNumbers
  (`RagRetriever.RemovePageNumbers`): the numbers they remove are ASCII digits
  only.
- Show (`Patterns.Show`): a tuple item is rendered as `repr` renders a string
  that holds no quote, backslash or control character. This holds for every
  group of the tables, since each group's text is one of its literal options
  up to case.
- The language model, the embedding call, the vector store, Supabase and the
  file libraries are parameters. The prompt texts are constants. The model
  sees the prompt text only through the `Request` it is sent (the template's
  parameters) and through `Prompts.Format`, which decides whether the
  template can be filled at all.
- Classify (`Nodes.Classify`): the node runs the corrected classifier tool
  (`Tools.ClassifierToolRunCorrected`, whose prompt has its braces escaped),
  so the model's reply is read. As written, the tool always returns the
  "unable to classify" fallback (`Tools.ClassifierAsWrittenFallsBack`); see
  "## Findings".
- ClassifyNode (`Nodes.ClassifyNode`): agrees with Classify, so it uses the
  corrected classifier tool too.
- Safety (`Nodes.Safety`): the model tier runs the corrected safety validator
  (`Tools.SafetyValidatorRunCorrected`). As written, the validator passes every
  response (`Tools.ValidatorAsWrittenPasses`); see "## Findings".
- SafetyNode (`Nodes.SafetyNode`): agrees with Safety, so it uses the
  corrected validator too.
- ModelTier (`Nodes.ModelTier`): applies the corrected validator's verdict.
- Graph.LegalTriageAgent.Run and the `Graph.RunSpec…` lemmas run the nodes
  above, so they too describe the pipeline with both prompts corrected.
- The retrieve node constructs `RetrieverTool()` outside any try
  (backend/app/agent/nodes.py:159). That builds the vector store, which builds
  the Supabase client (backend/app/db/supabase.py:53-56), and a bad URL or key
  makes it raise. The graph's handler then records the error and runs the
  error node, so such a run logs intake, classify, error. In the model the
  store is a total parameter and this raise does not happen. The members
  concerned follow.
- Retrieve (`Nodes.Retrieve`), RetrieveNode (`Nodes.RetrieveNode`) and
  RetrieveMapsRows (`Nodes.RetrieveMapsRows`): retrieval always succeeds.
- AnswerNodes (`Graph.LegalTriageAgent.AnswerNodes`) and BranchNodes
  (`Graph.LegalTriageAgent.BranchNodes`): the answer stages always reach the
  respond node.
- RunOnCopy (`Graph.LegalTriageAgent.RunOnCopy`) and Run
  (`Graph.LegalTriageAgent.Run`): a raise is modelled only from
  classification, not from constructing the retriever.
- RunSpecAnswers (`Graph.RunSpecAnswers`): an answering run always goes
  through all four answer stages.
- AnswerStagesLog (`Graph.AnswerStagesLog`): the answer stages never end
  with intake, classify, error.
- RunTrace (`Graph.RunTrace`) and RunTraceAnswers (`Graph.RunTraceAnswers`):
  the traces listed leave out intake, classify, error.
- RunFailureIsTerminal (`Graph.RunFailureIsTerminal`): covers failures before
  and during classification only.
- Python's `str()` of a non-string value is the `show` parameter.
- Timestamps are a `now` parameter. Logging and async/await are left out:
  stages run in sequence.
- Floating point: confidence arithmetic is over `real`, with no IEEE rounding
  and no NaN or infinity. `float()` of an int is exact in the model; CPython
  rounds an int that a double cannot hold exactly. The one rounding effect that
  changes control flow is modelled: an int of magnitude at least
  2^1024 - 2^970 makes `float()` raise OverflowError (`ClassifierAgent.FloatOf`).
- Python's `hash` of a content prefix (in `rag/retriever.py`) is modelled as
  equality of the 200-character prefix.
- In-place dict updates are modelled as values, except where the code relies
  on aliasing: the graph's state dict and its log list. `_post_process` also
  mutates the caller's document dicts. The model returns new dicts and does
  not show that change in the caller's list.
- A store row with a key set to None and a row without that key are the same
  in the model (`StoreDoc` fields are `Option`s).
- The response agent's `generate` prompt, `_format_domains`, `run_agent`,
  `run_agent_sync` and the graph framework's own execution are not modelled.
  `run` calls the nodes directly, as the code does.
- Chat messages in the intake and memory agents are string dicts. In the
  response agent, messages and documents are dicts of Python values
  (`ResponseAgent.Record`).
- The memory agent's `clear_session`, the loader's `load_directory` (a
  directory glob) and path normalisation in `Path` are file-system or store
  I/O.
- `_check_and_summarize` is modelled through the summary it writes
  (`SummaryWritten`), not as a sequence of store calls.
- RagRetriever.RemoveMarkers: states length and the no-marker case, not the
  exact text of every removal. RagRetriever.RemovePageNumbers is stated the
  same way.
- Chunker.TextChunker.ChunkByCharacters: requires an overlap that is 0 or
  below `chunk_size - 199`. Larger overlaps can make the Python loop go
  backwards for ever. The defaults (800 and 100) meet this. A stricter
  setting, `chunk_size >= chunk_overlap + 300`, also makes the as-written loop
  advance (`Chunker.BreakPointAsWrittenAdvances`): the as-written break is then
  at least `end - 299`. The defaults meet that too. The model still runs the
  corrected break, for the reason on the next line.
- ChunkByCharacters (`Chunker.TextChunker.ChunkByCharacters`): the loop uses
  the corrected break point (`Chunker.BreakPoint`), not the as-written one
  (`Chunker.BreakPointAsWritten`). The as-written break can land at the
  chunk's start or before it, and then the loop never ends; see "## Findings".
  Where the as-written loop does end, its chunks can differ: on
  `"a"*700 + " " + "b"*299` with size 800 and overlap 100 its first chunk is
  601 characters long, the model's 700.
- CharChunksStep (`Chunker.TextChunker.CharChunksStep`): one step of the loop
  with the corrected break point.
- CharChunksArePieces (`Chunker.TextChunker.CharChunksArePieces`): proved of
  the chunks made with the corrected break point.
- ChunkParts (`Chunker.TextChunker.ChunkParts`): long parts are re-chunked
  with the corrected break point.
- ChunkDocument (`Chunker.TextChunker.ChunkDocument`): its chunks come from
  the corrected break point.
- ChunkDocuments (`Chunker.TextChunker.ChunkDocuments`): concatenates chunks
  made with the corrected break point.
- Chunker.TextChunker.ChunkDocument: requires string (or falsy) content and
  dict metadata. Python raises on truthy content that is not a string, and on
  metadata that is not a dict once a chunk is emitted (`**metadata` is
  evaluated only in the emit loop). With falsy content, or when no chunk
  reaches the minimum size, Python returns `[]` whatever the metadata; the
  model does not cover that case. Every document the loader builds has dict
  metadata (backend/app/rag/loader.py:110, 128, 150, 250).
- Chunker.TextChunker.DocChunkAt: requires metadata keys that do not overwrite
  the chunk's own keys.
- Chunker.FirstCut: states the cut it returns, not that it is the first.
- Summarizer.ShouldSummarize: has no contract of its own. It is stated through
  `ShouldSummarizeMonotone` and the default thresholds.
- Graph.RunResponseFailure: states the response only up to the three texts
  the safety stage can leave.
- Nodes.DocBlock: states the "Unknown Act" source line and a length bound,
  not the section and content lines.
- Guardrails.SueThemIsLegalAdvice: the test's second case, that "Hello, how
  are you?" is valid, is not proved.

## Findings

| source | as written | input that shows it | evidently intended | confidence | as-written member | corrected member |
|---|---|---|---|---|---|---|
| backend/app/agents/response_agent.py:160-178 | sources are de-duplicated on the string `f"{title}_{section}"`, which is not injective | title "a_b" with section "c", and title "a" with section "b_c": one key, so the second source is dropped | one source per distinct (title, section) pair | not executed | ResponseAgent.SourcesAsWrittenCollide | ResponseAgent.SourcesOfDistinctCover |
| backend/app/agent/prompts.py:15-21 | the JSON example in `CLASSIFICATION_PROMPT` has single braces, so `format` at tools.py:44 reads `"domain": "string", …` as a field and raises `KeyError`, which tools.py:61 catches | any input: a model that would answer `{"domain": "Consumer Law", "sub_domain": "Refund", "confidence": 0.9, "missing_fields": []}` is never called, and the tool returns Unknown/Unknown with confidence 0.0 | the example's braces doubled, so the model is asked and its answer read | not executed | Tools.ClassifierAsWrittenFallsBack | Tools.ClassifierReadsFencedBlock |
| backend/app/agent/prompts.py:103-108 | the JSON example in `SAFETY_PROMPT` has single braces, so `format` at tools.py:191 raises `KeyError`, which tools.py:205 catches as a pass | any response: a model that would answer `{"valid": false, …}` is never called, and the response passes | the example's braces doubled, so the model's verdict is read | not executed | Tools.ValidatorAsWrittenPasses | Tools.ValidatorReadsFencedBlock |
| backend/app/rag/chunker.py:149-172 | the word break searches the reversed window, which runs up to 100 characters past `end`, but subtracts the offset it finds from `end` | text "ab cd" with chunk size 2 and overlap 0: the break for start 0, end 2 is 0, the chunk is empty, and `start` stays 0 for ever | a break just after the last whitespace before `end` | not executed | Chunker.BreakPointAsWrittenStalls | Chunker.BreakPointBounds |
