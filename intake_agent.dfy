/**
 * The modular intake agent: cleans and validates the user's text, tells a
 * follow-up from a new issue, and renders the recent history as context.
 */
module IntakeAgent {
  import opened Wrappers
  import opened Text
  import opened AgentState

  const MAX_INPUT_LENGTH: nat := 5000
  const MIN_INPUT_LENGTH: nat := 5

  // ===========================================================================
  // Cleaning

  /** `_clean_input`: strip, collapse every whitespace run to one space, cut to 5000 characters. */
  function Cleaned(text: string): (r: string)
    ensures |r| <= MAX_INPUT_LENGTH
    ensures Collapsed(r)
    ensures r != [] ==> !IsSpace(r[0])
    ensures r == [] <==> forall k :: 0 <= k < |text| ==> IsSpace(text[k])
  {
    if text == [] then []
    else
      var stripped := Strip(text);
      var collapsed := CollapseWhitespace(stripped);
      StripEmpty(text);
      assert collapsed != [] ==> collapsed[0] == stripped[0];
      Take(collapsed, MAX_INPUT_LENGTH)
  }

  /**
   * Cleaning leaves alone a text that is already clean: collapsed, without
   * surrounding whitespace and within the length limit.
   */
  lemma CleanedFixpoint(text: string)
    requires text != [] && Collapsed(text) && !IsSpace(text[0]) && !IsSpace(text[|text| - 1])
    requires |text| <= MAX_INPUT_LENGTH
    ensures Cleaned(text) == text
  {
    StripUnpadded(text);
    CollapseCollapsed(text);
  }

  // ===========================================================================
  // Validation

  datatype Validation = Valid | Invalid(error: string)

  const EMPTY_INPUT_ERROR: string := "Please provide a description of your legal issue."
  const SHORT_INPUT_ERROR: string := "Please provide more details about your situation."
  const ONE_WORD_ERROR: string := "Please describe your legal issue in more detail."

  /** `_validate_input`: empty, then too short, then fewer than two words; the first failing check reports. */
  function ValidateInput(text: string): (r: Validation)
    ensures text == [] ==> r == Invalid(EMPTY_INPUT_ERROR)
    ensures text != [] && |text| < MIN_INPUT_LENGTH ==> r == Invalid(SHORT_INPUT_ERROR)
    ensures |text| >= MIN_INPUT_LENGTH && |SplitWhitespace(text)| < 2 ==> r == Invalid(ONE_WORD_ERROR)
    ensures r.Valid? <==> |text| >= MIN_INPUT_LENGTH && |SplitWhitespace(text)| >= 2
  {
    if text == [] then Invalid(EMPTY_INPUT_ERROR)
    else if |text| < MIN_INPUT_LENGTH then Invalid(SHORT_INPUT_ERROR)
    else if |SplitWhitespace(text)| < 2 then Invalid(ONE_WORD_ERROR)
    else Valid
  }

  /** A cleaned input that passes validation holds at least one single space between words. */
  lemma AcceptedHasSpace(text: string)
    requires ValidateInput(Cleaned(text)).Valid?
    ensures exists k :: 0 <= k < |Cleaned(text)| && Cleaned(text)[k] == ' '
  {
    var c := Cleaned(text);
    if forall k :: 0 <= k < |c| ==> !IsSpace(c[k]) {
      SplitWhitespaceOneWord(c);
      assert false;
    }
  }

  // ===========================================================================
  // Follow-up detection

  const FOLLOWUP_INDICATORS: seq<string> := [
    "what about", "and also", "additionally", "moreover", "regarding that",
    "about that", "you mentioned", "as i said", "like i mentioned"
  ]

  const PRONOUNS: seq<string> := ["it", "this", "that", "they", "them"]

  /**
   * With a non-empty history: some indicator phrase occurs in the lowercased
   * input, or its first word is one of the pronouns.
   */
  predicate IsFollowup(input: string, history: Option<seq<RawMessage>>) {
    && history.Some? && history.value != []
    && ((exists i :: 0 <= i < |FOLLOWUP_INDICATORS| && Contains(Lower(input), FOLLOWUP_INDICATORS[i]))
        || (var words := SplitWhitespace(Lower(input)); words != [] && words[0] in PRONOUNS))
  }

  /** `_detect_followup`: the indicator scan with early return, then the pronoun check. */
  method DetectFollowup(input: string, history: Option<seq<RawMessage>>) returns (r: bool)
    ensures r == IsFollowup(input, history)
  {
    if history.None? || history.value == [] {
      return false;
    }
    var lower := Lower(input);
    for i := 0 to |FOLLOWUP_INDICATORS|
      invariant forall j :: 0 <= j < i ==> !Contains(lower, FOLLOWUP_INDICATORS[j])
    {
      if IndexOf(lower, FOLLOWUP_INDICATORS[i]).Some? {
        return true;
      }
    }
    var words := SplitWhitespace(lower);
    if words != [] && words[0] in PRONOUNS {
      return true;
    }
    return false;
  }

  /** Detection ignores letter case: lowering the input first changes nothing. */
  lemma FollowupIgnoresCase(input: string, history: Option<seq<RawMessage>>)
    ensures IsFollowup(Lower(input), history) == IsFollowup(input, history)
  {
    LowerIdempotent(input);
  }

  // ===========================================================================
  // Context

  const CONTEXT_MESSAGES: nat := 10
  const CONTEXT_CONTENT_LIMIT: nat := 500

  /** Content over 500 characters becomes its first 500 and "...". */
  function Truncated(content: string): (c: string)
    ensures |content| <= CONTEXT_CONTENT_LIMIT ==> c == content
    ensures |content| > CONTEXT_CONTENT_LIMIT ==> |c| == CONTEXT_CONTENT_LIMIT + 3 && c[..CONTEXT_CONTENT_LIMIT] == content[..CONTEXT_CONTENT_LIMIT]
  {
    if |content| > CONTEXT_CONTENT_LIMIT then content[..CONTEXT_CONTENT_LIMIT] + "..." else content
  }

  /** One line of context: the capitalised role (default "user") and the truncated content. */
  function ContextLine(m: RawMessage): string {
    Capitalize(m.role.GetOr("user")) + ": " + Truncated(m.content.GetOr(""))
  }

  /** One context line per message, in order. */
  function Lines(ms: seq<RawMessage>): (lines: seq<string>)
    ensures |lines| == |ms|
  {
    if ms == [] then [] else Lines(ms[..|ms| - 1]) + [ContextLine(ms[|ms| - 1])]
  }

  lemma {:induction false} LinesAt(ms: seq<RawMessage>, k: nat)
    requires k < |ms|
    ensures Lines(ms)[k] == ContextLine(ms[k])
  {
    if k < |ms| - 1 {
      LinesAt(ms[..|ms| - 1], k);
    }
  }

  lemma LinesStep(ms: seq<RawMessage>, i: nat)
    requires i < |ms|
    ensures Lines(ms[..i + 1]) == Lines(ms[..i]) + [ContextLine(ms[i])]
  {
    assert ms[..i + 1][..i] == ms[..i];
  }

  /** The lines of the context: one per message among the ten newest, oldest first. */
  function ContextLines(h: seq<RawMessage>): (lines: seq<string>)
    ensures |lines| == if |h| <= CONTEXT_MESSAGES then |h| else CONTEXT_MESSAGES
  {
    Lines(Last(h, CONTEXT_MESSAGES))
  }

  /** Line i of the context renders the i-th of the newest (at most ten) messages. */
  lemma ContextLinesAt(h: seq<RawMessage>, i: nat)
    requires i < |ContextLines(h)|
    ensures ContextLines(h)[i] == ContextLine(h[|h| - |ContextLines(h)| + i])
  {
    LinesAt(Last(h, CONTEXT_MESSAGES), i);
  }

  /** The context string: "" without history, else the lines joined by newlines. */
  function ContextOf(history: Option<seq<RawMessage>>): string {
    match history
    case None => ""
    case Some(h) => if h == [] then "" else Join(ContextLines(h), "\n")
  }

  /** The newest message always closes the context. */
  lemma ContextEndsWithNewest(h: seq<RawMessage>)
    requires h != []
    ensures var ctx := ContextOf(Some(h));
            var last := ContextLine(h[|h| - 1]);
            |last| <= |ctx| && ctx[|ctx| - |last|..] == last
  {
    var lines := ContextLines(h);
    var n := |lines|;
    ContextLinesAt(h, n - 1);
    if n == 1 {
      assert lines == [lines[0]];
    } else {
      assert lines == lines[..n - 1] + [lines[n - 1]];
      JoinAppend(lines[..n - 1], lines[n - 1], "\n");
    }
  }

  /** `_build_context`: the loop appending one line per recent message, then the join. */
  method BuildContext(history: Option<seq<RawMessage>>) returns (context: string)
    ensures context == ContextOf(history)
  {
    if history.None? || history.value == [] {
      return "";
    }
    var recent := Last(history.value, CONTEXT_MESSAGES);
    var parts: seq<string> := [];
    for i := 0 to |recent|
      invariant parts == Lines(recent[..i])
    {
      var msg := recent[i];
      var role := Capitalize(msg.role.GetOr("user"));
      var content := msg.content.GetOr("");
      if |content| > CONTEXT_CONTENT_LIMIT {
        content := content[..CONTEXT_CONTENT_LIMIT] + "...";
      }
      LinesStep(recent, i);
      parts := parts + [role + ": " + content];
    }
    assert recent[..|recent|] == recent;
    context := Join(parts, "\n");
  }

  // ===========================================================================
  // Process

  datatype IntakeResult =
    | Rejected(error: string, cleanedInput: string)
    | Accepted(cleanedInput: string, isFollowup: bool, context: string, contextLength: nat, timestamp: string)

  /** `process`; `now` stands for the current UTC time. */
  method Process(userInput: string, history: Option<seq<RawMessage>>, now: string) returns (r: IntakeResult)
    ensures r.cleanedInput == Cleaned(userInput)
    ensures r.Rejected? <==> ValidateInput(Cleaned(userInput)).Invalid?
    ensures r.Rejected? ==> r.error == ValidateInput(Cleaned(userInput)).error
    ensures r.Accepted? ==>
              && r.isFollowup == IsFollowup(r.cleanedInput, history)
              && r.context == ContextOf(history)
              && r.contextLength == |r.context|
              && r.timestamp == now
  {
    var cleaned := Cleaned(userInput);
    var validation := ValidateInput(cleaned);
    if validation.Invalid? {
      return Rejected(validation.error, cleaned);
    }
    var followup := DetectFollowup(cleaned, history);
    var context := BuildContext(history);
    return Accepted(cleaned, followup, context, |context|, now);
  }
}
