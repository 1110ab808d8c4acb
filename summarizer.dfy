/**
 * The conversation summariser: the transcript it hands to the language model,
 * the summary it returns, the summary it builds without the model when the call
 * fails, and the threshold test that decides whether to summarise at all.
 */
module Summarizer {
  import opened Wrappers
  import opened Text
  import opened Llm

  /** A stored message: a dict of string fields such as "role" and "content". */
  type Record = map<string, string>

  /** The language model as the summariser calls it: the conversation text in, a reply or an exception out. */
  type Model = string -> Reply

  /** `d.get(key, default)` on a message. */
  function Field(m: Record, key: string, default: string): (r: string)
    ensures key in m ==> r == m[key]
    ensures key !in m ==> r == default
  {
    if key in m then m[key] else default
  }

  // ===========================================================================
  // `_format_messages`

  const BLOCK_CONTENT_LIMIT: nat := 500
  const ELLIPSIS: string := "..."
  const BLOCK_SEPARATOR: string := "\n\n"

  /** The content as a transcript block shows it: over 500 characters it is cut to 500 and marked "...". */
  function Clipped(content: string): string {
    if |content| > BLOCK_CONTENT_LIMIT then content[..BLOCK_CONTENT_LIMIT] + ELLIPSIS else content
  }

  /**
   * A clipped content keeps the first 500 characters of the original, is at most
   * 503 long, and differs in length from the original only when that was over 500.
   */
  lemma ClippedKeepsHead(content: string)
    ensures IsPrefix(Take(content, BLOCK_CONTENT_LIMIT), Clipped(content))
    ensures |content| <= BLOCK_CONTENT_LIMIT ==> Clipped(content) == content
    ensures |content| > BLOCK_CONTENT_LIMIT ==> |Clipped(content)| == BLOCK_CONTENT_LIMIT + |ELLIPSIS|
    ensures |Clipped(content)| <= BLOCK_CONTENT_LIMIT + |ELLIPSIS|
  {
    if |content| > BLOCK_CONTENT_LIMIT {
      ConcatStarts(content[..BLOCK_CONTENT_LIMIT], ELLIPSIS);
    }
  }

  /** One transcript block: the capitalised role (default "user"), ": ", the clipped content (default ""). */
  function Block(m: Record): string {
    Capitalize(Field(m, "role", "user")) + ": " + Clipped(Field(m, "content", ""))
  }

  /** The blocks of a conversation, one per message, in order. */
  function Blocks(ms: seq<Record>): (bs: seq<string>)
    ensures |bs| == |ms|
  {
    if ms == [] then [] else Blocks(ms[..|ms| - 1]) + [Block(ms[|ms| - 1])]
  }

  lemma {:induction false} BlocksAt(ms: seq<Record>, k: nat)
    requires k < |ms|
    ensures Blocks(ms)[k] == Block(ms[k])
  {
    if k < |ms| - 1 {
      BlocksAt(ms[..|ms| - 1], k);
    }
  }

  /** The transcript `_format_messages` builds: the blocks joined by a blank line. */
  function Transcript(ms: seq<Record>): string {
    Join(Blocks(ms), BLOCK_SEPARATOR)
  }

  /** `_format_messages`: formats each message in turn and joins the blocks. */
  method FormatMessages(ms: seq<Record>) returns (s: string)
    ensures s == Transcript(ms)
  {
    var formatted: seq<string> := [];
    for i := 0 to |ms|
      invariant formatted == Blocks(ms[..i])
    {
      assert ms[..i + 1][..i] == ms[..i];
      var role := Capitalize(Field(ms[i], "role", "user"));
      var content := Field(ms[i], "content", "");
      if |content| > BLOCK_CONTENT_LIMIT {
        content := content[..BLOCK_CONTENT_LIMIT] + ELLIPSIS;
      }
      formatted := formatted + [role + ": " + content];
    }
    assert ms[..|ms|] == ms;
    s := Join(formatted, BLOCK_SEPARATOR);
  }

  /** The transcript of one more message is the old transcript, a blank line and the new block. */
  lemma TranscriptAppend(ms: seq<Record>, m: Record)
    ensures Transcript(ms + [m]) == if ms == [] then Block(m) else Transcript(ms) + BLOCK_SEPARATOR + Block(m)
  {
    assert (ms + [m])[..|ms|] == ms;
    if ms != [] {
      JoinAppend(Blocks(ms), Block(m), BLOCK_SEPARATOR);
    }
  }

  // ===========================================================================
  // `_fallback_summary`

  const CONTENT_PREVIEW: nat := 200
  const PART_SEPARATOR: string := " | "

  predicate HasRole(m: Record, role: string) {
    "role" in m && m["role"] == role
  }

  /** `[m for m in messages if m.get("role") == role]` */
  function WithRole(ms: seq<Record>, role: string): (r: seq<Record>)
    ensures |r| <= |ms|
    ensures forall k :: 0 <= k < |r| ==> HasRole(r[k], role)
  {
    if ms == [] then []
    else
      var init := WithRole(ms[..|ms| - 1], role);
      if HasRole(ms[|ms| - 1], role) then init + [ms[|ms| - 1]] else init
  }

  /** No message has the role exactly when the filtered list is empty. */
  lemma {:induction false} WithRoleEmpty(ms: seq<Record>, role: string)
    ensures WithRole(ms, role) == [] <==> forall i :: 0 <= i < |ms| ==> !HasRole(ms[i], role)
  {
    if ms != [] {
      var init := ms[..|ms| - 1];
      WithRoleEmpty(init, role);
      assert forall i :: 0 <= i < |init| ==> init[i] == ms[i];
    }
  }

  /** The filtered list starts with the earliest message of that role. */
  lemma {:induction false} WithRoleFirst(ms: seq<Record>, role: string, i: nat)
    requires i < |ms| && HasRole(ms[i], role)
    requires forall j :: 0 <= j < i ==> !HasRole(ms[j], role)
    ensures WithRole(ms, role) != [] && WithRole(ms, role)[0] == ms[i]
  {
    var init := ms[..|ms| - 1];
    if i < |ms| - 1 {
      WithRoleFirst(init, role, i);
    } else {
      assert forall j :: 0 <= j < |init| ==> init[j] == ms[j];
      WithRoleEmpty(init, role);
    }
  }

  /** The filtered list ends with the latest message of that role. */
  lemma WithRoleLast(ms: seq<Record>, role: string, i: nat)
    requires i < |ms| && HasRole(ms[i], role)
    requires forall j :: i < j < |ms| ==> !HasRole(ms[j], role)
    ensures var r := WithRole(ms, role); r != [] && r[|r| - 1] == ms[i]
  {
    if i < |ms| - 1 {
      WithRoleSkipsTail(ms, role, i + 1);
      assert ms[..i + 1][..i] == ms[..i];
    }
    assert ms[..i + 1][..|ms[..i + 1]| - 1] == ms[..i];
  }

  /** Dropping a tail with no message of the role leaves the filtered list unchanged. */
  lemma {:induction false} WithRoleSkipsTail(ms: seq<Record>, role: string, n: nat)
    requires n <= |ms|
    requires forall j :: n <= j < |ms| ==> !HasRole(ms[j], role)
    ensures WithRole(ms, role) == WithRole(ms[..n], role)
    decreases |ms| - n
  {
    if n < |ms| {
      var init := ms[..|ms| - 1];
      assert init[..n] == ms[..n];
      WithRoleSkipsTail(init, role, n);
    } else {
      assert ms[..n] == ms;
    }
  }

  /** "Initial query: " and the first user message's first 200 characters, when there is a user message. */
  function InitialQuery(ms: seq<Record>): Option<string> {
    var users := WithRole(ms, "user");
    if users != [] then Some("Initial query: " + Take(Field(users[0], "content", ""), CONTENT_PREVIEW)) else None
  }

  /** "Last guidance: " and the last assistant message's first 200 characters, when there is one. */
  function LastGuidance(ms: seq<Record>): Option<string> {
    var assistants := WithRole(ms, "assistant");
    if assistants != [] then Some("Last guidance: " + Take(Field(assistants[|assistants| - 1], "content", ""), CONTENT_PREVIEW)) else None
  }

  function ExchangeCount(ms: seq<Record>): string {
    "Total exchanges: " + NatToString(|ms|)
  }

  function Optional(o: Option<string>): seq<string> {
    if o.Some? then [o.value] else []
  }

  /** The parts of the fallback summary, in order. */
  function FallbackParts(ms: seq<Record>): seq<string> {
    Optional(InitialQuery(ms)) + [ExchangeCount(ms)] + Optional(LastGuidance(ms))
  }

  /** `_fallback_summary`: the parts joined by " | ". */
  function FallbackSummary(ms: seq<Record>): string {
    Join(FallbackParts(ms), PART_SEPARATOR)
  }

  /** Joining an optional head, a middle and an optional tail. */
  lemma JoinAround(head: Option<string>, mid: string, tail: Option<string>, sep: string)
    ensures Join(Optional(head) + [mid] + Optional(tail), sep) ==
            (if head.Some? then head.value + sep else "") + mid + (if tail.Some? then sep + tail.value else "")
  {
    var front := Optional(head) + [mid];
    assert Join(front, sep) == (if head.Some? then head.value + sep else "") + mid by {
      JoinSingle(mid, sep);
      if head.Some? {
        JoinCons(head.value, [mid], sep);
      }
    }
    if tail.Some? {
      JoinAppend(front, tail.value, sep);
    } else {
      assert front + Optional(tail) == front;
    }
  }

  /**
   * The fallback summary spelled out: the initial query and a separator when
   * there is a user message, always the message count, and a separator and the
   * last guidance when there is an assistant message.
   */
  lemma FallbackSummarySpelled(ms: seq<Record>)
    ensures FallbackSummary(ms) ==
              (if InitialQuery(ms).Some? then InitialQuery(ms).value + PART_SEPARATOR else "")
              + ExchangeCount(ms)
              + (if LastGuidance(ms).Some? then PART_SEPARATOR + LastGuidance(ms).value else "")
  {
    JoinAround(InitialQuery(ms), ExchangeCount(ms), LastGuidance(ms), PART_SEPARATOR);
  }

  /** The initial query quotes the earliest user message, the last guidance the latest assistant message. */
  lemma FallbackQuotes(ms: seq<Record>, i: nat, j: nat)
    requires i < |ms| && HasRole(ms[i], "user") && forall k :: 0 <= k < i ==> !HasRole(ms[k], "user")
    requires j < |ms| && HasRole(ms[j], "assistant") && forall k :: j < k < |ms| ==> !HasRole(ms[k], "assistant")
    ensures InitialQuery(ms) == Some("Initial query: " + Take(Field(ms[i], "content", ""), CONTENT_PREVIEW))
    ensures LastGuidance(ms) == Some("Last guidance: " + Take(Field(ms[j], "content", ""), CONTENT_PREVIEW))
  {
    WithRoleFirst(ms, "user", i);
    WithRoleLast(ms, "assistant", j);
  }

  /** A conversation without user or assistant messages is summarised by its count alone. */
  lemma FallbackCountOnly(ms: seq<Record>)
    requires forall i :: 0 <= i < |ms| ==> !HasRole(ms[i], "user") && !HasRole(ms[i], "assistant")
    ensures FallbackSummary(ms) == ExchangeCount(ms)
  {
    WithRoleEmpty(ms, "user");
    WithRoleEmpty(ms, "assistant");
    FallbackSummarySpelled(ms);
  }

  // ===========================================================================
  // `summarize` and `should_summarize`

  /** The conversation text sent to the model: an existing (non-empty) summary goes in front of the transcript. */
  function Conversation(ms: seq<Record>, existing: Option<string>): (r: string)
    ensures existing.Some? && existing.value != [] ==>
              IsPrefix("Previous summary:\n" + existing.value + "\n\nNew messages:\n", r) && EndsWith(r, Transcript(ms))
    ensures existing.None? || existing.value == [] ==> r == Transcript(ms)
  {
    if existing.Some? && existing.value != [] then
      var head := "Previous summary:\n" + existing.value + "\n\nNew messages:\n";
      ConcatStarts(head, Transcript(ms));
      ConcatEnds(head, Transcript(ms));
      head + Transcript(ms)
    else Transcript(ms)
  }

  /**
   * `summarize`: the model's reply to the conversation, stripped; when the call
   * raises, the fallback summary of the messages instead.
   */
  function Summarize(ms: seq<Record>, existing: Option<string>, model: Model): (r: string)
    ensures model(Conversation(ms, existing)).Raised? ==> r == FallbackSummary(ms)
    ensures model(Conversation(ms, existing)).Text? ==> r == Strip(model(Conversation(ms, existing)).content)
  {
    match model(Conversation(ms, existing))
    case Text(content) => Strip(content)
    case Raised(_) => FallbackSummary(ms)
  }

  /** A failed call never loses the message count: the summary always reports it. */
  lemma SummaryOnFailureCounts(ms: seq<Record>, existing: Option<string>, model: Model)
    requires model(Conversation(ms, existing)).Raised?
    ensures Contains(Summarize(ms, existing, model), ExchangeCount(ms))
  {
    FallbackSummarySpelled(ms);
    var pre := if InitialQuery(ms).Some? then InitialQuery(ms).value + PART_SEPARATOR else "";
    var post := if LastGuidance(ms).Some? then PART_SEPARATOR + LastGuidance(ms).value else "";
    var s := Summarize(ms, existing, model);
    assert s == pre + ExchangeCount(ms) + post;
    assert OccursAt(s, ExchangeCount(ms), |pre|) by {
      assert s[|pre|..|pre| + |ExchangeCount(ms)|] == ExchangeCount(ms);
    }
  }

  const THRESHOLD_MESSAGES: int := 20
  const THRESHOLD_TOKENS: int := 4000

  /** `should_summarize`: either count over its threshold. */
  function ShouldSummarize(messageCount: int, estimatedTokens: int, thresholdMessages: int, thresholdTokens: int): (b: bool)
  {
    messageCount > thresholdMessages || estimatedTokens > thresholdTokens
  }

  /**
   * Growth never turns summarisation off, and at the default thresholds a
   * conversation of 20 messages and 4000 tokens is the largest left alone.
   */
  lemma ShouldSummarizeMonotone(c: int, t: int, c': int, t': int, tm: int, tt: int)
    requires c <= c' && t <= t'
    ensures ShouldSummarize(c, t, tm, tt) ==> ShouldSummarize(c', t', tm, tt)
    ensures !ShouldSummarize(c', t', tm, tt) ==> !ShouldSummarize(c, t, tm, tt)
    ensures !ShouldSummarize(20, 4000, THRESHOLD_MESSAGES, THRESHOLD_TOKENS)
    ensures ShouldSummarize(21, 0, THRESHOLD_MESSAGES, THRESHOLD_TOKENS) && ShouldSummarize(0, 4001, THRESHOLD_MESSAGES, THRESHOLD_TOKENS)
  {
  }
}
