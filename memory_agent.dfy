/**
 * The memory agent: saving a message to the long-term store (and summarising
 * the session once it grows past 20 messages), loading a session's history
 * with its summary in front, the transcript it hands to the summarising model,
 * and its token estimate. The long-term store and the model are parameters:
 * each store call either answers or raises.
 */
module MemoryAgent {
  import opened Wrappers
  import opened Text
  import opened Llm
  import Summarizer

  type Record = Summarizer.Record

  /** What one call into the long-term store gives: its answer, or the message of the exception it raised. */
  datatype Outcome<T> = Done(value: T) | Failed(message: string)

  // ===========================================================================
  // `_format_conversation`

  const LINE_CONTENT_LIMIT: nat := 500

  /** One transcript line: the capitalised role (default "user"), ": ", the first 500 characters of the content. */
  function Line(m: Record): string {
    Capitalize(Summarizer.Field(m, "role", "user")) + ": " + Take(Summarizer.Field(m, "content", ""), LINE_CONTENT_LIMIT)
  }

  function Lines(ms: seq<Record>): (ls: seq<string>)
    ensures |ls| == |ms|
  {
    if ms == [] then [] else Lines(ms[..|ms| - 1]) + [Line(ms[|ms| - 1])]
  }

  lemma {:induction false} LinesAt(ms: seq<Record>, k: nat)
    requires k < |ms|
    ensures Lines(ms)[k] == Line(ms[k])
  {
    if k < |ms| - 1 {
      LinesAt(ms[..|ms| - 1], k);
    }
  }

  /** The text `_format_conversation` builds: one line per message. */
  function ConversationText(ms: seq<Record>): string {
    Join(Lines(ms), "\n")
  }

  /** `_format_conversation` */
  method FormatConversation(ms: seq<Record>) returns (s: string)
    ensures s == ConversationText(ms)
  {
    var formatted: seq<string> := [];
    for i := 0 to |ms|
      invariant formatted == Lines(ms[..i])
    {
      assert ms[..i + 1][..i] == ms[..i];
      var role := Capitalize(Summarizer.Field(ms[i], "role", "user"));
      var content := Take(Summarizer.Field(ms[i], "content", ""), LINE_CONTENT_LIMIT);
      formatted := formatted + [role + ": " + content];
    }
    assert ms[..|ms|] == ms;
    s := Join(formatted, "\n");
  }

  /**
   * The agent's line and the summariser's block agree on a message of at most
   * 500 characters; on a longer one the block adds the "..." the line leaves out.
   */
  lemma LineAgainstBlock(m: Record)
    ensures var c := Summarizer.Field(m, "content", "");
            (|c| <= LINE_CONTENT_LIMIT ==> Summarizer.Block(m) == Line(m)) &&
            (|c| > LINE_CONTENT_LIMIT ==> Summarizer.Block(m) == Line(m) + Summarizer.ELLIPSIS)
  {
  }

  // ===========================================================================
  // `estimate_tokens`

  /** The summed length of the messages' contents (a missing content counts as ""). */
  function TotalContent(ms: seq<Record>): nat {
    if ms == [] then 0 else TotalContent(ms[..|ms| - 1]) + |Summarizer.Field(ms[|ms| - 1], "content", "")|
  }

  /** `estimate_tokens`: four characters to a token, rounded down. */
  function EstimateTokens(ms: seq<Record>): (r: nat)
    ensures 4 * r <= TotalContent(ms) < 4 * r + 4
  {
    TotalContent(ms) / 4
  }

  /** A further message never lowers the estimate, and raises it by at most a quarter of its length, rounded up. */
  lemma EstimateTokensAppend(ms: seq<Record>, m: Record)
    ensures EstimateTokens(ms) <= EstimateTokens(ms + [m])
    ensures 4 * EstimateTokens(ms + [m]) <= 4 * EstimateTokens(ms) + |Summarizer.Field(m, "content", "")| + 3
  {
    assert (ms + [m])[..|ms|] == ms;
    assert TotalContent(ms + [m]) == TotalContent(ms) + |Summarizer.Field(m, "content", "")|;
  }

  // ===========================================================================
  // `_check_and_summarize`, `_summarize_session` and `save`

  const SUMMARIZE_AFTER: nat := 20
  const KEEP_RECENT: nat := 10
  const RECENT_LIMIT: nat := 100

  /** `messages[:-10]`: all but the last ten messages (none when there are fewer). */
  function Older(ms: seq<Record>): seq<Record> {
    if |ms| >= KEEP_RECENT then ms[..|ms| - KEEP_RECENT] else []
  }

  /**
   * The summary `_check_and_summarize` writes back to the store, if any: only
   * with a model, only when the recent history (up to 100 messages) could be
   * read and holds more than 20 messages, and only when the model answers; it is
   * the stripped reply to the transcript of all but the last 10 messages.
   */
  function SummaryWritten(hasModel: bool, recent: Outcome<seq<Record>>, model: Summarizer.Model): Option<string> {
    if !hasModel || recent.Failed? || |recent.value| <= SUMMARIZE_AFTER then None
    else
      match model(ConversationText(Older(recent.value)))
      case Text(content) => Some(Strip(content))
      case Raised(_) => None
  }

  /**
   * A summary is written only for a history of more than 20 messages, and it
   * summarises the older part: more than 10 messages, the last 10 left out.
   */
  lemma SummaryCoversAllButLastTen(hasModel: bool, recent: Outcome<seq<Record>>, model: Summarizer.Model)
    requires SummaryWritten(hasModel, recent, model).Some?
    ensures hasModel && recent.Done? && |recent.value| > SUMMARIZE_AFTER
    ensures var ms := recent.value;
            |Older(ms)| == |ms| - KEEP_RECENT > KEEP_RECENT && Older(ms) + ms[|ms| - KEEP_RECENT..] == ms
    ensures var reply := model(ConversationText(Older(recent.value)));
            reply.Text? && SummaryWritten(hasModel, recent, model) == Some(Strip(reply.content))
  {
    var ms := recent.value;
    assert Older(ms) + ms[|ms| - KEEP_RECENT..] == ms;
  }

  /** The result of `save`: whether it reports success, and the summary it wrote back, if any. */
  datatype SaveResult = SaveResult(ok: bool, summary: Option<string>)

  /**
   * `save`: True exactly when storing the message succeeded; the summarisation
   * check that follows swallows its own errors, so it never changes the answer.
   */
  function Save(stored: Outcome<()>, hasModel: bool, recent: Outcome<seq<Record>>, model: Summarizer.Model): (r: SaveResult)
    ensures r.ok <==> stored.Done?
    ensures !r.ok ==> r.summary.None?
    ensures r.ok ==> r.summary == SummaryWritten(hasModel, recent, model)
  {
    if stored.Failed? then SaveResult(false, None)
    else SaveResult(true, SummaryWritten(hasModel, recent, model))
  }

  /** Without a model, or with a short history, `save` never summarises. */
  lemma SaveWithoutSummary(stored: Outcome<()>, hasModel: bool, recent: Outcome<seq<Record>>, model: Summarizer.Model)
    requires !hasModel || (recent.Done? && |recent.value| <= SUMMARIZE_AFTER)
    ensures Save(stored, hasModel, recent, model).summary.None?
  {
  }

  // ===========================================================================
  // `load`

  /** `limit or self.max_messages`: a missing or zero limit falls back to the configured maximum. */
  function EffectiveLimit(limit: Option<int>, maxMessages: int): (r: int)
    ensures limit.Some? && limit.value != 0 ==> r == limit.value
    ensures limit.None? || limit.value == 0 ==> r == maxMessages
  {
    if limit.Some? && limit.value != 0 then limit.value else maxMessages
  }

  /** The system message that carries a stored summary. */
  function SummaryRecord(summary: string, now: string): Record {
    map["role" := "system", "content" := "Previous conversation summary: " + summary, "created_at" := now]
  }

  /**
   * `load` as a value: the session's messages under the effective limit, with a
   * stored non-empty summary put in front as a system message; [] when either
   * store call raises.
   */
  function Loaded(limit: Option<int>, maxMessages: int, fetch: int -> Outcome<seq<Record>>,
                  summary: Outcome<Option<string>>, now: string): seq<Record>
  {
    match fetch(EffectiveLimit(limit, maxMessages))
    case Failed(_) => []
    case Done(ms) =>
      match summary
      case Failed(_) => []
      case Done(s) => if s.Some? && s.value != [] then [SummaryRecord(s.value, now)] + ms else ms
  }

  /** `load`: fetch, then insert the summary record at index 0. */
  method Load(limit: Option<int>, maxMessages: int, fetch: int -> Outcome<seq<Record>>,
              summary: Outcome<Option<string>>, now: string) returns (r: seq<Record>)
    ensures r == Loaded(limit, maxMessages, fetch, summary, now)
  {
    var lim := if limit.Some? && limit.value != 0 then limit.value else maxMessages;
    var fetched := fetch(lim);
    if fetched.Failed? {
      return [];
    }
    var messages := fetched.value;
    if summary.Failed? {
      return [];
    }
    if summary.value.Some? && summary.value.value != [] {
      messages := [SummaryRecord(summary.value.value, now)] + messages;
    }
    r := messages;
  }

  /**
   * What `load` returns, case by case: nothing on a store error; otherwise the
   * fetched history, preceded by exactly one system record quoting the summary
   * when a non-empty one is stored.
   */
  lemma LoadedPrependsSummary(limit: Option<int>, maxMessages: int, fetch: int -> Outcome<seq<Record>>,
                              summary: Outcome<Option<string>>, now: string)
    ensures var r := Loaded(limit, maxMessages, fetch, summary, now);
            var fetched := fetch(EffectiveLimit(limit, maxMessages));
            (fetched.Failed? || summary.Failed? ==> r == []) &&
            (fetched.Done? && summary.Done? && summary.value.Some? && summary.value.value != [] ==>
               |r| == |fetched.value| + 1 && r[1..] == fetched.value &&
               r[0]["role"] == "system" && IsPrefix("Previous conversation summary: ", r[0]["content"]) &&
               EndsWith(r[0]["content"], summary.value.value)) &&
            (fetched.Done? && summary.Done? && (summary.value.None? || summary.value.value == []) ==> r == fetched.value)
  {
    var fetched := fetch(EffectiveLimit(limit, maxMessages));
    if fetched.Done? && summary.Done? && summary.value.Some? && summary.value.value != [] {
      var r := Loaded(limit, maxMessages, fetch, summary, now);
      ConcatStarts("Previous conversation summary: ", summary.value.value);
      ConcatEnds("Previous conversation summary: ", summary.value.value);
      assert r[1..] == fetched.value;
    }
  }
}
