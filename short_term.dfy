/**
 * Short-term memory: the in-process conversation buffer of one session, a
 * bounded first-in-first-out queue of messages with a character-budgeted
 * context rendering.
 */
module ShortTerm {
  import opened Wrappers
  import opened Text
  import opened JsonValue

  /** One buffered message; `now` supplies the timestamp when it is added. */
  datatype Message = Message(role: string, content: string, metadata: map<string, Json>, timestamp: string)

  /** The LangChain message kinds a buffered message converts to. */
  datatype ChatMessage = Human(content: string) | Ai(content: string) | System(content: string)

  // ===========================================================================
  // Specification functions

  /**
   * The buffer after appending `m` to a deque of maximum length `max`: the
   * message goes at the end and, when the buffer was full, the oldest one leaves.
   */
  function Admitted(buffer: seq<Message>, m: Message, max: nat): (r: seq<Message>)
    requires |buffer| <= max
    ensures |r| <= max
    ensures max > 0 ==> r != [] && r[|r| - 1] == m
    ensures |buffer| < max ==> r == buffer + [m]
    ensures 0 < |buffer| == max ==> r == buffer[1..] + [m]
    ensures max == 0 ==> r == []
  {
    if max == 0 then [] else Last(buffer + [m], max)
  }

  /** One rendered line of the context: the capitalised role, ": ", the content. */
  function Part(m: Message): string {
    Capitalize(m.role) + ": " + m.content
  }

  function Parts(ms: seq<Message>): (ps: seq<string>)
    ensures |ps| == |ms|
  {
    if ms == [] then [] else Parts(ms[..|ms| - 1]) + [Part(ms[|ms| - 1])]
  }

  lemma {:induction false} PartsAt(ms: seq<Message>, k: nat)
    requires k < |ms|
    ensures Parts(ms)[k] == Part(ms[k])
  {
    if k < |ms| - 1 {
      PartsAt(ms[..|ms| - 1], k);
    }
  }

  /** The summed length of the parts ps[lo..hi]. */
  function SumRange(ps: seq<string>, lo: nat, hi: nat): nat
    requires lo <= hi <= |ps|
    decreases hi - lo
  {
    if lo == hi then 0 else SumRange(ps, lo, hi - 1) + |ps[hi - 1]|
  }

  lemma {:induction false} SumRangeCons(ps: seq<string>, lo: nat, hi: nat)
    requires lo < hi <= |ps|
    ensures SumRange(ps, lo, hi) == |ps[lo]| + SumRange(ps, lo + 1, hi)
    decreases hi - lo
  {
    if lo + 1 < hi {
      SumRangeCons(ps, lo, hi - 1);
    }
  }

  /**
   * How many of the parts ps[..hi], newest first, fit into `budget` characters
   * when the scan stops at the first one that would overflow.
   */
  function FitUpTo(ps: seq<string>, hi: nat, budget: int): (n: nat)
    requires hi <= |ps|
    ensures n <= hi
    decreases hi
  {
    if hi == 0 then 0
    else if |ps[hi - 1]| > budget then 0
    else 1 + FitUpTo(ps, hi - 1, budget - |ps[hi - 1]|)
  }

  /** The number of newest parts `get_context_string` keeps. */
  function Fit(ps: seq<string>, budget: int): (n: nat)
    ensures n <= |ps|
  {
    FitUpTo(ps, |ps|, budget)
  }

  /** The kept parts never exceed the budget. */
  lemma {:induction false} FitWithinBudget(ps: seq<string>, hi: nat, budget: int)
    requires hi <= |ps|
    ensures var n := FitUpTo(ps, hi, budget); n == 0 || SumRange(ps, hi - n, hi) <= budget
    decreases hi
  {
    if hi > 0 && |ps[hi - 1]| <= budget {
      FitWithinBudget(ps, hi - 1, budget - |ps[hi - 1]|);
    }
  }

  /** The scan stops exactly at the first part that would overflow: one more would exceed the budget. */
  lemma {:induction false} FitStopsAtOverflow(ps: seq<string>, hi: nat, budget: int)
    requires hi <= |ps| && FitUpTo(ps, hi, budget) < hi
    ensures var n := FitUpTo(ps, hi, budget); SumRange(ps, hi - n, hi) + |ps[hi - n - 1]| > budget
    decreases hi
  {
    if |ps[hi - 1]| <= budget {
      FitStopsAtOverflow(ps, hi - 1, budget - |ps[hi - 1]|);
    }
  }

  /** `get_context_string` as a value: the newest messages that fit, oldest first, one per line. */
  function ContextString(ms: seq<Message>, maxChars: int): string {
    var ps := Parts(ms);
    Join(ps[|ps| - Fit(ps, maxChars)..], "\n")
  }

  /**
   * The context keeps the newest parts whose summed length stays within the
   * budget, and it stops exactly where the next older part would overflow it.
   */
  lemma {:induction false} ContextKeepsNewestWithinBudget(ms: seq<Message>, maxChars: int)
    ensures var ps := Parts(ms); var n := Fit(ps, maxChars);
            (n == 0 || SumRange(ps, |ps| - n, |ps|) <= maxChars) &&
            (n < |ps| ==> SumRange(ps, |ps| - n, |ps|) + |ps[|ps| - n - 1]| > maxChars)
  {
    FitKeepsNewest(Parts(ms), maxChars);
  }

  lemma FitKeepsNewest(ps: seq<string>, budget: int)
    ensures var n := Fit(ps, budget);
            (n == 0 || SumRange(ps, |ps| - n, |ps|) <= budget) &&
            (n < |ps| ==> SumRange(ps, |ps| - n, |ps|) + |ps[|ps| - n - 1]| > budget)
  {
    FitWithinBudget(ps, |ps|, budget);
    if Fit(ps, budget) < |ps| {
      FitStopsAtOverflow(ps, |ps|, budget);
    }
  }

  /** The newest user message's content, if any. */
  function LastUserContent(ms: seq<Message>): (r: Option<string>)
    ensures r.Some? <==> exists i :: 0 <= i < |ms| && ms[i].role == "user"
    ensures r.Some? ==> exists i :: 0 <= i < |ms| && ms[i].role == "user" && ms[i].content == r.value
                                    && forall j :: i < j < |ms| ==> ms[j].role != "user"
  {
    if ms == [] then None
    else if ms[|ms| - 1].role == "user" then Some(ms[|ms| - 1].content)
    else
      var r := LastUserContent(ms[..|ms| - 1]);
      assert forall i :: 0 <= i < |ms| - 1 ==> ms[..|ms| - 1][i] == ms[i];
      r
  }

  /** A message's LangChain form: user, assistant and system roles convert; any other role is dropped. */
  function ChatOf(m: Message): Option<ChatMessage> {
    if m.role == "user" then Some(Human(m.content))
    else if m.role == "assistant" then Some(Ai(m.content))
    else if m.role == "system" then Some(System(m.content))
    else None
  }

  function ChatOfEach(ms: seq<Message>): (cs: seq<Option<ChatMessage>>)
    ensures |cs| == |ms| && forall i :: 0 <= i < |ms| ==> cs[i] == ChatOf(ms[i])
  {
    seq(|ms|, i requires 0 <= i < |ms| => ChatOf(ms[i]))
  }

  /** The LangChain messages of a buffer: the convertible messages, in order. */
  function Chats(ms: seq<Message>): seq<ChatMessage> {
    Somes(ChatOfEach(ms))
  }

  /** A buffer whose roles are all user, assistant or system converts one for one, content unchanged. */
  lemma ChatsKnownRoles(ms: seq<Message>)
    requires forall i :: 0 <= i < |ms| ==> ms[i].role in {"user", "assistant", "system"}
    ensures |Chats(ms)| == |ms|
    ensures forall i :: 0 <= i < |ms| ==> Chats(ms)[i].content == ms[i].content
  {
    var cs := ChatOfEach(ms);
    var idx := SomesIndices(cs);
    assert forall i :: 0 <= i < |cs| ==> i in idx;
    SomesAllPresent(cs);
  }

  lemma {:induction false} SomesAllPresent<T>(xs: seq<Option<T>>)
    requires forall i :: 0 <= i < |xs| ==> xs[i].Some?
    ensures |Somes(xs)| == |xs|
    ensures forall i :: 0 <= i < |xs| ==> Somes(xs)[i] == xs[i].value
    decreases |xs|
  {
    if xs != [] {
      var init := xs[..|xs| - 1];
      SomesAllPresent(init);
      assert forall i :: 0 <= i < |init| ==> init[i] == xs[i];
    }
  }

  // ===========================================================================
  // The buffer

  class ConversationMemory {
    const maxMessages: nat
    var messages: seq<Message>

    ghost predicate Valid()
      reads this
    {
      |messages| <= maxMessages
    }

    constructor (maxMessages: nat)
      ensures Valid()
      ensures this.maxMessages == maxMessages && messages == []
    {
      this.maxMessages := maxMessages;
      messages := [];
    }

    /** `add_message`: metadata defaults to an empty dict; a full buffer drops its oldest message. */
    method AddMessage(role: string, content: string, metadata: Option<map<string, Json>>, now: string)
      requires Valid()
      modifies this
      ensures Valid()
      ensures messages == Admitted(old(messages), Message(role, content, metadata.GetOr(map[]), now), maxMessages)
    {
      var message := Message(role, content, metadata.GetOr(map[]), now);
      if maxMessages == 0 {
        return;
      }
      if |messages| == maxMessages {
        messages := messages[1..];
      }
      messages := messages + [message];
    }

    method AddUserMessage(content: string, now: string)
      requires Valid()
      modifies this
      ensures Valid()
      ensures messages == Admitted(old(messages), Message("user", content, map[], now), maxMessages)
    {
      AddMessage("user", content, None, now);
    }

    method AddAssistantMessage(content: string, metadata: Option<map<string, Json>>, now: string)
      requires Valid()
      modifies this
      ensures Valid()
      ensures messages == Admitted(old(messages), Message("assistant", content, metadata.GetOr(map[]), now), maxMessages)
    {
      AddMessage("assistant", content, metadata, now);
    }

    /**
     * `get_messages`: all messages, or `messages[-limit:]` for a non-zero limit —
     * the newest `limit` for a positive one; a negative one drops the oldest -limit.
     */
    method GetMessages(limit: Option<int>) returns (r: seq<Message>)
      ensures limit.None? || limit.value == 0 ==> r == messages
      ensures limit.Some? && limit.value > 0 ==> r == Last(messages, limit.value as nat)
      ensures limit.Some? && limit.value < 0 ==>
                r == messages[if -limit.value <= |messages| then -limit.value else |messages|..]
    {
      r := messages;
      if limit.Some? && limit.value != 0 {
        r := SliceFrom(r, -limit.value);
      }
    }

    /** `get_context_string`: newest first while the running total stays within `maxChars`, prepending each part. */
    method GetContextString(maxChars: int) returns (s: string)
      ensures s == ContextString(messages, maxChars)
    {
      s := RenderContext(messages, maxChars);
    }

    /** `get_last_message`: the newest message, or None when empty. */
    method GetLastMessage() returns (r: Option<Message>)
      ensures r.None? <==> messages == []
      ensures r.Some? ==> r.value == messages[|messages| - 1]
    {
      if messages != [] {
        return Some(messages[|messages| - 1]);
      }
      return None;
    }

    /** `get_last_user_message`: scan newest first for a user message. */
    method GetLastUserMessage() returns (r: Option<string>)
      ensures r == LastUserContent(messages)
    {
      var i := |messages|;
      while i > 0
        invariant 0 <= i <= |messages|
        invariant LastUserContent(messages) == LastUserContent(messages[..i])
      {
        assert messages[..i][..i - 1] == messages[..i - 1];
        if messages[i - 1].role == "user" {
          return Some(messages[i - 1].content);
        }
        i := i - 1;
      }
      return None;
    }

    method Clear()
      requires Valid()
      modifies this
      ensures Valid() && messages == []
    {
      messages := [];
    }

    /** `to_langchain_messages`: the messages with a known role, converted, in order. */
    method ToChatMessages() returns (r: seq<ChatMessage>)
      ensures r == Chats(messages)
    {
      var ms := messages;
      ghost var cs := ChatOfEach(ms);
      r := [];
      for i := 0 to |ms|
        invariant r == Somes(cs[..i])
      {
        SomesPrefix(cs, i);
        assert cs[i] == ChatOf(ms[i]);
        var role := ms[i].role;
        var content := ms[i].content;
        if role == "user" {
          r := r + [Human(content)];
        } else if role == "assistant" {
          r := r + [Ai(content)];
        } else if role == "system" {
          r := r + [System(content)];
        }
      }
      SomesWhole(cs);
    }

    /** `__len__` */
    function Length(): (n: nat)
      reads this
      ensures n == |messages|
    {
      |messages|
    }

    /** `__bool__`: true exactly when some message is buffered. */
    predicate NonEmpty()
      reads this
    {
      |messages| > 0
    }
  }

  lemma FitUpToStep(ps: seq<string>, hi: nat, budget: int)
    requires 0 < hi <= |ps| && |ps[hi - 1]| <= budget
    ensures FitUpTo(ps, hi, budget) == 1 + FitUpTo(ps, hi - 1, budget - |ps[hi - 1]|)
  {
  }

  /** What the loop of `get_context_string` knows after taking the parts from position i on. */
  ghost predicate TakenFrom(ps: seq<string>, maxChars: int, i: nat, parts: seq<string>, total: int) {
    && i <= |ps|
    && parts == ps[i..]
    && total == SumRange(ps, i, |ps|)
    && Fit(ps, maxChars) == (|ps| - i) + FitUpTo(ps, i, maxChars - total)
  }

  /** Taking one more part, when it fits the remaining budget, keeps `TakenFrom`. */
  lemma TakeOneMore(ps: seq<string>, maxChars: int, i: nat, parts: seq<string>, total: int)
    requires TakenFrom(ps, maxChars, i, parts, total) && 0 < i && total + |ps[i - 1]| <= maxChars
    ensures TakenFrom(ps, maxChars, i - 1, [ps[i - 1]] + parts, total + |ps[i - 1]|)
  {
    assert ps[i - 1..] == [ps[i - 1]] + parts;
    FitUpToStep(ps, i, maxChars - total);
    SumRangeCons(ps, i - 1, |ps|);
  }

  /** Once the next older part does not fit, or none is left, the taken parts are the ones `Fit` keeps. */
  lemma TakenAll(ps: seq<string>, maxChars: int, i: nat, parts: seq<string>, total: int)
    requires TakenFrom(ps, maxChars, i, parts, total)
    requires i == 0 || total + |ps[i - 1]| > maxChars
    ensures parts == ps[|ps| - Fit(ps, maxChars)..]
  {
  }

  /** The loop of `get_context_string` over a snapshot of the buffer. */
  method RenderContext(ms: seq<Message>, maxChars: int) returns (s: string)
    ensures s == ContextString(ms, maxChars)
  {
    ghost var ps := Parts(ms);
    var parts: seq<string> := [];
    var total := 0;
    var i: nat := |ms|;
    while i > 0
      invariant i <= |ms| && TakenFrom(ps, maxChars, i, parts, total)
    {
      var part := Part(ms[i - 1]);
      PartsAt(ms, i - 1);
      if total + |part| > maxChars {
        break;
      }
      TakeOneMore(ps, maxChars, i, parts, total);
      parts := [part] + parts;
      total := total + |part|;
      i := i - 1;
    }
    TakenAll(ps, maxChars, i, parts, total);
    s := Join(parts, "\n");
  }

  /** After `clear` the buffer is empty and falsy. */
  lemma ClearedIsEmpty(m: ConversationMemory)
    requires m.messages == []
    ensures m.Length() == 0 && !m.NonEmpty()
  {
  }
}
