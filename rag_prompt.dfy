/**
 * The prompt the plain retrieval-augmented generator sends: each retrieved
 * chunk under a "[Source: act S.section]" header, the chunks separated by a
 * blank line, then the question.
 */
module RagPrompt {
  import opened Wrappers
  import opened Text
  import opened JsonValue

  type Chunk = map<string, Json>

  /** The chunk's header and content; the act name and section default to "Unknown". */
  function Render(c: Chunk, show: Json -> string): (r: string)
    requires "content" in c
    ensures IsPrefix("[Source: ", r)
    ensures EndsWith(r, "]\n" + Display(c["content"], show))
  {
    var act := Display(Get(c, "act_name", JStr("Unknown")), show);
    var section := Display(Get(c, "section", JStr("Unknown")), show);
    var content := Display(c["content"], show);
    HeaderShape(act, section, content);
    "[Source: " + act + " S." + section + "]\n" + content
  }

  /** A header starts with "[Source: " and the content follows its closing bracket and newline. */
  lemma HeaderShape(act: string, section: string, content: string)
    ensures IsPrefix("[Source: ", "[Source: " + act + " S." + section + "]\n" + content)
    ensures EndsWith("[Source: " + act + " S." + section + "]\n" + content, "]\n" + content)
  {
    var r := "[Source: " + act + " S." + section + "]\n" + content;
    ConcatStarts("[Source: ", act + " S." + section + "]\n" + content);
    assert r == "[Source: " + (act + " S." + section + "]\n" + content);
    ConcatEnds("[Source: " + act + " S." + section, "]\n" + content);
    assert r == ("[Source: " + act + " S." + section) + ("]\n" + content);
  }

  /**
   * The rendered chunks in input order, or None when one lacks "content" (the
   * KeyError that ends `build_prompt`).
   */
  function Rendered(cs: seq<Chunk>, show: Json -> string): (r: Option<seq<string>>)
    ensures r.None? <==> exists i :: 0 <= i < |cs| && "content" !in cs[i]
    ensures r.Some? ==> |r.value| == |cs| && forall i :: 0 <= i < |cs| ==> r.value[i] == Render(cs[i], show)
  {
    if cs == [] then Some([])
    else
      var init := cs[..|cs| - 1];
      var last := cs[|cs| - 1];
      assert forall i :: 0 <= i < |init| ==> init[i] == cs[i];
      match Rendered(init, show)
      case None => None
      case Some(rs) => if "content" in last then Some(rs + [Render(last, show)]) else None
  }

  const PROMPT_HEAD: string :=
    "You are a legal assistant. " + "Answer ONLY using the context below.\n"
    + "If the answer is not present, say \"I don't know\".\n"
    + "\nContext:\n"

  /**
   * The template filled with a context and a question, stripped: the
   * instructions, the context, then the question right after "Question:",
   * ending at "Answer:".
   */
  function PromptText(context: string, question: string): (r: string)
    ensures r == PROMPT_HEAD + context + "\n\nQuestion:\n" + question + "\n\nAnswer:"
    ensures OccursAt(r, "\n\nQuestion:\n" + question, |PROMPT_HEAD| + |context|)
  {
    HeadVisible();
    Framed(PROMPT_HEAD, context, question);
    Strip("\n" + PROMPT_HEAD + context + "\n\nQuestion:\n" + question + "\n\nAnswer:\n")
  }

  lemma HeadVisible()
    ensures PROMPT_HEAD != [] && !IsSpace(PROMPT_HEAD[0])
  {
    assert PROMPT_HEAD[0] == 'Y';
  }

  /**
   * `build_prompt`: None when a chunk lacks "content"; otherwise the template
   * around the rendered chunks, joined by a blank line in input order.
   */
  function BuildPrompt(cs: seq<Chunk>, question: string, show: Json -> string): (r: Option<string>)
    ensures r.None? <==> exists i :: 0 <= i < |cs| && "content" !in cs[i]
    ensures r.Some? ==> r.value == PromptText(Join(Rendered(cs, show).value, "\n\n"), question)
  {
    match Rendered(cs, show)
    case None => None
    case Some(rs) => Some(PromptText(Join(rs, "\n\n"), question))
  }

  /** With no chunks the context is empty. */
  lemma BuildPromptNoChunks(question: string, show: Json -> string)
    ensures BuildPrompt([], question, show) == Some(PROMPT_HEAD + "\n\nQuestion:\n" + question + "\n\nAnswer:")
  {
    assert Join(Rendered([], show).value, "\n\n") == "";
    assert PROMPT_HEAD + "" == PROMPT_HEAD;
  }

  /** The template's shape, for any head that starts with a visible character. */
  lemma Framed(head: string, context: string, question: string)
    requires head != [] && !IsSpace(head[0])
    ensures Strip("\n" + head + context + "\n\nQuestion:\n" + question + "\n\nAnswer:\n")
            == head + context + "\n\nQuestion:\n" + question + "\n\nAnswer:"
    ensures OccursAt(head + context + "\n\nQuestion:\n" + question + "\n\nAnswer:", "\n\nQuestion:\n" + question, |head| + |context|)
  {
    FramedStrip(head, context, question);
    FramedQuestion(head, context, question);
  }

  lemma FramedStrip(head: string, context: string, question: string)
    requires head != [] && !IsSpace(head[0])
    ensures Strip("\n" + head + context + "\n\nQuestion:\n" + question + "\n\nAnswer:\n")
            == head + context + "\n\nQuestion:\n" + question + "\n\nAnswer:"
  {
    var tail := "\n\nAnswer:";
    var body := head + context + "\n\nQuestion:\n" + question + tail;
    assert body[0] == head[0];
    assert body[|body| - 1] == tail[|tail| - 1] == ':';
    assert "\n" + head + context + "\n\nQuestion:\n" + question + "\n\nAnswer:\n" == "\n" + body + "\n";
    StripFramed(body);
  }

  lemma FramedQuestion(head: string, context: string, question: string)
    ensures OccursAt(head + context + "\n\nQuestion:\n" + question + "\n\nAnswer:", "\n\nQuestion:\n" + question, |head| + |context|)
  {
    var pre := head + context;
    var q := "\n\nQuestion:\n" + question;
    var tail := "\n\nAnswer:";
    assert head + context + "\n\nQuestion:\n" + question + tail == pre + q + tail;
    assert (pre + q + tail)[|pre|..|pre| + |q|] == q;
  }
}
