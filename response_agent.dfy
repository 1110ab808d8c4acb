/**
 * The modular response agent: renders the top documents and the recent
 * history for the answer prompt, lists the distinct sources of the retrieved
 * documents, and falls back to a fixed general-steps text when generation fails.
 */
module ResponseAgent {
  import opened Wrappers
  import opened Text
  import opened JsonValue
  import opened Llm
  import opened Prompts

  /** A Python dict as the agent receives it (a document, a message or the classification). */
  type Record = map<string, Json>

  /** A rendering that either succeeds or raises with a message. */
  datatype Rendered = Ok(text: string) | Err(message: string)

  /**
   * `value[:n]` as an f-string shows it: a string keeps its first n characters,
   * a list its first n items. A dict looks the slice up as a key, which raises
   * (the message is that of Python before 3.12, where slices are unhashable); any
   * other value is not subscriptable and raises.
   */
  function Sliced(j: Json, n: nat, show: Json -> string): (r: Rendered)
    ensures r.Ok? <==> j.JStr? || j.JArr?
    ensures j.JStr? ==> r == Ok(Take(j.s, n))
    ensures r.Ok? && j.JStr? ==> |r.text| <= n
  {
    match j
    case JStr(s) => Ok(Take(s, n))
    case JArr(items) => Ok(show(JArr(Take(items, n))))
    case JObj(_) => Err("unhashable type: 'slice'")
    case _ => Err("'" + j.TypeName() + "' object is not subscriptable")
  }

  // ===========================================================================
  // Rendering a list of parts

  /** The index of the first part that raised, if any. */
  function FirstErr(rs: seq<Rendered>): (r: Option<nat>)
    ensures r.Some? ==> r.value < |rs| && rs[r.value].Err? && forall j :: 0 <= j < r.value ==> rs[j].Ok?
    ensures r.None? ==> forall j :: 0 <= j < |rs| ==> rs[j].Ok?
  {
    if rs == [] then None
    else if rs[0].Err? then Some(0)
    else match FirstErr(rs[1..])
      case None => None
      case Some(k) => Some(k + 1)
  }

  /** The texts of parts that all rendered. */
  function Texts(rs: seq<Rendered>): (ts: seq<string>)
    requires forall j :: 0 <= j < |rs| ==> rs[j].Ok?
    ensures |ts| == |rs|
  {
    if rs == [] then [] else Texts(rs[..|rs| - 1]) + [rs[|rs| - 1].text]
  }

  lemma {:induction false} TextsAt(rs: seq<Rendered>, j: nat)
    requires forall k :: 0 <= k < |rs| ==> rs[k].Ok?
    requires j < |rs|
    ensures Texts(rs)[j] == rs[j].text
    decreases |rs|
  {
    if j < |rs| - 1 {
      TextsAt(rs[..|rs| - 1], j);
    }
  }

  lemma TextsStep(rs: seq<Rendered>, i: nat)
    requires i < |rs| && forall k :: 0 <= k <= i ==> rs[k].Ok?
    ensures Texts(rs[..i + 1]) == Texts(rs[..i]) + [rs[i].text]
  {
    assert rs[..i + 1][..i] == rs[..i];
  }

  /** A loop that appends each part and re-raises the first failure: the first error, else the parts joined. */
  function Collect(rs: seq<Rendered>, sep: string): (r: Rendered)
    ensures r.Err? <==> exists j :: 0 <= j < |rs| && rs[j].Err?
  {
    match FirstErr(rs)
    case Some(i) => rs[i]
    case None => Ok(Join(Texts(rs), sep))
  }

  lemma {:induction false} CollectErrAt(rs: seq<Rendered>, i: nat, sep: string)
    requires i < |rs| && rs[i].Err?
    requires forall j :: 0 <= j < i ==> rs[j].Ok?
    ensures Collect(rs, sep) == rs[i]
    decreases i
  {
    if i > 0 {
      assert forall j :: 0 <= j < i - 1 ==> rs[1..][j] == rs[j + 1];
      CollectErrAt(rs[1..], i - 1, sep);
      assert FirstErr(rs[1..]) == Some(i - 1);
    }
  }

  lemma CollectAllOk(rs: seq<Rendered>, sep: string)
    requires forall j :: 0 <= j < |rs| ==> rs[j].Ok?
    ensures Collect(rs, sep) == Ok(Join(Texts(rs), sep))
  {
  }

  // ===========================================================================
  // Documents

  const NO_DOCUMENTS_TEXT: string :=
    "No specific legal documents found. Provide general guidance based on the classification."
  const TOP_DOCUMENTS: nat := 3
  const DOCUMENT_CONTENT_LIMIT: nat := 1000

  /** The block for the document numbered `n` (from 1): its title, section and content cut to 1000 characters. */
  function DocBlock(n: nat, doc: Record, show: Json -> string): (r: Rendered)
    ensures r.Ok? <==> Sliced(Get(doc, "content", JStr("")), DOCUMENT_CONTENT_LIMIT, show).Ok?
    ensures r.Ok? ==> IsPrefix("\nDocument " + NatToString(n) + ":\n- Act/Law: ", r.text)
  {
    match Sliced(Get(doc, "content", JStr("")), DOCUMENT_CONTENT_LIMIT, show)
    case Err(m) => Err(m)
    case Ok(content) =>
      var head := "\nDocument " + NatToString(n) + ":\n- Act/Law: ";
      var text := head + Display(Get(doc, "title", JStr("Unknown")), show)
                  + "\n- Section: " + Display(Get(doc, "section", JStr("N/A")), show)
                  + "\n- Content: " + content + "\n";
      assert text == head + (text[|head|..]);
      Ok(text)
  }

  /** The blocks of the top three documents, numbered from 1. */
  function DocBlocks(docs: seq<Record>, show: Json -> string): (rs: seq<Rendered>)
    ensures |rs| == |Take(docs, TOP_DOCUMENTS)|
  {
    Blocks(Take(docs, TOP_DOCUMENTS), show)
  }

  /** The block of each document, numbered from 1. */
  function Blocks(top: seq<Record>, show: Json -> string): (rs: seq<Rendered>)
    ensures |rs| == |top|
  {
    if top == [] then [] else Blocks(top[..|top| - 1], show) + [DocBlock(|top|, top[|top| - 1], show)]
  }

  lemma {:induction false} BlocksAt(top: seq<Record>, i: nat, show: Json -> string)
    requires i < |top|
    ensures Blocks(top, show)[i] == DocBlock(i + 1, top[i], show)
    decreases |top|
  {
    if i < |top| - 1 {
      BlocksAt(top[..|top| - 1], i, show);
    }
  }

  /** Block i is the block of document i, numbered i + 1. */
  lemma DocBlocksAt(docs: seq<Record>, i: nat, show: Json -> string)
    requires i < |DocBlocks(docs, show)|
    ensures DocBlocks(docs, show)[i] == DocBlock(i + 1, docs[i], show)
  {
    BlocksAt(Take(docs, TOP_DOCUMENTS), i, show);
  }

  /**
   * `_format_documents` as a value: the fixed text for no documents, else the
   * blocks of at most the first three, numbered from 1 and joined by newlines;
   * the first block that raises makes the whole rendering raise.
   */
  function DocumentsText(docs: seq<Record>, show: Json -> string): (r: Rendered)
    ensures docs == [] ==> r == Ok(NO_DOCUMENTS_TEXT)
  {
    if docs == [] then Ok(NO_DOCUMENTS_TEXT) else Collect(DocBlocks(docs, show), "\n")
  }

  /** Only the first three documents matter: the rest never reach the prompt. */
  lemma DocumentsTextTopThree(docs: seq<Record>, show: Json -> string)
    requires |docs| >= TOP_DOCUMENTS
    ensures DocumentsText(docs, show) == DocumentsText(docs[..TOP_DOCUMENTS], show)
  {
    assert DocBlocks(docs, show) == DocBlocks(docs[..TOP_DOCUMENTS], show);
  }

  /** `_format_documents`: the loop over the first three documents, numbered from 1. */
  method FormatDocuments(docs: seq<Record>, show: Json -> string) returns (r: Rendered)
    ensures r == DocumentsText(docs, show)
  {
    if docs == [] {
      return Ok(NO_DOCUMENTS_TEXT);
    }
    var top := Take(docs, TOP_DOCUMENTS);
    ghost var rs := Blocks(top, show);
    var formatted: seq<string> := [];
    for i := 0 to |top|
      invariant forall j :: 0 <= j < i ==> rs[j].Ok?
      invariant formatted == Texts(rs[..i])
    {
      var block := DocBlock(i + 1, top[i], show);
      BlocksAt(top, i, show);
      if block.Err? {
        CollectErrAt(rs, i, "\n");
        return block;
      }
      TextsStep(rs, i);
      formatted := formatted + [block.text];
    }
    assert rs[..|top|] == rs;
    CollectAllOk(rs, "\n");
    r := Ok(Join(formatted, "\n"));
  }

  // ===========================================================================
  // History

  const NO_HISTORY_TEXT: string := "No previous conversation."
  const HISTORY_MESSAGES: nat := 5
  const HISTORY_CONTENT_LIMIT: nat := 300

  /** One history line: "User" exactly when the role is "user", else "Assistant"; content cut to 300 characters. */
  function HistoryLine(msg: Record, show: Json -> string): (r: Rendered)
    ensures r.Ok? <==> Sliced(Get(msg, "content", JStr("")), HISTORY_CONTENT_LIMIT, show).Ok?
    ensures r.Ok? ==> (IsPrefix("User: ", r.text) <==> Get(msg, "role", JNull) == JStr("user"))
    ensures r.Ok? ==> (IsPrefix("Assistant: ", r.text) <==> Get(msg, "role", JNull) != JStr("user"))
  {
    var role := if Get(msg, "role", JNull) == JStr("user") then "User" else "Assistant";
    match Sliced(Get(msg, "content", JStr("")), HISTORY_CONTENT_LIMIT, show)
    case Err(m) => Err(m)
    case Ok(content) =>
      var text := role + ": " + content;
      assert text[..|role| + 2] == role + ": ";
      assert text[0] == role[0];
      assert IsPrefix("User: ", text) ==> text[0] == 'U' by {
        if IsPrefix("User: ", text) { assert text[..6][0] == 'U'; }
      }
      assert IsPrefix("Assistant: ", text) ==> text[0] == 'A' by {
        if IsPrefix("Assistant: ", text) { assert text[..11][0] == 'A'; }
      }
      Ok(text)
  }

  /** The lines of the last five messages. */
  function HistoryLines(h: seq<Record>, show: Json -> string): (rs: seq<Rendered>)
    ensures |rs| == |Last(h, HISTORY_MESSAGES)|
  {
    LinesOf(Last(h, HISTORY_MESSAGES), show)
  }

  /** The line of each message, in order. */
  function LinesOf(recent: seq<Record>, show: Json -> string): (rs: seq<Rendered>)
    ensures |rs| == |recent|
  {
    if recent == [] then [] else LinesOf(recent[..|recent| - 1], show) + [HistoryLine(recent[|recent| - 1], show)]
  }

  lemma {:induction false} LinesOfAt(recent: seq<Record>, i: nat, show: Json -> string)
    requires i < |recent|
    ensures LinesOf(recent, show)[i] == HistoryLine(recent[i], show)
    decreases |recent|
  {
    if i < |recent| - 1 {
      LinesOfAt(recent[..|recent| - 1], i, show);
    }
  }

  /**
   * `_format_history` as a value: the fixed text for no history, else one line
   * per message among the last five, in order, joined by newlines.
   */
  function HistoryText(history: Option<seq<Record>>, show: Json -> string): (r: Rendered)
    ensures history.None? || history.value == [] ==> r == Ok(NO_HISTORY_TEXT)
  {
    if history.None? || history.value == [] then Ok(NO_HISTORY_TEXT)
    else Collect(HistoryLines(history.value, show), "\n")
  }

  /** Only the last five messages matter. */
  lemma HistoryTextLastFive(h: seq<Record>, show: Json -> string)
    requires |h| >= HISTORY_MESSAGES
    ensures HistoryText(Some(h), show) == HistoryText(Some(h[|h| - HISTORY_MESSAGES..]), show)
  {
    var tail := h[|h| - HISTORY_MESSAGES..];
    assert Last(tail, HISTORY_MESSAGES) == tail;
  }

  /** `_format_history`: the loop over the last five messages. */
  method FormatHistory(history: Option<seq<Record>>, show: Json -> string) returns (r: Rendered)
    ensures r == HistoryText(history, show)
  {
    if history.None? || history.value == [] {
      return Ok(NO_HISTORY_TEXT);
    }
    var recent := Last(history.value, HISTORY_MESSAGES);
    ghost var rs := LinesOf(recent, show);
    var formatted: seq<string> := [];
    for i := 0 to |recent|
      invariant forall j :: 0 <= j < i ==> rs[j].Ok?
      invariant formatted == Texts(rs[..i])
    {
      var line := HistoryLine(recent[i], show);
      LinesOfAt(recent, i, show);
      if line.Err? {
        CollectErrAt(rs, i, "\n");
        return line;
      }
      TextsStep(rs, i);
      formatted := formatted + [line.text];
    }
    assert rs[..|recent|] == rs;
    CollectAllOk(rs, "\n");
    r := Ok(Join(formatted, "\n"));
  }

  // ===========================================================================
  // Sources

  /** The source entry of a document: title, section and source URL, each defaulting to "". */
  function Source(d: Record): (s: Record)
    ensures s.Keys == {"title", "section", "url"}
    ensures Get(s, "title", JStr("")) == Get(d, "title", JStr(""))
    ensures Get(s, "section", JStr("")) == Get(d, "section", JStr(""))
  {
    map["title" := Get(d, "title", JStr("")), "section" := Get(d, "section", JStr("")),
        "url" := Get(d, "source_url", JStr(""))]
  }

  /** What identifies a source: the rendered title and section, as a pair. */
  function SourceKey(d: Record, show: Json -> string): (string, string) {
    (Display(Get(d, "title", JStr("")), show), Display(Get(d, "section", JStr("")), show))
  }

  function KeysOf(docs: seq<Record>, show: Json -> string): set<(string, string)> {
    set i | 0 <= i < |docs| :: SourceKey(docs[i], show)
  }

  /** `_extract_sources`, keyed on the (title, section) pair: one entry per distinct pair, first occurrence, in order. */
  function SourcesOf(docs: seq<Record>, show: Json -> string): (r: seq<Record>)
    ensures |r| <= |docs|
  {
    if docs == [] then []
    else
      var init := docs[..|docs| - 1];
      var d := docs[|docs| - 1];
      SourcesOf(init, show) + (if SourceKey(d, show) in KeysOf(init, show) then [] else [Source(d)])
  }

  lemma KeysOfSnoc(docs: seq<Record>, d: Record, show: Json -> string)
    ensures KeysOf(docs + [d], show) == KeysOf(docs, show) + {SourceKey(d, show)}
  {
    var all := docs + [d];
    assert all[|docs|] == d;
    forall x | x in KeysOf(all, show) ensures x in KeysOf(docs, show) + {SourceKey(d, show)} {
      var i :| 0 <= i < |all| && SourceKey(all[i], show) == x;
      if i < |docs| { assert all[i] == docs[i]; }
    }
    forall x | x in KeysOf(docs, show) ensures x in KeysOf(all, show) {
      var i :| 0 <= i < |docs| && SourceKey(docs[i], show) == x;
      assert all[i] == docs[i];
    }
  }

  lemma SourcesOfSnoc(docs: seq<Record>, d: Record, show: Json -> string)
    ensures SourcesOf(docs + [d], show)
            == SourcesOf(docs, show) + (if SourceKey(d, show) in KeysOf(docs, show) then [] else [Source(d)])
  {
    assert (docs + [d])[..|docs|] == docs;
  }

  /** The sources carry exactly the keys of the documents, each once. */
  lemma {:induction false} SourcesOfDistinctCover(docs: seq<Record>, show: Json -> string)
    ensures var r := SourcesOf(docs, show);
            && (set k | 0 <= k < |r| :: SourceKey(r[k], show)) == KeysOf(docs, show)
            && (forall a, b :: 0 <= a < b < |r| ==> SourceKey(r[a], show) != SourceKey(r[b], show))
    decreases |docs|
  {
    if docs == [] {
      assert KeysOf(docs, show) == {};
    } else {
      var init := docs[..|docs| - 1];
      var d := docs[|docs| - 1];
      assert docs == init + [d];
      SourcesOfSnoc(init, d, show);
      KeysOfSnoc(init, d, show);
      SourcesOfDistinctCover(init, show);
      var p := SourcesOf(init, show);
      var r := SourcesOf(docs, show);
      assert forall k :: 0 <= k < |p| ==> r[k] == p[k];
      assert SourceKey(Source(d), show) == SourceKey(d, show);
      var rk := set k | 0 <= k < |r| :: SourceKey(r[k], show);
      var pk := set k | 0 <= k < |p| :: SourceKey(p[k], show);
      forall x | x in rk ensures x in KeysOf(docs, show) {
        var k :| 0 <= k < |r| && SourceKey(r[k], show) == x;
        if k < |p| { assert x in pk; }
      }
      forall x | x in KeysOf(docs, show) ensures x in rk {
        if x in pk {
          var k :| 0 <= k < |p| && SourceKey(p[k], show) == x;
          assert SourceKey(r[k], show) == x;
        } else {
          assert x == SourceKey(d, show);
          assert SourceKey(r[|r| - 1], show) == x;
        }
      }
      forall a, b | 0 <= a < b < |r| ensures SourceKey(r[a], show) != SourceKey(r[b], show) {
        if b == |p| {
          assert SourceKey(p[a], show) in pk;
        }
      }
    }
  }

  /** Position n of the reference reading: a source exactly when its key did not occur before n. */
  function FirstOccurrence(docs: seq<Record>, n: nat, show: Json -> string): Option<Record>
    requires n < |docs|
  {
    if SourceKey(docs[n], show) in KeysOf(docs[..n], show) then None else Some(Source(docs[n]))
  }

  /** The reference reading of the dedup, position by position. */
  function FirstOccurrences(docs: seq<Record>, show: Json -> string): (f: seq<Option<Record>>)
    ensures |f| == |docs|
  {
    if docs == [] then []
    else FirstOccurrences(docs[..|docs| - 1], show) + [FirstOccurrence(docs, |docs| - 1, show)]
  }

  lemma {:induction false} FirstOccurrencesAt(docs: seq<Record>, i: nat, show: Json -> string)
    requires i < |docs|
    ensures FirstOccurrences(docs, show)[i] == FirstOccurrence(docs, i, show)
    decreases |docs|
  {
    var n := |docs| - 1;
    if i < n {
      FirstOccurrencesAt(docs[..n], i, show);
      assert docs[..n][..i] == docs[..i];
    }
  }

  /** The kept entries are the first occurrences, in document order. */
  lemma {:induction false} SourcesOfFirstOccurrences(docs: seq<Record>, show: Json -> string)
    ensures SourcesOf(docs, show) == Somes(FirstOccurrences(docs, show))
    decreases |docs|
  {
    if docs != [] {
      var n := |docs| - 1;
      SourcesOfFirstOccurrences(docs[..n], show);
      var f := FirstOccurrences(docs, show);
      assert f[..n] == FirstOccurrences(docs[..n], show);
    }
  }

  // ---------------------------------------------------------------------------
  // The source as written keys on one string, title + "_" + section.

  function AsWrittenKey(d: Record, show: Json -> string): string {
    SourceKey(d, show).0 + "_" + SourceKey(d, show).1
  }

  function AsWrittenKeysOf(docs: seq<Record>, show: Json -> string): set<string> {
    set i | 0 <= i < |docs| :: AsWrittenKey(docs[i], show)
  }

  /** `_extract_sources` exactly as written: de-duplication on the joined string key. */
  function SourcesAsWritten(docs: seq<Record>, show: Json -> string): (r: seq<Record>)
    ensures |r| <= |docs|
  {
    if docs == [] then []
    else
      var init := docs[..|docs| - 1];
      var d := docs[|docs| - 1];
      SourcesAsWritten(init, show) + (if AsWrittenKey(d, show) in AsWrittenKeysOf(init, show) then [] else [Source(d)])
  }

  lemma AsWrittenKeysOfSnoc(docs: seq<Record>, d: Record, show: Json -> string)
    ensures AsWrittenKeysOf(docs + [d], show) == AsWrittenKeysOf(docs, show) + {AsWrittenKey(d, show)}
  {
    var all := docs + [d];
    assert all[|docs|] == d;
    forall x | x in AsWrittenKeysOf(all, show) ensures x in AsWrittenKeysOf(docs, show) + {AsWrittenKey(d, show)} {
      var i :| 0 <= i < |all| && AsWrittenKey(all[i], show) == x;
      if i < |docs| { assert all[i] == docs[i]; }
    }
    forall x | x in AsWrittenKeysOf(docs, show) ensures x in AsWrittenKeysOf(all, show) {
      var i :| 0 <= i < |docs| && AsWrittenKey(docs[i], show) == x;
      assert all[i] == docs[i];
    }
  }

  lemma SourcesAsWrittenSnoc(docs: seq<Record>, d: Record, show: Json -> string)
    ensures SourcesAsWritten(docs + [d], show)
            == SourcesAsWritten(docs, show) + (if AsWrittenKey(d, show) in AsWrittenKeysOf(docs, show) then [] else [Source(d)])
  {
    assert (docs + [d])[..|docs|] == docs;
  }

  /** `_extract_sources`: the loop with a growing set of seen joined keys. */
  method ExtractSources(docs: seq<Record>, show: Json -> string) returns (sources: seq<Record>)
    ensures sources == SourcesAsWritten(docs, show)
  {
    sources := [];
    var seen: set<string> := {};
    for i := 0 to |docs|
      invariant sources == SourcesAsWritten(docs[..i], show)
      invariant seen == AsWrittenKeysOf(docs[..i], show)
    {
      var d := docs[i];
      assert docs[..i + 1] == docs[..i] + [d];
      SourcesAsWrittenSnoc(docs[..i], d, show);
      AsWrittenKeysOfSnoc(docs[..i], d, show);
      var key := Display(Get(d, "title", JStr("")), show) + "_" + Display(Get(d, "section", JStr("")), show);
      if key !in seen {
        seen := seen + {key};
        sources := sources + [Source(d)];
      }
    }
    assert docs[..|docs|] == docs;
  }

  /** No two documents whose (title, section) pairs differ share a joined key. */
  predicate NoKeyCollision(docs: seq<Record>, show: Json -> string) {
    forall i, j :: 0 <= i < |docs| && 0 <= j < |docs| && AsWrittenKey(docs[i], show) == AsWrittenKey(docs[j], show)
      ==> SourceKey(docs[i], show) == SourceKey(docs[j], show)
  }

  /**
   * Without a collision of joined keys, the code as written lists exactly the
   * sources of the pair-keyed reading, so every property of SourcesOf holds of it.
   */
  lemma {:induction false} SourcesAgreeWithoutCollision(docs: seq<Record>, show: Json -> string)
    requires NoKeyCollision(docs, show)
    ensures SourcesAsWritten(docs, show) == SourcesOf(docs, show)
    decreases |docs|
  {
    if docs != [] {
      var init := docs[..|docs| - 1];
      var d := docs[|docs| - 1];
      assert NoKeyCollision(init, show) by {
        forall i, j | 0 <= i < |init| && 0 <= j < |init| && AsWrittenKey(init[i], show) == AsWrittenKey(init[j], show)
          ensures SourceKey(init[i], show) == SourceKey(init[j], show)
        {
          assert init[i] == docs[i] && init[j] == docs[j];
        }
      }
      SourcesAgreeWithoutCollision(init, show);
      if AsWrittenKey(d, show) in AsWrittenKeysOf(init, show) {
        var i :| 0 <= i < |init| && AsWrittenKey(init[i], show) == AsWrittenKey(d, show);
        assert init[i] == docs[i];
        assert SourceKey(d, show) in KeysOf(init, show);
      }
      if SourceKey(d, show) in KeysOf(init, show) {
        var i :| 0 <= i < |init| && SourceKey(init[i], show) == SourceKey(d, show);
        assert AsWrittenKey(d, show) in AsWrittenKeysOf(init, show);
      }
    }
  }

  /**
   * Two documents with different (title, section) pairs whose joined keys agree:
   * as written the second source is lost, keyed on the pair both are kept.
   */
  lemma SourcesAsWrittenCollide(show: Json -> string)
    ensures var d1: Record := map["title" := JStr("a_b"), "section" := JStr("c")];
            var d2: Record := map["title" := JStr("a"), "section" := JStr("b_c")];
            && SourceKey(d1, show) != SourceKey(d2, show)
            && SourcesAsWritten([d1, d2], show) == [Source(d1)]
            && SourcesOf([d1, d2], show) == [Source(d1), Source(d2)]
  {
    var d1: Record := map["title" := JStr("a_b"), "section" := JStr("c")];
    var d2: Record := map["title" := JStr("a"), "section" := JStr("b_c")];
    var docs := [d1, d2];
    assert docs[..1] == [d1];
    assert docs[..1][..0] == [];
    assert AsWrittenKey(d1, show) == "a_b_c";
    assert AsWrittenKey(d2, show) == "a_b_c";
    assert AsWrittenKeysOf([d1], show) == {"a_b_c"} by {
      assert [d1][0] == d1;
    }
    assert SourceKey(d1, show) == ("a_b", "c");
    assert SourceKey(d2, show) == ("a", "b_c");
    assert KeysOf([d1], show) == {("a_b", "c")} by {
      assert [d1][0] == d1;
    }
    assert "a_b" != "a" by { assert |"a_b"| != |"a"|; }
  }

  // ===========================================================================
  // Fallback and disclaimer

  /** The fixed text between the domain and the disclaimer. */
  const FALLBACK_BODY: string :=
    " related issue.\n\n"
    + "While I couldn't retrieve specific legal documents at this moment, here are some general steps you can take:\n\n"
    + "1. **Document Everything**: Keep records of all relevant documents, communications, and evidence.\n\n"
    + "2. **Seek Legal Aid**: Contact your nearest Legal Services Authority for free legal assistance:\n"
    + "   - National Legal Services Authority (NALSA): 15100\n"
    + "   - Visit: https://nalsa.gov.in\n\n"
    + "3. **File a Complaint**: Depending on your issue:\n"
    + "   - Consumer complaints: https://consumerhelpline.gov.in\n"
    + "   - General grievances: https://pgportal.gov.in\n\n"
    + "4. **Consult a Lawyer**: For specific advice on your situation, please consult a qualified legal professional.\n\n"

  /** The fallback text for an already lowercased domain. */
  function FallbackText(lowered: string): (r: string)
    ensures IsPrefix("I understand you have a " + lowered, r)
    ensures EndsWith(r, DISCLAIMER + "\n")
  {
    var head := "I understand you have a " + lowered;
    ConcatEnds(head + FALLBACK_BODY, DISCLAIMER + "\n");
    ConcatStarts(head, FALLBACK_BODY + (DISCLAIMER + "\n"));
    assert head + FALLBACK_BODY + (DISCLAIMER + "\n") == head + (FALLBACK_BODY + (DISCLAIMER + "\n"));
    head + FALLBACK_BODY + (DISCLAIMER + "\n")
  }

  /**
   * `_fallback_response`: the lowercased domain (default "legal") in the first
   * line, the general steps, then DISCLAIMER and a final newline. None: a
   * domain that is not a string makes `.lower()` raise.
   */
  function FallbackResponse(classification: Record): (r: Option<string>)
    ensures r.None? <==> !Get(classification, "domain", JStr("legal")).JStr?
    ensures r.Some? ==> EndsWith(r.value, DISCLAIMER + "\n")
    ensures r.Some? ==> IsPrefix("I understand you have a " + Lower(Get(classification, "domain", JStr("legal")).s), r.value)
  {
    var domain := Get(classification, "domain", JStr("legal"));
    if !domain.JStr? then None else Some(FallbackText(Lower(domain.s)))
  }

  /** `add_disclaimer`: the response, a blank line, DISCLAIMER. */
  function AddDisclaimer(response: string): (r: string)
    ensures IsPrefix(response, r)
    ensures |r| == |response| + 2 + |DISCLAIMER|
    ensures r[|response|..] == "\n\n" + DISCLAIMER
  {
    var tail := "\n\n" + DISCLAIMER;
    ConcatStarts(response, tail);
    assert (response + tail)[|response|..] == tail;
    response + tail
  }

  /** The disclaimer is appended even to a response that already ends with it. */
  lemma AddDisclaimerNotIdempotent(response: string)
    ensures AddDisclaimer(AddDisclaimer(response)) != AddDisclaimer(response)
  {
    assert |AddDisclaimer(AddDisclaimer(response))| > |AddDisclaimer(response)|;
  }

  // ===========================================================================
  // Generate

  datatype Generation =
    | Generated(response: string, sources: seq<Record>, classification: Record, timestamp: string)
    | FellBack(response: string, sources: seq<Record>, error: string, timestamp: string)

  /**
   * `generate`: render the documents and the history, call the model (its
   * outcome is `reply`), strip the text and list the sources. Any exception on
   * the way gives the fallback text, no sources and the error; None when the
   * fallback itself raises, which `generate` then propagates.
   */
  function Generate(classification: Record, docs: seq<Record>, history: Option<seq<Record>>, reply: Reply,
                    show: Json -> string, now: string): (g: Option<Generation>)
    ensures DocumentsText(docs, show).Ok? && HistoryText(history, show).Ok? && reply.Text? ==>
              g == Some(Generated(Strip(reply.content), SourcesAsWritten(docs, show), classification, now))
  {
    match FailureOf(docs, history, reply, show)
    case None => Some(Generated(Strip(reply.content), SourcesAsWritten(docs, show), classification, now))
    case Some(error) =>
      match FallbackResponse(classification)
      case None => None
      case Some(text) => Some(FellBack(text, [], error, now))
  }

  /**
   * When the documents or the history fail to render, or the model call
   * raises: the fallback text, no sources and the first error, or None when
   * the fallback itself raises.
   */
  lemma GenerateFallsBack(classification: Record, docs: seq<Record>, history: Option<seq<Record>>, reply: Reply,
                          show: Json -> string, now: string)
    requires DocumentsText(docs, show).Err? || HistoryText(history, show).Err? || reply.Raised?
    ensures var g := Generate(classification, docs, history, reply, show, now);
            && (g.None? <==> FallbackResponse(classification).None?)
            && (g.Some? ==> g.value == FellBack(FallbackResponse(classification).value, [], FailureOf(docs, history, reply, show).value, now))
  {
    assert FailureOf(docs, history, reply, show).Some?;
  }

  /** The message of the first exception of `generate`'s try block, in the order the steps run; None when it completes. */
  function FailureOf(docs: seq<Record>, history: Option<seq<Record>>, reply: Reply, show: Json -> string): (e: Option<string>)
    ensures e.None? <==> DocumentsText(docs, show).Ok? && HistoryText(history, show).Ok? && reply.Text?
    ensures DocumentsText(docs, show).Err? ==> e == Some(DocumentsText(docs, show).message)
    ensures DocumentsText(docs, show).Ok? && HistoryText(history, show).Err? ==> e == Some(HistoryText(history, show).message)
    ensures DocumentsText(docs, show).Ok? && HistoryText(history, show).Ok? && reply.Raised? ==> e == Some(reply.message)
  {
    var docsText := DocumentsText(docs, show);
    var historyText := HistoryText(history, show);
    if docsText.Err? then Some(docsText.message)
    else if historyText.Err? then Some(historyText.message)
    else if reply.Raised? then Some(reply.message)
    else None
  }
}
