/**
 * The high-level legal document retriever: a similarity search followed by
 * de-duplication on a content prefix, a citation per document and content cleaning.
 */
module RagRetriever {
  import opened Wrappers
  import opened Text
  import opened JsonValue
  import opened VectorStore

  // ===========================================================================
  // Content cleaning

  /** `re.sub(r'\[\d+\]', '', s)`: every bracketed run of digits is removed, left to right. */
  function RemoveMarkers(s: string): (r: string)
    ensures |r| <= |s|
    ensures '[' !in s ==> r == s
    decreases |s|
  {
    if s == [] then []
    else
      var n := DigitRun(s[1..]);
      if s[0] == '[' && n >= 1 && 1 + n < |s| && s[1 + n] == ']' then RemoveMarkers(s[2 + n..])
      else [s[0]] + RemoveMarkers(s[1..])
  }

  /** "Page", in any letter case, then whitespace, then digits: the length of that match at the front of `s`, or 0. */
  function PageMarkAt(s: string): (n: nat)
    ensures n == 0 || (6 <= n <= |s| && s[0] in {'p', 'P'})
  {
    if |s| >= 4 && Lower(s[..4]) == "page" then
      var m := LeadingSpaces(s[4..]);
      var d := DigitRun(s[4 + m..]);
      assert LowerChar(s[0]) == 'p';
      if m >= 1 && d >= 1 then 4 + m + d else 0
    else 0
  }

  /** `re.sub(r'Page\s+\d+', '', s, flags=re.IGNORECASE)` */
  function RemovePageNumbers(s: string): (r: string)
    ensures |r| <= |s|
    ensures (forall k :: 0 <= k < |s| ==> s[k] != 'p' && s[k] != 'P') ==> r == s
    decreases |s|
  {
    if s == [] then []
    else
      var n := PageMarkAt(s);
      if n > 0 then RemovePageNumbers(s[n..]) else [s[0]] + RemovePageNumbers(s[1..])
  }

  /** `_clean_content`: collapse whitespace, drop "[n]" markers and "Page n" marks, strip. */
  function CleanContent(content: string): (r: string)
    ensures |r| <= |content|
    ensures r != [] ==> !IsSpace(r[0]) && !IsSpace(r[|r| - 1])
  {
    var collapsed := CollapseWhitespace(content);
    var unmarked := RemoveMarkers(collapsed);
    var unpaged := RemovePageNumbers(unmarked);
    Strip(unpaged)
  }

  /** A text with no '[' and no letter p is only collapsed and stripped. */
  lemma CleanPlainContent(content: string)
    requires '[' !in content && 'p' !in content && 'P' !in content
    ensures CleanContent(content) == Strip(CollapseWhitespace(content))
  {
    var collapsed := CollapseWhitespace(content);
    assert '[' !in collapsed;
    assert forall k :: 0 <= k < |collapsed| ==> collapsed[k] != 'p' && collapsed[k] != 'P' by {
      forall k | 0 <= k < |collapsed| ensures collapsed[k] != 'p' && collapsed[k] != 'P' {
        assert collapsed[k] in collapsed;
      }
    }
  }

  // ===========================================================================
  // Citations

  /**
   * `_format_citation`: act name (or title), "Section s" and "Chapter c", each
   * when truthy, joined by ", "; "Legal Document" when none is. None: a truthy
   * act name that is not a string makes the join raise. `show` renders a
   * non-string section or chapter as `str()` does.
   */
  function Citation(doc: Doc, show: Json -> string): (r: Option<string>)
    ensures var act := Get(doc, "act_name", JNull);
            var name := if act.Truthy() then act else Get(doc, "title", JNull);
            && (r.None? <==> name.Truthy() && !name.JStr?)
            && (r.Some? && name.Truthy() ==> IsPrefix(name.s, r.value))
            && (!name.Truthy() && !Get(doc, "section", JNull).Truthy() && !Get(doc, "chapter", JNull).Truthy() ==>
                  r == Some("Legal Document"))
  {
    var act := Get(doc, "act_name", JNull);
    var name := if act.Truthy() then act else Get(doc, "title", JNull);
    if name.Truthy() && !name.JStr? then None
    else
      var section := Get(doc, "section", JNull);
      var chapter := Get(doc, "chapter", JNull);
      var parts := (if name.Truthy() then [name.s] else [])
                   + (if section.Truthy() then ["Section " + Display(section, show)] else [])
                   + (if chapter.Truthy() then ["Chapter " + Display(chapter, show)] else []);
      if parts == [] then Some("Legal Document")
      else
        JoinStartsWithFirst(parts, ", ");
        Some(Join(parts, ", "))
  }

  /** An act, a section and a chapter give "act, Section s, Chapter c". */
  lemma CitationOfFullDoc(doc: Doc, show: Json -> string, act: string, section: string, chapter: string)
    requires Get(doc, "act_name", JNull) == JStr(act) && act != []
    requires Get(doc, "section", JNull) == JStr(section) && section != []
    requires Get(doc, "chapter", JNull) == JStr(chapter) && chapter != []
    ensures Citation(doc, show) == Some(act + ", Section " + section + ", Chapter " + chapter)
  {
    var name := Get(doc, "act_name", JNull);
    assert name.Truthy() && name.JStr? && name.s == act;
    assert Display(JStr(section), show) == section;
    assert Display(JStr(chapter), show) == chapter;
    var s := "Section " + section;
    var c := "Chapter " + chapter;
    var parts := [act, s, c];
    assert ([act] + [s]) + [c] == parts;
    JoinCons(s, [c], ", ");
    JoinSingle(c, ", ");
    assert Join([s, c], ", ") == s + ", " + c;
    JoinCons(act, [s, c], ", ");
    assert [act] + [s, c] == parts;
    assert Join(parts, ", ") == act + ", " + (s + ", " + c);
    assert Citation(doc, show) == Some(Join(parts, ", "));
    assert ", " + "Section " == ", Section ";
    assert ", " + "Chapter " == ", Chapter ";
    calc {
      act + ", " + (s + ", " + c);
      act + (", " + "Section ") + section + (", " + "Chapter ") + chapter;
      act + ", Section " + section + ", Chapter " + chapter;
    }
  }

  /** A join starts with its first part. */
  lemma JoinStartsWithFirst(parts: seq<string>, sep: string)
    requires parts != []
    ensures IsPrefix(parts[0], Join(parts, sep))
  {
    if |parts| > 1 {
      assert Join(parts, sep) == parts[0] + (sep + Join(parts[1..], sep));
    }
  }

  // ===========================================================================
  // Post-processing

  const DEDUP_PREFIX: nat := 200

  /** The de-duplication key of a document: its content's first 200 characters; None when the content is not a string. */
  function Key(d: Doc): (k: Option<string>)
    ensures Get(d, "content", JStr("")).JStr? <==> k.Some?
    ensures k.Some? ==> k.value == Take(Get(d, "content", JStr("")).s, DEDUP_PREFIX)
  {
    var c := Get(d, "content", JStr(""));
    if c.JStr? then Some(Take(c.s, DEDUP_PREFIX)) else None
  }

  /** The keys of the documents that have one. */
  function Seen(docs: seq<Doc>): set<string> {
    set i | 0 <= i < |docs| && Key(docs[i]).Some? :: Key(docs[i]).value
  }

  /** Every document of a successful post-processing carries a citation and cleaned string content. */
  lemma {:induction false} PostProcessedCited(docs: seq<Doc>, show: Json -> string)
    requires PostProcessed(docs, show).Some?
    ensures forall i :: 0 <= i < |PostProcessed(docs, show).value| ==>
              var p := PostProcessed(docs, show).value[i];
              "citation" in p && p["citation"].JStr? && "content" in p && p["content"].JStr?
    decreases |docs|
  {
    if docs != [] {
      var init := docs[..|docs| - 1];
      assert docs == init + [docs[|docs| - 1]];
      PostProcessedSnoc(init, docs[|docs| - 1], show);
      PostProcessedCited(init, show);
    }
  }

  /** A kept document: its citation added and its content cleaned. */
  function Processed(d: Doc, citation: string): (p: Doc)
    requires Key(d).Some?
    ensures "citation" in p && p["citation"] == JStr(citation)
    ensures "content" in p && p["content"] == JStr(CleanContent(Get(d, "content", JStr("")).s))
    ensures forall key :: key in d && key != "citation" && key != "content" ==> key in p && p[key] == d[key]
  {
    d["citation" := JStr(citation)]["content" := JStr(CleanContent(Get(d, "content", JStr("")).s))]
  }

  /**
   * `_post_process` as a value: the first document of each distinct key, in
   * order, processed. None: a content that is not a string, or a citation
   * that raises, aborts the whole call.
   */
  function PostProcessed(docs: seq<Doc>, show: Json -> string): (r: Option<seq<Doc>>)
    ensures r.Some? ==> |r.value| <= |docs|
    ensures r.Some? ==> forall k :: 0 <= k < |r.value| ==> "citation" in r.value[k]
  {
    if docs == [] then Some([])
    else PostStep(PostProcessed(docs[..|docs| - 1], show), Seen(docs[..|docs| - 1]), docs[|docs| - 1], show)
  }

  /** One step of the loop: `d` is skipped when its key was seen, processed and kept otherwise. */
  function PostStep(prev: Option<seq<Doc>>, seen: set<string>, d: Doc, show: Json -> string): (r: Option<seq<Doc>>)
    ensures r.Some? ==> prev.Some? && Key(d).Some?
    ensures r.Some? && Key(d).value in seen ==> r == prev
    ensures r.Some? && Key(d).value !in seen ==> Citation(d, show).Some? && r.value == prev.value + [Processed(d, Citation(d, show).value)]
    ensures prev.Some? && Key(d).Some? && (Key(d).value in seen || Citation(d, show).Some?) ==> r.Some?
  {
    match prev
    case None => None
    case Some(p) =>
      match Key(d)
      case None => None
      case Some(k) =>
        if k in seen then prev
        else match Citation(d, show)
          case None => None
          case Some(c) => Some(p + [Processed(d, c)])
  }

  lemma PostProcessedSnoc(docs: seq<Doc>, d: Doc, show: Json -> string)
    ensures PostProcessed(docs + [d], show) == PostStep(PostProcessed(docs, show), Seen(docs), d, show)
  {
    assert (docs + [d])[..|docs|] == docs;
  }

  lemma SeenAppend(docs: seq<Doc>, d: Doc)
    requires Key(d).Some?
    ensures Seen(docs + [d]) == Seen(docs) + {Key(d).value}
  {
    var all := docs + [d];
    assert all[|docs|] == d;
    forall x | x in Seen(all) ensures x in Seen(docs) + {Key(d).value} {
      var i :| 0 <= i < |all| && Key(all[i]).Some? && Key(all[i]).value == x;
      if i < |docs| { assert all[i] == docs[i]; }
    }
    forall x | x in Seen(docs) ensures x in Seen(all) {
      var i :| 0 <= i < |docs| && Key(docs[i]).Some? && Key(docs[i]).value == x;
      assert all[i] == docs[i];
    }
  }

  /** The keys of a non-empty list: those before its last document, plus the last one's. */
  lemma SeenLast(docs: seq<Doc>)
    requires docs != [] && Key(docs[|docs| - 1]).Some?
    ensures Seen(docs) == Seen(docs[..|docs| - 1]) + {Key(docs[|docs| - 1]).value}
  {
    var init := docs[..|docs| - 1];
    forall x | x in Seen(docs) ensures x in Seen(init) + {Key(docs[|docs| - 1]).value} {
      var i :| 0 <= i < |docs| && Key(docs[i]).Some? && Key(docs[i]).value == x;
      if i < |init| { assert init[i] == docs[i]; }
    }
    forall x | x in Seen(init) ensures x in Seen(docs) {
      var i :| 0 <= i < |init| && Key(init[i]).Some? && Key(init[i]).value == x;
      assert init[i] == docs[i];
    }
  }

  /** One document is kept per distinct content prefix: the output has exactly as many documents as there are distinct keys. */
  lemma {:induction false} PostProcessedCountsDistinctKeys(docs: seq<Doc>, show: Json -> string)
    requires PostProcessed(docs, show).Some?
    ensures |PostProcessed(docs, show).value| == |Seen(docs)|
    decreases |docs|
  {
    if docs == [] {
      assert Seen(docs) == {};
    } else {
      var init := docs[..|docs| - 1];
      var d := docs[|docs| - 1];
      var prev := PostProcessed(init, show);
      assert PostProcessed(docs, show) == PostStep(prev, Seen(init), d, show);
      PostProcessedCountsDistinctKeys(init, show);
      SeenLast(docs);
      var k := Key(d).value;
      if k in Seen(init) {
        assert Seen(docs) == Seen(init);
      } else {
        assert |PostProcessed(docs, show).value| == |prev.value| + 1;
        assert |Seen(init) + {k}| == |Seen(init)| + 1;
      }
    }
  }

  /** No two documents share a de-duplication key. */
  predicate DistinctKeys(docs: seq<Doc>) {
    forall i, j :: 0 <= i < j < |docs| ==> Key(docs[i]) != Key(docs[j])
  }

  /** `out` holds exactly the documents of `docs`, each processed with its own citation. */
  predicate AllProcessed(docs: seq<Doc>, out: seq<Doc>, show: Json -> string) {
    && |out| == |docs|
    && forall i :: 0 <= i < |docs| ==>
         Key(docs[i]).Some? && Citation(docs[i], show).Some?
         && out[i] == Processed(docs[i], Citation(docs[i], show).value)
  }

  /** Documents whose keys are all distinct are all kept, in order, each processed. */
  lemma {:induction false} PostProcessedDistinctKeepsAll(docs: seq<Doc>, show: Json -> string)
    requires PostProcessed(docs, show).Some?
    requires DistinctKeys(docs)
    ensures AllProcessed(docs, PostProcessed(docs, show).value, show)
    decreases |docs|
  {
    if docs != [] {
      var init := docs[..|docs| - 1];
      var d := docs[|docs| - 1];
      assert PostProcessed(docs, show) == PostStep(PostProcessed(init, show), Seen(init), d, show);
      DistinctKeysPrefix(docs);
      PostProcessedDistinctKeepsAll(init, show);
      LastKeyUnseen(docs);
      AllProcessedLast(docs, PostProcessed(init, show).value, show);
    }
  }

  lemma DistinctKeysPrefix(docs: seq<Doc>)
    requires docs != [] && DistinctKeys(docs)
    ensures DistinctKeys(docs[..|docs| - 1])
  {
    var init := docs[..|docs| - 1];
    forall i, j | 0 <= i < j < |init| ensures Key(init[i]) != Key(init[j]) {
      assert init[i] == docs[i] && init[j] == docs[j];
    }
  }

  lemma AllProcessedLast(docs: seq<Doc>, out: seq<Doc>, show: Json -> string)
    requires docs != [] && AllProcessed(docs[..|docs| - 1], out, show)
    requires Key(docs[|docs| - 1]).Some? && Citation(docs[|docs| - 1], show).Some?
    ensures var d := docs[|docs| - 1];
            AllProcessed(docs, out + [Processed(d, Citation(d, show).value)], show)
  {
    var init := docs[..|docs| - 1];
    var d := docs[|docs| - 1];
    var o := out + [Processed(d, Citation(d, show).value)];
    forall i | 0 <= i < |docs|
      ensures Key(docs[i]).Some? && Citation(docs[i], show).Some?
              && o[i] == Processed(docs[i], Citation(docs[i], show).value)
    {
      if i < |init| {
        assert docs[i] == init[i] && o[i] == out[i];
      }
    }
  }

  /** With distinct keys, the last document's key is not among the keys before it. */
  lemma LastKeyUnseen(docs: seq<Doc>)
    requires docs != [] && Key(docs[|docs| - 1]).Some?
    requires DistinctKeys(docs)
    ensures Key(docs[|docs| - 1]).value !in Seen(docs[..|docs| - 1])
  {
    var init := docs[..|docs| - 1];
    forall i | 0 <= i < |init| ensures Key(init[i]) != Key(docs[|docs| - 1]) {
      assert init[i] == docs[i];
    }
  }

  /** Once a prefix of the documents aborts, the whole list does. */
  lemma {:induction false} PostProcessedAbortPersists(docs: seq<Doc>, i: nat, show: Json -> string)
    requires i <= |docs| && PostProcessed(docs[..i], show).None?
    ensures PostProcessed(docs, show).None?
    decreases |docs| - i
  {
    if i < |docs| {
      assert docs[..i + 1] == docs[..i] + [docs[i]];
      PostProcessedSnoc(docs[..i], docs[i], show);
      PostProcessedAbortPersists(docs, i + 1, show);
    } else {
      assert docs[..i] == docs;
    }
  }

  /** `_post_process`: the loop with the growing set of seen keys; None when it raises. */
  method PostProcess(docs: seq<Doc>, show: Json -> string) returns (r: Option<seq<Doc>>)
    ensures r == PostProcessed(docs, show)
  {
    var seen: set<string> := {};
    var processed: seq<Doc> := [];
    for i := 0 to |docs|
      invariant PostProcessed(docs[..i], show) == Some(processed)
      invariant seen == Seen(docs[..i])
    {
      var d := docs[i];
      assert docs[..i + 1] == docs[..i] + [d];
      PostProcessedSnoc(docs[..i], d, show);
      var content := Get(d, "content", JStr(""));
      if !content.JStr? {
        PostProcessedAbortPersists(docs, i + 1, show);
        return None;
      }
      var key := Take(content.s, DEDUP_PREFIX);
      SeenAppend(docs[..i], d);
      if key in seen {
        continue;
      }
      seen := seen + {key};
      var citation := Citation(d, show);
      if citation.None? {
        PostProcessedAbortPersists(docs, i + 1, show);
        return None;
      }
      processed := processed + [Processed(d, citation.value)];
    }
    assert docs[..|docs|] == docs;
    return Some(processed);
  }

  // ===========================================================================
  // Retrieval

  /** `retrieve`: search, then post-process; any exception gives []. */
  function Retrieve(store: Store, query: string, domain: Option<string>, k: nat, minScore: real,
                    show: Json -> string): (docs: seq<Doc>)
    ensures store(VectorQuery(query, k, domain, minScore)).SearchFailed? ==> docs == []
    ensures store(VectorQuery(query, k, domain, minScore)).Rows? ==>
              docs == PostProcessed(store(VectorQuery(query, k, domain, minScore)).docs, show).GetOr([])
    ensures store(VectorQuery(query, k, domain, minScore)).Rows? ==>
              |docs| <= |store(VectorQuery(query, k, domain, minScore)).docs|
    ensures forall i :: 0 <= i < |docs| ==> "citation" in docs[i] && "content" in docs[i]
  {
    match store(VectorQuery(query, k, domain, minScore))
    case SearchFailed(_) => []
    case Rows(rows) =>
      var p := PostProcessed(rows, show);
      if p.Some? then PostProcessedCited(rows, show); p.value else []
  }

  /** `retrieve_for_classification`: "{domain} {sub_domain} procedure {query}", filtered by domain. */
  function RetrieveForClassification(store: Store, domain: string, subDomain: string, userQuery: string, k: nat,
                                     show: Json -> string): (docs: seq<Doc>)
    ensures var q := VectorQuery(domain + " " + subDomain + " procedure " + userQuery, k, Some(domain), 0.5);
            && (store(q).SearchFailed? ==> docs == [])
            && (store(q).Rows? ==> docs == PostProcessed(store(q).docs, show).GetOr([]))
    ensures forall i :: 0 <= i < |docs| ==> "citation" in docs[i] && "content" in docs[i]
  {
    Retrieve(store, domain + " " + subDomain + " procedure " + userQuery, Some(domain), k, 0.5, show)
  }

  /** The query of `get_act_info`: the act name, with " section s" when a section is given. */
  function ActQuery(actName: string, section: Option<string>): (q: string)
    ensures IsPrefix(actName, q)
    ensures section.None? || section.value == [] ==> q == actName
  {
    if section.Some? && section.value != [] then actName + " section " + section.value else actName
  }

  /** `get_act_info`: the first document of a one-result search at score 0.7, or None. */
  function GetActInfo(store: Store, actName: string, section: Option<string>, show: Json -> string): (r: Option<Doc>)
    ensures var docs := Retrieve(store, ActQuery(actName, section), None, 1, 0.7, show);
            (r.None? <==> docs == []) && (r.Some? ==> r.value == docs[0])
  {
    var docs := Retrieve(store, ActQuery(actName, section), None, 1, 0.7, show);
    if docs != [] then Some(docs[0]) else None
  }
}
