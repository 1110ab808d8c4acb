/**
 * The modular retriever agent: builds a procedure-focused search query,
 * flattens the store's rows into a fixed document shape, and looks up
 * individual sections of an act.
 */
module RetrieverAgent {
  import opened Wrappers
  import opened Text
  import opened JsonValue
  import opened VectorStore

  // ===========================================================================
  // Query building

  /** Python truthiness of an optional string: present and non-empty. */
  predicate Given(s: Option<string>) {
    s.Some? && s.value != []
  }

  const PROCEDURE_TERMS: seq<string> := ["procedure", "process", "India"]

  /** `_build_query` as a value: the parts in order, joined by single spaces. */
  function QueryOf(base: string, domain: Option<string>, subDomain: Option<string>): string {
    Join([base] + (if Given(domain) then [domain.value] else [])
                + (if Given(subDomain) then [subDomain.value] else [])
                + PROCEDURE_TERMS, " ")
  }

  /** Each part preceded by the separator, concatenated. */
  function Prefixed(parts: seq<string>, sep: string): (r: string)
    ensures parts == [] ==> r == []
  {
    if parts == [] then [] else sep + parts[0] + Prefixed(parts[1..], sep)
  }

  lemma {:induction false} JoinAsPrefixed(p: string, parts: seq<string>, sep: string)
    ensures Join([p] + parts, sep) == p + Prefixed(parts, sep)
    decreases |parts|
  {
    if parts == [] {
      assert [p] + parts == [p];
    } else {
      JoinCons(p, parts, sep);
      assert parts == [parts[0]] + parts[1..];
      JoinAsPrefixed(parts[0], parts[1..], sep);
    }
  }

  lemma {:induction false} PrefixedAppend(a: seq<string>, b: seq<string>, sep: string)
    ensures Prefixed(a + b, sep) == Prefixed(a, sep) + Prefixed(b, sep)
    decreases |a|
  {
    if a != [] {
      assert (a + b)[0] == a[0];
      assert (a + b)[1..] == a[1..] + b;
      PrefixedAppend(a[1..], b, sep);
      calc {
        Prefixed(a + b, sep);
        sep + a[0] + Prefixed(a[1..] + b, sep);
        sep + a[0] + (Prefixed(a[1..], sep) + Prefixed(b, sep));
        (sep + a[0] + Prefixed(a[1..], sep)) + Prefixed(b, sep);
      }
    } else {
      assert a + b == b;
    }
  }

  /**
   * The query spelled out: the base, " domain" and " sub_domain" when given,
   * then " procedure process India".
   */
  lemma QueryOfSpelled(base: string, domain: Option<string>, subDomain: Option<string>)
    ensures QueryOf(base, domain, subDomain)
            == base + (if Given(domain) then " " + domain.value else "")
                    + (if Given(subDomain) then " " + subDomain.value else "")
                    + " procedure process India"
  {
    var ds := if Given(domain) then " " + domain.value else "";
    var ss := if Given(subDomain) then " " + subDomain.value else "";
    QueryAsPrefixed(base, domain, subDomain);
    OptionalPartsPrefixed(domain, subDomain);
    Regrouped(base, ds, ss, " procedure process India");
  }

  lemma Regrouped(a: string, b: string, c: string, d: string)
    ensures a + (b + c + d) == a + b + c + d
  {
  }

  /** The query is the base followed by every other part, each preceded by a space. */
  lemma QueryAsPrefixed(base: string, domain: Option<string>, subDomain: Option<string>)
    ensures var d := if Given(domain) then [domain.value] else [];
            var s := if Given(subDomain) then [subDomain.value] else [];
            QueryOf(base, domain, subDomain) == base + Prefixed(d + s + PROCEDURE_TERMS, " ")
  {
    var d := if Given(domain) then [domain.value] else [];
    var s := if Given(subDomain) then [subDomain.value] else [];
    assert [base] + d + s + PROCEDURE_TERMS == [base] + (d + s + PROCEDURE_TERMS);
    JoinAsPrefixed(base, d + s + PROCEDURE_TERMS, " ");
  }

  lemma OptionalPartsPrefixed(domain: Option<string>, subDomain: Option<string>)
    ensures var d := if Given(domain) then [domain.value] else [];
            var s := if Given(subDomain) then [subDomain.value] else [];
            Prefixed(d + s + PROCEDURE_TERMS, " ")
              == (if Given(domain) then " " + domain.value else "")
                 + (if Given(subDomain) then " " + subDomain.value else "")
                 + " procedure process India"
  {
    var d := if Given(domain) then [domain.value] else [];
    var s := if Given(subDomain) then [subDomain.value] else [];
    PrefixedAppend(d + s, PROCEDURE_TERMS, " ");
    ProcedureTermsPrefixed();
    PrefixedAppend(d, s, " ");
    PrefixedOne(d, " ");
    PrefixedOne(s, " ");
  }

  lemma PrefixedOne(parts: seq<string>, sep: string)
    requires |parts| <= 1
    ensures Prefixed(parts, sep) == if parts == [] then "" else sep + parts[0]
  {
    if parts != [] {
      assert parts[1..] == [];
    }
  }

  lemma ProcedureTermsPrefixed()
    ensures Prefixed(PROCEDURE_TERMS, " ") == " procedure process India"
  {
    var t := PROCEDURE_TERMS;
    assert t[1..] == ["process", "India"];
    assert t[1..][1..] == ["India"];
    PrefixedOne(["India"], " ");
  }

  /** `_build_query`: the list of parts grown by appends and one extend, then joined. */
  method BuildQuery(base: string, domain: Option<string>, subDomain: Option<string>) returns (q: string)
    ensures q == QueryOf(base, domain, subDomain)
  {
    var parts := [base];
    if domain.Some? && domain.value != [] {
      parts := parts + [domain.value];
    }
    if subDomain.Some? && subDomain.value != [] {
      parts := parts + [subDomain.value];
    }
    parts := parts + PROCEDURE_TERMS;
    assert parts == [base] + (if Given(domain) then [domain.value] else [])
                           + (if Given(subDomain) then [subDomain.value] else []) + PROCEDURE_TERMS;
    q := Join(parts, " ");
  }

  // ===========================================================================
  // Document formatting

  /** The one row shape the agent returns; each field read with `.get(key, default)`. */
  function FormatDoc(d: Doc): (f: Doc)
    ensures f.Keys == {"id", "title", "section", "chapter", "content", "source_url", "domain", "relevance_score"}
    ensures f["title"] == (if "act_name" in d then d["act_name"] else JStr("Legal Document"))
    ensures f["relevance_score"] == (if "score" in d then d["score"] else JFloat(0.0))
    ensures forall key :: key in {"id", "section", "chapter", "content", "source_url", "domain"} ==>
              f[key] == (if key in d then d[key] else JStr(""))
  {
    map["id" := Get(d, "id", JStr("")),
        "title" := Get(d, "act_name", JStr("Legal Document")),
        "section" := Get(d, "section", JStr("")),
        "chapter" := Get(d, "chapter", JStr("")),
        "content" := Get(d, "content", JStr("")),
        "source_url" := Get(d, "source_url", JStr("")),
        "domain" := Get(d, "domain", JStr("")),
        "relevance_score" := Get(d, "score", JFloat(0.0))]
  }

  /** `_format_documents`: one formatted row per input row, same order. */
  method FormatDocuments(docs: seq<Doc>) returns (formatted: seq<Doc>)
    ensures |formatted| == |docs|
    ensures forall i :: 0 <= i < |docs| ==> formatted[i] == FormatDoc(docs[i])
  {
    formatted := [];
    for i := 0 to |docs|
      invariant |formatted| == i
      invariant forall j :: 0 <= j < i ==> formatted[j] == FormatDoc(docs[j])
    {
      formatted := formatted + [FormatDoc(docs[i])];
    }
  }

  /** The formatted rows as a value, for the specifications below. */
  function FormattedDocs(docs: seq<Doc>): (fs: seq<Doc>)
    ensures |fs| == |docs|
    ensures forall i :: 0 <= i < |docs| ==> fs[i] == FormatDoc(docs[i])
  {
    seq(|docs|, i requires 0 <= i < |docs| => FormatDoc(docs[i]))
  }

  // ===========================================================================
  // Retrieval

  const RETRIEVE_THRESHOLD: real := 0.5

  /** The result dict of `retrieve`: "error" is present only on the failure path. */
  datatype Retrieval = Retrieval(documents: seq<Doc>, query: string, count: nat, error: Option<string>, timestamp: string)

  /**
   * `retrieve`: one similarity search on the enhanced query, filtered by the
   * domain as given; an exception from the store gives no documents, count 0,
   * the ORIGINAL query and the error text. `now` stands for the UTC timestamp.
   */
  function Retrieve(store: Store, query: string, domain: Option<string>, subDomain: Option<string>, k: nat,
                    now: string): (r: Retrieval)
    ensures r.timestamp == now
    ensures r.error.None? ==> r.count == |r.documents| && r.query == QueryOf(query, domain, subDomain)
    ensures r.error.Some? ==> r.documents == [] && r.count == 0 && r.query == query
    ensures r.error.None? <==> store(VectorQuery(QueryOf(query, domain, subDomain), k, domain, RETRIEVE_THRESHOLD)).Rows?
    ensures r.error.None? ==>
              r.documents == FormattedDocs(store(VectorQuery(QueryOf(query, domain, subDomain), k, domain, RETRIEVE_THRESHOLD)).docs)
  {
    var enhanced := QueryOf(query, domain, subDomain);
    match store(VectorQuery(enhanced, k, domain, RETRIEVE_THRESHOLD))
    case Rows(rows) =>
      var docs := FormattedDocs(rows);
      Retrieval(docs, enhanced, |docs|, None, now)
    case SearchFailed(message) => Retrieval([], query, 0, Some(message), now)
  }

  /** `search_by_keywords`: the keywords joined by spaces, retrieved without a sub-domain, documents only. */
  function SearchByKeywords(store: Store, keywords: seq<string>, domain: Option<string>, k: nat, now: string): (docs: seq<Doc>)
    ensures var q := QueryOf(Join(keywords, " "), domain, None);
            match store(VectorQuery(q, k, domain, RETRIEVE_THRESHOLD))
            case Rows(rows) => docs == FormattedDocs(rows)
            case SearchFailed(_) => docs == []
  {
    Retrieve(store, Join(keywords, " "), domain, None, k, now).documents
  }

  // ===========================================================================
  // Sections of an act

  const SECTION_THRESHOLD: real := 0.7

  /** The search `get_act_sections` makes for one section: k = 1, no domain filter, threshold 0.7. */
  function SectionQuery(actName: string, section: string): VectorQuery {
    VectorQuery(actName + " section " + section, 1, None, SECTION_THRESHOLD)
  }

  /** The first row of one section's search; None when it found nothing or raised. */
  function FirstRow(s: DocSearch): (r: Option<Doc>)
    ensures r.Some? <==> s.Rows? && s.docs != []
    ensures r.Some? ==> r.value == s.docs[0]
  {
    if s.Rows? && s.docs != [] then Some(s.docs[0]) else None
  }

  /** Whether every section's search returned rows rather than raising. */
  predicate AllSearchesSucceed(store: Store, actName: string, sections: seq<string>) {
    forall i :: 0 <= i < |sections| ==> store(SectionQuery(actName, sections[i])).Rows?
  }

  /**
   * `get_act_sections` as a value: when no search raises, the first row of
   * every section that found one, in request order; [] as soon as one raises.
   */
  function ActSections(store: Store, actName: string, sections: seq<string>): (docs: seq<Doc>)
    ensures |docs| <= |sections|
    ensures !AllSearchesSucceed(store, actName, sections) ==> docs == []
  {
    if AllSearchesSucceed(store, actName, sections) then
      Somes(seq(|sections|, i requires 0 <= i < |sections| => FirstRow(store(SectionQuery(actName, sections[i])))))
    else []
  }

  /** Every returned section is the first row of the search for some requested section. */
  lemma ActSectionsAreFirstRows(store: Store, actName: string, sections: seq<string>)
    ensures forall k :: 0 <= k < |ActSections(store, actName, sections)| ==>
              exists i :: 0 <= i < |sections| && FirstRow(store(SectionQuery(actName, sections[i])))
                                                 == Some(ActSections(store, actName, sections)[k])
  {
    if AllSearchesSucceed(store, actName, sections) {
      var hits := seq(|sections|, i requires 0 <= i < |sections| => FirstRow(store(SectionQuery(actName, sections[i]))));
      var idx := SomesIndices(hits);
      forall k | 0 <= k < |ActSections(store, actName, sections)|
        ensures exists i :: 0 <= i < |sections| && FirstRow(store(SectionQuery(actName, sections[i])))
                                                   == Some(ActSections(store, actName, sections)[k])
      {
        assert hits[idx[k]] == FirstRow(store(SectionQuery(actName, sections[idx[k]])));
      }
    }
  }

  /** When every section's search finds something, there is exactly one document per section, in order. */
  lemma ActSectionsAllFound(store: Store, actName: string, sections: seq<string>)
    requires forall i :: 0 <= i < |sections| ==> FirstRow(store(SectionQuery(actName, sections[i]))).Some?
    ensures |ActSections(store, actName, sections)| == |sections|
    ensures forall i :: 0 <= i < |sections| ==>
              ActSections(store, actName, sections)[i] == store(SectionQuery(actName, sections[i])).docs[0]
  {
    var hits := seq(|sections|, i requires 0 <= i < |sections| => FirstRow(store(SectionQuery(actName, sections[i]))));
    SomesAllPresent(hits);
  }

  /** With no position empty, `Somes` just unwraps every value. */
  lemma {:induction false} SomesAllPresent<T>(xs: seq<Option<T>>)
    requires forall i :: 0 <= i < |xs| ==> xs[i].Some?
    ensures |Somes(xs)| == |xs|
    ensures forall i :: 0 <= i < |xs| ==> Somes(xs)[i] == xs[i].value
    decreases |xs|
  {
    if xs != [] {
      var init := xs[..|xs| - 1];
      SomesAllPresent(init);
      assert forall i :: 0 <= i < |init| ==> init[i] == xs[i];
    }
  }

  /** `get_act_sections`: one k = 1 search per section, keeping the first row of each that found one; [] on an exception. */
  method GetActSections(store: Store, actName: string, sections: seq<string>) returns (docs: seq<Doc>)
    ensures docs == ActSections(store, actName, sections)
  {
    var hits: seq<Option<Doc>> := [];
    var found: seq<Doc> := [];
    for i := 0 to |sections|
      invariant |hits| == i
      invariant forall j :: 0 <= j < i ==> store(SectionQuery(actName, sections[j])).Rows?
      invariant forall j :: 0 <= j < i ==> hits[j] == FirstRow(store(SectionQuery(actName, sections[j])))
      invariant found == Somes(hits)
    {
      var results := store(SectionQuery(actName, sections[i]));
      if results.SearchFailed? {
        return [];
      }
      assert (hits + [FirstRow(results)])[..i] == hits;
      if results.docs != [] {
        found := found + [results.docs[0]];
      }
      hits := hits + [FirstRow(results)];
    }
    assert hits == seq(|sections|, i requires 0 <= i < |sections| => FirstRow(store(SectionQuery(actName, sections[i]))));
    docs := found;
  }
}
