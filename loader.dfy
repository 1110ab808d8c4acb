/**
 * The document loader of the ingestion scripts: how a file name becomes act,
 * section, chapter and domain metadata, how `load_file` picks a reader by
 * extension, and the document dict `load_from_text` builds. Reading PDF, text
 * and Word files is not modelled: a `Reader` says what each library returns for
 * the file, or that it raised.
 */
module Loader {
  import opened Wrappers
  import opened Text
  import opened JsonValue

  /** A loaded document as a dict. */
  type Doc = map<string, Json>

  // ===========================================================================
  // Path names

  /** The index of the last occurrence of `c` in `s` (`s.rfind(c)`), if any. */
  function LastIndex(s: string, c: char): (r: Option<nat>)
    ensures r.Some? ==> r.value < |s| && s[r.value] == c && forall j :: r.value < j < |s| ==> s[j] != c
    ensures r.None? ==> forall j :: 0 <= j < |s| ==> s[j] != c
  {
    if s == [] then None
    else if s[|s| - 1] == c then Some(|s| - 1)
    else
      var r := LastIndex(s[..|s| - 1], c);
      assert forall j :: 0 <= j < |s| - 1 ==> s[..|s| - 1][j] == s[j];
      r
  }

  /** `PurePath(path).name` for a path without a trailing separator: the text after the last "/". */
  function Name(path: string): (r: string)
    ensures '/' !in r
    ensures EndsWith(path, r)
  {
    match LastIndex(path, '/')
    case None => ConcatEnds([], path); assert [] + path == path; path
    case Some(i) =>
      assert path == path[..i + 1] + path[i + 1..];
      ConcatEnds(path[..i + 1], path[i + 1..]);
      path[i + 1..]
  }

  /** Where the suffix of a name starts: at its last "." unless that is its first or last character. */
  function SuffixStart(name: string): (r: nat)
    ensures r <= |name|
  {
    match LastIndex(name, '.')
    case Some(i) => if 0 < i < |name| - 1 then i else |name|
    case None => |name|
  }

  /** `PurePath(name).suffix` */
  function Suffix(name: string): string {
    name[SuffixStart(name)..]
  }

  /** `PurePath(name).stem` */
  function Stem(name: string): string {
    name[..SuffixStart(name)]
  }

  /**
   * A name is its stem followed by its suffix; a non-empty suffix is a "." and at
   * least one further character, none of them a ".", and the stem is not empty then.
   */
  lemma StemAndSuffix(name: string)
    ensures Stem(name) + Suffix(name) == name
    ensures Suffix(name) != [] ==>
              |Suffix(name)| >= 2 && Suffix(name)[0] == '.' && '.' !in Suffix(name)[1..] && Stem(name) != []
  {
    var k := SuffixStart(name);
    if k < |name| {
      assert forall j :: k < j < |name| ==> name[j] != '.';
      assert '.' !in name[k + 1..];
    }
  }

  // ===========================================================================
  // `_infer_domain`

  /** The domain table, in the order the source's dict lists it. */
  const DOMAIN_KEYWORDS: seq<(string, seq<string>)> := [
    ("Consumer Law", ["consumer", "trade", "commerce"]),
    ("Criminal Law", ["ipc", "penal", "criminal", "crpc", "crime"]),
    ("Labour Law", ["labour", "labor", "employment", "industrial", "wage", "factory"]),
    ("Family Law", ["marriage", "divorce", "hindu", "muslim", "christian", "adoption", "guardian"]),
    ("Property Law", ["property", "land", "registration", "transfer", "rent", "tenancy"]),
    ("Constitutional Law", ["constitution", "fundamental", "rti", "information"]),
    ("Civil Law", ["civil", "cpc", "contract", "specific relief", "limitation"])
  ]

  /** Some keyword of the list occurs in the (lowercased) name. */
  predicate AnyKeyword(keywords: seq<string>, lowered: string) {
    exists j :: 0 <= j < |keywords| && Contains(lowered, keywords[j])
  }

  /**
   * `r` is the first domain of the table, in order, with a keyword occurring in
   * the name, or None when no domain has one.
   */
  predicate IsFirstMatch(table: seq<(string, seq<string>)>, lowered: string, r: Option<string>) {
    (r.None? <==> forall i :: 0 <= i < |table| ==> !AnyKeyword(table[i].1, lowered)) &&
    (r.Some? ==> exists i :: 0 <= i < |table| && table[i].0 == r.value && AnyKeyword(table[i].1, lowered)
                             && forall k :: 0 <= k < i ==> !AnyKeyword(table[k].1, lowered))
  }

  function FirstDomain(table: seq<(string, seq<string>)>, lowered: string): (r: Option<string>)
    ensures IsFirstMatch(table, lowered, r)
  {
    if table == [] then None
    else if AnyKeyword(table[0].1, lowered) then
      assert IsFirstMatch(table, lowered, Some(table[0].0)) by {
        assert table[0].0 == table[0].0 && AnyKeyword(table[0].1, lowered);
      }
      Some(table[0].0)
    else
      var r := FirstDomain(table[1..], lowered);
      FirstMatchShift(table, lowered, r);
      r
  }

  /** A first match in the rest of the table is the first match of the whole when its head does not match. */
  lemma FirstMatchShift(table: seq<(string, seq<string>)>, lowered: string, r: Option<string>)
    requires table != [] && !AnyKeyword(table[0].1, lowered)
    requires IsFirstMatch(table[1..], lowered, r)
    ensures IsFirstMatch(table, lowered, r)
  {
    var tail := table[1..];
    assert forall i :: 1 <= i < |table| ==> tail[i - 1] == table[i];
    if r.Some? {
      var i :| 0 <= i < |tail| && tail[i].0 == r.value && AnyKeyword(tail[i].1, lowered)
               && forall k :: 0 <= k < i ==> !AnyKeyword(tail[k].1, lowered);
      assert table[i + 1] == tail[i];
      forall k | 0 <= k < i + 1 ensures !AnyKeyword(table[k].1, lowered) {
        if k > 0 {
          assert table[k] == tail[k - 1];
        }
      }
    }
  }

  /** The domain `_infer_domain` gives an act name: none for a missing or empty name. */
  function DomainOf(actName: Option<string>): Option<string> {
    if actName.None? || actName.value == [] then None else FirstDomain(DOMAIN_KEYWORDS, Lower(actName.value))
  }

  /** `_infer_domain`: scan the table in order, and each domain's keywords in order. */
  method InferDomain(actName: Option<string>) returns (r: Option<string>)
    ensures r == DomainOf(actName)
  {
    if actName.None? || actName.value == [] {
      return None;
    }
    r := ScanDomains(DOMAIN_KEYWORDS, Lower(actName.value));
  }

  /** The nested search of `_infer_domain` over a domain table. */
  method ScanDomains(table: seq<(string, seq<string>)>, lowered: string) returns (r: Option<string>)
    ensures r == FirstDomain(table, lowered)
  {
    for d := 0 to |table|
      invariant FirstDomain(table, lowered) == FirstDomain(table[d..], lowered)
    {
      var keywords := table[d].1;
      assert table[d..][0] == table[d];
      for k := 0 to |keywords|
        invariant forall j :: 0 <= j < k ==> !Contains(lowered, keywords[j])
      {
        if IndexOf(lowered, keywords[k]).Some? {
          assert AnyKeyword(keywords, lowered);
          return Some(table[d].0);
        }
      }
      assert !AnyKeyword(keywords, lowered);
      assert table[d..][1..] == table[d + 1..];
    }
    assert table[|table|..] == [];
    return None;
  }

  /** The lowercased name is what is searched: an act name that starts with "Consumer" is consumer law. */
  lemma ConsumerActs(rest: string)
    ensures DomainOf(Some("Consumer" + rest)) == Some("Consumer Law")
  {
    var lowered := Lower("Consumer" + rest);
    LowerConcat("Consumer", rest);
    assert Lower("Consumer") == "consumer";
    assert OccursAt(lowered, "consumer", 0) by {
      assert lowered[..8] == "consumer";
    }
    assert AnyKeyword(DOMAIN_KEYWORDS[0].1, lowered) by {
      assert DOMAIN_KEYWORDS[0].1[0] == "consumer";
    }
  }

  // ===========================================================================
  // `_extract_metadata_from_filename`

  const SECTION_MARKERS: set<string> := {"section", "sec", "s"}
  const CHAPTER_MARKERS: set<string> := {"chapter", "chap", "ch"}
  const ACT_INDICATORS: seq<string> := ["act", "code", "ipc", "crpc", "cpc"]

  /** `name.replace("-", "_")` */
  function Underscored(name: string): (r: string)
    ensures |r| == |name| && '-' !in r
    ensures forall k :: 0 <= k < |name| ==> r[k] == if name[k] == '-' then '_' else name[k]
  {
    seq(|name|, k requires 0 <= k < |name| => if name[k] == '-' then '_' else name[k])
  }

  /** The tokens of a file name: its stem, dashes read as underscores, split on "_". */
  function Tokens(filename: string): (parts: seq<string>)
    ensures |parts| >= 1
    ensures Join(parts, "_") == Underscored(Stem(filename))
    ensures forall k :: 0 <= k < |parts| ==> '_' !in parts[k] && '-' !in parts[k]
  {
    var parts := Split(Underscored(Stem(filename)), '_');
    forall k | 0 <= k < |parts| ensures '-' !in parts[k] {
      assert Join(parts, ['_']) == Underscored(Stem(filename));
      JoinContains(parts, "_", k);
    }
    parts
  }

  /** Every character of a joined part is a character of the join. */
  lemma {:induction false} JoinContains(parts: seq<string>, sep: string, k: nat)
    requires k < |parts|
    ensures forall c :: c in parts[k] ==> c in Join(parts, sep)
    decreases |parts|
  {
    if |parts| > 1 {
      if k > 0 {
        JoinContains(parts[1..], sep, k - 1);
      }
    }
  }

  /**
   * The value a marker gives after the first n tokens: the token following the
   * last marker among them that is not the final token.
   */
  function MarkedValue(parts: seq<string>, markers: set<string>, n: nat): Option<string>
    requires n <= |parts|
  {
    if n == 0 then None
    else if Lower(parts[n - 1]) in markers && n < |parts| then Some(parts[n])
    else MarkedValue(parts, markers, n - 1)
  }

  predicate MarkerWithValue(parts: seq<string>, markers: set<string>, i: int) {
    0 <= i && i + 1 < |parts| && Lower(parts[i]) in markers
  }

  /** The marker that sets the value is the last one with a token after it; a trailing marker sets nothing. */
  lemma {:induction false} MarkedValueIsLast(parts: seq<string>, markers: set<string>, n: nat)
    requires n <= |parts|
    ensures MarkedValue(parts, markers, n).None? <==> forall i :: 0 <= i < n ==> !MarkerWithValue(parts, markers, i)
    ensures MarkedValue(parts, markers, n).Some? ==>
              exists i :: 0 <= i < n && MarkerWithValue(parts, markers, i) && MarkedValue(parts, markers, n).value == parts[i + 1]
                          && forall j :: i < j < n ==> !MarkerWithValue(parts, markers, j)
  {
    if n > 0 {
      MarkedValueIsLast(parts, markers, n - 1);
      if MarkerWithValue(parts, markers, n - 1) {
        assert MarkedValue(parts, markers, n).value == parts[n];
      }
    }
  }

  /** A token belongs to the act name when it is no marker and either sits among the first three or is an act indicator. */
  predicate IsActPart(parts: seq<string>, i: nat)
    requires i < |parts|
  {
    var low := Lower(parts[i]);
    low !in SECTION_MARKERS && low !in CHAPTER_MARKERS && (low in ACT_INDICATORS || i < 3)
  }

  /** The act-name tokens among the first n tokens, in order. */
  function ActParts(parts: seq<string>, n: nat): (r: seq<string>)
    requires n <= |parts|
    ensures |r| <= n
  {
    if n == 0 then []
    else ActParts(parts, n - 1) + (if IsActPart(parts, n - 1) then [parts[n - 1]] else [])
  }

  /** `x` is one of the first n tokens that belongs to the act name. */
  predicate ActToken(parts: seq<string>, n: nat, x: string)
    requires n <= |parts|
  {
    exists i :: 0 <= i < n && IsActPart(parts, i) && x == parts[i]
  }

  /** Each act-name token is a token that is no marker; when every token qualifies, all are kept in order. */
  lemma {:induction false} ActPartsAreTokens(parts: seq<string>, n: nat)
    requires n <= |parts|
    ensures forall k :: 0 <= k < |ActParts(parts, n)| ==> ActToken(parts, n, ActParts(parts, n)[k])
    ensures (forall i :: 0 <= i < n ==> IsActPart(parts, i)) ==> ActParts(parts, n) == parts[..n]
  {
    if n > 0 {
      ActPartsAreTokens(parts, n - 1);
      var prev := ActParts(parts, n - 1);
      var r := ActParts(parts, n);
      forall k | 0 <= k < |r| ensures ActToken(parts, n, r[k]) {
        if k < |prev| {
          assert r[k] == prev[k];
          assert ActToken(parts, n - 1, prev[k]);
          var i :| 0 <= i < n - 1 && IsActPart(parts, i) && prev[k] == parts[i];
          assert 0 <= i < n && IsActPart(parts, i) && r[k] == parts[i];
        } else {
          assert IsActPart(parts, n - 1) && r[k] == parts[n - 1];
        }
      }
      if forall i :: 0 <= i < n ==> IsActPart(parts, i) {
        assert parts[..n] == parts[..n - 1] + [parts[n - 1]];
      }
    }
  }

  function OptionalString(o: Option<string>): (j: Json)
    ensures o.None? ==> j == JNull
    ensures o.Some? ==> j == JStr(o.value)
  {
    if o.Some? then JStr(o.value) else JNull
  }

  /** The act name: the act-name tokens joined by spaces, when there are any. */
  function ActName(parts: seq<string>): Option<string> {
    var acts := ActParts(parts, |parts|);
    if acts != [] then Some(Join(acts, " ")) else None
  }

  /** The metadata a file name yields: act name, section, chapter and the act's domain. */
  function Metadata(filename: string): (md: map<string, Json>)
    ensures md.Keys == {"act_name", "section", "chapter", "domain"}
  {
    var parts := Tokens(filename);
    var act := ActName(parts);
    map["act_name" := OptionalString(act),
        "section" := OptionalString(MarkedValue(parts, SECTION_MARKERS, |parts|)),
        "chapter" := OptionalString(MarkedValue(parts, CHAPTER_MARKERS, |parts|)),
        "domain" := OptionalString(DomainOf(act))]
  }

  /** `_extract_metadata_from_filename`: one pass over the tokens, then the domain of the act name. */
  method ExtractMetadata(filename: string) returns (md: map<string, Json>)
    ensures md == Metadata(filename)
  {
    var parts := Split(Underscored(Stem(filename)), '_');
    var actParts: seq<string> := [];
    var section: Option<string> := None;
    var chapter: Option<string> := None;
    for i := 0 to |parts|
      invariant actParts == ActParts(parts, i)
      invariant section == MarkedValue(parts, SECTION_MARKERS, i)
      invariant chapter == MarkedValue(parts, CHAPTER_MARKERS, i)
    {
      var low := Lower(parts[i]);
      if low in SECTION_MARKERS {
        if i + 1 < |parts| {
          section := Some(parts[i + 1]);
        }
      } else if low in CHAPTER_MARKERS {
        if i + 1 < |parts| {
          chapter := Some(parts[i + 1]);
        }
      } else if low in ACT_INDICATORS || i < 3 {
        actParts := actParts + [parts[i]];
      }
    }
    var act: Option<string> := None;
    if actParts != [] {
      act := Some(Join(actParts, " "));
    }
    var domain := InferDomain(act);
    md := map["act_name" := OptionalString(act), "section" := OptionalString(section),
              "chapter" := OptionalString(chapter), "domain" := OptionalString(domain)];
  }

  // ===========================================================================
  // `load_file` and `load_from_text`

  const SUPPORTED_EXTENSIONS: seq<string> := [".pdf", ".txt", ".docx", ".md"]

  /** What each file library returns for one file, or None when it raises. */
  datatype Reader = Reader(pdfPages: Option<seq<Option<string>>>, text: Option<string>, docxParagraphs: Option<seq<string>>)

  /** The page texts `extract_text` returned that are neither None nor empty, in order. */
  function PagesWithText(pages: seq<Option<string>>): (r: seq<string>)
    ensures |r| <= |pages|
    ensures forall k :: 0 <= k < |r| ==> r[k] != []
  {
    if pages == [] then []
    else
      var last := pages[|pages| - 1];
      PagesWithText(pages[..|pages| - 1]) + (if last.Some? && last.value != [] then [last.value] else [])
  }

  /** The paragraph texts that are not blank, in order. */
  function NonBlank(paragraphs: seq<string>): (r: seq<string>)
    ensures |r| <= |paragraphs|
    ensures forall k :: 0 <= k < |r| ==> Strip(r[k]) != []
  {
    if paragraphs == [] then []
    else
      var last := paragraphs[|paragraphs| - 1];
      NonBlank(paragraphs[..|paragraphs| - 1]) + (if Strip(last) != [] then [last] else [])
  }

  /** The document dict a reader builds for a file; `metadata` is what the file's name yields. */
  function FileDoc(content: string, path: string, fileType: string, metadata: map<string, Json>): (d: Doc)
    ensures d.Keys == {"content", "source", "file_name", "file_type", "metadata"}
    ensures d["content"] == JStr(content) && d["source"] == JStr(path) && d["file_type"] == JStr(fileType)
    ensures d["file_name"] == JStr(Name(path)) && d["metadata"] == JObj(metadata)
  {
    map["content" := JStr(content), "source" := JStr(path), "file_name" := JStr(Name(path)),
        "file_type" := JStr(fileType), "metadata" := JObj(metadata)]
  }

  /** The lowercased suffix of the file name. */
  function Extension(path: string): string {
    Lower(Suffix(Name(path)))
  }

  /** The reader `load_file` picks for an extension. */
  datatype FileKind = Pdf | PlainText | Docx | Unsupported

  function KindOf(ext: string): (k: FileKind)
    ensures k != Unsupported <==> ext in SUPPORTED_EXTENSIONS
    ensures k == Pdf <==> ext == ".pdf"
    ensures k == PlainText <==> ext == ".txt" || ext == ".md"
    ensures k == Docx <==> ext == ".docx"
  {
    if ext == ".pdf" then Pdf
    else if ext == ".txt" then PlainText
    else if ext == ".docx" then Docx
    else if ext == ".md" then PlainText
    else Unsupported
  }

  /** The file type a reader records: Markdown is read, and recorded, as text. */
  function TypeName(k: FileKind): string {
    match k
    case Pdf => "pdf"
    case Docx => "docx"
    case _ => "txt"
  }

  /**
   * The text the reader of kind k extracts, or None when it raised: the PDF's
   * non-empty page texts and the DOCX's non-blank paragraphs joined by blank
   * lines, a text or Markdown file as read.
   */
  function ReadText(k: FileKind, reader: Reader): (c: Option<string>)
    requires k != Unsupported
    ensures k == Pdf ==> c == (if reader.pdfPages.None? then None
                               else Some(Join(PagesWithText(reader.pdfPages.value), "\n\n")))
    ensures k == PlainText ==> c == reader.text
    ensures k == Docx ==> c == (if reader.docxParagraphs.None? then None
                                else Some(Join(NonBlank(reader.docxParagraphs.value), "\n\n")))
  {
    match k
    case Pdf => if reader.pdfPages.None? then None else Some(Join(PagesWithText(reader.pdfPages.value), "\n\n"))
    case PlainText => reader.text
    case Docx => if reader.docxParagraphs.None? then None else Some(Join(NonBlank(reader.docxParagraphs.value), "\n\n"))
  }

  /**
   * `load_file`: None for a missing file, an unsupported extension or a reader
   * that raised; ".md" files are read as text. A found document holds the text its
   * reader extracted and records the path, the file's name, its type and the
   * metadata of its name.
   */
  function LoadFile(path: string, found: bool, reader: Reader): (r: Option<Doc>)
    ensures r.Some? ==> found && Extension(path) in SUPPORTED_EXTENSIONS
    ensures found && KindOf(Extension(path)) != Unsupported ==>
              (r.None? <==> ReadText(KindOf(Extension(path)), reader).None?)
    ensures r.Some? ==> r.value.Keys == {"content", "source", "file_name", "file_type", "metadata"}
    ensures r.Some? ==> r.value["content"] == JStr(ReadText(KindOf(Extension(path)), reader).value)
    ensures r.Some? ==> r.value["source"] == JStr(path)
    ensures r.Some? ==> r.value["file_name"] == JStr(Name(path)) && r.value["metadata"] == JObj(Metadata(Name(path)))
    ensures r.Some? ==> r.value["file_type"] == JStr(TypeName(KindOf(Extension(path))))
  {
    var k := KindOf(Extension(path));
    if !found || k == Unsupported then None
    else
      match ReadText(k, reader)
      case None => None
      case Some(content) => Some(FileDoc(content, path, TypeName(k), Metadata(Name(path))))
  }

  /** A found file with a supported extension and a reader that does not raise always loads. */
  lemma LoadFileSupported(path: string, reader: Reader)
    requires Extension(path) in SUPPORTED_EXTENSIONS
    requires reader.pdfPages.Some? && reader.text.Some? && reader.docxParagraphs.Some?
    ensures LoadFile(path, true, reader).Some?
    ensures LoadFile(path, false, reader).None?
  {
  }

  /** `load_from_text`: the source doubles as the file name; a missing or empty metadata becomes {}. */
  function LoadFromText(content: string, source: Option<string>, metadata: Option<map<string, Json>>): (d: Doc)
    ensures d.Keys == {"content", "source", "file_name", "file_type", "metadata"}
    ensures d["content"] == JStr(content) && d["file_type"] == JStr("text")
    ensures d["source"] == d["file_name"] == JStr(source.GetOr("manual"))
    ensures d["metadata"] == JObj(metadata.GetOr(map[]))
  {
    var src := source.GetOr("manual");
    map["content" := JStr(content), "source" := JStr(src), "file_name" := JStr(src),
        "file_type" := JStr("text"), "metadata" := JObj(if metadata.Some? && metadata.value != map[] then metadata.value else map[])]
  }
}
