/**
 * The text chunker of the ingestion pipeline: documents are cut at legal
 * headings ("Section 12", "CHAPTER IV", ...) when the text has them, and
 * otherwise into overlapping windows of about `chunk_size` characters that end
 * at a paragraph, sentence or word boundary.
 */
module Chunker {
  import opened Wrappers
  import opened Text
  import opened JsonValue

  // ===========================================================================
  // `_find_break_point`

  const PARAGRAPH_BREAK: string := "\n\n"
  const SENTENCE_ENDS: set<char> := {'.', '!', '?'}
  const LOOK_BEHIND: nat := 200
  const LOOK_AHEAD: nat := 100

  /** Where the search window starts: `max(start, end - 200)`. */
  function WindowStart(start: nat, end: nat): (ws: nat)
    requires start <= end
    ensures start <= ws <= end && end <= ws + LOOK_BEHIND
  {
    if end >= start + LOOK_BEHIND then end - LOOK_BEHIND else start
  }

  /** Where the search window ends: `end + 100`, clipped to the text. */
  function WindowEnd(len: nat, end: nat): (we: nat)
    requires end <= len
    ensures end <= we <= len && we <= end + LOOK_AHEAD
  {
    if end + LOOK_AHEAD <= len then end + LOOK_AHEAD else len
  }

  // The searches below scan the window `text[lo:hi]` in place; positions are
  // indices into `text`.

  /** A blank line "\n\n" starts at k, inside a window that ends at hi. */
  predicate BlankAt(text: string, k: nat, hi: nat)
    requires hi <= |text|
  {
    k + 1 < hi && text[k] == '\n' && text[k + 1] == '\n'
  }

  /** No blank line of the window ending at hi starts in [lo, k). */
  predicate NoBlankBetween(text: string, lo: nat, k: nat, hi: nat)
    requires hi <= |text|
  {
    forall j: nat :: lo <= j < k ==> !BlankAt(text, j, hi)
  }

  /** `window.find("\n\n")` from `from` on: the first blank line of the window. */
  function BlankLine(text: string, from: nat, hi: nat): (r: Option<nat>)
    requires hi <= |text|
    ensures r.Some? ==> from <= r.value && BlankAt(text, r.value, hi)
    ensures r.Some? ==> NoBlankBetween(text, from, r.value, hi)
    ensures r.None? ==> NoBlankBetween(text, from, hi, hi)
    decreases hi - from
  {
    if from + 1 >= hi then None
    else if text[from] == '\n' && text[from + 1] == '\n' then Some(from)
    else BlankLine(text, from + 1, hi)
  }

  /** A match of `[.!?]\s+` starts at k, inside a window that ends at hi. */
  predicate SentenceAt(text: string, k: nat, hi: nat)
    requires hi <= |text|
  {
    k + 1 < hi && text[k] in SENTENCE_ENDS && IsSpace(text[k + 1])
  }

  /** `[.!?]\s+` matches nowhere in [lo, k) of the window ending at hi. */
  predicate NoSentenceBetween(text: string, lo: nat, k: nat, hi: nat)
    requires hi <= |text|
  {
    forall j: nat :: lo <= j < k ==> !SentenceAt(text, j, hi)
  }

  /** Every character of `text[lo:k]` is whitespace. */
  predicate SpacesBetween(text: string, lo: nat, k: nat) {
    forall j :: lo <= j < k ==> j < |text| && IsSpace(text[j])
  }

  /** No character of `text[lo:k]` is whitespace. */
  predicate NoSpaceBetween(text: string, lo: nat, k: nat) {
    forall j :: lo <= j < k && j < |text| ==> !IsSpace(text[j])
  }

  /** The first k at or after `from` where `[.!?]\s+` matches. */
  function FirstSentence(text: string, from: nat, hi: nat): (r: Option<nat>)
    requires hi <= |text|
    ensures r.Some? ==> from <= r.value && SentenceAt(text, r.value, hi)
    ensures r.Some? ==> NoSentenceBetween(text, from, r.value, hi)
    ensures r.None? ==> NoSentenceBetween(text, from, hi, hi)
    decreases hi - from
  {
    if from + 1 >= hi then None
    else if SentenceAt(text, from, hi) then Some(from)
    else FirstSentence(text, from + 1, hi)
  }

  /** The length of the whitespace run at `from`, inside the window: what a greedy `\s+` takes. */
  function SpaceRun(text: string, from: nat, hi: nat): (n: nat)
    requires hi <= |text|
    ensures from + n <= hi || n == 0
    ensures n > 0 ==> IsSpace(text[from + n - 1])
    ensures from < hi && IsSpace(text[from]) ==> n > 0
    ensures SpacesBetween(text, from, from + n)
    ensures from + n < hi ==> !IsSpace(text[from + n])
    decreases hi - from
  {
    if from < hi && IsSpace(text[from]) then 1 + SpaceRun(text, from + 1, hi) else 0
  }

  /** Where the first `[.!?]\s+` match of the window ends: after the punctuation and its whole whitespace run. */
  function SentenceEnd(text: string, lo: nat, hi: nat): (r: Option<nat>)
    requires hi <= |text|
    ensures r.Some? ==> lo + 2 <= r.value <= hi && IsSpace(text[r.value - 1])
    ensures r.Some? ==> exists k: nat :: lo <= k && SentenceAt(text, k, hi) && NoSentenceBetween(text, lo, k, hi)
                                         && k + 2 <= r.value && SpacesBetween(text, k + 1, r.value)
                                         && (r.value < hi ==> !IsSpace(text[r.value]))
    ensures r.None? ==> NoSentenceBetween(text, lo, hi, hi)
  {
    match FirstSentence(text, lo, hi)
    case None => None
    case Some(k) => Some(k + 1 + SpaceRun(text, k + 1, hi))
  }

  /** The last whitespace character of `text[lo:hi]`, if any. */
  function LastSpace(text: string, lo: nat, hi: nat): (r: Option<nat>)
    requires hi <= |text|
    ensures r.Some? ==> lo <= r.value < hi && IsSpace(text[r.value])
    ensures r.Some? ==> NoSpaceBetween(text, r.value + 1, hi)
    ensures r.None? ==> NoSpaceBetween(text, lo, hi)
    decreases hi - lo
  {
    if hi <= lo then None
    else if IsSpace(text[hi - 1]) then Some(hi - 1)
    else LastSpace(text, lo, hi - 1)
  }

  /**
   * `_find_break_point` as the source writes it. The window runs from
   * `max(start, end - 200)` to `end + 100`. The result is just after the first
   * blank line in it, else just after the first sentence end, else, for a word
   * break, `end` minus the position of the first whitespace of the reversed window.
   */
  function BreakPointAsWritten(text: string, start: nat, end: nat): (r: int)
    requires start <= end <= |text|
    ensures r <= end + LOOK_AHEAD && r <= WindowEnd(|text|, end)
    ensures WindowStart(start, end) + 1 <= r + LOOK_AHEAD
  {
    var ws := WindowStart(start, end);
    var we := WindowEnd(|text|, end);
    match BlankLine(text, ws, we)
    case Some(i) => i + 2
    case None =>
      match SentenceEnd(text, ws, we)
      case Some(e) => e
      case None =>
        match LastSpace(text, ws, we)
        case Some(q) => end - (we - 1 - q)
        case None => end
  }

  /** The boundaries `_find_break_point` looks for, in the order it tries them. */
  datatype Boundary = Paragraph | Sentence | Word

  function Rank(b: Boundary): nat {
    match b
    case Paragraph => 2
    case Sentence => 1
    case Word => 0
  }

  /**
   * The break at the first boundary of kind `b` in the window `text[ws:we]`,
   * or, when there is none, at the next kind; `end` when no kind matches. A word
   * break falls just after the last whitespace of `text[ws:end]`.
   */
  function BreakFrom(text: string, ws: nat, we: nat, end: nat, b: Boundary): (r: nat)
    requires ws <= end <= we <= |text|
    ensures r == end || (ws < r <= we && IsSpace(text[r - 1]))
    decreases Rank(b)
  {
    match b
    case Paragraph =>
      (match BlankLine(text, ws, we)
       case Some(i) => i + 2
       case None => BreakFrom(text, ws, we, end, Sentence))
    case Sentence =>
      (match SentenceEnd(text, ws, we)
       case Some(e) => e
       case None => BreakFrom(text, ws, we, end, Word))
    case Word =>
      match LastSpace(text, ws, end)
      case Some(q) => q + 1
      case None => end
  }

  /**
   * `_find_break_point` with the word break measured within `[window start, end)`,
   * which is where the reversed search was meant to look: the break falls just
   * after the last whitespace before `end`.
   */
  function BreakPoint(text: string, start: nat, end: nat): (r: nat)
    requires start <= end <= |text|
    ensures r <= end + LOOK_AHEAD && r <= |text|
    ensures start < end ==> start < r
    ensures r + LOOK_BEHIND >= end + 1 || r == end
    ensures r == end || (0 < r && IsSpace(text[r - 1]))
  {
    BreakFrom(text, WindowStart(start, end), WindowEnd(|text|, end), end, Paragraph)
  }

  /** Every break point of the corrected search is within the window and after a whitespace character, or `end` itself. */
  lemma BreakPointBounds(text: string, start: nat, end: nat)
    requires start < end <= |text|
    ensures var r := BreakPoint(text, start, end);
            WindowStart(start, end) < r <= WindowEnd(|text|, end) && (r == end || (0 < r && IsSpace(text[r - 1])))
  {
  }

  /** Both first-blank-line positions of a window coincide. */
  lemma FirstBlankUnique(text: string, lo: nat, hi: nat, i: nat)
    requires hi <= |text| && lo <= i && BlankAt(text, i, hi) && NoBlankBetween(text, lo, i, hi)
    ensures BlankLine(text, lo, hi) == Some(i)
  {
  }

  /** The first sentence end of a window is the one `SentenceEnd` reports. */
  lemma FirstSentenceUnique(text: string, lo: nat, hi: nat, k: nat)
    requires hi <= |text| && lo <= k && SentenceAt(text, k, hi) && NoSentenceBetween(text, lo, k, hi)
    ensures FirstSentence(text, lo, hi) == Some(k)
  {
  }

  /** The last whitespace of a range is the one `LastSpace` reports. */
  lemma LastSpaceUnique(text: string, lo: nat, hi: nat, q: nat)
    requires hi <= |text| && lo <= q < hi && IsSpace(text[q]) && NoSpaceBetween(text, q + 1, hi)
    ensures LastSpace(text, lo, hi) == Some(q)
  {
  }

  /**
   * A blank line in the window wins: both searches break just after the
   * first one.
   */
  lemma BreakAtParagraph(text: string, start: nat, end: nat, i: nat)
    requires start <= end <= |text|
    requires var ws, we := WindowStart(start, end), WindowEnd(|text|, end);
             ws <= i && BlankAt(text, i, we) && NoBlankBetween(text, ws, i, we)
    ensures BreakPoint(text, start, end) == i + 2 && BreakPointAsWritten(text, start, end) == i + 2
  {
    FirstBlankUnique(text, WindowStart(start, end), WindowEnd(|text|, end), i);
  }

  /**
   * Without a blank line, the first sentence end wins: both searches break
   * after its punctuation and the whole whitespace run that follows.
   */
  lemma BreakAtSentence(text: string, start: nat, end: nat, k: nat)
    requires start <= end <= |text|
    requires var ws, we := WindowStart(start, end), WindowEnd(|text|, end);
             NoBlankBetween(text, ws, we, we) && ws <= k && SentenceAt(text, k, we) && NoSentenceBetween(text, ws, k, we)
    ensures var we, r := WindowEnd(|text|, end), BreakPoint(text, start, end);
            k + 2 <= r <= we && SpacesBetween(text, k + 1, r) && (r < we ==> !IsSpace(text[r]))
            && BreakPointAsWritten(text, start, end) == r
  {
    var ws, we := WindowStart(start, end), WindowEnd(|text|, end);
    assert BlankLine(text, ws, we).None?;
    FirstSentenceUnique(text, ws, we, k);
  }

  /**
   * Without a blank line or a sentence end, the corrected search breaks just
   * after the last whitespace before `end`, and at `end` when there is none.
   */
  lemma BreakAtWord(text: string, start: nat, end: nat)
    requires start <= end <= |text|
    requires var ws, we := WindowStart(start, end), WindowEnd(|text|, end);
             NoBlankBetween(text, ws, we, we) && NoSentenceBetween(text, ws, we, we)
    ensures var ws, r := WindowStart(start, end), BreakPoint(text, start, end);
            (forall q: nat :: ws <= q < end && IsSpace(text[q]) && NoSpaceBetween(text, q + 1, end) ==> r == q + 1)
            && (NoSpaceBetween(text, ws, end) ==> r == end)
  {
    var ws, we := WindowStart(start, end), WindowEnd(|text|, end);
    NoBreakBeforeWord(text, ws, we);
    forall q: nat | ws <= q < end && IsSpace(text[q]) && NoSpaceBetween(text, q + 1, end)
      ensures BreakPoint(text, start, end) == q + 1
    {
      LastSpaceUnique(text, ws, end, q);
    }
  }

  /**
   * Without a blank line or a sentence end, the search as written breaks at
   * `end` moved back by the distance from the window's last whitespace to the
   * window's last character, and at `end` when the window has no whitespace.
   */
  lemma BreakAsWrittenAtWord(text: string, start: nat, end: nat)
    requires start <= end <= |text|
    requires var ws, we := WindowStart(start, end), WindowEnd(|text|, end);
             NoBlankBetween(text, ws, we, we) && NoSentenceBetween(text, ws, we, we)
    ensures var ws, we, r := WindowStart(start, end), WindowEnd(|text|, end), BreakPointAsWritten(text, start, end);
            (forall q: nat :: ws <= q < we && IsSpace(text[q]) && NoSpaceBetween(text, q + 1, we) ==> r == end - (we - 1 - q))
            && (NoSpaceBetween(text, ws, we) ==> r == end)
  {
    var ws, we := WindowStart(start, end), WindowEnd(|text|, end);
    NoBreakBeforeWord(text, ws, we);
    forall q: nat | ws <= q < we && IsSpace(text[q]) && NoSpaceBetween(text, q + 1, we)
      ensures BreakPointAsWritten(text, start, end) == end - (we - 1 - q)
    {
      LastSpaceUnique(text, ws, we, q);
    }
  }

  /** A window with no blank line and no sentence end has neither search succeed. */
  lemma NoBreakBeforeWord(text: string, ws: nat, we: nat)
    requires we <= |text| && NoBlankBetween(text, ws, we, we) && NoSentenceBetween(text, ws, we, we)
    ensures BlankLine(text, ws, we).None? && SentenceEnd(text, ws, we).None?
  {
  }

  /**
   * As written, the word break is taken 100 characters too early whenever the
   * window is not clipped by the end of the text: it lands at the last
   * whitespace of the window, plus one, minus 100.
   */
  lemma WordBreakOffByLookAhead(text: string, start: nat, end: nat)
    requires start <= end && end + LOOK_AHEAD <= |text|
    requires var ws := WindowStart(start, end);
             BlankLine(text, ws, end + LOOK_AHEAD).None? && SentenceEnd(text, ws, end + LOOK_AHEAD).None?
             && LastSpace(text, ws, end + LOOK_AHEAD).Some?
    ensures var q := LastSpace(text, WindowStart(start, end), end + LOOK_AHEAD).value;
            BreakPointAsWritten(text, start, end) == q + 1 - LOOK_AHEAD
  {
  }

  lemma NoBlankLine(text: string, from: nat, hi: nat)
    requires hi <= |text| && forall j :: from <= j < hi ==> text[j] != '\n'
    ensures BlankLine(text, from, hi).None?
    decreases hi - from
  {
    if from + 1 < hi {
      NoBlankLine(text, from + 1, hi);
    }
  }

  lemma NoSentence(text: string, from: nat, hi: nat)
    requires hi <= |text| && forall j :: from <= j < hi ==> text[j] !in SENTENCE_ENDS
    ensures FirstSentence(text, from, hi).None?
    decreases hi - from
  {
    if from + 1 < hi {
      NoSentence(text, from + 1, hi);
    }
  }

  /**
   * A text where the break point as written is the start itself: the chunk
   * `text[start:break_point]` is empty, and with no overlap the loop of
   * `_chunk_by_characters` would start from the same place again. The corrected
   * search finds no whitespace before `end` and breaks at `end`.
   */
  lemma BreakPointAsWrittenStalls()
    ensures BreakPointAsWritten("ab cd", 0, 2) == 0
    ensures BreakPoint("ab cd", 0, 2) == 2
  {
    assert WindowStart(0, 2) == 0 && WindowEnd(5, 2) == 5;
    StallNoParagraphOrSentence();
    StallSpaces();
  }

  /** "ab cd" has neither a blank line nor a sentence end. */
  lemma StallNoParagraphOrSentence()
    ensures BlankLine("ab cd", 0, 5).None? && SentenceEnd("ab cd", 0, 5).None?
  {
    NoBlankLine("ab cd", 0, 5);
    NoSentence("ab cd", 0, 5);
  }

  /** The only whitespace of "ab cd" is at index 2. */
  lemma StallSpaces()
    ensures LastSpace("ab cd", 0, 5) == Some(2) && LastSpace("ab cd", 0, 2).None?
  {
    var text := "ab cd";
    assert !IsSpace(text[4]) && !IsSpace(text[3]) && IsSpace(text[2]);
    assert LastSpace(text, 0, 5) == LastSpace(text, 0, 4) == LastSpace(text, 0, 3) == Some(2);
    assert !IsSpace(text[1]) && !IsSpace(text[0]);
    assert LastSpace(text, 0, 2) == LastSpace(text, 0, 1) == LastSpace(text, 0, 0) == None;
  }

  /**
   * With `chunk_size >= chunk_overlap + 300`, as with the defaults 800 and
   * 100, the break point as written lies more than the overlap beyond the
   * chunk's start, so the loop of `_chunk_by_characters` advances even on the
   * search as written.
   */
  lemma BreakPointAsWrittenAdvances(text: string, start: nat, size: nat, overlap: nat)
    requires size >= overlap + LOOK_BEHIND + LOOK_AHEAD && start + size <= |text|
    ensures var bp := BreakPointAsWritten(text, start, start + size);
            start + overlap < bp <= |text|
  {
  }

  lemma ConcatAssoc<T>(a: seq<T>, b: seq<T>, c: seq<T>)
    ensures (a + b) + c == a + (b + c)
  {
  }

  lemma ConcatEmpty<T>(a: seq<T>, b: seq<T>)
    ensures a + [] == a && [] + b == b
  {
  }

  /** The stripped slice `text[lo:hi]` is a piece of the text no longer than the slice. */
  lemma PieceOfText(text: string, lo: nat, hi: nat)
    requires lo <= hi <= |text|
    ensures |Strip(text[lo..hi])| <= hi - lo && Contains(text, Strip(text[lo..hi]))
  {
    var piece := text[lo..hi];
    assert OccursAt(text, piece, lo);
    OccursWithin(text, piece, Strip(piece), lo, LeadingSpaces(piece));
  }

  // ===========================================================================
  // Section headings: the patterns `\n(?=Word\s+\d+)` and `\n(?=WORD\s+[IVXLCDM]+)`

  /** A heading word and whether its number is written in Roman numerals. */
  datatype Heading = Heading(word: string, roman: bool)

  const SECTION_HEADINGS: seq<Heading> := [
    Heading("Section", false), Heading("SECTION", false), Heading("CHAPTER", true), Heading("Chapter", false),
    Heading("Article", false), Heading("ARTICLE", false), Heading("Part", true), Heading("PART", true)
  ]

  const ROMAN_DIGITS: set<char> := {'I', 'V', 'X', 'L', 'C', 'D', 'M'}

  /** The heading word, at least one whitespace character, then a digit (or a Roman numeral letter) starts at j. */
  predicate HeadingAt(s: string, j: int, h: Heading) {
    OccursAt(s, h.word, j) &&
    var w := j + |h.word|;
    var run := LeadingSpaces(s[w..]);
    run > 0 && w + run < |s| && (if h.roman then s[w + run] in ROMAN_DIGITS else IsDigit(s[w + run]))
  }

  /** The pattern matches the newline at i: a newline that a heading follows. */
  predicate CutAt(s: string, i: int, h: Heading) {
    0 <= i < |s| && s[i] == '\n' && HeadingAt(s, i + 1, h)
  }

  function FirstCut(s: string, h: Heading, from: nat): (r: Option<nat>)
    ensures r.Some? ==> from <= r.value < |s| && s[r.value] == '\n'
    decreases |s| - from
  {
    if from >= |s| then None
    else if CutAt(s, from, h) then Some(from)
    else FirstCut(s, h, from + 1)
  }

  /**
   * `re.split` on the pattern: the text between the newlines a heading follows,
   * those newlines dropped. The lookahead only reads to the right of the newline,
   * so the rest of the text is split on its own.
   */
  function Pieces(s: string, h: Heading): (ps: seq<string>)
    ensures |ps| >= 1
    ensures |ps| > 1 <==> FirstCut(s, h, 0).Some?
    decreases |s|
  {
    match FirstCut(s, h, 0)
    case None => [s]
    case Some(i) => [s[..i]] + Pieces(s[i + 1..], h)
  }

  /** Joining the pieces with newlines gives the text back. */
  lemma {:induction false} PiecesJoin(s: string, h: Heading)
    ensures Join(Pieces(s, h), "\n") == s
    decreases |s|
  {
    match FirstCut(s, h, 0)
    case None =>
    case Some(i) =>
      PiecesJoin(s[i + 1..], h);
      JoinCons(s[..i], Pieces(s[i + 1..], h), "\n");
      assert s == s[..i] + "\n" + s[i + 1..] by {
        assert s[i] == '\n';
      }
  }

  /** Every piece occurs in the text. */
  lemma {:induction false} PiecesOccur(s: string, h: Heading, k: nat)
    requires k < |Pieces(s, h)|
    ensures Contains(s, Pieces(s, h)[k])
    decreases |s|
  {
    var ps := Pieces(s, h);
    match FirstCut(s, h, 0)
    case None =>
      assert ps[k] == s[..|s|];
      PrefixContained(s, |s|);
    case Some(i) =>
      var t := s[i + 1..];
      assert ps == [s[..i]] + Pieces(t, h);
      if k == 0 {
        PrefixContained(s, i);
      } else {
        PiecesOccur(t, h, k - 1);
        assert ps[k] == Pieces(t, h)[k - 1];
        SuffixContains(s, i + 1, ps[k]);
      }
  }

  // ===========================================================================
  // Chunk documents

  type Doc = map<string, Json>

  /** One chunk as `chunk_document` emits it; the document's metadata is merged last and wins. */
  function ChunkRecord(content: string, source: Json, index: nat, total: nat, metadata: map<string, Json>): Doc {
    map["content" := JStr(content), "source" := source, "chunk_index" := JInt(index), "total_chunks" := JInt(total)] + metadata
  }

  /** The keys a chunk sets before the metadata is merged in. */
  const CHUNK_KEYS: set<string> := {"content", "source", "chunk_index", "total_chunks"}

  /** A document the model chunks: string content (falsy content of any type counts as empty) and dict metadata. */
  predicate Chunkable(doc: Doc) {
    var content := Get(doc, "content", JStr(""));
    (content.Truthy() ==> content.JStr?) && Get(doc, "metadata", JObj(map[])).JObj?
  }

  function ContentOf(doc: Doc): string
    requires Chunkable(doc)
  {
    var content := Get(doc, "content", JStr(""));
    if content.JStr? then content.s else ""
  }

  // ===========================================================================
  // The chunker

  class TextChunker {
    const chunkSize: int
    const chunkOverlap: int
    const minChunkSize: int

    /**
     * Settings under which `_chunk_by_characters` always advances: a positive
     * size and a non-negative overlap that is either zero or at least 200 below
     * the size. The defaults (800, 100, 100) are such settings.
     */
    predicate Valid() {
      chunkSize > 0 && chunkOverlap >= 0 && (chunkOverlap == 0 || chunkSize > chunkOverlap + LOOK_BEHIND - 1)
    }

    constructor (chunkSize: int, chunkOverlap: int, minChunkSize: int)
      ensures this.chunkSize == chunkSize && this.chunkOverlap == chunkOverlap && this.minChunkSize == minChunkSize
      ensures Valid() <==> chunkSize > 0 && chunkOverlap >= 0 && (chunkOverlap == 0 || chunkSize >= chunkOverlap + LOOK_BEHIND)
    {
      this.chunkSize := chunkSize;
      this.chunkOverlap := chunkOverlap;
      this.minChunkSize := minChunkSize;
    }

    /** A chunk is kept when it has at least `min_chunk_size` characters. */
    function Kept(chunk: string): (r: seq<string>)
      ensures r == [] || (r == [chunk] && |chunk| >= minChunkSize)
    {
      if |chunk| >= minChunkSize then [chunk] else []
    }

    /** Where the next window starts: the break point less the overlap, or the break point when that is negative. */
    function NextStart(breakPoint: nat): (n: nat)
      requires Valid()
      ensures n <= breakPoint
    {
      if breakPoint - chunkOverlap < 0 then breakPoint else breakPoint - chunkOverlap
    }

    /** The windows of `_chunk_by_characters` from `start` on, stripped, the short ones dropped. */
    function CharChunksFrom(text: string, start: nat): (cs: seq<string>)
      requires Valid() && start <= |text|
      decreases |text| - start
    {
      if start == |text| then []
      else if start + chunkSize >= |text| then Kept(Strip(text[start..]))
      else
        var bp := BreakPoint(text, start, start + chunkSize);
        Kept(Strip(text[start..bp])) + CharChunksFrom(text, NextStart(bp))
    }

    /** One step of `_chunk_by_characters`: the window at `start` and everything after its break point. */
    lemma CharChunksStep(text: string, start: nat)
      requires Valid() && start + chunkSize < |text|
      ensures var bp := BreakPoint(text, start, start + chunkSize);
              CharChunksFrom(text, start) == Kept(Strip(text[start..bp])) + CharChunksFrom(text, NextStart(bp))
    {
    }

    /** `_chunk_by_characters` */
    method ChunkByCharacters(text: string) returns (chunks: seq<string>)
      requires Valid()
      ensures chunks == CharChunksFrom(text, 0)
    {
      ghost var all := CharChunksFrom(text, 0);
      chunks := [];
      ConcatEmpty(chunks, all);
      var start: nat := 0;
      var textLength := |text|;
      while start < textLength
        invariant start <= |text|
        invariant chunks + CharChunksFrom(text, start) == all
        decreases |text| - start
      {
        if start + chunkSize >= textLength {
          var chunk := Strip(text[start..]);
          ConcatEmpty(chunks, []);
          if |chunk| >= minChunkSize {
            chunks := chunks + [chunk];
          }
          return;
        }
        var breakPoint := BreakPoint(text, start, start + chunkSize);
        var chunk := Strip(text[start..breakPoint]);
        CharChunksStep(text, start);
        ConcatAssoc(chunks, Kept(chunk), CharChunksFrom(text, NextStart(breakPoint)));
        if |chunk| >= minChunkSize {
          chunks := chunks + [chunk];
        } else {
          ConcatEmpty(chunks, []);
        }
        start := NextStart(breakPoint);
      }
    }

    /** A chunk the character chunker may emit for `text`. */
    predicate CharChunkFits(text: string, c: string) {
      minChunkSize <= |c| <= chunkSize + LOOK_AHEAD && Contains(text, c)
    }

    /**
     * Every character chunk is a piece of the text, at least `min_chunk_size`
     * and at most `chunk_size + 100` characters long.
     */
    lemma {:induction false} CharChunksArePieces(text: string, start: nat)
      requires Valid() && start <= |text|
      ensures forall c :: c in CharChunksFrom(text, start) ==> CharChunkFits(text, c)
      decreases |text| - start
    {
      if start < |text| {
        if start + chunkSize >= |text| {
          assert text[start..] == text[start..|text|];
          PieceOfText(text, start, |text|);
          assert CharChunksFrom(text, start) == Kept(Strip(text[start..]));
        } else {
          var bp := BreakPoint(text, start, start + chunkSize);
          var head := Strip(text[start..bp]);
          var ns := NextStart(bp);
          PieceOfText(text, start, bp);
          CharChunksStep(text, start);
          CharChunksArePieces(text, ns);
          assert Kept(head) == [] || CharChunkFits(text, head);
          FitsAppend(text, Kept(head), CharChunksFrom(text, ns));
        }
      }
    }

    lemma FitsAppend(text: string, a: seq<string>, b: seq<string>)
      requires forall c :: c in a ==> CharChunkFits(text, c)
      requires forall c :: c in b ==> CharChunkFits(text, c)
      ensures forall c :: c in a + b ==> CharChunkFits(text, c)
    {
    }

    /** The chunks one heading-split part contributes. */
    function PartChunks(part: string): seq<string>
      requires Valid()
    {
      if |Strip(part)| > minChunkSize then
        if |part| > chunkSize * 2 then CharChunksFrom(part, 0) else [part]
      else []
    }

    function PartsChunks(parts: seq<string>): seq<string>
      requires Valid()
    {
      if parts == [] then [] else PartsChunks(parts[..|parts| - 1]) + PartChunks(parts[|parts| - 1])
    }

    /** The chunks of the first heading, in order, that splits the text; [] when none does. */
    function HeadingChunks(hs: seq<Heading>, text: string): seq<string>
      requires Valid()
    {
      if hs == [] then []
      else
        var parts := Pieces(text, hs[0]);
        if |parts| > 1 then PartsChunks(parts) else HeadingChunks(hs[1..], text)
    }

    function SectionChunks(text: string): seq<string>
      requires Valid()
    {
      HeadingChunks(SECTION_HEADINGS, text)
    }

    /** `_chunk_by_sections` */
    method ChunkBySections(text: string) returns (chunks: seq<string>)
      requires Valid()
      ensures chunks == SectionChunks(text)
    {
      chunks := ScanHeadings(SECTION_HEADINGS, text);
    }

    /** The pattern loop of `_chunk_by_sections` over a list of headings. */
    method ScanHeadings(hs: seq<Heading>, text: string) returns (chunks: seq<string>)
      requires Valid()
      ensures chunks == HeadingChunks(hs, text)
    {
      for p := 0 to |hs|
        invariant HeadingChunks(hs, text) == HeadingChunks(hs[p..], text)
      {
        assert hs[p..][0] == hs[p] && hs[p..][1..] == hs[p + 1..];
        var parts := Pieces(text, hs[p]);
        if |parts| > 1 {
          chunks := ChunkParts(parts);
          return;
        }
      }
      assert hs[|hs|..] == [];
      return [];
    }

    /** The part loop of `_chunk_by_sections`: long enough parts kept whole, or re-chunked by characters when large. */
    method ChunkParts(parts: seq<string>) returns (chunks: seq<string>)
      requires Valid()
      ensures chunks == PartsChunks(parts)
    {
      chunks := [];
      for i := 0 to |parts|
        invariant chunks == PartsChunks(parts[..i])
      {
        assert parts[..i + 1][..i] == parts[..i];
        var part := parts[i];
        if |Strip(part)| > minChunkSize {
          if |part| > chunkSize * 2 {
            var pieces := ChunkByCharacters(part);
            chunks := chunks + pieces;
          } else {
            chunks := chunks + [part];
          }
        }
      }
      assert parts[..|parts|] == parts;
    }

    /** Every section chunk is a piece of the text. */
    lemma SectionChunksArePieces(text: string)
      requires Valid()
      ensures forall c :: c in SectionChunks(text) ==> Contains(text, c)
    {
      HeadingChunksArePieces(SECTION_HEADINGS, text);
    }

    lemma {:induction false} HeadingChunksArePieces(hs: seq<Heading>, text: string)
      requires Valid()
      ensures forall c :: c in HeadingChunks(hs, text) ==> Contains(text, c)
    {
      if hs != [] {
        var parts := Pieces(text, hs[0]);
        if |parts| > 1 {
          forall k | 0 <= k < |parts| ensures Contains(text, parts[k]) {
            PiecesOccur(text, hs[0], k);
          }
          PartsChunksArePieces(text, parts);
        } else {
          HeadingChunksArePieces(hs[1..], text);
        }
      }
    }

    lemma {:induction false} PartsChunksArePieces(text: string, parts: seq<string>)
      requires Valid()
      requires forall k :: 0 <= k < |parts| ==> Contains(text, parts[k])
      ensures forall c :: c in PartsChunks(parts) ==> Contains(text, c)
    {
      if parts != [] {
        var init := parts[..|parts| - 1];
        var part := parts[|parts| - 1];
        assert forall k :: 0 <= k < |init| ==> init[k] == parts[k];
        PartsChunksArePieces(text, init);
        var o :| 0 <= o <= |text| && OccursAt(text, part, o);
        if |Strip(part)| > minChunkSize && |part| > chunkSize * 2 {
          CharChunksArePieces(part, 0);
          forall c | c in CharChunksFrom(part, 0) ensures Contains(text, c) {
            var j :| 0 <= j <= |part| && OccursAt(part, c, j);
            OccursWithin(text, part, c, o, j);
          }
        }
      }
    }

    /** The raw chunk list of `chunk_document`: by sections, or by characters when that gives nothing. */
    function RawChunks(content: string): seq<string>
      requires Valid()
    {
      var bySections := SectionChunks(content);
      if bySections != [] then bySections else CharChunksFrom(content, 0)
    }

    /** The raw chunks, each stripped of surrounding whitespace. */
    function Stripped(raw: seq<string>): (texts: seq<string>)
      ensures |texts| == |raw|
    {
      if raw == [] then [] else Stripped(raw[..|raw| - 1]) + [Strip(raw[|raw| - 1])]
    }

    lemma {:induction false} StrippedAt(raw: seq<string>, i: nat)
      requires i < |raw|
      ensures Stripped(raw)[i] == Strip(raw[i])
    {
      if i < |raw| - 1 {
        StrippedAt(raw[..|raw| - 1], i);
      }
    }

    /**
     * The chunk records for the first n stripped raw chunks: the ones shorter
     * than `min_chunk_size` skipped, each indexed in the raw list.
     */
    function Emitted(texts: seq<string>, n: nat, source: Json, metadata: map<string, Json>): (r: seq<Doc>)
      requires n <= |texts|
      ensures |r| <= n
    {
      if n == 0 then []
      else
        var prev := Emitted(texts, n - 1, source, metadata);
        if |texts[n - 1]| < minChunkSize then prev else prev + [ChunkRecord(texts[n - 1], source, n - 1, |texts|, metadata)]
    }

    /** `chunk_document` as a value. */
    function DocChunks(doc: Doc): (r: seq<Doc>)
      requires Valid() && Chunkable(doc)
      ensures ContentOf(doc) == [] ==> r == []
    {
      var content := ContentOf(doc);
      if content == [] then []
      else
        var raw := RawChunks(content);
        Emitted(Stripped(raw), |raw|, Get(doc, "source", JStr("unknown")), Get(doc, "metadata", JObj(map[])).fields)
    }

    /** `chunk_document` */
    method ChunkDocument(doc: Doc) returns (chunkDocs: seq<Doc>)
      requires Valid() && Chunkable(doc)
      ensures chunkDocs == DocChunks(doc)
    {
      var content := ContentOf(doc);
      var metadata := Get(doc, "metadata", JObj(map[])).fields;
      var source := Get(doc, "source", JStr("unknown"));
      if content == [] {
        return [];
      }
      var chunks := ChunkBySections(content);
      if chunks == [] {
        chunks := ChunkByCharacters(content);
      }
      chunkDocs := EmitChunks(chunks, source, metadata);
    }

    /** The record loop of `chunk_document`: strip each raw chunk, skip the short ones, record the rest. */
    method EmitChunks(chunks: seq<string>, source: Json, metadata: map<string, Json>) returns (chunkDocs: seq<Doc>)
      ensures chunkDocs == Emitted(Stripped(chunks), |chunks|, source, metadata)
    {
      ghost var texts := Stripped(chunks);
      chunkDocs := [];
      for i := 0 to |chunks|
        invariant chunkDocs == Emitted(texts, i, source, metadata)
      {
        var text := Strip(chunks[i]);
        StrippedAt(chunks, i);
        if |text| >= minChunkSize {
          chunkDocs := chunkDocs + [ChunkRecord(text, source, i, |chunks|, metadata)];
        }
      }
    }

    /**
     * The indices, in increasing order, of the first n stripped raw chunks that
     * are kept: exactly those with at least `min_chunk_size` characters.
     */
    function KeptIndices(texts: seq<string>, n: nat): (r: seq<nat>)
      requires n <= |texts|
      ensures |r| <= n
    {
      if n == 0 then []
      else
        var prev := KeptIndices(texts, n - 1);
        if |texts[n - 1]| < minChunkSize then prev else prev + [n - 1]
    }

    /** Every kept index names one of the first n chunks, and one that is long enough. */
    lemma {:induction false} KeptIndexAt(texts: seq<string>, n: nat, k: nat)
      requires n <= |texts| && k < |KeptIndices(texts, n)|
      ensures KeptIndices(texts, n)[k] < n && |texts[KeptIndices(texts, n)[k]]| >= minChunkSize
    {
      var prevIdx := KeptIndices(texts, n - 1);
      if |texts[n - 1]| < minChunkSize {
        KeptIndexAt(texts, n - 1, k);
      } else if k < |prevIdx| {
        KeptIndexAt(texts, n - 1, k);
        assert KeptIndices(texts, n)[k] == prevIdx[k];
      } else {
        assert KeptIndices(texts, n)[k] == n - 1;
      }
    }

    /** The kept indices are listed in increasing order. */
    lemma {:induction false} KeptIndicesIncreasing(texts: seq<string>, n: nat, k: nat, l: nat)
      requires n <= |texts| && k < l < |KeptIndices(texts, n)|
      ensures KeptIndices(texts, n)[k] < KeptIndices(texts, n)[l]
    {
      var prevIdx := KeptIndices(texts, n - 1);
      if |texts[n - 1]| < minChunkSize {
        KeptIndicesIncreasing(texts, n - 1, k, l);
      } else if l < |prevIdx| {
        KeptIndicesIncreasing(texts, n - 1, k, l);
        assert KeptIndices(texts, n)[k] == prevIdx[k] && KeptIndices(texts, n)[l] == prevIdx[l];
      } else {
        KeptIndexAt(texts, n - 1, k);
        assert KeptIndices(texts, n)[k] == prevIdx[k] && KeptIndices(texts, n)[l] == n - 1;
      }
    }

    /** Every chunk among the first n that is long enough is kept. */
    lemma {:induction false} KeptIndicesComplete(texts: seq<string>, n: nat, i: nat)
      requires n <= |texts| && i < n && |texts[i]| >= minChunkSize
      ensures i in KeptIndices(texts, n)
    {
      var prevIdx := KeptIndices(texts, n - 1);
      if i < n - 1 {
        KeptIndicesComplete(texts, n - 1, i);
        if |texts[n - 1]| >= minChunkSize {
          assert KeptIndices(texts, n) == prevIdx + [n - 1];
        }
      } else {
        assert KeptIndices(texts, n) == prevIdx + [n - 1];
      }
    }

    /** One record is emitted per kept index. */
    lemma {:induction false} EmittedCount(texts: seq<string>, n: nat, source: Json, metadata: map<string, Json>)
      requires n <= |texts|
      ensures |Emitted(texts, n, source, metadata)| == |KeptIndices(texts, n)|
    {
      if n > 0 {
        EmittedCount(texts, n - 1, source, metadata);
      }
    }

    /** The k-th emitted record is the record of the k-th kept chunk. */
    lemma {:induction false} EmittedAt(texts: seq<string>, n: nat, source: Json, metadata: map<string, Json>, k: nat)
      requires n <= |texts| && k < |KeptIndices(texts, n)|
      ensures k < |Emitted(texts, n, source, metadata)| && KeptIndices(texts, n)[k] < n
      ensures var i := KeptIndices(texts, n)[k];
              Emitted(texts, n, source, metadata)[k] == ChunkRecord(texts[i], source, i, |texts|, metadata)
    {
      KeptIndexAt(texts, n, k);
      EmittedCount(texts, n, source, metadata);
      EmittedCount(texts, n - 1, source, metadata);
      if |texts[n - 1]| < minChunkSize || k < |KeptIndices(texts, n - 1)| {
        EmittedAt(texts, n - 1, source, metadata, k);
      }
    }

    /** With metadata that sets none of the chunk's own keys, a record keeps the four values it was made with. */
    lemma RecordFields(content: string, source: Json, index: nat, total: nat, metadata: map<string, Json>)
      requires metadata.Keys !! CHUNK_KEYS
      ensures var d := ChunkRecord(content, source, index, total, metadata);
              d.Keys == CHUNK_KEYS + metadata.Keys &&
              d["content"] == JStr(content) && d["source"] == source &&
              d["chunk_index"] == JInt(index) && d["total_chunks"] == JInt(total)
    {
    }

    /**
     * When every raw chunk is a piece of the content and the metadata sets none
     * of the chunk's own keys, the k-th emitted record belongs to raw chunk i for
     * some i below the total: its content is that raw chunk stripped, at least
     * `min_chunk_size` characters long and taken from the content, and it keeps
     * the source, the index i and the total.
     */
    lemma EmittedChunkAt(content: string, raw: seq<string>, source: Json, metadata: map<string, Json>, k: nat)
      requires forall c :: c in raw ==> Contains(content, c)
      requires metadata.Keys !! CHUNK_KEYS
      requires k < |Emitted(Stripped(raw), |raw|, source, metadata)|
      ensures var d := Emitted(Stripped(raw), |raw|, source, metadata)[k];
              CHUNK_KEYS <= d.Keys && d["chunk_index"].JInt? && 0 <= d["chunk_index"].i < |raw| &&
              k < |KeptIndices(Stripped(raw), |raw|)| && d["chunk_index"] == JInt(KeptIndices(Stripped(raw), |raw|)[k]) &&
              d["content"] == JStr(Strip(raw[d["chunk_index"].i])) &&
              |d["content"].s| >= minChunkSize && Contains(content, d["content"].s) &&
              d["source"] == source && d["total_chunks"] == JInt(|raw|)
    {
      var texts := Stripped(raw);
      EmittedCount(texts, |raw|, source, metadata);
      EmittedAt(texts, |raw|, source, metadata, k);
      KeptIndexAt(texts, |raw|, k);
      var i := KeptIndices(texts, |raw|)[k];
      StrippedAt(raw, i);
      RecordFields(texts[i], source, i, |raw|, metadata);
      assert raw[i] in raw;
      var o :| 0 <= o <= |content| && OccursAt(content, raw[i], o);
      OccursWithin(content, raw[i], Strip(raw[i]), o, LeadingSpaces(raw[i]));
    }

    /** `chunk_document`'s k-th chunk, as `EmittedChunkAt` describes it for the document's raw chunks. */
    lemma DocChunkAt(doc: Doc, k: nat)
      requires Valid() && Chunkable(doc)
      requires Get(doc, "metadata", JObj(map[])).fields.Keys !! CHUNK_KEYS
      requires k < |DocChunks(doc)|
      ensures var d := DocChunks(doc)[k];
              var raw := RawChunks(ContentOf(doc));
              CHUNK_KEYS <= d.Keys && d["chunk_index"].JInt? && 0 <= d["chunk_index"].i < |raw| &&
              d["content"] == JStr(Strip(raw[d["chunk_index"].i])) &&
              |d["content"].s| >= minChunkSize && Contains(ContentOf(doc), d["content"].s) &&
              d["source"] == Get(doc, "source", JStr("unknown")) && d["total_chunks"] == JInt(|raw|)
    {
      var content := ContentOf(doc);
      RawChunksArePieces(content);
      EmittedChunkAt(content, RawChunks(content), Get(doc, "source", JStr("unknown")), Get(doc, "metadata", JObj(map[])).fields, k);
    }

    /** Along a document's chunks the chunk indices strictly increase. */
    lemma DocChunksIncreasing(doc: Doc, k: nat, l: nat)
      requires Valid() && Chunkable(doc)
      requires Get(doc, "metadata", JObj(map[])).fields.Keys !! CHUNK_KEYS
      requires k < l < |DocChunks(doc)|
      ensures "chunk_index" in DocChunks(doc)[k] && "chunk_index" in DocChunks(doc)[l]
      ensures DocChunks(doc)[k]["chunk_index"].JInt? && DocChunks(doc)[l]["chunk_index"].JInt?
      ensures DocChunks(doc)[k]["chunk_index"].i < DocChunks(doc)[l]["chunk_index"].i
    {
      var content := ContentOf(doc);
      var raw := RawChunks(content);
      var source := Get(doc, "source", JStr("unknown"));
      var metadata := Get(doc, "metadata", JObj(map[])).fields;
      RawChunksArePieces(content);
      EmittedChunkAt(content, raw, source, metadata, k);
      EmittedChunkAt(content, raw, source, metadata, l);
      EmittedCount(Stripped(raw), |raw|, source, metadata);
      KeptIndicesIncreasing(Stripped(raw), |raw|, k, l);
    }

    /** Every raw chunk of a document is a piece of its content. */
    lemma RawChunksArePieces(content: string)
      requires Valid()
      ensures forall c :: c in RawChunks(content) ==> Contains(content, c)
    {
      SectionChunksArePieces(content);
      CharChunksArePieces(content, 0);
    }

    /** The chunks of a list of documents, in document order. */
    function AllChunks(docs: seq<Doc>): seq<Doc>
      requires Valid() && forall d :: d in docs ==> Chunkable(d)
    {
      if docs == [] then [] else AllChunks(docs[..|docs| - 1]) + DocChunks(docs[|docs| - 1])
    }

    /** Chunking two lists of documents one after the other chunks their concatenation. */
    lemma {:induction false} AllChunksAppend(a: seq<Doc>, b: seq<Doc>)
      requires Valid() && (forall d :: d in a ==> Chunkable(d)) && (forall d :: d in b ==> Chunkable(d))
      ensures AllChunks(a + b) == AllChunks(a) + AllChunks(b)
      decreases |b|
    {
      if b == [] {
        assert a + b == a;
      } else {
        var init := b[..|b| - 1];
        var last := b[|b| - 1];
        assert (a + b)[..|a + b| - 1] == a + init;
        assert (a + b)[|a + b| - 1] == last;
        assert forall d :: d in init ==> d in b;
        AllChunksAppend(a, init);
        assert AllChunks(a + b) == AllChunks(a + init) + DocChunks(last);
        ConcatAssoc(AllChunks(a), AllChunks(init), DocChunks(last));
      }
    }

    /** `chunk_documents` */
    method ChunkDocuments(docs: seq<Doc>) returns (all: seq<Doc>)
      requires Valid() && forall d :: d in docs ==> Chunkable(d)
      ensures all == AllChunks(docs)
    {
      all := [];
      for i := 0 to |docs|
        invariant all == AllChunks(docs[..i])
      {
        assert docs[..i + 1][..i] == docs[..i];
        var chunks := ChunkDocument(docs[i]);
        all := all + chunks;
      }
      assert docs[..|docs|] == docs;
    }
  }
}
