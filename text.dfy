/**
 * The Python string and list primitives the pipeline is written with, over
 * `string` (= seq<char>): whitespace classification, ASCII case mapping,
 * strip, whitespace collapsing, splitting, joining, substring search,
 * replacement and Python's slice arithmetic.
 */
module Text {
  import opened Wrappers

  // ---------------------------------------------------------------------------
  // Characters

  /** Python's `str.isspace()` and the regex class `\s` for str patterns. */
  predicate IsSpace(c: char) {
    c in SPACE_CHARS
  }

  const SPACE_CHARS: set<char> := {
    ' ', '\t', '\n', '\U{0B}', '\U{0C}', '\r', '\U{1C}', '\U{1D}', '\U{1E}', '\U{1F}',
    '\U{85}', '\U{A0}', '\U{1680}', '\U{2000}', '\U{2001}', '\U{2002}', '\U{2003}',
    '\U{2004}', '\U{2005}', '\U{2006}', '\U{2007}', '\U{2008}', '\U{2009}', '\U{200A}',
    '\U{2028}', '\U{2029}', '\U{202F}', '\U{205F}', '\U{3000}'
  }

  /** The regex class `\d`, restricted to ASCII digits. */
  predicate IsDigit(c: char) { '0' <= c <= '9' }

  predicate IsAsciiLetter(c: char) { ('a' <= c <= 'z') || ('A' <= c <= 'Z') }

  function LowerChar(c: char): (r: char)
    ensures 'A' <= c <= 'Z' ==> r as int == c as int + 32
    ensures !('A' <= c <= 'Z') ==> r == c
    ensures !('A' <= r <= 'Z')
  {
    if 'A' <= c <= 'Z' then (c as int + 32) as char else c
  }

  function UpperChar(c: char): (r: char)
    ensures 'a' <= c <= 'z' ==> r as int == c as int - 32
    ensures !('a' <= c <= 'z') ==> r == c
  {
    if 'a' <= c <= 'z' then (c as int - 32) as char else c
  }

  /** `str.lower()`, on ASCII letters. */
  function Lower(s: string): (r: string)
    ensures |r| == |s|
    ensures forall i :: 0 <= i < |s| ==> r[i] == LowerChar(s[i])
  {
    seq(|s|, i requires 0 <= i < |s| => LowerChar(s[i]))
  }

  /** Lowering twice is lowering once. */
  lemma LowerIdempotent(s: string)
    ensures Lower(Lower(s)) == Lower(s)
  {
  }

  lemma LowerConcat(a: string, b: string)
    ensures Lower(a + b) == Lower(a) + Lower(b)
  {
  }

  lemma LowerSlice(s: string, i: nat, j: nat)
    requires i <= j <= |s|
    ensures Lower(s[i..j]) == Lower(s)[i..j]
  {
  }

  /** `str.capitalize()`: first character upper case, the rest lower case (ASCII). */
  function Capitalize(s: string): (r: string)
    ensures |r| == |s|
    ensures s != [] ==> r[0] == UpperChar(s[0]) && r[1..] == Lower(s[1..])
  {
    if s == [] then [] else [UpperChar(s[0])] + Lower(s[1..])
  }

  // ---------------------------------------------------------------------------
  // Strip

  /** Number of leading whitespace characters of `s`. */
  function LeadingSpaces(s: string): (n: nat)
    ensures n <= |s|
    ensures forall k :: 0 <= k < n ==> IsSpace(s[k])
    ensures n < |s| ==> !IsSpace(s[n])
  {
    if s != [] && IsSpace(s[0]) then 1 + LeadingSpaces(s[1..]) else 0
  }

  /** Number of trailing whitespace characters of `s`. */
  function TrailingSpaces(s: string): (n: nat)
    ensures n <= |s|
    ensures forall k :: |s| - n <= k < |s| ==> IsSpace(s[k])
    ensures n < |s| ==> !IsSpace(s[|s| - n - 1])
  {
    if s != [] && IsSpace(s[|s| - 1]) then 1 + TrailingSpaces(s[..|s| - 1]) else 0
  }

  /** `str.lstrip()` */
  function LStrip(s: string): (r: string)
    ensures r != [] ==> !IsSpace(r[0])
  {
    s[LeadingSpaces(s)..]
  }

  /** `str.rstrip()` */
  function RStrip(s: string): (r: string)
    ensures r != [] ==> !IsSpace(r[|r| - 1])
  {
    s[..|s| - TrailingSpaces(s)]
  }

  /** `str.strip()`: the longest slice without leading or trailing whitespace. */
  function Strip(s: string): (r: string)
    ensures r != [] ==> !IsSpace(r[0]) && !IsSpace(r[|r| - 1])
    ensures OccursAt(s, r, LeadingSpaces(s))
  {
    RStrip(LStrip(s))
  }

  lemma StripNoSpace(s: string)
    requires forall k :: 0 <= k < |s| ==> !IsSpace(s[k])
    ensures Strip(s) == s
  {
  }

  /** A text that neither starts nor ends with whitespace is its own strip. */
  lemma StripUnpadded(s: string)
    requires s != [] && !IsSpace(s[0]) && !IsSpace(s[|s| - 1])
    ensures Strip(s) == s
  {
    assert LeadingSpaces(s) == 0;
    assert LStrip(s) == s;
  }

  /** One leading space strips away from a text that neither starts nor ends with whitespace. */
  lemma StripAfterSpace(body: string)
    requires body != [] && !IsSpace(body[0]) && !IsSpace(body[|body| - 1])
    ensures Strip(" " + body) == body
  {
    var s := " " + body;
    assert s[1..] == body;
    assert LeadingSpaces(s) == 1;
    assert TrailingSpaces(body) == 0;
  }

  /** A text framed by one newline on each side strips back to itself when it neither starts nor ends with whitespace. */
  lemma StripFramed(body: string)
    requires body != [] && !IsSpace(body[0]) && !IsSpace(body[|body| - 1])
    ensures Strip("\n" + body + "\n") == body
  {
    var s := "\n" + body + "\n";
    assert s[1..] == body + "\n";
    assert LeadingSpaces(body + "\n") == 0;
    assert LStrip(s) == body + "\n";
    assert (body + "\n")[..|body|] == body;
    assert TrailingSpaces(body) == 0;
    assert TrailingSpaces(body + "\n") == 1;
  }

  /** `s.strip()` is empty exactly when `s` is all whitespace. */
  lemma StripEmpty(s: string)
    ensures Strip(s) == [] <==> forall k :: 0 <= k < |s| ==> IsSpace(s[k])
  {
    var n := LeadingSpaces(s);
    var t := LStrip(s);
    if n < |s| {
      assert t[0] == s[n] && !IsSpace(t[0]);
    }
  }

  // ---------------------------------------------------------------------------
  // Whitespace collapsing

  /** No whitespace character other than a single space, and no two spaces in a row. */
  predicate Collapsed(s: string) {
    (forall k :: 0 <= k < |s| && IsSpace(s[k]) ==> s[k] == ' ')
    && (forall k :: 0 <= k < |s| - 1 ==> !(s[k] == ' ' && s[k + 1] == ' '))
  }

  /** `re.sub(r'\s+', ' ', s)`: every maximal whitespace run becomes one space. */
  function CollapseWhitespace(s: string): (r: string)
    ensures |r| <= |s|
    ensures Collapsed(r)
    ensures (r == []) == (s == [])
    ensures r != [] && r[0] == ' ' ==> IsSpace(s[0])
    ensures r != [] && r[0] != ' ' ==> r[0] == s[0]
    ensures forall c :: c in r ==> c == ' ' || c in s
    decreases |s|
  {
    if s == [] then []
    else if IsSpace(s[0]) then
      var rest := LStrip(s);
      var tail := CollapseWhitespace(rest);
      assert tail != [] ==> tail[0] != ' ';
      [' '] + tail
    else
      var tail := CollapseWhitespace(s[1..]);
      [s[0]] + tail
  }

  /** A text that is already collapsed is left unchanged by collapsing. */
  lemma {:induction false} CollapseCollapsed(s: string)
    requires Collapsed(s)
    ensures CollapseWhitespace(s) == s
    decreases |s|
  {
    if s != [] {
      assert Collapsed(s[1..]) by {
        forall k | 0 <= k < |s[1..]| - 1 ensures !(s[1..][k] == ' ' && s[1..][k + 1] == ' ') {
          assert s[1..][k] == s[k + 1] && s[1..][k + 1] == s[k + 2];
        }
      }
      CollapseCollapsed(s[1..]);
      if IsSpace(s[0]) {
        assert LeadingSpaces(s) == 1 + LeadingSpaces(s[1..]);
        if |s| > 1 {
          assert s[1] != ' ';
          assert !IsSpace(s[1]);
        }
        assert LStrip(s) == s[1..];
      }
    }
  }

  // ---------------------------------------------------------------------------
  // Searching

  predicate IsPrefix(p: string, s: string) {
    |p| <= |s| && s[..|p|] == p
  }

  predicate EndsWith(s: string, suffix: string) {
    |suffix| <= |s| && s[|s| - |suffix|..] == suffix
  }

  lemma ConcatEnds(a: string, b: string)
    ensures EndsWith(a + b, b)
  {
    assert (a + b)[|a|..] == b;
  }

  lemma ConcatEndsPair(a: string, b: string, c: string)
    ensures EndsWith(a + b + c, b + c)
  {
    assert (a + b + c)[|a|..] == b + c;
  }

  lemma ConcatStarts(a: string, b: string)
    ensures IsPrefix(a, a + b)
  {
    assert (a + b)[..|a|] == a;
  }

  /** `sub` occurs in `s` starting at index i. */
  predicate OccursAt(s: string, sub: string, i: int) {
    0 <= i && i + |sub| <= |s| && s[i..i + |sub|] == sub
  }

  /** Python's `sub in s`. */
  predicate Contains(s: string, sub: string) {
    exists i | 0 <= i <= |s| :: OccursAt(s, sub, i)
  }

  /** A prefix of a string occurs in it. */
  lemma PrefixContained(s: string, i: nat)
    requires i <= |s|
    ensures Contains(s, s[..i])
  {
    assert OccursAt(s, s[..i], 0) by {
      assert s[0..i] == s[..i];
    }
  }

  /** What occurs in a suffix occurs in the whole string. */
  lemma SuffixContains(s: string, j: nat, sub: string)
    requires j <= |s| && Contains(s[j..], sub)
    ensures Contains(s, sub)
  {
    var t := s[j..];
    var o :| 0 <= o <= |t| && OccursAt(t, sub, o);
    assert OccursAt(s, t, j) by {
      assert s[j..j + |t|] == t;
    }
    OccursWithin(s, t, sub, j, o);
  }

  /** An occurrence inside an occurrence is an occurrence. */
  lemma OccursWithin(s: string, t: string, u: string, i: int, j: int)
    requires OccursAt(s, t, i) && OccursAt(t, u, j)
    ensures OccursAt(s, u, i + j)
  {
    assert t == s[i..i + |t|];
    forall k | 0 <= k < |u| ensures s[i + j + k] == u[k] {
      assert u[k] == t[j + k];
    }
  }

  /** Number of leading characters of `s` that belong to `chars`. */
  function LeadingIn(s: string, chars: set<char>): (n: nat)
    ensures n <= |s|
    ensures forall k :: 0 <= k < n ==> s[k] in chars
    ensures n < |s| ==> s[n] !in chars
  {
    if s != [] && s[0] in chars then 1 + LeadingIn(s[1..], chars) else 0
  }

  /** Length of the leading run of ASCII digits. */
  function DigitRun(s: string): (n: nat)
    ensures n <= |s|
    ensures forall k :: 0 <= k < n ==> IsDigit(s[k])
    ensures n < |s| ==> !IsDigit(s[n])
  {
    if s != [] && IsDigit(s[0]) then 1 + DigitRun(s[1..]) else 0
  }

  /** `s.lstrip(chars)` */
  function LStripChars(s: string, chars: set<char>): (r: string)
    ensures OccursAt(s, r, |s| - |r|)
    ensures r != [] ==> r[0] !in chars
  {
    s[LeadingIn(s, chars)..]
  }

  /** An occurrence at j >= 1 is an occurrence at j - 1 in the text without its first character. */
  lemma OccursShift(s: string, sub: string, j: int)
    requires s != [] && 1 <= j
    ensures OccursAt(s, sub, j) <==> OccursAt(s[1..], sub, j - 1)
  {
    if j + |sub| <= |s| {
      var a, b := s[j..j + |sub|], s[1..][j - 1..j - 1 + |sub|];
      forall k | 0 <= k < |sub| ensures a[k] == b[k] {
      }
      assert a == b;
    }
  }

  /** A one-character text occurs nowhere before i exactly when that character is not among the first i. */
  lemma AbsentBefore(s: string, c: char, i: nat)
    requires i <= |s|
    requires forall k :: 0 <= k < i ==> !OccursAt(s, [c], k)
    ensures c !in s[..i]
  {
    forall k | 0 <= k < i ensures s[k] != c {
      assert !OccursAt(s, [c], k);
      assert s[k..k + 1] == [s[k]];
    }
  }

  /** `s.find(sub)`: the first index at which `sub` occurs, if any. */
  function IndexOf(s: string, sub: string): (r: Option<nat>)
    ensures r.Some? ==> OccursAt(s, sub, r.value)
    ensures r.Some? ==> forall j :: 0 <= j < r.value ==> !OccursAt(s, sub, j)
    ensures r.None? <==> !Contains(s, sub)
    decreases |s|
  {
    if |s| < |sub| then None
    else if s[..|sub|] == sub then Some(0)
    else
      var t := s[1..];
      forall j | 1 <= j ensures OccursAt(s, sub, j) <==> OccursAt(t, sub, j - 1) {
        OccursShift(s, sub, j);
      }
      match IndexOf(t, sub)
      case None => None
      case Some(k) => Some(k + 1)
  }


  // ---------------------------------------------------------------------------
  // Truncation and Python slices

  /** `s[:n]` for a non-negative n. */
  function Take<T>(s: seq<T>, n: nat): (r: seq<T>)
    ensures |r| == if |s| <= n then |s| else n
    ensures r == s[..|r|]
  {
    if |s| <= n then s else s[..n]
  }

  /** The start index Python uses for the slice `xs[start:]`. */
  function SliceStart(len: nat, start: int): (r: nat)
    ensures r <= len
  {
    if start < 0 then (if len + start < 0 then 0 else len + start)
    else if start > len then len else start
  }

  /** `xs[start:]` with Python's treatment of negative and out-of-range starts. */
  function SliceFrom<T>(xs: seq<T>, start: int): (r: seq<T>)
    ensures r == xs[SliceStart(|xs|, start)..]
  {
    xs[SliceStart(|xs|, start)..]
  }

  /** `xs[-n:]` for n > 0: the last n elements (all of them when there are fewer). */
  function Last<T>(xs: seq<T>, n: nat): (r: seq<T>)
    requires n > 0
    ensures |r| == if |xs| <= n then |xs| else n
    ensures r == xs[|xs| - |r|..]
  {
    SliceFrom(xs, -(n as int))
  }

  // ---------------------------------------------------------------------------
  // Split and join

  /** `sep.join(parts)` */
  function Join(parts: seq<string>, sep: string): (r: string)
  {
    if parts == [] then ""
    else if |parts| == 1 then parts[0]
    else parts[0] + sep + Join(parts[1..], sep)
  }

  lemma JoinSingle(s: string, sep: string)
    ensures Join([s], sep) == s
  {
  }

  lemma JoinCons(p: string, parts: seq<string>, sep: string)
    requires parts != []
    ensures Join([p] + parts, sep) == p + sep + Join(parts, sep)
  {
    assert ([p] + parts)[1..] == parts;
  }

  lemma JoinPair(a: string, b: string, sep: string)
    ensures Join([a, b], sep) == a + sep + b
  {
    JoinCons(a, [b], sep);
    assert [a, b] == [a] + [b];
  }

  lemma {:induction false} JoinAppend(parts: seq<string>, p: string, sep: string)
    requires parts != []
    ensures Join(parts + [p], sep) == Join(parts, sep) + sep + p
    decreases |parts|
  {
    if |parts| == 1 {
      assert parts + [p] == [parts[0], p];
    } else {
      assert (parts + [p])[1..] == parts[1..] + [p];
      JoinAppend(parts[1..], p, sep);
    }
  }

  /** `s.split(sep)` for a one-character separator: keeps empty pieces. */
  function Split(s: string, sep: char): (parts: seq<string>)
    ensures |parts| >= 1
    ensures forall k :: 0 <= k < |parts| ==> sep !in parts[k]
    ensures Join(parts, [sep]) == s
    decreases |s|
  {
    match IndexOf(s, [sep])
    case None =>
      AbsentBefore(s, sep, |s|);
      assert s[..|s|] == s;
      [s]
    case Some(i) =>
      assert s[i..i + 1] == [sep];
      AbsentBefore(s, sep, i);
      var rest := Split(s[i + 1..], sep);
      JoinCons(s[..i], rest, [sep]);
      assert s == s[..i] + [sep] + s[i + 1..];
      [s[..i]] + rest
  }

  /** The leading run of non-whitespace characters. */
  function Word(s: string): (w: string)
    ensures |w| <= |s| && w == s[..|w|]
    ensures forall k :: 0 <= k < |w| ==> !IsSpace(w[k])
    ensures |w| < |s| ==> IsSpace(s[|w|])
  {
    if s == [] || IsSpace(s[0]) then [] else [s[0]] + Word(s[1..])
  }

  /** `s.split()`: the maximal runs of non-whitespace characters, in order. */
  function SplitWhitespace(s: string): (words: seq<string>)
    ensures forall k :: 0 <= k < |words| ==> words[k] != []
    ensures forall k, j :: 0 <= k < |words| && 0 <= j < |words[k]| ==> !IsSpace(words[k][j])
    decreases |s|
  {
    var t := LStrip(s);
    if t == [] then []
    else
      var w := Word(t);
      assert w != [] by { assert !IsSpace(t[0]); }
      var rest := SplitWhitespace(t[|w|..]);
      var words := [w] + rest;
      assert words[0] == w;
      assert forall k :: 1 <= k < |words| ==> words[k] == rest[k - 1];
      words
  }

  /** A non-empty text without whitespace is a single word. */
  lemma SplitWhitespaceOneWord(s: string)
    requires s != [] && forall k :: 0 <= k < |s| ==> !IsSpace(s[k])
    ensures SplitWhitespace(s) == [s]
  {
    assert LeadingSpaces(s) == 0;
    assert LStrip(s) == s;
    var w := Word(s);
    assert w == s;
    assert SplitWhitespace(s[|w|..]) == [];
  }

  lemma SplitWhitespaceEmpty(s: string)
    ensures SplitWhitespace(s) == [] <==> forall k :: 0 <= k < |s| ==> IsSpace(s[k])
  {
    var t := LStrip(s);
    if t != [] {
      assert !IsSpace(s[|s| - |t|]);
    }
  }

  // ---------------------------------------------------------------------------
  // Replacement

  /** Does `pat` occur at the front of `s`, comparing ASCII-case-insensitively when `fold`? */
  predicate OccursAtFront(s: string, pat: string, fold: bool) {
    |pat| <= |s| && (if fold then Lower(s[..|pat|]) == Lower(pat) else s[..|pat|] == pat)
  }

  /**
   * `s.replace(pat, rep)` (fold = false) and `re.sub(re.escape(pat), rep, s, flags=re.IGNORECASE)`
   * (fold = true): leftmost, non-overlapping occurrences are replaced; an empty `pat`
   * inserts `rep` before every character and at the end, as Python does.
   */
  function ReplaceAll(s: string, pat: string, rep: string, fold: bool): (r: string)
    decreases |s|, |pat|
  {
    if pat == [] then
      (if s == [] then rep else rep + [s[0]] + ReplaceAll(s[1..], pat, rep, fold))
    else if s == [] then []
    else if OccursAtFront(s, pat, fold) then rep + ReplaceAll(s[|pat|..], pat, rep, fold)
    else [s[0]] + ReplaceAll(s[1..], pat, rep, fold)
  }

  lemma {:induction false} ReplaceAllAbsent(s: string, pat: string, rep: string, fold: bool)
    requires pat != []
    requires forall i :: 0 <= i <= |s| - |pat| ==> !OccursAtFront(s[i..], pat, fold)
    ensures ReplaceAll(s, pat, rep, fold) == s
    decreases |s|
  {
    if s != [] {
      assert s[0..] == s;
      forall i | 0 <= i <= |s[1..]| - |pat|
        ensures !OccursAtFront(s[1..][i..], pat, fold)
      {
        assert s[1..][i..] == s[i + 1..];
      }
      ReplaceAllAbsent(s[1..], pat, rep, fold);
    }
  }

  /** The text after the first n entries of a replacement table, each a replace-all (case-insensitive when `fold`). */
  function Replaced(text: string, table: seq<(string, string)>, n: nat, fold: bool): (r: string)
    requires n <= |table|
  {
    if n == 0 then text
    else ReplaceAll(Replaced(text, table, n - 1, fold), table[n - 1].0, table[n - 1].1, fold)
  }

  /** No key of the table occurs anywhere in the text (case-insensitively when `fold`). */
  predicate NoKeyOccurs(text: string, table: seq<(string, string)>, fold: bool) {
    forall e, i :: e in table && 0 <= i <= |text| - |e.0| ==> !OccursAtFront(text[i..], e.0, fold)
  }

  /** Text in which no key occurs comes back unchanged. */
  lemma {:induction false} ReplacedNoKey(text: string, table: seq<(string, string)>, n: nat, fold: bool)
    requires n <= |table|
    requires forall e :: e in table ==> e.0 != []
    requires NoKeyOccurs(text, table, fold)
    ensures Replaced(text, table, n, fold) == text
  {
    if n > 0 {
      ReplacedNoKey(text, table, n - 1, fold);
      var e := table[n - 1];
      assert e in table;
      ReplaceAllAbsent(text, e.0, e.1, fold);
    }
  }

  // ---------------------------------------------------------------------------
  // Numbers as text

  function DigitChar(d: nat): (c: char)
    requires d < 10
    ensures IsDigit(c)
  {
    ('0' as int + d) as char
  }

  /** `str(n)` for a natural number: its decimal digits, no leading zeros. */
  function NatToString(n: nat): (r: string)
    ensures r != []
    ensures forall k :: 0 <= k < |r| ==> IsDigit(r[k])
    decreases n
  {
    if n < 10 then [DigitChar(n)] else NatToString(n / 10) + [DigitChar(n % 10)]
  }
}
