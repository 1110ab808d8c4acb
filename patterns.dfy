/**
 * The regular expressions of the rule tables, written as a sequence of pieces:
 * literal alternatives (plain text or a non-capturing `(?:...)` group), a
 * capturing group of literal alternatives (an optional group is an alternative
 * with ""), or a greedy run of one character class with a minimum length. Matching follows
 * the backtracking order of Python's `re`: alternatives left to right, runs from
 * longest to shortest, and `re.search` takes the leftmost start.
 */
module Patterns {
  import opened Wrappers
  import opened Text

  datatype CharClass =
    | Space        // \s
    | Digit        // \d
    | Letter       // [a-z] or [A-Z] under IGNORECASE
    | EmailLocal   // [a-zA-Z0-9_.+-]
    | EmailDomain  // [a-zA-Z0-9-]
    | EmailTail    // [a-zA-Z0-9-.]

  predicate InClass(c: char, k: CharClass) {
    match k
    case Space => IsSpace(c)
    case Digit => IsDigit(c)
    case Letter => IsAsciiLetter(c)
    case EmailLocal => IsAsciiLetter(c) || IsDigit(c) || c in "_.+-"
    case EmailDomain => IsAsciiLetter(c) || IsDigit(c) || c == '-'
    case EmailTail => IsAsciiLetter(c) || IsDigit(c) || c == '-' || c == '.'
  }

  datatype Piece =
    | Alt(options: seq<string>)
    | Group(options: seq<string>)
    | Run(cls: CharClass, min: nat)

  type Pattern = seq<Piece>

  /** A match of a pattern: where it starts and how many characters it spans. */
  datatype Span = Span(start: nat, len: nat)

  /** Length of the longest run of class-k characters at the front of t. */
  function RunLen(t: string, k: CharClass): (n: nat)
    ensures n <= |t|
    ensures forall j :: 0 <= j < n ==> InClass(t[j], k)
    ensures n < |t| ==> !InClass(t[n], k)
  {
    if t != [] && InClass(t[0], k) then 1 + RunLen(t[1..], k) else 0
  }

  /**
   * The length of the match `re.match` finds for p at the front of t, if any.
   * `fold` compares literals ASCII-case-insensitively (re.IGNORECASE).
   */
  function MatchLen(t: string, p: Pattern, fold: bool): (r: Option<nat>)
    ensures r.Some? ==> r.value <= |t|
    decreases |t|, |p|, 1, 0
  {
    if p == [] then Some(0)
    else
      match p[0]
      case Alt(options) => MatchAlt(t, options, p[1..], fold)
      case Group(options) => MatchAlt(t, options, p[1..], fold)
      case Run(k, min) => MatchRun(t, k, min, RunLen(t, k), p[1..], fold)
  }

  /** Try the alternatives in order, each followed by the rest of the pattern. */
  function MatchAlt(t: string, options: seq<string>, rest: Pattern, fold: bool): (r: Option<nat>)
    ensures r.Some? ==> r.value <= |t|
    decreases |t|, |rest| + 1, 0, |options|
  {
    if options == [] then None
    else
      var o := options[0];
      var m := if OccursAtFront(t, o, fold) then MatchLen(t[|o|..], rest, fold) else None;
      if m.Some? then Some(|o| + m.value) else MatchAlt(t, options[1..], rest, fold)
  }

  /** A greedy run: try n, n-1, ..., min characters, each followed by the rest. */
  function MatchRun(t: string, k: CharClass, min: nat, n: nat, rest: Pattern, fold: bool): (r: Option<nat>)
    requires n <= |t|
    ensures r.Some? ==> r.value <= |t|
    decreases |t|, |rest| + 1, 0, n
  {
    if n < min then None
    else
      var m := MatchLen(t[n..], rest, fold);
      if m.Some? then Some(n + m.value)
      else if n == min then None
      else MatchRun(t, k, min, n - 1, rest, fold)
  }

  predicate MatchesAt(t: string, p: Pattern, fold: bool, i: nat)
    requires i <= |t|
  {
    MatchLen(t[i..], p, fold).Some?
  }

  /** `re.search` from index `from` on. */
  function SearchFrom(t: string, p: Pattern, fold: bool, from: nat): (r: Option<Span>)
    requires from <= |t|
    ensures r.Some? ==> from <= r.value.start <= |t| && r.value.start + r.value.len <= |t|
    ensures r.Some? ==> MatchLen(t[r.value.start..], p, fold) == Some(r.value.len)
    ensures r.Some? ==> forall j :: from <= j < r.value.start ==> !MatchesAt(t, p, fold, j)
    ensures r.None? ==> forall j :: from <= j <= |t| ==> !MatchesAt(t, p, fold, j)
    decreases |t| - from
  {
    var m := MatchLen(t[from..], p, fold);
    if m.Some? then Some(Span(from, m.value))
    else if from == |t| then None
    else SearchFrom(t, p, fold, from + 1)
  }

  /** `re.search(p, t)`: the leftmost match. */
  function Search(t: string, p: Pattern, fold: bool): (r: Option<Span>)
    ensures r.Some? ==> r.value.start + r.value.len <= |t|
    ensures r.Some? ==> MatchLen(t[r.value.start..], p, fold) == Some(r.value.len)
    ensures r.Some? ==> forall j :: 0 <= j < r.value.start ==> !MatchesAt(t, p, fold, j)
    ensures r.None? <==> forall j :: 0 <= j <= |t| ==> !MatchesAt(t, p, fold, j)
  {
    var r := SearchFrom(t, p, fold, 0);
    assert r.Some? ==> MatchesAt(t, p, fold, r.value.start);
    r
  }

  // ---------------------------------------------------------------------------
  // Capturing groups

  /** The number of capturing groups of a pattern. */
  function GroupCount(p: Pattern): nat {
    if p == [] then 0 else (if p[0].Group? then 1 else 0) + GroupCount(p[1..])
  }

  /**
   * The texts the capturing groups of p take, left to right, in the match
   * `MatchLen` finds at the front of t: the same backtracking choices, with the
   * text each group consumed recorded (an optional group that matched "" gives "",
   * as `re.findall` reports a group that did not take part).
   */
  function Captures(t: string, p: Pattern, fold: bool): (gs: seq<string>)
    requires MatchLen(t, p, fold).Some?
    ensures |gs| == GroupCount(p)
    decreases |t|, |p|, 1, 0
  {
    if p == [] then []
    else
      match p[0]
      case Alt(options) => AltCaptures(t, options, false, p[1..], fold)
      case Group(options) => AltCaptures(t, options, true, p[1..], fold)
      case Run(k, min) => RunCaptures(t, k, min, RunLen(t, k), p[1..], fold)
  }

  /** The captures along the alternative `MatchAlt` takes; the alternative's own text first when it is a group. */
  function AltCaptures(t: string, options: seq<string>, capture: bool, rest: Pattern, fold: bool): (gs: seq<string>)
    requires MatchAlt(t, options, rest, fold).Some?
    ensures |gs| == (if capture then 1 else 0) + GroupCount(rest)
    decreases |t|, |rest| + 1, 0, |options|
  {
    var o := options[0];
    if OccursAtFront(t, o, fold) && MatchLen(t[|o|..], rest, fold).Some? then
      (if capture then [t[..|o|]] else []) + Captures(t[|o|..], rest, fold)
    else AltCaptures(t, options[1..], capture, rest, fold)
  }

  /** The captures along the run length `MatchRun` settles on. */
  function RunCaptures(t: string, k: CharClass, min: nat, n: nat, rest: Pattern, fold: bool): (gs: seq<string>)
    requires n <= |t| && MatchRun(t, k, min, n, rest, fold).Some?
    ensures |gs| == GroupCount(rest)
    decreases |t|, |rest| + 1, 0, n
  {
    if MatchLen(t[n..], rest, fold).Some? then Captures(t[n..], rest, fold)
    else RunCaptures(t, k, min, n - 1, rest, fold)
  }

  /** One item of a `re.findall` result. */
  datatype FindItem = Str(s: string) | Tup(items: seq<string>)

  /**
   * What `re.findall` reports for the match sp: the matched text when the pattern
   * has no group, the group's text when it has one, the tuple of the groups' texts
   * when it has several.
   */
  function Reported(t: string, p: Pattern, fold: bool, sp: Span): (f: FindItem)
    requires sp.start + sp.len <= |t| && MatchLen(t[sp.start..], p, fold) == Some(sp.len)
    ensures GroupCount(p) == 0 ==> f == Str(t[sp.start..sp.start + sp.len])
    ensures GroupCount(p) == 1 ==> f == Str(Captures(t[sp.start..], p, fold)[0])
    ensures GroupCount(p) >= 2 ==> f == Tup(Captures(t[sp.start..], p, fold)) && |f.items| == GroupCount(p)
  {
    var gs := Captures(t[sp.start..], p, fold);
    if GroupCount(p) == 0 then Str(t[sp.start..sp.start + sp.len])
    else if GroupCount(p) == 1 then Str(gs[0])
    else Tup(gs)
  }

  /**
   * `re.findall(p, t)`: successive leftmost matches, each search starting where
   * the previous match ended (one character later after an empty match), each
   * reported as `Reported` says.
   */
  function FindAll(t: string, p: Pattern, fold: bool): (ms: seq<FindItem>)
    ensures ms == [] <==> Search(t, p, fold).None?
    ensures ms != [] ==> ms[0] == Reported(t, p, fold, Search(t, p, fold).value)
    decreases |t|
  {
    match Search(t, p, fold)
    case None => []
    case Some(sp) =>
      var hit := Reported(t, p, fold, sp);
      var i, m := sp.start, sp.len;
      if m == 0 then
        (if i < |t| then [hit] + FindAll(t[i + 1..], p, fold) else [hit])
      else [hit] + FindAll(t[i + m..], p, fold)
  }

  /** A string as Python's `repr` writes it when it holds no quote, backslash or control character. */
  function Repr(s: string): (r: string)
    ensures |r| == |s| + 2 && r[0] == '\'' && r[|r| - 1] == '\''
  {
    "'" + s + "'"
  }

  function Reprs(items: seq<string>): (rs: seq<string>)
    ensures |rs| == |items| && forall i :: 0 <= i < |items| ==> rs[i] == Repr(items[i])
  {
    seq(|items|, i requires 0 <= i < |items| => Repr(items[i]))
  }

  /** `str(item)` of a `re.findall` item: a string as itself, a tuple as Python prints it. */
  function Show(f: FindItem): (r: string)
    ensures f.Str? ==> r == f.s
    ensures f.Tup? ==> |r| >= 2 && r[0] == '(' && r[|r| - 1] == ')'
  {
    match f
    case Str(s) => s
    case Tup(items) =>
      var inner := Join(Reprs(items), ", ");
      if |items| == 1 then "(" + inner + ",)" else "(" + inner + ")"
  }

  /** `re.sub(p, rep, t)`: every match of `FindAll` replaced by `rep`. */
  function SubAll(t: string, p: Pattern, rep: string, fold: bool): (r: string)
    ensures Search(t, p, fold).None? ==> r == t
    decreases |t|
  {
    match Search(t, p, fold)
    case None => t
    case Some(Span(i, m)) =>
      if m == 0 then
        (if i < |t| then t[..i] + rep + [t[i]] + SubAll(t[i + 1..], p, rep, fold) else t + rep)
      else t[..i] + rep + SubAll(t[i + m..], p, rep, fold)
  }

  /**
   * A text that starts with the first alternative of a piece of alternatives
   * matches the piece and then the rest; a capturing group records that alternative.
   */
  lemma MatchFirstOption(w: string, tail: string, pc: Piece, rest: Pattern, fold: bool, m: nat)
    requires !pc.Run? && pc.options != [] && pc.options[0] == w
    requires MatchLen(tail, rest, fold) == Some(m)
    ensures MatchLen(w + tail, [pc] + rest, fold) == Some(|w| + m)
    ensures Captures(w + tail, [pc] + rest, fold) == (if pc.Group? then [w] else []) + Captures(tail, rest, fold)
  {
    var s := w + tail;
    assert s[..|w|] == w;
    assert s[|w|..] == tail;
    assert ([pc] + rest)[1..] == rest;
  }

  // ---------------------------------------------------------------------------
  // A pattern that is one group of literal alternatives

  lemma {:induction false} MatchAltLiteral(s: string, options: seq<string>)
    ensures MatchAlt(s, options, [], false).Some? <==> exists o :: o in options && OccursAtFront(s, o, false)
    decreases |options|
  {
    if options != [] {
      MatchAltLiteral(s, options[1..]);
      assert forall o :: o in options <==> o == options[0] || o in options[1..];
    }
  }

  /** Searching for one group of alternatives is asking whether one of them occurs. */
  lemma SearchAltContains(t: string, options: seq<string>)
    ensures Search(t, [Alt(options)], false).Some? <==> exists w :: w in options && Contains(t, w)
  {
    var p := [Alt(options)];
    forall j | 0 <= j <= |t|
      ensures MatchesAt(t, p, false, j) <==> exists w :: w in options && OccursAt(t, w, j)
    {
      MatchAltLiteral(t[j..], options);
      assert p[0] == Alt(options) && p[1..] == [];
      forall w | w in options
        ensures OccursAtFront(t[j..], w, false) <==> OccursAt(t, w, j)
      {
        if j + |w| <= |t| {
          assert t[j..][..|w|] == t[j..j + |w|];
        }
      }
    }
    if Search(t, p, false).Some? {
      var j := Search(t, p, false).value.start;
      assert MatchesAt(t, p, false, j);
    }
    if exists w :: w in options && Contains(t, w) {
      var w :| w in options && Contains(t, w);
      var j :| 0 <= j <= |t| && OccursAt(t, w, j);
      assert MatchesAt(t, p, false, j);
    }
  }
}
