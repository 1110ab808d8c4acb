/** Option, the value-or-nothing type used for Python's `None` throughout the model. */
module Wrappers {

  datatype Option<+T> = None | Some(value: T) {

    /** The wrapped value, or `default` for None (Python's `x or default` / `d.get(k, default)`). */
    function GetOr(default: T): T {
      match this
      case Some(v) => v
      case None => default
    }
  }

  /** The present values of xs, in order (a list built by appending only the hits of a scan). */
  function Somes<T>(xs: seq<Option<T>>): (ys: seq<T>)
    ensures |ys| <= |xs|
  {
    if xs == [] then []
    else
      var last := xs[|xs| - 1];
      Somes(xs[..|xs| - 1]) + (if last.Some? then [last.value] else [])
  }

  /** ys[k] is xs[idx[k]].value, for the increasing list idx of the positions of xs that hold a value. */
  ghost predicate SomesIndexed<T>(xs: seq<Option<T>>, ys: seq<T>, idx: seq<nat>) {
    && |idx| == |ys|
    && (forall k :: 0 <= k < |idx| ==> idx[k] < |xs| && xs[idx[k]] == Some(ys[k]))
    && (forall k, l :: 0 <= k < l < |idx| ==> idx[k] < idx[l])
    && (forall i :: 0 <= i < |xs| ==> (i in idx <==> xs[i].Some?))
  }

  /** The positions of xs that hold a value, in increasing order. */
  function SomesIdx<T>(xs: seq<Option<T>>): (idx: seq<nat>)
    ensures |idx| == |Somes(xs)|
  {
    if xs == [] then []
    else
      var n := |xs| - 1;
      SomesIdx(xs[..n]) + (if xs[n].Some? then [n] else [])
  }

  /** The k-th kept position is a position of xs, and it holds the k-th kept value. */
  lemma {:induction false} SomesIdxAt<T>(xs: seq<Option<T>>, k: nat)
    requires k < |SomesIdx(xs)|
    ensures SomesIdx(xs)[k] < |xs| && xs[SomesIdx(xs)[k]] == Some(Somes(xs)[k])
    decreases |xs|
  {
    var n := |xs| - 1;
    var front := xs[..n];
    if k < |SomesIdx(front)| {
      SomesIdxAt(front, k);
      assert front[SomesIdx(front)[k]] == xs[SomesIdx(front)[k]];
    }
  }

  /** Kept positions are strictly increasing. */
  lemma {:induction false} SomesIdxIncreasing<T>(xs: seq<Option<T>>, k: nat, l: nat)
    requires k < l < |SomesIdx(xs)|
    ensures SomesIdx(xs)[k] < SomesIdx(xs)[l]
    decreases |xs|
  {
    var n := |xs| - 1;
    var front := xs[..n];
    if l < |SomesIdx(front)| {
      SomesIdxIncreasing(front, k, l);
    } else {
      SomesIdxAt(front, k);
    }
  }

  /** A position is kept exactly when it holds a value. */
  lemma {:induction false} SomesIdxComplete<T>(xs: seq<Option<T>>, i: nat)
    requires i < |xs|
    ensures i in SomesIdx(xs) <==> xs[i].Some?
    decreases |xs|
  {
    if i in SomesIdx(xs) {
      var k :| 0 <= k < |SomesIdx(xs)| && SomesIdx(xs)[k] == i;
      SomesIdxAt(xs, k);
    } else if xs[i].Some? {
      var n := |xs| - 1;
      if i < n {
        SomesIdxComplete(xs[..n], i);
      }
      assert false;
    }
  }

  /** `Somes` keeps every present value, once, in its original order. */
  lemma SomesIndices<T>(xs: seq<Option<T>>) returns (idx: seq<nat>)
    ensures SomesIndexed(xs, Somes(xs), idx)
  {
    idx := SomesIdx(xs);
    forall k | 0 <= k < |idx| ensures idx[k] < |xs| && xs[idx[k]] == Some(Somes(xs)[k]) {
      SomesIdxAt(xs, k);
    }
    forall k, l | 0 <= k < l < |idx| ensures idx[k] < idx[l] {
      SomesIdxIncreasing(xs, k, l);
    }
    forall i | 0 <= i < |xs| ensures i in idx <==> xs[i].Some? {
      SomesIdxComplete(xs, i);
    }
  }

  /** Extending the scanned prefix by one position appends that position's value, if any. */
  lemma SomesPrefix<T>(xs: seq<Option<T>>, r: nat)
    requires r < |xs|
    ensures Somes(xs[..r + 1]) == Somes(xs[..r]) + (if xs[r].Some? then [xs[r].value] else [])
  {
    assert xs[..r + 1][..r] == xs[..r];
  }

  lemma SomesWhole<T>(xs: seq<Option<T>>)
    ensures Somes(xs[..|xs|]) == Somes(xs)
  {
    assert xs[..|xs|] == xs;
  }

  lemma SomesEmpty<T>(xs: seq<Option<T>>)
    ensures Somes(xs) == [] <==> forall i :: 0 <= i < |xs| ==> xs[i].None?
  {
    var idx := SomesIndices(xs);
    if Somes(xs) == [] {
      assert forall i :: 0 <= i < |xs| ==> i !in idx;
    } else {
      assert idx[0] in idx;
    }
  }
}
