/**
 * The array operations the source builds everything from (`filter`, `map` with a
 * conditional replacement, `indexOf`), defined once, with the facts the rest of
 * the model relies on.
 */
module Seqs {

  /** `xs.filter(p)`: the elements that satisfy `p`, in their original order. */
  function Filter<T>(xs: seq<T>, p: T -> bool): (r: seq<T>)
    ensures |r| <= |xs|
    ensures forall x :: x in r ==> x in xs && p(x)
  {
    if xs == [] then []
    else
      var n := |xs| - 1;
      Filter(xs[..n], p) + (if p(xs[n]) then [xs[n]] else [])
  }

  /** The positions of `xs` whose element satisfies `p`, ascending. */
  function Kept<T>(xs: seq<T>, p: T -> bool): seq<int>
  {
    if xs == [] then []
    else
      var n := |xs| - 1;
      Kept(xs[..n], p) + (if p(xs[n]) then [n] else [])
  }

  /** `r` is `xs` read at the strictly increasing positions `idx`. */
  ghost predicate PickedAt<T>(r: seq<T>, xs: seq<T>, idx: seq<int>)
  {
    && |idx| == |r|
    && (forall i :: 0 <= i < |idx| ==> 0 <= idx[i] < |xs| && r[i] == xs[idx[i]])
    && (forall i, j :: 0 <= i < j < |idx| ==> idx[i] < idx[j])
  }

  /** The kept positions are exactly those whose element satisfies `p`. */
  lemma {:induction false} KeptPositions<T>(xs: seq<T>, p: T -> bool)
    ensures forall k :: k in Kept(xs, p) <==> 0 <= k < |xs| && p(xs[k])
  {
    if xs != [] {
      var n := |xs| - 1;
      var front := xs[..n];
      KeptPositions(front, p);
      var k := Kept(front, p);
      assert Kept(xs, p) == k + (if p(xs[n]) then [n] else []);
      forall j | 0 <= j < n
        ensures front[j] == xs[j]
      {
      }
    }
  }

  /** The kept positions are listed in ascending order. */
  lemma {:induction false} KeptAscending<T>(xs: seq<T>, p: T -> bool)
    ensures forall i, j :: 0 <= i < j < |Kept(xs, p)| ==> Kept(xs, p)[i] < Kept(xs, p)[j]
  {
    if xs != [] {
      var n := |xs| - 1;
      var front := xs[..n];
      KeptAscending(front, p);
      KeptPositions(front, p);
      var k := Kept(front, p);
      var idx := Kept(xs, p);
      assert idx == k + (if p(xs[n]) then [n] else []);
      forall i, j | 0 <= i < j < |idx|
        ensures idx[i] < idx[j]
      {
        assert idx[i] == k[i];
        if j >= |k| {
          assert k[i] in k;
        }
      }
    }
  }

  /**
   * Filtering keeps exactly the positions whose element satisfies `p` and keeps
   * them in order: the result is `xs` read at those positions, ascending.
   */
  lemma {:induction false} FilterPicksKept<T>(xs: seq<T>, p: T -> bool)
    ensures PickedAt(Filter(xs, p), xs, Kept(xs, p))
    ensures forall k :: k in Kept(xs, p) <==> 0 <= k < |xs| && p(xs[k])
    ensures forall k :: k in Kept(xs, p) ==> k < |xs|
  {
    KeptPositions(xs, p);
    KeptAscending(xs, p);
    if xs != [] {
      var n := |xs| - 1;
      var front := xs[..n];
      FilterPicksKept(front, p);
      var f, k := Filter(front, p), Kept(front, p);
      var r, idx := Filter(xs, p), Kept(xs, p);
      assert r == f + (if p(xs[n]) then [xs[n]] else []);
      assert idx == k + (if p(xs[n]) then [n] else []);
      forall i | 0 <= i < |idx|
        ensures 0 <= idx[i] < |xs| && r[i] == xs[idx[i]]
      {
        if i < |k| {
          assert idx[i] == k[i] && r[i] == f[i];
          assert front[k[i]] == xs[k[i]];
        }
      }
    }
  }

  /** Filtering with a predicate that every element satisfies changes nothing. */
  lemma {:induction false} FilterAll<T>(xs: seq<T>, p: T -> bool)
    requires forall x :: x in xs ==> p(x)
    ensures Filter(xs, p) == xs
  {
    if xs != [] {
      var n := |xs| - 1;
      FilterAll(xs[..n], p);
      assert xs[..n] + [xs[n]] == xs;
    }
  }

  /** Membership in a filter, both directions. */
  lemma FilterMember<T>(xs: seq<T>, p: T -> bool)
    ensures forall x :: x in Filter(xs, p) <==> x in xs && p(x)
  {
    FilterPicksKept(xs, p);
    var f, k := Filter(xs, p), Kept(xs, p);
    forall x | x in xs && p(x)
      ensures x in f
    {
      var j :| 0 <= j < |xs| && xs[j] == x;
      assert j in k;
      var i :| 0 <= i < |k| && k[i] == j;
      assert f[i] == x;
    }
  }

  /** Filtering distributes over concatenation. */
  lemma {:induction false} FilterAppend<T>(xs: seq<T>, ys: seq<T>, p: T -> bool)
    ensures Filter(xs + ys, p) == Filter(xs, p) + Filter(ys, p)
  {
    if ys == [] {
      assert xs + ys == xs;
    } else {
      var n := |ys| - 1;
      assert (xs + ys)[..|xs + ys| - 1] == xs + ys[..n];
      FilterAppend(xs, ys[..n], p);
    }
  }

  /** Filters by predicates that agree on every element give the same result. */
  lemma {:induction false} FilterSame<T>(xs: seq<T>, p: T -> bool, q: T -> bool)
    requires forall i :: 0 <= i < |xs| ==> p(xs[i]) == q(xs[i])
    ensures Filter(xs, p) == Filter(xs, q)
  {
    if xs != [] {
      var n := |xs| - 1;
      var init := xs[..n];
      forall i | 0 <= i < |init|
        ensures p(init[i]) == q(init[i])
      {
        assert init[i] == xs[i];
      }
      FilterSame(init, p, q);
      FilterStep(xs, p);
      FilterStep(xs, q);
    }
  }

  /** Filtering by `p` and then by `q` is filtering once by any `both` that is their conjunction. */
  lemma {:induction false} FilterFilter<T>(xs: seq<T>, p: T -> bool, q: T -> bool, both: T -> bool)
    requires forall i :: 0 <= i < |xs| ==> both(xs[i]) == (p(xs[i]) && q(xs[i]))
    ensures Filter(Filter(xs, p), q) == Filter(xs, both)
  {
    if xs != [] {
      var n := |xs| - 1;
      var init, last := xs[..n], xs[n];
      forall i | 0 <= i < |init|
        ensures both(init[i]) == (p(init[i]) && q(init[i]))
      {
        assert init[i] == xs[i];
      }
      FilterFilter(init, p, q, both);
      FilterFilterStep(xs, p, q, both);
    }
  }

  /** The last element's contribution to `Filter(Filter(xs, p), q)`, once the front is handled. */
  lemma FilterFilterStep<T>(xs: seq<T>, p: T -> bool, q: T -> bool, both: T -> bool)
    requires xs != []
    requires both(xs[|xs| - 1]) == (p(xs[|xs| - 1]) && q(xs[|xs| - 1]))
    requires Filter(Filter(xs[..|xs| - 1], p), q) == Filter(xs[..|xs| - 1], both)
    ensures Filter(Filter(xs, p), q) == Filter(xs, both)
  {
    var n := |xs| - 1;
    var init, last := xs[..n], xs[n];
    var tail := if p(last) then [last] else [];
    FilterStep(xs, p);
    FilterAppend(Filter(init, p), tail, q);
    if p(last) {
      FilterSingle(last, q);
    } else {
      assert Filter(tail, q) == [];
    }
    FilterStep(xs, both);
  }

  /** A filter by `either` of two exclusive predicates keeps as many elements as the two filters together. */
  lemma {:induction false} FilterSplitCount<T>(xs: seq<T>, p: T -> bool, q: T -> bool, either: T -> bool)
    requires forall i :: 0 <= i < |xs| ==> either(xs[i]) == (p(xs[i]) || q(xs[i])) && !(p(xs[i]) && q(xs[i]))
    ensures |Filter(xs, either)| == |Filter(xs, p)| + |Filter(xs, q)|
  {
    if xs != [] {
      var n := |xs| - 1;
      var init, x := xs[..n], xs[n];
      forall i | 0 <= i < |init|
        ensures either(init[i]) == (p(init[i]) || q(init[i])) && !(p(init[i]) && q(init[i]))
      {
        assert init[i] == xs[i];
      }
      FilterSplitCount(init, p, q, either);
      FilterStep(xs, either);
      FilterStep(xs, p);
      FilterStep(xs, q);
    }
  }

  /** One step of `Filter`: the last element is kept or not, after the filtered rest. */
  lemma FilterStep<T>(xs: seq<T>, p: T -> bool)
    requires xs != []
    ensures Filter(xs, p) == Filter(xs[..|xs| - 1], p) + (if p(xs[|xs| - 1]) then [xs[|xs| - 1]] else [])
  {
  }

  /** Filtering a single element. */
  lemma FilterSingle<T>(x: T, p: T -> bool)
    ensures Filter([x], p) == if p(x) then [x] else []
  {
    assert [x][..0] == [];
  }

  /** A filter that keeps no element gives the empty sequence. */
  lemma FilterNone<T>(xs: seq<T>, p: T -> bool)
    requires forall x :: x in xs ==> !p(x)
    ensures Filter(xs, p) == []
  {
    if Filter(xs, p) != [] {
      assert Filter(xs, p)[0] in Filter(xs, p);
    }
  }

  /**
   * `xs.map(x => p(x) ? f(x) : x)`: every element that satisfies `p` is replaced
   * by its image under `f`; the others stay where they are.
   */
  function MapIf<T>(xs: seq<T>, p: T -> bool, f: T -> T): (r: seq<T>)
    ensures |r| == |xs|
    ensures forall i :: 0 <= i < |xs| ==> r[i] == if p(xs[i]) then f(xs[i]) else xs[i]
  {
    if xs == [] then []
    else [if p(xs[0]) then f(xs[0]) else xs[0]] + MapIf(xs[1..], p, f)
  }

  /** `xs.indexOf(x)`: the first position holding `x`, or -1 when there is none. */
  function IndexOf<T(==)>(xs: seq<T>, x: T): (i: int)
    ensures -1 <= i < |xs|
    ensures i == -1 <==> x !in xs
    ensures 0 <= i ==> xs[i] == x && x !in xs[..i]
  {
    if xs == [] then -1
    else if xs[0] == x then 0
    else
      var k := IndexOf(xs[1..], x);
      assert k >= 0 ==> xs[..k + 1] == [xs[0]] + xs[1..][..k];
      if k == -1 then -1 else k + 1
  }

  /** `xs.findIndex(p)`: the first position whose element satisfies `p`, or -1 when there is none. */
  function FindIndex<T>(xs: seq<T>, p: T -> bool): (i: int)
    ensures -1 <= i < |xs|
    ensures i == -1 <==> forall k :: 0 <= k < |xs| ==> !p(xs[k])
    ensures 0 <= i ==> p(xs[i]) && forall k :: 0 <= k < i ==> !p(xs[k])
  {
    if xs == [] then -1
    else if p(xs[0]) then 0
    else
      var k := FindIndex(xs[1..], p);
      if k == -1 then -1 else k + 1
  }

  /** `xs.slice(start, end)` as ECMAScript defines it: negative positions count from the end. */
  function Slice<T>(xs: seq<T>, start: int, end: int): (r: seq<T>)
    ensures |r| <= |xs|
    ensures start <= end ==> |r| <= end - start
  {
    var from := Clamp(start, |xs|);
    var to := Clamp(end, |xs|);
    if from < to then xs[from..to] else []
  }

  /** ECMAScript's relative-index rule: a negative index counts back from `len`; the result lies in [0, len]. */
  function Clamp(k: int, len: nat): (r: nat)
    ensures r <= len
  {
    if k < 0 then (if len + k < 0 then 0 else len + k)
    else if k < len then k else len
  }
}
