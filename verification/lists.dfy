/**
 * `Array.prototype.filter` and `Array.prototype.find` as functions on
 * sequences, with what the handlers rely on: a filter keeps exactly the
 * elements it is asked to keep, in their order, and a find returns the first
 * match.
 */
module Lists {
  import opened Wrappers

  /** `s.filter(keep)`. */
  function Filter<T>(s: seq<T>, keep: T -> bool): (r: seq<T>)
    ensures |r| <= |s|
    ensures forall i :: 0 <= i < |r| ==> r[i] in s && keep(r[i])
    ensures forall i :: 0 <= i < |s| && keep(s[i]) ==> s[i] in r
  {
    if s == [] then []
    else
      var rest := Filter(s[..|s| - 1], keep);
      var last := s[|s| - 1];
      assert s == s[..|s| - 1] + [last];
      if keep(last) then rest + [last] else rest
  }

  /** Filtering works piecewise, which is to say it keeps the order of what it keeps. */
  lemma {:induction false} FilterConcat<T>(a: seq<T>, b: seq<T>, keep: T -> bool)
    ensures Filter(a + b, keep) == Filter(a, keep) + Filter(b, keep)
    decreases |b|
  {
    if b != [] {
      var b' := b[..|b| - 1];
      assert (a + b)[..|a + b| - 1] == a + b';
      FilterConcat(a, b', keep);
    } else {
      assert a + b == a;
    }
  }

  /** When every element is kept, the filter changes nothing. */
  lemma {:induction false} FilterAll<T>(s: seq<T>, keep: T -> bool)
    requires forall i :: 0 <= i < |s| ==> keep(s[i])
    ensures Filter(s, keep) == s
  {
    if s != [] {
      FilterAll(s[..|s| - 1], keep);
      assert s == s[..|s| - 1] + [s[|s| - 1]];
    }
  }

  /** Filtering twice with the same test is filtering once. */
  lemma FilterIdempotent<T>(s: seq<T>, keep: T -> bool)
    ensures Filter(Filter(s, keep), keep) == Filter(s, keep)
  {
    FilterAll(Filter(s, keep), keep);
  }

  /** `s.map(f)`, built from the end so that one more element is one more result. */
  function Map<A, B>(s: seq<A>, f: A -> B): (r: seq<B>)
    ensures |r| == |s|
    ensures forall i :: 0 <= i < |s| ==> r[i] == f(s[i])
  {
    if s == [] then [] else Map(s[..|s| - 1], f) + [f(s[|s| - 1])]
  }

  /** `s.map(x => hit(x) ? f(x) : x)`: the elements that match are
      rewritten, every other element is kept, and the positions stay put. */
  function UpdateWhere<T>(s: seq<T>, hit: T -> bool, f: T -> T): (r: seq<T>)
    ensures |r| == |s|
    ensures forall i :: 0 <= i < |s| ==> r[i] == if hit(s[i]) then f(s[i]) else s[i]
  {
    seq(|s|, i requires 0 <= i < |s| => if hit(s[i]) then f(s[i]) else s[i])
  }

  /** `s.flatMap(f)`, built from the end: one more element adds its results at the end. */
  function FlatMap<A, B>(s: seq<A>, f: A -> seq<B>): seq<B> {
    if s == [] then [] else FlatMap(s[..|s| - 1], f) + f(s[|s| - 1])
  }

  /** Flat-mapping works piecewise over a concatenation. */
  lemma {:induction false} FlatMapAppend<A, B>(x: seq<A>, y: seq<A>, f: A -> seq<B>)
    ensures FlatMap(x + y, f) == FlatMap(x, f) + FlatMap(y, f)
    decreases |y|
  {
    if y == [] {
      assert x + y == x;
    } else {
      var y', last := y[..|y| - 1], y[|y| - 1];
      assert (x + y)[..|x + y| - 1] == x + y';
      assert (x + y)[|x + y| - 1] == last;
      FlatMapAppend(x, y', f);
      assert FlatMap(x, f) + FlatMap(y', f) + f(last) == FlatMap(x, f) + (FlatMap(y', f) + f(last));
    }
  }

  /** `s.find(p)` as an index: the first position whose element matches. */
  function FindIndex<T>(s: seq<T>, p: T -> bool): (r: Option<nat>)
    ensures r.Some? ==> r.value < |s| && p(s[r.value]) && forall k :: 0 <= k < r.value ==> !p(s[k])
    ensures r.None? ==> forall k :: 0 <= k < |s| ==> !p(s[k])
  {
    if s == [] then None
    else if p(s[0]) then Some(0)
    else
      match FindIndex(s[1..], p)
      case None => None
      case Some(k) => Some(k + 1)
  }

  predicate Distinct<T(==, !new)>(s: seq<T>) {
    forall i, j :: 0 <= i < j < |s| ==> s[i] != s[j]
  }

  /** `[...new Set(s)]`, or the keys of an object filled in the order of `s`:
      each value once, where it first occurs. */
  function Dedupe<T(==, !new)>(s: seq<T>): (r: seq<T>)
    ensures Distinct(r) && |r| <= |s|
    ensures forall x :: x in r <==> x in s
    ensures s != [] ==> r != [] && r[0] == s[0]
  {
    if s == [] then []
    else
      var rest := Dedupe(s[..|s| - 1]);
      var last := s[|s| - 1];
      assert s == s[..|s| - 1] + [last];
      if last in rest then rest else rest + [last]
  }

  /** A list without repeats comes out of the set unchanged. */
  lemma {:induction false} DedupeDistinct<T(!new)>(s: seq<T>)
    requires Distinct(s)
    ensures Dedupe(s) == s
  {
    if s != [] {
      var init := s[..|s| - 1];
      assert Distinct(init);
      DedupeDistinct(init);
      assert s[|s| - 1] !in init;
      assert s == init + [s[|s| - 1]];
    }
  }

  /** A list without repeats has as many values as entries. */
  lemma {:induction false} DistinctCard<T(!new)>(s: seq<T>)
    requires Distinct(s)
    ensures |set x | x in s| == |s|
  {
    if s != [] {
      var init := s[..|s| - 1];
      assert Distinct(init);
      DistinctCard(init);
      assert s == init + [s[|s| - 1]];
      assert (set x | x in s) == (set x | x in init) + {s[|s| - 1]};
    }
  }
}
