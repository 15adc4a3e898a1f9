/**
 * Sequence operations that the JavaScript source performs with `Set`, `filter` and `sort`.
 */
module Seqs {

  predicate Distinct<T(==,!new)>(s: seq<T>) {
    forall i, j :: 0 <= i < j < |s| ==> s[i] != s[j]
  }

  predicate Sorted(s: seq<int>) {
    forall i, j :: 0 <= i < j < |s| ==> s[i] <= s[j]
  }

  predicate StrictlyIncreasing(s: seq<int>) {
    forall i, j :: 0 <= i < j < |s| ==> s[i] < s[j]
  }

  /** `Array.from(new Set(s))`: the first occurrence of every value, in order of appearance. */
  function Dedupe<T(==,!new)>(s: seq<T>): (r: seq<T>)
    ensures Distinct(r)
    ensures forall x :: x in r <==> x in s
    ensures |r| <= |s|
  {
    if s == [] then []
    else
      var r := Dedupe(s[..|s| - 1]);
      assert forall x :: x in s <==> x in s[..|s| - 1] || x == s[|s| - 1];
      if s[|s| - 1] in r then r else r + [s[|s| - 1]]
  }

  /** `xs.filter(x => !ys.includes(x))`, Firestore's `arrayRemove(...ys)`: every copy goes. */
  function RemoveAll<T(==,!new)>(xs: seq<T>, ys: seq<T>): (r: seq<T>)
    ensures forall x :: x in r <==> x in xs && x !in ys
    ensures |r| <= |xs|
  {
    if xs == [] then []
    else if xs[0] in ys then RemoveAll(xs[1..], ys)
    else [xs[0]] + RemoveAll(xs[1..], ys)
  }

  /** Removal keeps the order of what remains: it acts on each part of a split separately. */
  lemma {:induction false} RemoveAllSplits<T(!new)>(xs: seq<T>, zs: seq<T>, ys: seq<T>)
    ensures RemoveAll(xs + zs, ys) == RemoveAll(xs, ys) + RemoveAll(zs, ys)
  {
    if xs != [] {
      assert (xs + zs)[1..] == xs[1..] + zs;
      RemoveAllSplits(xs[1..], zs, ys);
    } else {
      assert xs + zs == zs;
    }
  }

  /** Firestore's `arrayUnion(x)`: appends `x` unless it is already an element. */
  function ArrayUnion<T(==,!new)>(xs: seq<T>, x: T): (r: seq<T>)
    ensures forall y :: y in r <==> y in xs || y == x
    ensures x in xs ==> r == xs
  {
    if x in xs then xs else xs + [x]
  }

  /** A non-empty sequence is its head followed by its tail. */
  lemma HeadTail<T>(s: seq<T>)
    requires s != []
    ensures s == [s[0]] + s[1..]
  {
  }

  /** Inserts `x` into a sorted sequence, after every element smaller than it. */
  function Insert(x: int, s: seq<int>): (r: seq<int>)
    requires Sorted(s)
    ensures Sorted(r)
    ensures multiset(r) == multiset(s) + multiset{x}
    ensures r[0] == x || (s != [] && r[0] == s[0])
  {
    if s == [] then [x]
    else if x <= s[0] then [x] + s
    else
      var tail := Insert(x, s[1..]);
      assert s == [s[0]] + s[1..];
      ConsSorted(s[0], tail);
      [s[0]] + tail
  }

  /** A sorted sequence stays sorted under a head no larger than its first element. */
  lemma ConsSorted(a: int, t: seq<int>)
    requires Sorted(t) && (t != [] ==> a <= t[0])
    ensures Sorted([a] + t)
  {
  }

  /** Numeric ascending sort (a stable insertion sort). */
  function SortAscending(s: seq<int>): (r: seq<int>)
    ensures Sorted(r)
    ensures multiset(r) == multiset(s)
  {
    if s == [] then []
    else
      assert s == s[..|s| - 1] + [s[|s| - 1]];
      Insert(s[|s| - 1], SortAscending(s[..|s| - 1]))
  }

  lemma SortedDistinctIsStrict(s: seq<int>)
    requires Sorted(s) && Distinct(s)
    ensures StrictlyIncreasing(s)
  {
  }

  lemma MultisetKeepsDistinct(a: seq<int>, b: seq<int>)
    requires multiset(a) == multiset(b) && Distinct(a)
    ensures Distinct(b)
  {
    forall i, j | 0 <= i < j < |b| ensures b[i] != b[j] {
      if b[i] == b[j] {
        var m := multiset(b[..j]);
        assert b == b[..j] + [b[j]] + b[j + 1..];
        assert b[..j] == b[..i] + [b[i]] + b[i + 1..j];
        assert multiset(b)[b[i]] >= 2;
        DistinctCountsOne(a, b[i]);
      }
    }
  }

  lemma {:induction false} DistinctCountsOne(a: seq<int>, x: int)
    requires Distinct(a)
    ensures multiset(a)[x] <= 1
  {
    if a != [] {
      assert a == [a[0]] + a[1..];
      assert Distinct(a[1..]);
      DistinctCountsOne(a[1..], x);
      if a[0] == x {
        assert x !in a[1..];
      }
    }
  }

  /** Two strictly increasing sequences that hold the same values are the same sequence. */
  lemma {:induction false} StrictlyIncreasingUnique(a: seq<int>, b: seq<int>)
    requires StrictlyIncreasing(a) && StrictlyIncreasing(b)
    requires forall x :: x in a <==> x in b
    ensures a == b
  {
    assert a != [] ==> a[0] in a && a[0] in b;
    assert b != [] ==> b[0] in b && b[0] in a;
    if a != [] {
      assert a[0] in b;
      assert b[0] in a;
      assert a[0] == b[0];
      forall x ensures x in a[1..] <==> x in b[1..] {
        if x in a[1..] {
          assert x > a[0];
          assert x in b;
        }
        if x in b[1..] {
          assert x > b[0];
          assert x in a;
        }
      }
      StrictlyIncreasingUnique(a[1..], b[1..]);
    }
  }

  /** The sorted, duplicate-free sequence of a collection is its unique strictly increasing listing. */
  lemma SortDedupedIsStrict(s: seq<int>)
    requires Distinct(s)
    ensures StrictlyIncreasing(SortAscending(s))
    ensures forall x :: x in SortAscending(s) <==> x in s
  {
    var r := SortAscending(s);
    MultisetKeepsDistinct(s, r);
    forall x ensures x in r <==> x in s {
      assert x in r <==> x in multiset(r);
      assert x in s <==> x in multiset(s);
    }
  }

  /** The positions at or after `from` at which `keep` holds, in ascending order. */
  function PositionsFrom(keep: seq<bool>, from: nat): seq<int>
    requires from <= |keep|
    decreases |keep| - from
  {
    if from == |keep| then []
    else (if keep[from] then [from] else []) + PositionsFrom(keep, from + 1)
  }

  /** The positions at which `keep` holds, in ascending order. */
  function Positions(keep: seq<bool>): seq<int> { PositionsFrom(keep, 0) }

  /**
   * The positions from `from` on are exactly those where `keep` holds, each once, in ascending
   * order.
   */
  lemma {:induction false} PositionsFromSpec(keep: seq<bool>, from: nat)
    requires from <= |keep|
    decreases |keep| - from
    ensures forall j :: 0 <= j < |PositionsFrom(keep, from)| ==>
      from <= PositionsFrom(keep, from)[j] < |keep| && keep[PositionsFrom(keep, from)[j]]
    ensures forall j, k :: 0 <= j < k < |PositionsFrom(keep, from)| ==>
      PositionsFrom(keep, from)[j] < PositionsFrom(keep, from)[k]
    ensures forall i :: from <= i < |keep| && keep[i] ==> i in PositionsFrom(keep, from)
  {
    if from < |keep| {
      PositionsFromSpec(keep, from + 1);
    }
  }

  /** The elements of `xs` from position `from` on at which `keep` holds, in order. */
  function FilterFrom<T>(xs: seq<T>, keep: seq<bool>, from: nat): seq<T>
    requires |keep| == |xs| && from <= |xs|
    decreases |xs| - from
  {
    if from == |xs| then []
    else (if keep[from] then [xs[from]] else []) + FilterFrom(xs, keep, from + 1)
  }

  /** The kept elements from `from` on are the elements at the kept positions from there. */
  lemma {:induction false} FilterFromSpec<T>(xs: seq<T>, keep: seq<bool>, from: nat)
    requires |keep| == |xs| && from <= |xs|
    decreases |xs| - from
    ensures |FilterFrom(xs, keep, from)| == |PositionsFrom(keep, from)|
    ensures forall j :: 0 <= j < |PositionsFrom(keep, from)| ==>
      from <= PositionsFrom(keep, from)[j] < |xs| && FilterFrom(xs, keep, from)[j] == xs[PositionsFrom(keep, from)[j]]
  {
    if from < |xs| {
      FilterFromSpec(xs, keep, from + 1);
      var all, kept := PositionsFrom(keep, from), FilterFrom(xs, keep, from);
      var ps, rest := PositionsFrom(keep, from + 1), FilterFrom(xs, keep, from + 1);
      var h := if keep[from] then 1 else 0;
      assert all == (if keep[from] then [from] else []) + ps;
      assert kept == (if keep[from] then [xs[from]] else []) + rest;
      forall j | h <= j < |all|
        ensures from <= all[j] < |xs| && kept[j] == xs[all[j]]
      {
        assert all[j] == ps[j - h] && kept[j] == rest[j - h];
      }
    }
  }

  /** The positions are exactly those where `keep` holds, each once, in ascending order. */
  lemma PositionsSpec(keep: seq<bool>)
    ensures forall j :: 0 <= j < |Positions(keep)| ==> 0 <= Positions(keep)[j] < |keep| && keep[Positions(keep)[j]]
    ensures forall j, k :: 0 <= j < k < |Positions(keep)| ==> Positions(keep)[j] < Positions(keep)[k]
    ensures forall i :: 0 <= i < |keep| && keep[i] ==> i in Positions(keep)
  {
    PositionsFromSpec(keep, 0);
  }
}
