/** The order in which the server dequeues a job's tasks: LINQ's `OrderBy(t => t.Priority)`, a
    stable sort, so tasks of equal priority keep the order they were queued in. The order is a
    sequence of positions in the job's queue. */
module Ordering {
  import opened Values

  /** In a stable sort by priority, the task at position `i` goes before the one at `j`. */
  predicate Before(p: seq<Int32>, i: nat, j: nat)
    requires i < |p| && j < |p|
  {
    p[i] < p[j] || (p[i] == p[j] && i < j)
  }

  predicate Positions(p: seq<Int32>, s: seq<nat>) {
    forall i :: 0 <= i < |s| ==> s[i] < |p|
  }

  predicate SortedBy(p: seq<Int32>, s: seq<nat>)
    requires Positions(p, s)
  {
    forall i, j :: 0 <= i < j < |s| ==> Before(p, s[i], s[j])
  }

  /** `r` lists every position of `p` once, sorted stably by priority. */
  predicate IsStableOrder(p: seq<Int32>, r: seq<nat>) {
    |r| == |p| && Positions(p, r) && SortedBy(p, r) && forall x: nat :: x < |p| ==> x in r
  }

  /** Inserts position `k` before the first entry of strictly higher priority. */
  function Place(p: seq<Int32>, s: seq<nat>, k: nat): (r: seq<nat>)
    requires Positions(p, s) && k < |p|
    ensures Positions(p, r) && |r| == |s| + 1
    ensures forall x :: x in r <==> x in s || x == k
  {
    if s == [] then [k]
    else if p[k] < p[s[0]] then [k] + s
    else [s[0]] + Place(p, s[1..], k)
  }

  lemma {:induction false} PlaceSorted(p: seq<Int32>, s: seq<nat>, k: nat)
    requires Positions(p, s) && k < |p| && SortedBy(p, s)
    requires forall i :: 0 <= i < |s| ==> s[i] < k
    ensures SortedBy(p, Place(p, s, k))
  {
    var r := Place(p, s, k);
    if s == [] {
    } else if p[k] < p[s[0]] {
      assert r == [k] + s;
      forall j | 0 < j < |r| ensures Before(p, r[0], r[j]) {
        assert r[j] == s[j - 1];
        if j > 1 { assert Before(p, s[0], s[j - 1]); }
      }
    } else {
      var t := Place(p, s[1..], k);
      PlaceSorted(p, s[1..], k);
      assert r == [s[0]] + t;
      forall j | 0 < j < |r| ensures Before(p, r[0], r[j]) {
        assert r[j] == t[j - 1];
        assert t[j - 1] in t;
        if t[j - 1] != k {
          var i :| 0 <= i < |s[1..]| && s[1..][i] == t[j - 1];
          assert Before(p, s[0], s[i + 1]);
        }
      }
    }
  }

  /** The stable order of positions `0 .. n-1`. */
  function SortPrefix(p: seq<Int32>, n: nat): (r: seq<nat>)
    requires n <= |p|
    ensures Positions(p, r) && |r| == n
    ensures forall x :: x in r ==> x < n
  {
    if n == 0 then [] else Place(p, SortPrefix(p, n - 1), n - 1)
  }

  lemma {:induction false} SortPrefixSorted(p: seq<Int32>, n: nat)
    requires n <= |p|
    ensures SortedBy(p, SortPrefix(p, n))
    ensures forall x: nat :: x < n ==> x in SortPrefix(p, n)
  {
    if n > 0 {
      var s := SortPrefix(p, n - 1);
      SortPrefixSorted(p, n - 1);
      assert forall i :: 0 <= i < |s| ==> s[i] < n - 1 by {
        forall i | 0 <= i < |s| ensures s[i] < n - 1 { assert s[i] in s; }
      }
      PlaceSorted(p, s, n - 1);
    }
  }

  /** `queue.OrderBy(t => t.Priority)`, as positions. */
  function OrderByPriority(p: seq<Int32>): (r: seq<nat>)
    ensures IsStableOrder(p, r)
  {
    SortPrefixSorted(p, |p|);
    SortPrefix(p, |p|)
  }

  /** A stable order is determined by the priorities alone: any sequence that lists every position
      once, sorted stably, is the one `OrderByPriority` produces. */
  lemma StableOrderIsUnique(p: seq<Int32>, r: seq<nat>)
    requires IsStableOrder(p, r)
    ensures r == OrderByPriority(p)
  {
    var o := OrderByPriority(p);
    SameEntriesSame(p, r, o);
  }

  lemma {:induction false} SameEntriesSame(p: seq<Int32>, a: seq<nat>, b: seq<nat>)
    requires Positions(p, a) && Positions(p, b) && SortedBy(p, a) && SortedBy(p, b)
    requires forall x :: x in a <==> x in b
    ensures a == b
    decreases |a| + |b|
  {
    if a != [] { assert a[0] in b; }
    if b != [] { assert b[0] in a; }
    if a != [] && b != [] {
      var j :| 0 <= j < |b| && b[j] == a[0];
      var i :| 0 <= i < |a| && a[i] == b[0];
      assert a[0] == b[0];
      forall x ensures x in a[1..] <==> x in b[1..] {
        if x in a[1..] {
          var i :| 0 <= i < |a[1..]| && a[1..][i] == x;
          assert Before(p, a[0], a[i + 1]);
          assert x in b;
        }
        if x in b[1..] {
          var i :| 0 <= i < |b[1..]| && b[1..][i] == x;
          assert Before(p, b[0], b[i + 1]);
          assert x in a;
        }
      }
      SameEntriesSame(p, a[1..], b[1..]);
      assert a == [a[0]] + a[1..] && b == [b[0]] + b[1..];
    }
  }

  /** Dequeued priorities never decrease, and equal priorities come out in queue order. */
  lemma StableOrderAscending(p: seq<Int32>, i: nat, j: nat)
    requires i < j < |p|
    ensures var o := OrderByPriority(p); p[o[i]] <= p[o[j]] && (p[o[i]] == p[o[j]] ==> o[i] < o[j])
  {
  }

  /** Each position is dequeued once. */
  lemma StableOrderDistinct(p: seq<Int32>, i: nat, j: nat)
    requires i < j < |p|
    ensures OrderByPriority(p)[i] != OrderByPriority(p)[j]
  {
  }

  /** Tasks queued with priorities 300, 100, 400, 200 run as the second, fourth, first, third. */
  lemma PriorityExample()
    ensures OrderByPriority([300, 100, 400, 200]) == [1, 3, 0, 2]
  {
    var p: seq<Int32> := [300, 100, 400, 200];
    var r: seq<nat> := [1, 3, 0, 2];
    assert forall x: nat :: x < 4 ==> x in r by {
      assert r[0] == 1 && r[1] == 3 && r[2] == 0 && r[3] == 2;
    }
    StableOrderIsUnique(p, r);
  }
}
