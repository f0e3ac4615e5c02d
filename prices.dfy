/** The slot ordering of internal/prices/octopus.go: the tariff API lists
    price periods newest first, and the client puts them in ascending start
    order with an in-place bubble sort before handing them to the engine. */
module Prices {
  import opened Types

  ghost predicate SortedByStart(s: seq<PriceSlot>) {
    forall i, j :: 0 <= i < j < |s| ==> s[i].Start <= s[j].Start
  }

  /** The slots of s that start at k, in their order in s. */
  function StartRun(s: seq<PriceSlot>, k: Time): (r: seq<PriceSlot>)
    ensures |r| <= |s|
    ensures forall x :: x in r ==> x in s && x.Start == k
  {
    if s == [] then []
    else (if s[0].Start == k then [s[0]] else []) + StartRun(s[1..], k)
  }

  /** t has the same slots as s at every start time, in the same order:
      reordering s into t only moved slots past slots with other starts. */
  ghost predicate SameRuns(s: seq<PriceSlot>, t: seq<PriceSlot>) {
    forall k :: StartRun(s, k) == StartRun(t, k)
  }

  lemma {:induction false} StartRunAppend(u: seq<PriceSlot>, v: seq<PriceSlot>, k: Time)
    ensures StartRun(u + v, k) == StartRun(u, k) + StartRun(v, k)
  {
    if u != [] {
      var head := if u[0].Start == k then [u[0]] else [];
      assert (u + v)[0] == u[0];
      assert (u + v)[1..] == u[1..] + v;
      StartRunAppend(u[1..], v, k);
      calc {
        StartRun(u + v, k);
        head + StartRun(u[1..] + v, k);
        head + (StartRun(u[1..], k) + StartRun(v, k));
        (head + StartRun(u[1..], k)) + StartRun(v, k);
      }
    } else {
      assert u + v == v;
    }
  }

  lemma SwapRun(pre: seq<PriceSlot>, x: PriceSlot, y: PriceSlot, rest: seq<PriceSlot>, k: Time)
    requires x.Start != y.Start
    ensures StartRun(pre + ([x, y] + rest), k) == StartRun(pre + ([y, x] + rest), k)
  {
    StartRunAppend(pre, [x, y] + rest, k);
    StartRunAppend(pre, [y, x] + rest, k);
    StartRunAppend([x, y], rest, k);
    StartRunAppend([y, x], rest, k);
    PairRun(x, y, k);
  }

  /** Two slots with different starts contribute the same run in either order. */
  lemma PairRun(x: PriceSlot, y: PriceSlot, k: Time)
    requires x.Start != y.Start
    ensures StartRun([x, y], k) == StartRun([y, x], k)
  {
    assert [x, y][1..] == [y] && [y, x][1..] == [x];
    assert [x][1..] == [] && [y][1..] == [];
  }

  /** Exchanging two neighbours with different starts keeps every run. */
  lemma SwapKeepsRuns(s: seq<PriceSlot>, j: int, orig: seq<PriceSlot>)
    requires 0 <= j && j + 1 < |s|
    requires s[j].Start != s[j + 1].Start
    requires SameRuns(s, orig)
    ensures SameRuns(s[j := s[j + 1]][j + 1 := s[j]], orig)
  {
    var t := s[j := s[j + 1]][j + 1 := s[j]];
    var pre, rest := s[..j], s[j + 2..];
    assert s == pre + ([s[j], s[j + 1]] + rest);
    assert t == pre + ([s[j + 1], s[j]] + rest);
    forall k ensures StartRun(t, k) == StartRun(orig, k) {
      SwapRun(pre, s[j], s[j + 1], rest, k);
    }
  }

  /** A slot starting at k that is in s shows up in s's run for k. */
  lemma {:induction false} StartRunNonEmpty(s: seq<PriceSlot>, i: int)
    requires 0 <= i < |s|
    ensures StartRun(s, s[i].Start) != []
  {
    if i > 0 {
      StartRunNonEmpty(s[1..], i - 1);
    }
  }

  /** In a sorted sequence, a start time that has a run is no earlier than
      the first start. */
  lemma FirstStartIsLeast(s: seq<PriceSlot>, k: Time)
    requires SortedByStart(s) && StartRun(s, k) != []
    ensures s[0].Start <= k
  {
    var x := StartRun(s, k)[0];
    assert x in StartRun(s, k);
    var i :| 0 <= i < |s| && s[i] == x;
  }

  /** Runs that agree everywhere still agree once a common first slot is dropped. */
  lemma TailRuns(s: seq<PriceSlot>, t: seq<PriceSlot>)
    requires s != [] && t != [] && s[0] == t[0]
    requires SameRuns(s, t)
    ensures SameRuns(s[1..], t[1..])
  {
    forall k ensures StartRun(s[1..], k) == StartRun(t[1..], k) {
      var head := if s[0].Start == k then [s[0]] else [];
      assert StartRun(s, k) == head + StartRun(s[1..], k);
      assert StartRun(t, k) == head + StartRun(t[1..], k);
      assert StartRun(s[1..], k) == StartRun(s, k)[|head|..];
    }
  }

  /** Two sorted arrangements with the same runs are the same sequence: the
      order of the slots is fixed by their starts and, among equal starts,
      by the runs. */
  lemma {:induction false} SortedRunsUnique(s: seq<PriceSlot>, t: seq<PriceSlot>)
    requires SortedByStart(s) && SortedByStart(t)
    requires SameRuns(s, t)
    ensures s == t
  {
    if s == [] || t == [] {
      if s != [] {
        StartRunNonEmpty(s, 0);
      }
      if t != [] {
        StartRunNonEmpty(t, 0);
      }
    } else {
      var a, b := s[0].Start, t[0].Start;
      StartRunNonEmpty(s, 0);
      StartRunNonEmpty(t, 0);
      FirstStartIsLeast(t, a);
      FirstStartIsLeast(s, b);
      assert s[0] == t[0] by {
        assert StartRun(s, a)[0] == s[0];
        assert StartRun(t, a)[0] == t[0];
      }
      TailRuns(s, t);
      SortedRunsUnique(s[1..], t[1..]);
      assert s == [s[0]] + s[1..] && t == [t[0]] + t[1..];
    }
  }

  /** The slots from lo on are in ascending start order. */
  ghost predicate SortedFrom(s: seq<PriceSlot>, lo: int) {
    forall i, j :: 0 <= lo <= i < j < |s| ==> s[i].Start <= s[j].Start
  }

  /** No slot before lo starts after a slot from lo on. */
  ghost predicate SplitAt(s: seq<PriceSlot>, lo: int) {
    forall p, q :: 0 <= p < lo <= q < |s| ==> s[p].Start <= s[q].Start
  }

  /** Go's sortSlotsByTime: a bubble sort that swaps neighbours only when
      the first starts strictly after the second. It leaves the slots in
      ascending start order, keeps every slot, and keeps slots that start
      together in their original order; input already in order is left as
      it was. */
  method SortSlotsByTime(a: array<PriceSlot>)
    modifies a
    ensures SortedByStart(a[..])
    ensures multiset(a[..]) == multiset(old(a[..]))
    ensures SameRuns(a[..], old(a[..]))
    ensures SortedByStart(old(a[..])) ==> a[..] == old(a[..])
  {
    var n := a.Length;
    var i := 0;
    while i < n - 1
      invariant 0 <= i <= n && (n == 0 || i <= n - 1)
      invariant SortedFrom(a[..], n - i)
      invariant SplitAt(a[..], n - i)
      invariant multiset(a[..]) == multiset(old(a[..]))
      invariant SameRuns(a[..], old(a[..]))
    {
      BubblePass(a, n - i, old(a[..]));
      i := i + 1;
    }
    assert SortedByStart(a[..]) by {
      if n > 0 {
        assert n - i == 1;
      }
    }
    if SortedByStart(old(a[..])) {
      SortedRunsUnique(a[..], old(a[..]));
    }
  }

  /** One pass of the inner loop: carries the latest start of a[..m] up to a[m - 1]. */
  method BubblePass(a: array<PriceSlot>, m: int, ghost orig: seq<PriceSlot>)
    requires 2 <= m <= a.Length
    requires SortedFrom(a[..], m) && SplitAt(a[..], m)
    requires SameRuns(a[..], orig)
    modifies a
    ensures SortedFrom(a[..], m - 1) && SplitAt(a[..], m - 1)
    ensures multiset(a[..]) == multiset(old(a[..]))
    ensures SameRuns(a[..], orig)
  {
    var j := 0;
    while j < m - 1
      invariant 0 <= j <= m - 1
      invariant PassState(a[..], j, m)
      invariant multiset(a[..]) == multiset(old(a[..]))
      invariant SameRuns(a[..], orig)
    {
      ghost var b := a[..];
      if a[j].Start > a[j + 1].Start {
        Swap(a, j, orig);
      }
      PassStep(b, j, m);
      j := j + 1;
    }
    PassDone(a[..], m);
  }

  /** The state of a pass that has reached index j of a[..m]: a[j] starts no
      earlier than anything before it, and the tail a[m..] is sorted and
      starts no earlier than anything before it. */
  ghost predicate PassState(s: seq<PriceSlot>, j: int, m: int) {
    && 0 <= j < m <= |s|
    && (forall p :: 0 <= p <= j ==> s[p].Start <= s[j].Start)
    && SortedFrom(s, m) && SplitAt(s, m)
  }

  /** One step of the pass keeps its state, with or without a swap. */
  lemma PassStep(s: seq<PriceSlot>, j: int, m: int)
    requires PassState(s, j, m) && j + 1 < m
    ensures s[j].Start > s[j + 1].Start ==> PassState(s[j := s[j + 1]][j + 1 := s[j]], j + 1, m)
    ensures s[j].Start <= s[j + 1].Start ==> PassState(s, j + 1, m)
  {
  }

  /** At the end of a pass the sorted tail has grown by one. */
  lemma PassDone(s: seq<PriceSlot>, m: int)
    requires PassState(s, m - 1, m)
    ensures SortedFrom(s, m - 1) && SplitAt(s, m - 1)
  {
  }

  /** Exchanges a[j] and a[j + 1], which start at different times. */
  method Swap(a: array<PriceSlot>, j: int, ghost orig: seq<PriceSlot>)
    requires 0 <= j && j + 1 < a.Length
    requires a[j].Start != a[j + 1].Start
    requires SameRuns(a[..], orig)
    modifies a
    ensures a[..] == old(a[..])[j := old(a[j + 1])][j + 1 := old(a[j])]
    ensures multiset(a[..]) == multiset(old(a[..]))
    ensures SameRuns(a[..], orig)
  {
    SwapKeepsRuns(a[..], j, orig);
    a[j], a[j + 1] := a[j + 1], a[j];
  }
}
