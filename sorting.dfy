/** Ascending sort by a real-valued key. The engine sorts with Go's library
    (`sort.Slice` on scores, `sort.Float64s` on prices); its result is modelled
    by this insertion sort. It is stable, so among equal keys the earlier
    element comes first; the engine's contracts fix that tie order, where
    Go's `sort.Slice` may order equally cheap windows differently. */
module Sorting {

  ghost predicate SortedBy<T>(s: seq<T>, key: T -> real) {
    forall i, j :: 0 <= i < j < |s| ==> key(s[i]) <= key(s[j])
  }

  /** Inserts x before the first element whose key exceeds x's. */
  function Insert<T>(x: T, s: seq<T>, key: T -> real): (r: seq<T>)
    ensures |r| == |s| + 1
  {
    if s == [] then [x]
    else if key(x) <= key(s[0]) then [x] + s
    else [s[0]] + Insert(x, s[1..], key)
  }

  /** Inserting into a sorted sequence keeps it sorted, and the result
      starts with x or with the old first element. */
  lemma {:induction false} InsertSorted<T>(x: T, s: seq<T>, key: T -> real)
    requires SortedBy(s, key)
    ensures SortedBy(Insert(x, s, key), key)
    ensures Insert(x, s, key)[0] == x || (s != [] && Insert(x, s, key)[0] == s[0])
  {
    if s != [] {
      if key(x) <= key(s[0]) {
        ConsSorted(x, s, key);
      } else {
        var rest := Insert(x, s[1..], key);
        InsertSorted(x, s[1..], key);
        assert s[1..] != [] ==> key(s[0]) <= key(s[1..][0]);
        ConsSorted(s[0], rest, key);
      }
    }
  }

  /** Inserting adds x and keeps everything else. */
  lemma {:induction false} InsertPermutes<T>(x: T, s: seq<T>, key: T -> real)
    ensures multiset(Insert(x, s, key)) == multiset(s) + multiset{x}
  {
    if s != [] && key(x) > key(s[0]) {
      InsertPermutes(x, s[1..], key);
      assert s == [s[0]] + s[1..];
    }
  }

  lemma ConsSorted<T>(h: T, s: seq<T>, key: T -> real)
    requires SortedBy(s, key)
    requires s != [] ==> key(h) <= key(s[0])
    ensures SortedBy([h] + s, key)
  {
    var r := [h] + s;
    forall i, j | 0 <= i < j < |r| ensures key(r[i]) <= key(r[j]) {
      if i == 0 && j > 1 {
        assert key(s[0]) <= key(s[j - 1]);
      }
    }
  }

  /** The elements of s in ascending key order. */
  function SortBy<T>(s: seq<T>, key: T -> real): (r: seq<T>)
    ensures SortedBy(r, key)
    ensures multiset(r) == multiset(s)
    ensures |r| == |s|
  {
    if s == [] then []
    else
      var front := SortBy(s[..|s| - 1], key);
      assert s == s[..|s| - 1] + [s[|s| - 1]];
      InsertSorted(s[|s| - 1], front, key);
      InsertPermutes(s[|s| - 1], front, key);
      Insert(s[|s| - 1], front, key)
  }

  /** In a sorted sequence, every element of a prefix has a key no larger
      than every element left out of it. */
  lemma {:induction false} PrefixDominates<T>(s: seq<T>, key: T -> real, n: nat, x: T, y: T)
    requires SortedBy(s, key)
    requires n <= |s|
    requires x in s[..n]
    requires y in multiset(s) - multiset(s[..n])
    ensures key(x) <= key(y)
  {
    assert s == s[..n] + s[n..];
    assert multiset(s) == multiset(s[..n]) + multiset(s[n..]);
    assert y in multiset(s[n..]);
    var i :| 0 <= i < n && s[..n][i] == x;
    var j :| 0 <= j < |s[n..]| && s[n..][j] == y;
    assert s[i] == x && s[n + j] == y;
  }

  /** A prefix of a sorted sequence is sorted. */
  lemma SortedPrefix<T>(s: seq<T>, key: T -> real, n: nat)
    requires SortedBy(s, key) && n <= |s|
    ensures SortedBy(s[..n], key)
  {
  }

  /** A prefix holds no element more often than the whole sequence. */
  lemma PrefixSubMultiset<T>(s: seq<T>, n: nat)
    requires n <= |s|
    ensures multiset(s[..n]) <= multiset(s)
  {
    assert s == s[..n] + s[n..];
  }
}
