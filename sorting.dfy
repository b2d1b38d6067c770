/** `Array.prototype.sort` with a "larger key first" comparator. JavaScript's sort is
    stable, so the reference definition is insertion sort: each element goes after
    every earlier element whose key is at least its own. A key is a pair compared
    lexicographically, which covers the two-level comparators of the tabs. */
module Sorting {
  import Seqs

  type Rank = (int, int)

  /** a ranks at least as high as b. */
  predicate RankGe(a: Rank, b: Rank)
  {
    a.0 > b.0 || (a.0 == b.0 && a.1 >= b.1)
  }

  /** Highest key first. */
  predicate SortedDesc<T>(s: seq<T>, key: T -> Rank)
  {
    forall i, j :: 0 <= i < j < |s| ==> RankGe(key(s[i]), key(s[j]))
  }

  /** x inserted into t after the last element ranking at least as high as x. */
  function Insert<T>(t: seq<T>, x: T, key: T -> Rank): (r: seq<T>)
    ensures |r| == |t| + 1
    decreases |t|
  {
    if t == [] || RankGe(key(t[|t| - 1]), key(x)) then t + [x]
    else Insert(t[..|t| - 1], x, key) + [t[|t| - 1]]
  }

  /** The order a stable descending sort produces. */
  function Sort<T>(s: seq<T>, key: T -> Rank): (r: seq<T>)
    ensures |r| == |s|
  {
    if s == [] then [] else Insert(Sort(s[..|s| - 1], key), s[|s| - 1], key)
  }

  lemma {:induction false} InsertPermutes<T>(t: seq<T>, x: T, key: T -> Rank)
    ensures multiset(Insert(t, x, key)) == multiset(t) + multiset{x}
    decreases |t|
  {
    if !(t == [] || RankGe(key(t[|t| - 1]), key(x))) {
      InsertPermutes(t[..|t| - 1], x, key);
      assert t == t[..|t| - 1] + [t[|t| - 1]];
    }
  }

  lemma {:induction false} InsertSorted<T>(t: seq<T>, x: T, key: T -> Rank)
    requires SortedDesc(t, key)
    ensures SortedDesc(Insert(t, x, key), key)
    decreases |t|
  {
    if !(t == [] || RankGe(key(t[|t| - 1]), key(x))) {
      var u := t[..|t| - 1];
      var z := t[|t| - 1];
      InsertSorted(u, x, key);
      InsertPermutes(u, x, key);
      var v := Insert(u, x, key);
      forall k | 0 <= k < |v| ensures RankGe(key(v[k]), key(z)) {
        assert v[k] in multiset(u) + multiset{x};
        if v[k] in multiset(u) {
          var m :| 0 <= m < |u| && u[m] == v[k];
          assert t[m] == v[k];
        }
      }
    }
  }

  /** The sort puts the highest keys first. */
  lemma {:induction false} SortIsSorted<T>(s: seq<T>, key: T -> Rank)
    ensures SortedDesc(Sort(s, key), key)
  {
    if s != [] {
      SortIsSorted(s[..|s| - 1], key);
      InsertSorted(Sort(s[..|s| - 1], key), s[|s| - 1], key);
    }
  }

  /** The sort only reorders: every element keeps its number of occurrences. */
  lemma {:induction false} SortPermutes<T>(s: seq<T>, key: T -> Rank)
    ensures multiset(Sort(s, key)) == multiset(s)
  {
    if s != [] {
      SortPermutes(s[..|s| - 1], key);
      InsertPermutes(Sort(s[..|s| - 1], key), s[|s| - 1], key);
      assert s == s[..|s| - 1] + [s[|s| - 1]];
    }
  }

  /** An input that is already in order comes back unchanged; in particular a list
      whose keys are all equal keeps its order. */
  lemma {:induction false} SortOfSorted<T>(s: seq<T>, key: T -> Rank)
    requires SortedDesc(s, key)
    ensures Sort(s, key) == s
  {
    if s != [] {
      var u := s[..|s| - 1];
      assert SortedDesc(u, key);
      SortOfSorted(u, key);
      if u != [] {
        assert RankGe(key(u[|u| - 1]), key(s[|s| - 1]));
      }
      assert u + [s[|s| - 1]] == s;
    }
  }

  lemma EqualKeysSorted<T>(s: seq<T>, key: T -> Rank)
    requires forall i :: 0 <= i < |s| ==> key(s[i]) == key(s[0])
    ensures Sort(s, key) == s
  {
    SortOfSorted(s, key);
  }

  /** Selecting some elements of a sorted list leaves them sorted. */
  lemma {:induction false} FilterOfSorted<T>(s: seq<T>, p: T -> bool, key: T -> Rank)
    requires SortedDesc(s, key)
    ensures SortedDesc(Seqs.Filter(s, p), key)
  {
    if s != [] {
      FilterOfSorted(s[1..], p, key);
      var rest := Seqs.Filter(s[1..], p);
      if p(s[0]) {
        var r := Seqs.Filter(s, p);
        assert r == [s[0]] + rest;
        forall i, j | 0 <= i < j < |r| ensures RankGe(key(r[i]), key(r[j])) {
          if i == 0 {
            assert r[j] in s[1..];
            var m :| 0 <= m < |s[1..]| && s[1..][m] == r[j];
            assert s[m + 1] == r[j];
          } else {
            assert r[i] == rest[i - 1] && r[j] == rest[j - 1];
          }
        }
      }
    }
  }

  lemma SortedPrefix<T>(s: seq<T>, n: nat, key: T -> Rank)
    requires SortedDesc(s, key)
    ensures SortedDesc(Seqs.Take(s, n), key)
  {
  }

  /** Sorts a in place; the new contents are Sort of the old ones. */
  method SortDescending<T>(a: array<T>, key: T -> Rank)
    modifies a
    ensures a[..] == Sort(old(a[..]), key)
  {
    ghost var s := a[..];
    var i := 0;
    while i < a.Length
      invariant 0 <= i <= a.Length
      invariant a[..i] == Sort(s[..i], key)
      invariant a[i..] == s[i..]
    {
      InsertAt(a, i, key);
      assert s[..i + 1][..i] == s[..i];
      assert a[i + 1..] == s[i + 1..];
      i := i + 1;
    }
    assert s[..a.Length] == s;
  }

  /** One pass of insertion sort: moves a[i] left past the elements ranking below it. */
  method InsertAt<T>(a: array<T>, i: nat, key: T -> Rank)
    requires i < a.Length
    modifies a
    ensures a[..i + 1] == Insert(old(a[..i]), old(a[i]), key)
    ensures a[i + 1..] == old(a[i + 1..])
  {
    ghost var t := a[..i];
    var x := a[i];
    var j := i;
    while j > 0 && !RankGe(key(a[j - 1]), key(x))
      invariant 0 <= j <= i
      invariant a[j] == x
      invariant a[..j] == t[..j]
      invariant Insert(t, x, key) == Insert(a[..j], x, key) + a[j + 1..i + 1]
      invariant a[i + 1..] == old(a[i + 1..])
    {
      ghost var before, y, rest := a[..j], a[j - 1], a[j + 1..i + 1];
      InsertStep(before, x, key);
      a[j - 1], a[j] := a[j], a[j - 1];
      assert a[..j - 1] == before[..j - 1];
      assert a[j..i + 1] == [y] + rest;
      assert Insert(t, x, key) == Insert(a[..j - 1], x, key) + ([y] + rest);
      j := j - 1;
    }
    assert Insert(a[..j], x, key) == a[..j] + [x];
    assert a[..i + 1] == a[..j] + [x] + a[j + 1..i + 1];
  }

  lemma InsertStep<T>(u: seq<T>, x: T, key: T -> Rank)
    requires u != [] && !RankGe(key(u[|u| - 1]), key(x))
    ensures Insert(u, x, key) == Insert(u[..|u| - 1], x, key) + [u[|u| - 1]]
  {
  }

  /** `[...s].sort(...)`: sorts a fresh copy, leaving s itself alone. */
  method SortedCopy<T>(s: seq<T>, key: T -> Rank) returns (r: seq<T>)
    ensures r == Sort(s, key)
  {
    var a := new T[|s|](i requires 0 <= i < |s| => s[i]);
    assert a[..] == s;
    SortDescending(a, key);
    r := a[..];
  }
}
