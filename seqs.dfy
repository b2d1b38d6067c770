/** Option, and the generic sequence operations the stores and queries are built from:
    JavaScript's `filter`, `slice(0, n)` and `some`, with the facts about them the
    rest of the model relies on. */
module Wrappers {
  datatype Option<+T> = None | Some(value: T) {
    function GetOr(default: T): T {
      match this
      case Some(v) => v
      case None => default
    }
  }
}

module Seqs {
  import Wrappers

  /** `xs.filter(p)`: the elements satisfying p, in their original order. */
  function Filter<T>(xs: seq<T>, p: T -> bool): (r: seq<T>)
    ensures |r| <= |xs|
    ensures forall i :: 0 <= i < |r| ==> r[i] in xs && p(r[i])
    ensures forall i :: 0 <= i < |xs| && p(xs[i]) ==> xs[i] in r
  {
    if xs == [] then [] else (if p(xs[0]) then [xs[0]] else []) + Filter(xs[1..], p)
  }

  /** r can be obtained from xs by deleting elements (order is kept). */
  predicate IsSubsequence<T(==)>(r: seq<T>, xs: seq<T>)
    decreases |xs|
  {
    r == [] ||
    (xs != [] && ((r[0] == xs[0] && IsSubsequence(r[1..], xs[1..])) || IsSubsequence(r, xs[1..])))
  }

  lemma {:induction false} FilterIsSubsequence<T>(xs: seq<T>, p: T -> bool)
    ensures IsSubsequence(Filter(xs, p), xs)
  {
    if xs != [] {
      FilterIsSubsequence(xs[1..], p);
      if p(xs[0]) {
        assert Filter(xs, p) == [xs[0]] + Filter(xs[1..], p);
        var r := Filter(xs, p);
        assert r[0] == xs[0] && r[1..] == Filter(xs[1..], p);
        assert r[0] == xs[0] && IsSubsequence(r[1..], xs[1..]);
      } else {
        assert Filter(xs, p) == Filter(xs[1..], p);
      }
    }
  }

  lemma {:induction false} FilterAppend<T>(xs: seq<T>, ys: seq<T>, p: T -> bool)
    ensures Filter(xs + ys, p) == Filter(xs, p) + Filter(ys, p)
  {
    if xs == [] {
      assert xs + ys == ys;
    } else {
      assert (xs + ys)[1..] == xs[1..] + ys;
      FilterAppend(xs[1..], ys, p);
    }
  }

  /** Filtering xs with one more element at the end keeps that element exactly when
      it passes. */
  lemma FilterSnoc<T>(xs: seq<T>, x: T, p: T -> bool)
    ensures Filter(xs + [x], p) == Filter(xs, p) + (if p(x) then [x] else [])
  {
    FilterAppend(xs, [x], p);
    assert Filter([x], p) == (if p(x) then [x] else []) + Filter([x][1..], p);
    assert [x][1..] == [];
  }

  /** Filtering by a predicate that holds everywhere changes nothing. */
  lemma {:induction false} FilterAll<T>(xs: seq<T>, p: T -> bool)
    requires forall i :: 0 <= i < |xs| ==> p(xs[i])
    ensures Filter(xs, p) == xs
  {
    if xs != [] {
      FilterAll(xs[1..], p);
    }
  }

  /** Filtering by p and by its negation splits the input: the two sizes add up. */
  lemma {:induction false} FilterPartitionSize<T>(xs: seq<T>, p: T -> bool, q: T -> bool)
    requires forall i :: 0 <= i < |xs| ==> (q(xs[i]) <==> !p(xs[i]))
    ensures |Filter(xs, p)| + |Filter(xs, q)| == |xs|
  {
    if xs != [] {
      FilterPartitionSize(xs[1..], p, q);
    }
  }

  /** Filtering twice by the same predicate is filtering once. */
  lemma {:induction false} FilterIdempotent<T>(xs: seq<T>, p: T -> bool)
    ensures Filter(Filter(xs, p), p) == Filter(xs, p)
  {
    FilterAll(Filter(xs, p), p);
  }

  /** `xs.slice(0, n)`. */
  function Take<T>(xs: seq<T>, n: nat): (r: seq<T>)
    ensures |r| == if n < |xs| then n else |xs|
    ensures forall i :: 0 <= i < |r| ==> r[i] == xs[i]
  {
    if n < |xs| then xs[..n] else xs
  }

  /** `xs.some(p)`, written as the short-circuiting scan JavaScript performs. */
  predicate Some<T>(xs: seq<T>, p: T -> bool)
  {
    xs != [] && (p(xs[0]) || Some(xs[1..], p))
  }

  lemma {:induction false} SomeMeansExists<T>(xs: seq<T>, p: T -> bool)
    ensures Some(xs, p) <==> exists i :: 0 <= i < |xs| && p(xs[i])
  {
    if xs != [] {
      SomeMeansExists(xs[1..], p);
      if exists i :: 0 <= i < |xs| && p(xs[i]) {
        var i :| 0 <= i < |xs| && p(xs[i]);
        if i > 0 {
          assert xs[1..][i - 1] == xs[i];
        }
      }
      if Some(xs[1..], p) {
        var i :| 0 <= i < |xs[1..]| && p(xs[1..][i]);
        assert p(xs[i + 1]);
      }
    }
  }

  /** The elements of xs are pairwise distinct. */
  predicate Distinct<T(==)>(xs: seq<T>)
  {
    forall i, j :: 0 <= i < j < |xs| ==> xs[i] != xs[j]
  }

  /** Two sequences without repeats and without common elements join into one
      without repeats. */
  lemma DistinctConcat<T>(a: seq<T>, b: seq<T>)
    requires Distinct(a) && Distinct(b)
    requires forall x :: x in a ==> x !in b
    ensures Distinct(a + b)
  {
    var s := a + b;
    forall i, j | 0 <= i < j < |s| ensures s[i] != s[j] {
      if j < |a| {
        assert s[i] == a[i] && s[j] == a[j];
      } else if i >= |a| {
        assert s[i] == b[i - |a|] && s[j] == b[j - |a|];
      } else {
        assert s[i] == a[i] && s[j] == b[j - |a|];
        assert a[i] in a && b[j - |a|] in b;
      }
    }
  }

  /** A sequence has at least as many positions as it has distinct elements. */
  lemma {:induction false} SetSizeAtMostLength<T>(xs: seq<T>)
    ensures |set x | x in xs| <= |xs|
  {
    if xs != [] {
      SetSizeAtMostLength(xs[1..]);
      assert (set x | x in xs) == {xs[0]} + (set x | x in xs[1..]);
    }
  }
  /** Filtering by two predicates that agree on xs gives the same result. */
  lemma {:induction false} FilterCongruent<T>(xs: seq<T>, p: T -> bool, q: T -> bool)
    requires forall i :: 0 <= i < |xs| ==> p(xs[i]) == q(xs[i])
    ensures Filter(xs, p) == Filter(xs, q)
  {
    if xs != [] {
      FilterCongruent(xs[1..], p, q);
    }
  }

  /** A stricter filter keeps a subsequence of what a looser one keeps. */
  lemma {:induction false} FilterMonotone<T>(xs: seq<T>, p: T -> bool, q: T -> bool)
    requires forall i :: 0 <= i < |xs| ==> p(xs[i]) ==> q(xs[i])
    ensures IsSubsequence(Filter(xs, p), Filter(xs, q))
  {
    if xs != [] {
      FilterMonotone(xs[1..], p, q);
      var a, b := Filter(xs[1..], p), Filter(xs[1..], q);
      if p(xs[0]) {
        var r, t := Filter(xs, p), Filter(xs, q);
        assert r == [xs[0]] + a && t == [xs[0]] + b;
        assert r[1..] == a && t[1..] == b;
      } else if q(xs[0]) {
        assert Filter(xs, p) == a;
        var t := Filter(xs, q);
        assert t == [xs[0]] + b && t[1..] == b;
        SubsequenceOfTail(a, t);
      } else {
        assert Filter(xs, p) == a && Filter(xs, q) == b;
      }
    }
  }

  /** r is a subsequence of xs whenever it is one of xs's tail. */
  lemma {:induction false} SubsequenceOfTail<T>(r: seq<T>, xs: seq<T>)
    requires xs != [] && IsSubsequence(r, xs[1..])
    ensures IsSubsequence(r, xs)
  {
  }

  /** `xs.find(p)`: the first element satisfying p, if there is one. */
  function Find<T>(xs: seq<T>, p: T -> bool): (r: Wrappers.Option<T>)
    ensures r.None? <==> forall i :: 0 <= i < |xs| ==> !p(xs[i])
    ensures r.Some? ==> exists i :: 0 <= i < |xs| && xs[i] == r.value && p(xs[i]) &&
                                    forall j :: 0 <= j < i ==> !p(xs[j])
  {
    if xs == [] then Wrappers.None
    else if p(xs[0]) then Wrappers.Some(xs[0])
    else
      var r := Find(xs[1..], p);
      assert forall i :: 1 <= i < |xs| ==> xs[i] == xs[1..][i - 1];
      r
  }
  /** r is exactly the elements of xs that satisfy p, in their order in xs. */
  predicate Selects<T(==)>(r: seq<T>, xs: seq<T>, p: T -> bool)
  {
    IsSubsequence(r, xs) &&
    (forall i :: 0 <= i < |r| ==> p(r[i])) &&
    (forall i :: 0 <= i < |xs| && p(xs[i]) ==> xs[i] in r)
  }

  lemma FilterSelects<T>(xs: seq<T>, p: T -> bool)
    ensures Selects(Filter(xs, p), xs, p)
  {
    FilterIsSubsequence(xs, p);
  }
  /** Filtering by a predicate that holds nowhere leaves nothing. */
  lemma {:induction false} FilterNone<T>(xs: seq<T>, p: T -> bool)
    requires forall i :: 0 <= i < |xs| ==> !p(xs[i])
    ensures Filter(xs, p) == []
  {
    if xs != [] {
      FilterNone(xs[1..], p);
    }
  }
  /** When p holds exactly on the positions lo..hi-1, filtering keeps that slice. */
  lemma FilterBand<T>(xs: seq<T>, p: T -> bool, lo: nat, hi: nat)
    requires lo <= hi <= |xs|
    requires forall i :: 0 <= i < |xs| ==> (p(xs[i]) <==> lo <= i < hi)
    ensures Filter(xs, p) == xs[lo..hi]
  {
    BandPieces(xs, p, lo, hi);
    FilterNone(xs[..lo], p);
    FilterAll(xs[lo..hi], p);
    FilterNone(xs[hi..], p);
    FilterOfThree(xs[..lo], xs[lo..hi], xs[hi..], p);
  }

  /** The pieces of xs before, inside and after the band lo..hi. */
  lemma BandPieces<T>(xs: seq<T>, p: T -> bool, lo: nat, hi: nat)
    requires lo <= hi <= |xs|
    requires forall i :: 0 <= i < |xs| ==> (p(xs[i]) <==> lo <= i < hi)
    ensures xs == xs[..lo] + xs[lo..hi] + xs[hi..]
    ensures forall i :: 0 <= i < lo ==> !p(xs[..lo][i])
    ensures forall i :: 0 <= i < hi - lo ==> p(xs[lo..hi][i])
    ensures forall i :: 0 <= i < |xs| - hi ==> !p(xs[hi..][i])
  {
    assert xs[..hi] == xs[..lo] + xs[lo..hi];
    assert xs == xs[..hi] + xs[hi..];
    forall i | 0 <= i < hi - lo ensures p(xs[lo..hi][i]) {
      assert xs[lo..hi][i] == xs[lo + i];
    }
    forall i | 0 <= i < |xs| - hi ensures !p(xs[hi..][i]) {
      assert xs[hi..][i] == xs[hi + i];
    }
  }

  /** Filtering a + b + c where only b passes gives b. */
  lemma FilterOfThree<T>(a: seq<T>, b: seq<T>, c: seq<T>, p: T -> bool)
    requires Filter(a, p) == [] && Filter(b, p) == b && Filter(c, p) == []
    ensures Filter(a + b + c, p) == b
  {
    FilterAppend(a, b, p);
    FilterAppend(a + b, c, p);
  }
  /** Searching by two predicates that agree on xs finds the same element. */
  lemma {:induction false} FindCongruent<T>(xs: seq<T>, p: T -> bool, q: T -> bool)
    requires forall i :: 0 <= i < |xs| ==> p(xs[i]) == q(xs[i])
    ensures Find(xs, p) == Find(xs, q)
  {
    if xs != [] {
      FindCongruent(xs[1..], p, q);
    }
  }

  /** Filtering keeps every occurrence of an element satisfying p and no other. */
  lemma {:induction false} FilterCount<T>(xs: seq<T>, p: T -> bool, x: T)
    ensures multiset(Filter(xs, p))[x] == if p(x) then multiset(xs)[x] else 0
  {
    if xs != [] {
      var head := if p(xs[0]) then [xs[0]] else [];
      FilterCount(xs[1..], p, x);
      assert multiset(xs) == multiset([xs[0]]) + multiset(xs[1..]) by {
        assert xs == [xs[0]] + xs[1..];
      }
      assert multiset(Filter(xs, p)) == multiset(head) + multiset(Filter(xs[1..], p));
    }
  }

  /** Filtering two permutations of each other gives permutations of each other. */
  lemma FilterPermutation<T>(xs: seq<T>, ys: seq<T>, p: T -> bool)
    requires multiset(xs) == multiset(ys)
    ensures multiset(Filter(xs, p)) == multiset(Filter(ys, p))
  {
    forall x ensures multiset(Filter(xs, p))[x] == multiset(Filter(ys, p))[x] {
      FilterCount(xs, p, x);
      FilterCount(ys, p, x);
    }
  }

  /** Filtering by p and by its negation splits the elements between the two. */
  lemma FilterPartition<T>(xs: seq<T>, p: T -> bool, q: T -> bool)
    requires forall x :: q(x) <==> !p(x)
    ensures multiset(Filter(xs, p)) + multiset(Filter(xs, q)) == multiset(xs)
  {
    forall x ensures (multiset(Filter(xs, p)) + multiset(Filter(xs, q)))[x] == multiset(xs)[x] {
      FilterCount(xs, p, x);
      FilterCount(xs, q, x);
    }
  }

  /** Every element satisfying p comes before every element that does not. */
  predicate Leads<T>(xs: seq<T>, p: T -> bool)
  {
    forall i, j :: 0 <= i < j < |xs| && !p(xs[i]) ==> !p(xs[j])
  }

  /** In a list led by the elements satisfying p, filtering by p keeps a prefix. */
  lemma {:induction false} FilterOfLeads<T>(xs: seq<T>, p: T -> bool)
    requires Leads(xs, p)
    ensures |Filter(xs, p)| <= |xs| && Filter(xs, p) == xs[..|Filter(xs, p)|]
  {
    if xs != [] {
      if p(xs[0]) {
        assert Leads(xs[1..], p) by {
          forall i, j | 0 <= i < j < |xs[1..]| && !p(xs[1..][i]) ensures !p(xs[1..][j]) {
            assert xs[1..][i] == xs[i + 1] && xs[1..][j] == xs[j + 1];
          }
        }
        FilterOfLeads(xs[1..], p);
      } else {
        FilterNone(xs, p);
      }
    }
  }

  /** In a list led by the elements satisfying p, none after that prefix satisfies p. */
  lemma LeadsRest<T>(xs: seq<T>, p: T -> bool)
    requires Leads(xs, p)
    ensures forall i :: |Filter(xs, p)| <= i < |xs| ==> !p(xs[i])
  {
    FilterOfLeads(xs, p);
  }
}
