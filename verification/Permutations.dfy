/** Sequences up to reordering. */
module Permutations {

  function Map<A, B>(f: A -> B, xs: seq<A>): (ys: seq<B>)
    ensures |ys| == |xs|
    ensures forall i :: 0 <= i < |xs| ==> ys[i] == f(xs[i])
  {
    seq(|xs|, i requires 0 <= i < |xs| => f(xs[i]))
  }

  predicate Distinct<A(==)>(xs: seq<A>) {
    forall i, j :: 0 <= i < j < |xs| ==> xs[i] != xs[j]
  }

  lemma {:induction false} CountsWhenDistinct<A>(xs: seq<A>)
    ensures Distinct(xs) <==> forall x :: multiset(xs)[x] <= 1
  {
    if xs != [] {
      var rest := xs[1..];
      assert xs == [xs[0]] + rest;
      CountsWhenDistinct(rest);
      DistinctByHead(xs);
      assert forall x :: multiset(xs)[x] == multiset(rest)[x] + if x == xs[0] then 1 else 0;
      assert xs[0] in rest <==> multiset(rest)[xs[0]] >= 1;
    }
  }

  lemma DistinctByHead<A>(xs: seq<A>)
    requires xs != []
    ensures Distinct(xs) <==> xs[0] !in xs[1..] && Distinct(xs[1..])
  {
    if xs[0] !in xs[1..] && Distinct(xs[1..]) {
      forall i, j | 0 <= i < j < |xs| ensures xs[i] != xs[j] {
        assert xs[j] == xs[1..][j - 1];
      }
    }
  }

  /** Reordering keeps the elements distinct. */
  lemma DistinctUpToOrder<A>(xs: seq<A>, ys: seq<A>)
    requires multiset(xs) == multiset(ys)
    ensures Distinct(xs) <==> Distinct(ys)
  {
    CountsWhenDistinct(xs);
    CountsWhenDistinct(ys);
  }

  lemma SameMembers<A>(xs: seq<A>, ys: seq<A>)
    requires multiset(xs) == multiset(ys)
    ensures |xs| == |ys|
    ensures forall x :: x in xs <==> x in ys
  {
    assert |multiset(xs)| == |xs| && |multiset(ys)| == |ys|;
    forall x ensures x in xs <==> x in ys {
      assert x in xs <==> x in multiset(xs);
      assert x in ys <==> x in multiset(ys);
    }
  }

  lemma MapOfConcat<A, B>(f: A -> B, xs: seq<A>, ys: seq<A>)
    ensures Map(f, xs + ys) == Map(f, xs) + Map(f, ys)
  {
  }

  function Without<A>(xs: seq<A>, k: nat): (r: seq<A>)
    requires k < |xs|
    ensures |r| == |xs| - 1
  {
    xs[..k] + xs[k + 1..]
  }

  /** Taking out element `k` takes one occurrence out of the multiset. */
  lemma WithoutElement<A>(xs: seq<A>, k: nat)
    requires k < |xs|
    ensures multiset(xs) == multiset(Without(xs, k)) + multiset{xs[k]}
  {
    assert xs == xs[..k] + [xs[k]] + xs[k + 1..];
  }

  lemma MapWithoutElement<A, B>(f: A -> B, xs: seq<A>, k: nat)
    requires k < |xs|
    ensures multiset(Map(f, xs)) == multiset(Map(f, Without(xs, k))) + multiset{f(xs[k])}
  {
    WithoutElement(Map(f, xs), k);
    MapOfConcat(f, xs[..k], xs[k + 1..]);
    assert Map(f, xs)[..k] == Map(f, xs[..k]);
    assert Map(f, xs)[k + 1..] == Map(f, xs[k + 1..]);
  }

  lemma Cancel<A>(m: multiset<A>, n: multiset<A>, x: A)
    requires m + multiset{x} == n + multiset{x}
    ensures m == n
  {
    assert m == (m + multiset{x}) - multiset{x};
    assert n == (n + multiset{x}) - multiset{x};
  }

  /** Mapping commutes with reordering. */
  lemma {:induction false} MapUpToOrder<A, B>(f: A -> B, xs: seq<A>, ys: seq<A>)
    requires multiset(xs) == multiset(ys)
    ensures multiset(Map(f, xs)) == multiset(Map(f, ys))
    decreases |xs|
  {
    hide Map, Without;
    SameMembers(xs, ys);
    if xs != [] {
      assert xs[0] in ys;
      var k :| 0 <= k < |ys| && ys[k] == xs[0];
      WithoutElement(xs, 0);
      WithoutElement(ys, k);
      Cancel(multiset(Without(xs, 0)), multiset(Without(ys, k)), xs[0]);
      MapUpToOrder(f, Without(xs, 0), Without(ys, k));
      MapWithoutElement(f, xs, 0);
      MapWithoutElement(f, ys, k);
    } else {
      assert ys == [];
    }
  }

  // ---------- distinct numbers below n, n of them ----------

  ghost function Below(n: nat): (s: set<nat>)
    ensures forall i: nat :: i in s <==> i < n
  {
    if n == 0 then {} else Below(n - 1) + {n - 1}
  }

  lemma {:induction false} BelowHasSize(n: nat)
    ensures |Below(n)| == n
  {
    if n > 0 {
      BelowHasSize(n - 1);
      assert n - 1 !in Below(n - 1);
    }
  }

  ghost function Members(xs: seq<nat>): set<nat> {
    set x | x in xs
  }

  lemma {:induction false} MembersHaveSize(xs: seq<nat>)
    requires Distinct(xs)
    ensures |Members(xs)| == |xs|
  {
    if xs == [] {
      assert Members(xs) == {};
    } else {
      MembersHaveSize(xs[1..]);
      assert Members(xs) == Members(xs[1..]) + {xs[0]};
    }
  }

  /** `n` distinct numbers below `n` are all of them. */
  lemma Pigeonhole(xs: seq<nat>, i: nat)
    requires Distinct(xs) && i < |xs|
    requires forall k :: 0 <= k < |xs| ==> xs[k] < |xs|
    ensures i in xs
  {
    MembersHaveSize(xs);
    BelowHasSize(|xs|);
    assert Members(xs) <= Below(|xs|);
    assert Below(|xs|) == Members(xs) + (Below(|xs|) - Members(xs));
    assert i in Below(|xs|);
  }

  /** A strictly increasing sequence of `n` numbers below `n` counts up from 0. */
  lemma IncreasingCountsUp(xs: seq<nat>)
    requires forall i, j :: 0 <= i < j < |xs| ==> xs[i] < xs[j]
    requires forall k :: 0 <= k < |xs| ==> xs[k] < |xs|
    ensures forall i :: 0 <= i < |xs| ==> xs[i] == i
  {
    forall i | 0 <= i < |xs| ensures xs[i] == i {
      AtLeastIndex(xs, i);
      AtMostIndex(xs, i);
    }
  }

  lemma {:induction false} AtLeastIndex(xs: seq<nat>, i: nat)
    requires i < |xs| && forall i, j :: 0 <= i < j < |xs| ==> xs[i] < xs[j]
    ensures xs[i] >= i
  {
    if i > 0 {
      AtLeastIndex(xs, i - 1);
    }
  }

  lemma {:induction false} AtMostIndex(xs: seq<nat>, i: nat)
    requires i < |xs| && forall i, j :: 0 <= i < j < |xs| ==> xs[i] < xs[j]
    requires forall k :: 0 <= k < |xs| ==> xs[k] < |xs|
    ensures xs[i] <= i
    decreases |xs| - i
  {
    if i + 1 < |xs| {
      AtMostIndex(xs, i + 1);
    }
  }
}
