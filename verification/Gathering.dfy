/** Multisets collected from the queues, heaps and waiter lists of the scheduler.
    They let an invariant say "every process is in exactly one place". */
module Gathering {

  /** Everything that `f` finds in the elements of `xs`. */
  function Gather<X>(xs: seq<X>, f: X -> multiset<nat>): multiset<nat> {
    if xs == [] then multiset{} else f(xs[0]) + Gather(xs[1..], f)
  }

  /** Everything that `f` finds in the lists stored in `m` under keys below `n`. */
  function GatherMap<X>(m: map<nat, seq<X>>, n: nat, f: X -> multiset<nat>): multiset<nat> {
    if n == 0 then multiset{} else GatherMap(m, n - 1, f) + GatherAt(m, n - 1, f)
  }

  function GatherAt<X>(m: map<nat, seq<X>>, e: nat, f: X -> multiset<nat>): multiset<nat> {
    if e in m then Gather(m[e], f) else multiset{}
  }

  lemma {:induction false} GatherConcat<X>(a: seq<X>, b: seq<X>, f: X -> multiset<nat>)
    ensures Gather(a + b, f) == Gather(a, f) + Gather(b, f)
  {
    if a == [] {
      assert a + b == b;
    } else {
      GatherConcat(a[1..], b, f);
      assert (a + b)[1..] == a[1..] + b;
    }
  }

  lemma GatherPush<X>(a: seq<X>, x: X, f: X -> multiset<nat>)
    ensures Gather(a + [x], f) == Gather(a, f) + f(x)
  {
    GatherConcat(a, [x], f);
    assert [x][1..] == [];
  }

  function RemoveAt<X>(xs: seq<X>, i: nat): (r: seq<X>)
    requires i < |xs|
    ensures |r| == |xs| - 1
    ensures forall k :: 0 <= k < i ==> r[k] == xs[k]
    ensures forall k :: i <= k < |r| ==> r[k] == xs[k + 1]
  {
    xs[..i] + xs[i + 1..]
  }

  lemma {:induction false} GatherRemove<X>(xs: seq<X>, i: nat, f: X -> multiset<nat>)
    requires i < |xs|
    ensures Gather(xs, f) == Gather(RemoveAt(xs, i), f) + f(xs[i])
  {
    if i == 0 {
      assert RemoveAt(xs, 0) == xs[1..];
    } else {
      GatherRemove(xs[1..], i - 1, f);
      assert RemoveAt(xs, i)[1..] == RemoveAt(xs[1..], i - 1);
    }
  }

  /** What one element contributes is part of the whole. */
  lemma GatherMember<X>(xs: seq<X>, i: nat, f: X -> multiset<nat>)
    requires i < |xs|
    ensures f(xs[i]) <= Gather(xs, f)
  {
    GatherRemove(xs, i, f);
  }

  /** Whatever was collected comes from some element. */
  lemma {:induction false} GatherSource<X>(xs: seq<X>, f: X -> multiset<nat>, p: nat) returns (i: nat)
    requires p in Gather(xs, f)
    ensures i < |xs| && p in f(xs[i])
  {
    if p in f(xs[0]) {
      i := 0;
    } else {
      i := GatherSource(xs[1..], f, p);
      i := i + 1;
    }
  }

  lemma {:induction false} GatherMapSame<X>(m: map<nat, seq<X>>, m': map<nat, seq<X>>, n: nat, f: X -> multiset<nat>)
    requires forall k: nat :: k < n ==> GatherAt(m, k, f) == GatherAt(m', k, f)
    ensures GatherMap(m, n, f) == GatherMap(m', n, f)
  {
    if n > 0 {
      GatherMapSame(m, m', n - 1, f);
    }
  }

  lemma SwapSummand(a: multiset<nat>, b: multiset<nat>, c: multiset<nat>, d: multiset<nat>, x: multiset<nat>)
    requires a + b == c + d
    ensures (a + x) + b == (c + x) + d
  {
    forall p: nat
      ensures ((a + x) + b)[p] == ((c + x) + d)[p]
    {
      assert (a + b)[p] == (c + d)[p];
    }
  }

  /** Only the list under `e` differs: the totals differ by that list. */
  lemma {:induction false} GatherMapUpdate<X>(m: map<nat, seq<X>>, m': map<nat, seq<X>>, n: nat, e: nat, f: X -> multiset<nat>)
    requires e < n
    requires forall k: nat :: k != e ==> GatherAt(m, k, f) == GatherAt(m', k, f)
    ensures GatherMap(m', n, f) + GatherAt(m, e, f) == GatherMap(m, n, f) + GatherAt(m', e, f)
  {
    if n - 1 == e {
      GatherMapSame(m, m', n - 1, f);
    } else {
      GatherMapUpdate(m, m', n - 1, e, f);
      assert GatherAt(m, n - 1, f) == GatherAt(m', n - 1, f);
      SwapSummand(GatherMap(m', n - 1, f), GatherAt(m, e, f), GatherMap(m, n - 1, f), GatherAt(m', e, f), GatherAt(m, n - 1, f));
    }
  }

  lemma {:induction false} GatherMapMember<X>(m: map<nat, seq<X>>, n: nat, e: nat, f: X -> multiset<nat>)
    requires e < n
    ensures GatherAt(m, e, f) <= GatherMap(m, n, f)
  {
    if n - 1 != e {
      GatherMapMember(m, n - 1, e, f);
    }
  }

  lemma {:induction false} GatherMapSource<X>(m: map<nat, seq<X>>, n: nat, f: X -> multiset<nat>, p: nat) returns (e: nat, i: nat)
    requires p in GatherMap(m, n, f)
    ensures e < n && e in m && i < |m[e]| && p in f(m[e][i])
  {
    if p in GatherAt(m, n - 1, f) {
      e := n - 1;
      i := GatherSource(m[e], f, p);
    } else {
      e, i := GatherMapSource(m, n - 1, f, p);
    }
  }

  function Elements(xs: seq<nat>): (r: set<nat>)
    ensures forall x :: x in r <==> x in xs
  {
    set x | x in xs
  }

  /** Newcomers that a duplicate-free whole has room for are distinct and new. */
  lemma JoinSet(s: set<nat>, xs: seq<nat>, whole: set<nat>)
    requires multiset(s) + multiset(xs) <= multiset(whole)
    ensures multiset(s + Elements(xs)) == multiset(s) + multiset(xs)
    ensures |s + Elements(xs)| == |s| + |xs|
  {
    var u := s + Elements(xs);
    var ms: multiset<nat>, mx: multiset<nat>, mu: multiset<nat> := multiset(s), multiset(xs), multiset(u);
    forall p: nat
      ensures mu[p] == (ms + mx)[p]
    {
      var mw: multiset<nat> := multiset(whole);
      assert (ms + mx)[p] <= mw[p] <= 1;
      assert p in xs <==> p in mx;
    }
    assert mu == ms + mx;
    assert |mu| == |u| && |ms| == |s| && |mx| == |xs|;
    assert |ms + mx| == |ms| + |mx|;
  }
}
