/** Definitions shared by the models: an optional value, and facts about finite sets and sequences. */
module Prelude {

  datatype Option<+T> = None | Some(value: T)

  ghost predicate NoDuplicates<T>(s: seq<T>) {
    forall i, j :: 0 <= i < j < |s| ==> s[i] != s[j]
  }

  lemma FrontOnce<T>(s: seq<T>)
    requires NoDuplicates(s) && s != []
    ensures s[0] !in s[1..] && forall x :: x in s <==> x == s[0] || x in s[1..]
  {
  }

  /** A set that injects into another has at most as many elements. */
  lemma InjectionBound<A, B>(xs: set<A>, ys: set<B>, f: map<A, B>)
    requires xs <= f.Keys
    requires forall x :: x in xs ==> f[x] in ys
    requires forall x, x' :: x in xs && x' in xs && x != x' ==> f[x] != f[x']
    ensures |xs| <= |ys|
  {
    if xs != {} {
      var x :| x in xs;
      InjectionBound(xs - {x}, ys - {f[x]}, f);
    }
  }

  /** The numbers below n. */
  function Below(n: nat): (r: set<nat>)
    ensures |r| == n && forall x: nat :: x in r <==> x < n
  {
    if n == 0 then {} else Below(n - 1) + {n - 1}
  }

  /** The sum of the values of a map. */
  ghost function Total(m: map<nat, nat>): nat
    decreases |m|
  {
    if m == map[] then 0 else var k :| k in m; m[k] + Total(m - {k})
  }

  lemma {:induction false} TotalSplit(m: map<nat, nat>, k: nat)
    requires k in m
    ensures Total(m) == m[k] + Total(m - {k})
    decreases |m|
  {
    var j :| j in m && Total(m) == m[j] + Total(m - {j});
    if j != k {
      TotalSplit(m - {j}, k);
      TotalSplit(m - {k}, j);
      assert m - {j} - {k} == m - {k} - {j};
    }
  }

  lemma TotalUpdate(m: map<nat, nat>, k: nat, v: nat)
    requires k in m
    ensures Total(m[k := v]) == Total(m) - m[k] + v
  {
    TotalSplit(m, k);
    TotalSplit(m[k := v], k);
    assert m[k := v] - {k} == m - {k};
  }

  lemma SubsetBound<A>(xs: set<A>, ys: set<A>)
    requires xs <= ys
    ensures |xs| <= |ys|
  {
    if xs != {} {
      var x :| x in xs;
      SubsetBound(xs - {x}, ys - {x});
    }
  }
}

/** A lock that is acquired and released in one indivisible step: the hardware mutex of the platform,
    and what the spinlock is shown to implement. */
module AtomicLock {
  import opened Prelude

  type Holder = Option<nat>

  predicate Acquire(before: Holder, t: nat, after: Holder) {
    before.None? && after == Some(t)
  }

  predicate Release(before: Holder, t: nat, after: Holder) {
    before == Some(t) && after.None?
  }
}

/** A bounded first-in first-out queue whose operations are indivisible: what the ring buffer protocol
    is shown to implement, and what the dispatcher is built on. */
module BoundedFifo {

  predicate Send<T(==)>(length: nat, before: seq<T>, x: T, after: seq<T>) {
    |before| < length && after == before + [x]
  }

  predicate Receive<T(==)>(before: seq<T>, x: T, after: seq<T>) {
    |before| > 0 && x == before[0] && after == before[1..]
  }
}
