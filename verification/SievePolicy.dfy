/** SIEVE caching: insertion order, a visited bit per key and an eviction hand. */
module SievePolicy {
  import opened Blocks
  import opened Sequences
  import opened Numbers

  /** A key with its visited bit. */
  type Mark = (int, bool)

  datatype Sieve = Sieve(capacity: nat, store: seq<Mark>, cursor: Option<int>)

  ghost predicate Sound(p: Sieve) {
    p.capacity > 0 && |p.store| <= p.capacity && NoDup(Ids(p.store))
  }

  ghost function VisitedCount(store: seq<Mark>): nat {
    if store == [] then 0 else (if store[0].1 then 1 else 0) + VisitedCount(store[1..])
  }

  lemma {:induction false} ClearReduces(store: seq<Mark>, i: nat)
    requires i < |store| && store[i].1
    ensures VisitedCount(store[i := (store[i].0, false)]) == VisitedCount(store) - 1
  {
    if i == 0 {
      assert store[0 := (store[0].0, false)][1..] == store[1..];
    } else {
      ClearReduces(store[1..], i - 1);
      assert store[i := (store[i].0, false)][1..] == store[1..][i - 1 := (store[i].0, false)];
    }
  }

  datatype Swept = Swept(store: seq<Mark>, at: nat)

  /** The hand moves on from `i`, clearing visited bits, to the first key not visited. */
  function Sweep(store: seq<Mark>, i: nat): (s: Swept)
    requires store != []
    ensures |s.store| == |store| && Ids(s.store) == Ids(store)
    decreases VisitedCount(store)
  {
    var at := i % |store|;
    if store[at].1 then
      ClearReduces(store, at);
      assert Ids(store[at := (store[at].0, false)]) == Ids(store);
      Sweep(store[at := (store[at].0, false)], i + 1)
    else
      Swept(store, i)
  }

  function IndexOf(ids: seq<int>, k: int): (i: nat)
    requires k in ids
    ensures i < |ids| && ids[i] == k
  {
    if ids[0] == k then 0 else 1 + IndexOf(ids[1..], k)
  }

  function HandAt(p: Sieve): nat {
    if p.cursor.Some? && p.cursor.value in Ids(p.store) then IndexOf(Ids(p.store), p.cursor.value) else 0
  }

  datatype Admission = Admission(policy: Sieve, evicted: seq<int>)

  function Evict(p: Sieve): Admission {
    if p.store == [] then Admission(p, [])
    else
      var n, s := |p.store|, Sweep(p.store, HandAt(p));
      var at := s.at % n;
      Admission(
        p.(store := s.store[..at] + s.store[at + 1..],
           cursor := if n > 1 then Some(Ids(p.store)[(s.at + 1) % n]) else None),
        [Ids(p.store)[at]])
  }

  function Admit(p: Sieve, k: int): Admission {
    if k in Ids(p.store) then Admission(p, [])
    else
      var e := if |p.store| >= p.capacity then Evict(p) else Admission(p, []);
      Admission(e.policy.(store := e.policy.store + [(k, false)]), e.evicted)
  }

  function Touch(p: Sieve, k: int): Sieve {
    if k in Ids(p.store) then p.(store := p.store[IndexOf(Ids(p.store), k) := (k, true)]) else p
  }

  /** The hand keeps pointing where it pointed, even at a key that is gone. */
  function Remove(p: Sieve, k: int): Sieve {
    p.(store := Drop(p.store, k))
  }

  lemma RemoveFacts(p: Sieve, k: int)
    requires Sound(p)
    ensures Sound(Remove(p, k)) && Remove(p, k).capacity == p.capacity
    ensures Keys(Ids(Remove(p, k).store)) == Keys(Ids(p.store)) - {k}
  {
    DropIds(p.store, k);
    WithoutNoDup(Ids(p.store), k);
    WithoutKeys(Ids(p.store), k);
  }

  lemma TouchFacts(p: Sieve, k: int)
    requires Sound(p)
    ensures Sound(Touch(p, k)) && Ids(Touch(p, k).store) == Ids(p.store) && Touch(p, k).capacity == p.capacity
  {
    assert Ids(Touch(p, k).store) == Ids(p.store);
  }

  /** A touch sets the visited bit of its key and no other. */
  lemma TouchVisits(p: Sieve, k: int)
    requires Sound(p)
    ensures var t := Touch(p, k);
            |t.store| == |p.store| && t.cursor == p.cursor &&
            forall i :: 0 <= i < |p.store| ==>
              t.store[i].0 == p.store[i].0 && t.store[i].1 == (p.store[i].1 || p.store[i].0 == k)
  {
    var ids := Ids(p.store);
    if k in ids {
      var x := IndexOf(ids, k);
      forall i | 0 <= i < |ids| && i != x ensures ids[i] != k {
        assert ids[i] != ids[x];
      }
    }
  }

  /** An eviction removes exactly one key, the one it reports, and keeps the order of the rest. */
  lemma EvictFacts(p: Sieve)
    requires Sound(p) && p.store != []
    ensures var e := Evict(p);
            |e.evicted| == 1 && e.evicted[0] in Ids(p.store) && e.policy.capacity == p.capacity &&
            Ids(e.policy.store) == Without(Ids(p.store), e.evicted[0])
  {
    var n, s := |p.store|, Sweep(p.store, HandAt(p));
    var at := s.at % n;
    WithoutCuts(Ids(p.store), at);
    assert Ids(Evict(p).policy.store) == Ids(p.store)[..at] + Ids(p.store)[at + 1..];
  }

  predicate VisitedAt(store: seq<Mark>, i: nat)
    requires store != []
  {
    store[i % |store|].1
  }

  lemma Apart(i: nat, j: nat, n: nat)
    requires i < j < i + n
    ensures j % n != i % n
  {
    Multiples(j / n - i / n, n);
    assert (j / n) * n - (i / n) * n == (j / n - i / n) * n;
  }

  /** The victim is the first key from the hand on that was not visited; if all were, it is the
      key under the hand, found after a full turn. */
  lemma {:induction false} SweepFinds(store: seq<Mark>, i: nat, at: nat)
    requires store != [] && i <= at <= i + |store|
    requires forall j :: i <= j < at ==> VisitedAt(store, j)
    requires at < i + |store| ==> !VisitedAt(store, at)
    ensures Sweep(store, i).at == at
    decreases at - i
  {
    if i < at {
      var n := |store|;
      assert VisitedAt(store, i);
      var next := store[i % n := (store[i % n].0, false)];
      forall j | i < j < at ensures VisitedAt(next, j) {
        Apart(i, j, n);
        assert VisitedAt(store, j);
      }
      if at == i + n {
        FullTurn(i, n);
      } else {
        Apart(i, at, n);
      }
      SweepFinds(next, i + 1, at);
    } else {
      assert !VisitedAt(store, at);
    }
  }

  lemma FullTurn(i: nat, n: nat)
    requires n > 0
    ensures (i + n) % n == i % n
  {
    OneQuotient(i + n, n, i / n + 1, i % n);
  }

  /** A place the hand has passed on its way from `i` to `at`. */
  ghost predicate Passed(n: nat, i: nat, at: nat, x: nat)
    requires n > 0
  {
    exists j :: i <= j < at && Slot(j, n) == x
  }

  function Slot(j: nat, n: nat): nat
    requires n > 0
  {
    j % n
  }

  /** The hand clears the visited bit of every key it passes and of no other. */
  lemma {:induction false} SweepClears(store: seq<Mark>, i: nat, at: nat)
    requires store != [] && i <= at <= i + |store|
    requires forall j :: i <= j < at ==> VisitedAt(store, j)
    requires at < i + |store| ==> !VisitedAt(store, at)
    ensures var t := Sweep(store, i).store;
            |t| == |store| &&
            forall x :: 0 <= x < |store| ==> t[x] == if Passed(|store|, i, at, x) then (store[x].0, false) else store[x]
    decreases at - i
  {
    var n := |store|;
    if i < at {
      assert VisitedAt(store, i);
      var next := store[i % n := (store[i % n].0, false)];
      forall j | i < j < at ensures VisitedAt(next, j) {
        Apart(i, j, n);
        assert VisitedAt(store, j);
      }
      if at == i + n {
        FullTurn(i, n);
      } else {
        Apart(i, at, n);
      }
      SweepClears(next, i + 1, at);
      PassedNext(n, i, at);
    } else {
      assert !VisitedAt(store, at);
    }
  }

  lemma PassedNext(n: nat, i: nat, at: nat)
    requires n > 0 && i < at
    ensures forall x :: 0 <= x < n ==> (Passed(n, i, at, x) <==> x == i % n || Passed(n, i + 1, at, x))
  {
    forall x | 0 <= x < n ensures Passed(n, i, at, x) <==> x == i % n || Passed(n, i + 1, at, x) {
      assert Slot(i, n) == i % n;
    }
  }

  /** After an eviction the hand points at the key behind the victim, in the order of insertion and round to the
      first again. */
  lemma HandMoves(p: Sieve, x: nat)
    requires Sound(p) && x < |p.store| && Evict(p).evicted == [Ids(p.store)[x]]
    ensures Evict(p).policy.cursor == if |p.store| > 1 then Some(Ids(p.store)[(x + 1) % |p.store|]) else None
  {
    var n, at := |p.store|, Sweep(p.store, HandAt(p)).at;
    OneIndex(Ids(p.store), at % n, x);
    NextSlot(at, n, x);
  }

  lemma OneIndex(ids: seq<int>, x: nat, y: nat)
    requires NoDup(ids) && x < |ids| && y < |ids| && ids[x] == ids[y]
    ensures x == y
  {
  }

  lemma NextSlot(at: nat, n: nat, x: nat)
    requires x < n && at % n == x
    ensures (at + 1) % n == (x + 1) % n
  {
    NextRest(at, n, at / n, x);
  }

  lemma NextRest(at: nat, n: nat, q: nat, x: nat)
    requires x < n && at == q * n + x
    ensures (at + 1) % n == (x + 1) % n
  {
    if x + 1 < n {
      OneQuotient(at + 1, n, q, x + 1);
      OneQuotient(x + 1, n, 0, x + 1);
    } else {
      assert (q + 1) * n == q * n + n;
      OneQuotient(at + 1, n, q + 1, 0);
      OneQuotient(n, n, 1, 0);
    }
  }

  lemma AdmitFacts(p: Sieve, k: int)
    requires Sound(p)
    ensures var a := Admit(p, k);
            Sound(a.policy) && a.policy.capacity == p.capacity && |a.evicted| <= 1 &&
            (a.evicted == [] <==> k in Ids(p.store) || |p.store| < p.capacity) &&
            Keys(Ids(a.policy.store)) + Keys(a.evicted) == Keys(Ids(p.store)) + {k} &&
            Keys(Ids(a.policy.store)) !! Keys(a.evicted)
  {
    if k !in Ids(p.store) {
      var e := if |p.store| >= p.capacity then Evict(p) else Admission(p, []);
      var a := Admit(p, k);
      assert Ids(a.policy.store) == Ids(e.policy.store) + [k];
      KeysPlus(Ids(e.policy.store), [k]);
      if |p.store| >= p.capacity {
        EvictFacts(p);
        var v := e.evicted[0];
        WithoutNoDup(Ids(p.store), v);
        WithoutKeys(Ids(p.store), v);
        assert Keys(e.evicted) == {v};
      }
      assert k !in Ids(e.policy.store) by {
        assert k !in Keys(Ids(p.store));
        assert Keys(Ids(e.policy.store)) <= Keys(Ids(p.store));
        assert k !in Keys(Ids(e.policy.store));
      }
    } else {
      assert k in Keys(Ids(p.store));
    }
  }

  class SieveCache {
    const capacity: nat
    var store: seq<Mark>
    var cursor: Option<int>

    ghost function View(): Sieve
      reads this
    {
      Sieve(capacity, store, cursor)
    }

    constructor (size: nat)
      requires size > 0
      ensures Sound(View()) && store == [] && capacity == size
    {
      capacity, store, cursor := size, [], None;
    }

    method EvictOne() returns (evicted: seq<int>)
      modifies this
      ensures Admission(View(), evicted) == Evict(old(View()))
    {
      var keys := Ids(store);
      if keys == [] {
        return [];
      }
      var n := |keys|;
      var i: nat := HandAt(Sieve(capacity, store, cursor));
      ghost var goal := Sweep(store, i);
      while store[i % n].1
        invariant |store| == n && Sweep(store, i) == goal
        decreases VisitedCount(store)
      {
        ClearReduces(store, i % n);
        store := store[i % n := (store[i % n].0, false)];
        i := i + 1;
      }
      var at := i % n;
      cursor := if n > 1 then Some(keys[(i + 1) % n]) else None;
      store := store[..at] + store[at + 1..];
      return [keys[at]];
    }

    method AdmitKey(k: int) returns (evicted: seq<int>)
      requires Sound(View())
      modifies this
      ensures Admission(View(), evicted) == Admit(old(View()), k) && Sound(View()) && |evicted| <= 1
    {
      AdmitFacts(View(), k);
      evicted := [];
      if k in Ids(store) {
        return;
      }
      if |store| >= capacity {
        evicted := EvictOne();
      }
      store := store + [(k, false)];
    }
  }
}
