/** Least-recently-used caching. The store lists keys from least to most recently used. */
module LruPolicy {
  import opened Sequences

  /** The newest `c` keys of `q`. */
  function Newest(q: seq<int>, c: nat): seq<int> {
    if |q| <= c then q else q[|q| - c..]
  }

  /** The oldest keys of `q`, those beyond the newest `c`. */
  function Overflow(q: seq<int>, c: nat): seq<int> {
    if |q| <= c then [] else q[..|q| - c]
  }

  function Admit(store: seq<int>, capacity: nat, k: int): seq<int> {
    Newest(ToEnd(store, k), capacity)
  }

  function Evicted(store: seq<int>, capacity: nat, k: int): seq<int> {
    Overflow(ToEnd(store, k), capacity)
  }

  function Access(store: seq<int>, capacity: nat, k: int): seq<int> {
    if k in store then ToEnd(store, k) else Admit(store, capacity, k)
  }

  ghost function Run(capacity: nat, trace: seq<int>): seq<int> {
    if trace == [] then [] else Access(Run(capacity, trace[..|trace| - 1]), capacity, trace[|trace| - 1])
  }

  // ------------------------------------------------ recency order

  /** The keys of a trace, ordered by when each was last accessed. */
  ghost function Recency(trace: seq<int>): seq<int> {
    if trace == [] then [] else ToEnd(Recency(trace[..|trace| - 1]), trace[|trace| - 1])
  }

  /** When a key was last accessed; -1 if never. */
  ghost function LastAt(trace: seq<int>, k: int): int {
    if trace == [] then -1
    else if trace[|trace| - 1] == k then |trace| - 1
    else LastAt(trace[..|trace| - 1], k)
  }

  lemma {:induction false} LastAtFacts(trace: seq<int>, k: int)
    ensures -1 <= LastAt(trace, k) < |trace|
    ensures LastAt(trace, k) >= 0 ==> trace[LastAt(trace, k)] == k
    ensures forall i :: LastAt(trace, k) < i < |trace| ==> trace[i] != k
  {
    if trace != [] && trace[|trace| - 1] != k {
      LastAtFacts(trace[..|trace| - 1], k);
    }
  }

  ghost predicate ByLastAccess(trace: seq<int>, q: seq<int>) {
    forall i, j :: 0 <= i < j < |q| ==> LastAt(trace, q[i]) < LastAt(trace, q[j])
  }

  lemma CutByLastAccess(trace: seq<int>, q: seq<int>, k: int)
    requires NoDup(q) && ByLastAccess(trace, q)
    ensures ByLastAccess(trace, Without(q, k))
  {
    if k in q {
      var p :| 0 <= p < |q| && q[p] == k;
      WithoutCuts(q, p);
      var cut := Without(q, k);
      forall i, j | 0 <= i < j < |cut| ensures LastAt(trace, cut[i]) < LastAt(trace, cut[j]) {
        var a, b := if i < p then i else i + 1, if j < p then j else j + 1;
        assert cut[i] == q[a] && cut[j] == q[b];
      }
    } else {
      WithoutAbsent(q, k);
    }
  }

  lemma RecencyStep(front: seq<int>, k: int, q: seq<int>)
    requires NoDup(q) && ByLastAccess(front, q)
    ensures ByLastAccess(front + [k], ToEnd(q, k))
  {
    var trace, rest := front + [k], Without(q, k);
    assert trace[..|front|] == front;
    CutByLastAccess(front, q, k);
    WithoutKeys(q, k);
    forall i, j | 0 <= i < j < |rest| + 1 ensures LastAt(trace, ToEnd(q, k)[i]) < LastAt(trace, ToEnd(q, k)[j]) {
      assert rest[i] in Keys(rest);
      LastAtFacts(front, rest[i]);
      if j < |rest| {
        assert rest[j] in Keys(rest);
      }
    }
  }

  /** `Recency` lists exactly the keys of the trace, once each, by last access. */
  lemma {:induction false} RecencyOrder(trace: seq<int>)
    ensures NoDup(Recency(trace)) && Keys(Recency(trace)) == Keys(trace) && ByLastAccess(trace, Recency(trace))
  {
    if trace != [] {
      var last := |trace| - 1;
      RecencyOrder(trace[..last]);
      assert trace == trace[..last] + [trace[last]];
      ToEndFacts(Recency(trace[..last]), trace[last]);
      assert Keys(trace) == Keys(trace[..last]) + {trace[last]};
      RecencyStep(trace[..last], trace[last], Recency(trace[..last]));
    }
  }

  // ------------------------------------------------ stack inclusion

  lemma {:induction false} WithoutPlus(p: seq<int>, q: seq<int>, k: int)
    ensures Without(p + q, k) == Without(p, k) + Without(q, k)
  {
    if p == [] {
      assert p + q == q;
    } else {
      assert (p + q)[0] == p[0] && (p + q)[1..] == p[1..] + q;
      WithoutPlus(p[1..], q, k);
      assert [p[0]] + (Without(p[1..], k) + Without(q, k)) == [p[0]] + Without(p[1..], k) + Without(q, k);
    }
  }

  lemma NewestPlus(p: seq<int>, q: seq<int>, c: nat)
    requires |q| >= c
    ensures Newest(p + q, c) == Newest(q, c)
  {
  }

  /** Keeping only the newest keys commutes with an access. */
  lemma AccessNewest(q: seq<int>, c: nat, k: int)
    requires NoDup(q) && c > 0
    ensures Access(Newest(q, c), c, k) == Newest(ToEnd(q, k), c)
  {
    if |q| > c {
      var p, s := q[..|q| - c], q[|q| - c..];
      assert q == p + s;
      WithoutPlus(p, s, k);
      assert Without(p, k) + Without(s, k) + [k] == Without(p, k) + ToEnd(s, k);
      ToEndFacts(s, k);
      NewestPlus(Without(p, k), ToEnd(s, k), c);
    } else {
      ToEndFacts(q, k);
    }
  }

  /** The store always holds the most recently accessed distinct keys, as many as fit. */
  lemma {:induction false} RunIsNewest(capacity: nat, trace: seq<int>)
    requires capacity > 0
    ensures Run(capacity, trace) == Newest(Recency(trace), capacity)
  {
    if trace != [] {
      var last := |trace| - 1;
      RunIsNewest(capacity, trace[..last]);
      RecencyOrder(trace[..last]);
      AccessNewest(Recency(trace[..last]), capacity, trace[last]);
    }
  }

  /** Inclusion: a smaller cache is always the newest part of a larger one, so whatever hits
      in the smaller cache hits in the larger one. */
  lemma Inclusion(small: nat, large: nat, trace: seq<int>, k: int)
    requires 0 < small <= large
    ensures Run(small, trace) == Newest(Run(large, trace), small)
    ensures k in Run(small, trace) ==> k in Run(large, trace)
  {
    RunIsNewest(small, trace);
    RunIsNewest(large, trace);
  }

  ghost function Hits(capacity: nat, trace: seq<int>): nat {
    if trace == [] then 0
    else
      var front := trace[..|trace| - 1];
      Hits(capacity, front) + if trace[|trace| - 1] in Run(capacity, front) then 1 else 0
  }

  /** The number of hits never decreases with capacity. */
  lemma {:induction false} HitsMonotone(small: nat, large: nat, trace: seq<int>)
    requires 0 < small <= large
    ensures Hits(small, trace) <= Hits(large, trace)
  {
    if trace != [] {
      HitsMonotone(small, large, trace[..|trace| - 1]);
      Inclusion(small, large, trace[..|trace| - 1], trace[|trace| - 1]);
    }
  }

  // ------------------------------------------------ the policy object

  lemma NewestFacts(q: seq<int>, c: nat)
    requires NoDup(q)
    ensures NoDup(Newest(q, c)) && |Newest(q, c)| <= c && |Overflow(q, c)| == |q| - |Newest(q, c)|
    ensures Overflow(q, c) + Newest(q, c) == q && Keys(Newest(q, c)) + Keys(Overflow(q, c)) == Keys(q)
    ensures Keys(Newest(q, c)) !! Keys(Overflow(q, c))
  {
    assert Overflow(q, c) + Newest(q, c) == q;
    KeysPlus(Overflow(q, c), Newest(q, c));
  }

  class LRUPolicy {
    const capacity: nat
    var store: seq<int>

    ghost predicate Valid()
      reads this
    {
      capacity > 0 && NoDup(store) && |store| <= capacity
    }

    constructor (size: nat)
      requires size > 0
      ensures Valid() && store == [] && capacity == size
    {
      capacity, store := size, [];
    }

    /** The keys for which the eviction callback is called, in order. */
    method AdmitKey(k: int) returns (evicted: seq<int>)
      requires Valid()
      modifies this
      ensures Valid() && store == Admit(old(store), capacity, k) && evicted == Evicted(old(store), capacity, k)
      ensures |evicted| <= 1 && Keys(store) + Keys(evicted) == old(Keys(store)) + {k}
    {
      ToEndFacts(store, k);
      evicted := [];
      store := ToEnd(store, k);
      ghost var all := store;
      while |store| > capacity
        invariant Newest(store, capacity) == Newest(all, capacity)
        invariant evicted + Overflow(store, capacity) == Overflow(all, capacity)
      {
        assert Overflow(store, capacity) == [store[0]] + Overflow(store[1..], capacity);
        evicted, store := evicted + [store[0]], store[1..];
      }
      NewestFacts(all, capacity);
    }

    method AccessKey(k: int) returns (hit: bool, evicted: seq<int>)
      requires Valid()
      modifies this
      ensures Valid() && hit == (k in old(store)) && store == Access(old(store), capacity, k)
      ensures evicted == if hit then [] else Evicted(old(store), capacity, k)
    {
      hit := k in store;
      if hit {
        ToEndFacts(store, k);
        store, evicted := ToEnd(store, k), [];
      } else {
        evicted := AdmitKey(k);
      }
    }
  }
}
