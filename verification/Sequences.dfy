/** Ordered collections of distinct keys, as Python's `OrderedDict` keeps them. */
module Sequences {

  ghost predicate NoDup<T>(q: seq<T>) {
    forall i, j :: 0 <= i < j < |q| ==> q[i] != q[j]
  }

  /** `q` without `k`, the order of the others kept. */
  function Without<T(==)>(q: seq<T>, k: T): seq<T> {
    if q == [] then []
    else if q[0] == k then Without(q[1..], k)
    else [q[0]] + Without(q[1..], k)
  }

  /** An ordered dictionary without `k`, the order of the others kept. */
  function Drop<V>(q: seq<(int, V)>, k: int): seq<(int, V)> {
    if q == [] then []
    else if q[0].0 == k then Drop(q[1..], k)
    else [q[0]] + Drop(q[1..], k)
  }

  /** The keys of an ordered dictionary, in order. */
  function Ids<V>(q: seq<(int, V)>): (ids: seq<int>)
    ensures |ids| == |q| && forall i :: 0 <= i < |q| ==> ids[i] == q[i].0
  {
    seq(|q|, i requires 0 <= i < |q| => q[i].0)
  }

  lemma {:induction false} DropIds<V>(q: seq<(int, V)>, k: int)
    ensures Ids(Drop(q, k)) == Without(Ids(q), k)
  {
    if q != [] {
      DropIds(q[1..], k);
      assert Ids(q) == [q[0].0] + Ids(q[1..]);
      assert Ids([q[0]] + Drop(q[1..], k)) == [q[0].0] + Ids(Drop(q[1..], k));
    }
  }

  lemma Subset<T>(a: set<T>, b: set<T>)
    requires a <= b
    ensures |a| <= |b|
  {
    assert b == a + (b - a);
  }

  lemma KeysPlus<T>(p: seq<T>, q: seq<T>)
    ensures Keys(p + q) == Keys(p) + Keys(q)
  {
  }

  lemma {:induction false} WithoutKeys<T>(q: seq<T>, k: T)
    ensures Keys(Without(q, k)) == Keys(q) - {k}
  {
    if q != [] {
      WithoutKeys(q[1..], k);
      assert q == [q[0]] + q[1..];
      assert Keys(q) == {q[0]} + Keys(q[1..]);
      assert Keys([q[0]] + Without(q[1..], k)) == {q[0]} + Keys(Without(q[1..], k));
    }
  }

  lemma {:induction false} WithoutAbsent<T>(q: seq<T>, k: T)
    requires k !in q
    ensures Without(q, k) == q
  {
    if q != [] {
      WithoutAbsent(q[1..], k);
      assert q == [q[0]] + q[1..];
    }
  }

  /** Removing a key cuts out its one occurrence. */
  lemma {:induction false} WithoutCuts<T>(q: seq<T>, p: nat)
    requires NoDup(q) && p < |q|
    ensures Without(q, q[p]) == q[..p] + q[p + 1..]
  {
    if p > 0 {
      var rest := q[1..];
      assert q[0] != q[p] && rest[p - 1] == q[p];
      WithoutCuts(rest, p - 1);
      assert Without(q, q[p]) == [q[0]] + (rest[..p - 1] + rest[p..]);
      assert q[..p] == [q[0]] + rest[..p - 1];
      assert q[p + 1..] == rest[p..];
    } else {
      WithoutAbsent(q[1..], q[0]);
    }
  }

  /** The keys of a sequence. */
  ghost function Keys<T>(q: seq<T>): set<T> {
    set x | x in q
  }

  lemma {:induction false} WithoutNoDup<T>(q: seq<T>, k: T)
    requires NoDup(q)
    ensures NoDup(Without(q, k))
    ensures |Without(q, k)| == if k in q then |q| - 1 else |q|
  {
    if k in q {
      var p :| 0 <= p < |q| && q[p] == k;
      WithoutCuts(q, p);
    } else {
      WithoutAbsent(q, k);
    }
  }

  /** Turning a queue by one keeps its keys distinct. */
  lemma TurnNoDup<T>(q: seq<T>)
    requires q != [] && NoDup(q)
    ensures NoDup(q[1..] + [q[0]])
  {
    var r := q[1..] + [q[0]];
    forall i, j | 0 <= i < j < |r| ensures r[i] != r[j] {
      assert r[i] == q[i + 1];
    }
  }

  /** `k` as the last key of `q`. */
  function ToEnd<T(==)>(q: seq<T>, k: T): seq<T> {
    Without(q, k) + [k]
  }

  lemma ToEndFacts<T>(q: seq<T>, k: T)
    requires NoDup(q)
    ensures NoDup(ToEnd(q, k)) && Keys(ToEnd(q, k)) == Keys(q) + {k}
    ensures |ToEnd(q, k)| == if k in q then |q| else |q| + 1
  {
    WithoutNoDup(q, k);
    WithoutKeys(q, k);
    var rest := Without(q, k);
    assert forall i :: 0 <= i < |rest| ==> rest[i] in Keys(rest);
    assert Keys(rest + [k]) == Keys(rest) + {k};
  }

  /** The newest `capacity` keys of `q`. */
  function Trim<T>(q: seq<T>, capacity: nat): (r: seq<T>)
    ensures |r| <= capacity && forall k :: k in r ==> k in q
    ensures NoDup(q) ==> NoDup(r)
    ensures |q| <= capacity ==> r == q
  {
    if |q| <= capacity then q else Trim(q[1..], capacity)
  }

  /** How often `x` occurs in `q`. */
  ghost function Count<T>(q: seq<T>, x: T): nat {
    multiset(q)[x]
  }

  lemma CountPop<T>(q: seq<T>, x: T)
    requires q != []
    ensures Count(q, x) == (if q[0] == x then 1 else 0) + Count(q[1..], x)
  {
    assert q == [q[0]] + q[1..];
  }

  lemma CountPush<T>(q: seq<T>, k: T, x: T)
    ensures Count(q + [k], x) == Count(q, x) + (if k == x then 1 else 0)
  {
  }

  lemma CountPlus<T>(p: seq<T>, q: seq<T>, x: T)
    ensures Count(p + q, x) == Count(p, x) + Count(q, x)
  {
  }

  lemma {:induction false} CountWithout<T>(q: seq<T>, k: T, x: T)
    ensures Count(Without(q, k), x) == if x == k then 0 else Count(q, x)
  {
    if q != [] {
      CountPop(q, x);
      CountWithout(q[1..], k, x);
      if q[0] != k {
        assert Without(q, k)[1..] == Without(q[1..], k);
        CountPop(Without(q, k), x);
      }
    }
  }

  lemma CountIn<T>(q: seq<T>, x: T)
    ensures Count(q, x) > 0 <==> x in q
  {
  }

  lemma CountNoDup<T>(q: seq<T>)
    requires forall y :: y in q ==> Count(q, y) == 1
    ensures NoDup(q)
  {
    forall i, j | 0 <= i < j < |q| ensures q[i] != q[j] {
      assert q == q[..j] + q[j..];
      CountPlus(q[..j], q[j..], q[j]);
      assert q[j] in q && q[j..][0] == q[j] && q[..j][i] == q[i];
      assert Count(q[j..], q[j]) > 0 && Count(q[..j], q[i]) > 0;
    }
  }

  lemma {:induction false} NoDupCardinality<T>(q: seq<T>)
    requires NoDup(q)
    ensures |Keys(q)| == |q|
  {
    if q != [] {
      var last := |q| - 1;
      NoDupCardinality(q[..last]);
      assert Keys(q) == Keys(q[..last]) + {q[last]};
    }
  }
}
