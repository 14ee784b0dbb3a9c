/** The two-tier replay simulator: any policy in either tier, evictions from fast demoted to
    slow, and prefix-aware prefetching. */
module TieredSimulator {
  import opened Sequences
  import L = LruPolicy
  import S = S3FifoPolicy
  import V = SievePolicy

  // ------------------------------------------------ the policy of a tier

  datatype Policy =
    | Lru(capacity: nat, store: seq<int>)
    | S3Fifo(s3: S.S3)
    | Sieve(sieve: V.Sieve)

  ghost predicate PolicyOk(p: Policy) {
    match p
    case Lru(capacity, store) => capacity > 0 && NoDup(store) && |store| <= capacity
    case S3Fifo(s3) => S.Sound(s3)
    case Sieve(sieve) => V.Sound(sieve)
  }

  ghost function KeysOf(p: Policy): set<int> {
    match p
    case Lru(_, store) => Keys(store)
    case S3Fifo(s3) => Keys(Ids(s3.small)) + Keys(Ids(s3.main))
    case Sieve(sieve) => Keys(Ids(sieve.store))
  }

  predicate Has(p: Policy, k: int) {
    match p
    case Lru(_, store) => k in store
    case S3Fifo(s3) => S.Contains(s3, k)
    case Sieve(sieve) => k in Ids(sieve.store)
  }

  datatype Admission = Admission(policy: Policy, evicted: seq<int>)

  function Admit(p: Policy, k: int): Admission {
    match p
    case Lru(capacity, store) => Admission(Lru(capacity, L.Admit(store, capacity, k)), L.Evicted(store, capacity, k))
    case S3Fifo(s3) => var a := S.Admit(s3, k); Admission(S3Fifo(a.policy), a.evicted)
    case Sieve(sieve) => var a := V.Admit(sieve, k); Admission(Sieve(a.policy), a.evicted)
  }

  function Touch(p: Policy, k: int): Policy {
    match p
    case Lru(capacity, store) => if k in store then Lru(capacity, ToEnd(store, k)) else p
    case S3Fifo(s3) => S3Fifo(S.Touch(s3, k))
    case Sieve(sieve) => Sieve(V.Touch(sieve, k))
  }

  function Remove(p: Policy, k: int): Policy {
    match p
    case Lru(capacity, store) => Lru(capacity, Without(store, k))
    case S3Fifo(s3) => S3Fifo(S.Remove(s3, k))
    case Sieve(sieve) => Sieve(V.Remove(sieve, k))
  }

  lemma S3Keys(s3: S.S3, x: int)
    ensures x in KeysOf(S3Fifo(s3)) <==> S.Held(s3, x) > 0
  {
    CountIn(Ids(s3.small), x);
    CountIn(Ids(s3.main), x);
  }

  lemma LruAdmitFacts(store: seq<int>, capacity: nat, k: int)
    requires NoDup(store) && |store| <= capacity && capacity > 0
    ensures var after, out := L.Admit(store, capacity, k), L.Evicted(store, capacity, k);
            NoDup(after) && |after| <= capacity && |out| <= 1 &&
            Keys(after) + Keys(out) == Keys(store) + {k} && Keys(after) !! Keys(out) &&
            (k in store || |store| < capacity <==> out == [])
  {
    ToEndFacts(store, k);
    L.NewestFacts(ToEnd(store, k), capacity);
  }

  /** What every policy promises about an admission: the keys it reports as evicted are exactly
      those that leave, at most one. */
  lemma AdmitFacts(p: Policy, k: int)
    requires PolicyOk(p)
    ensures var a := Admit(p, k);
            PolicyOk(a.policy) && |a.evicted| <= 1 &&
            KeysOf(a.policy) + Keys(a.evicted) == KeysOf(p) + {k} && KeysOf(a.policy) !! Keys(a.evicted)
  {
    match p
    case Lru(capacity, store) => LruAdmitFacts(store, capacity, k);
    case S3Fifo(s3) =>
      S.AdmitFacts(s3, k);
      var a := S.Admit(s3, k);
      forall x
        ensures x in KeysOf(S3Fifo(a.policy)) + Keys(a.evicted) <==> x in KeysOf(p) + {k}
        ensures !(x in KeysOf(S3Fifo(a.policy)) && x in Keys(a.evicted))
      {
        S3Keys(s3, x);
        S3Keys(s3, k);
        S3Keys(a.policy, x);
        CountIn(a.evicted, x);
        assert S.Held(s3, x) + Count(s3.ghosts, x) <= 1;
        assert S.Held(a.policy, x) + Count(a.evicted, x) ==
                 S.Held(s3, x) + (if x == k && S.Held(s3, k) == 0 then 1 else 0);
      }
    case Sieve(sieve) => V.AdmitFacts(sieve, k);
  }

  lemma TouchFacts(p: Policy, k: int)
    requires PolicyOk(p) && k in KeysOf(p)
    ensures PolicyOk(Touch(p, k)) && KeysOf(Touch(p, k)) == KeysOf(p)
  {
    match p
    case Lru(capacity, store) => ToEndFacts(store, k);
    case S3Fifo(s3) =>
      S.TouchFacts(s3, k);
      forall x ensures x in KeysOf(Touch(p, k)) <==> x in KeysOf(p) {
        S3Keys(s3, x);
        S3Keys(S.Touch(s3, k), x);
      }
    case Sieve(sieve) => V.TouchFacts(sieve, k);
  }

  /** A touch is an access of the policy: it makes an LRU key the most recent, counts an S3-FIFO use and sets a
      SIEVE visited bit, and evicts nothing. */
  lemma TouchAccesses(p: Policy, k: int)
    requires PolicyOk(p) && k in KeysOf(p)
    ensures match p
            case Lru(capacity, store) => Touch(p, k) == Lru(capacity, L.Access(store, capacity, k))
            case S3Fifo(s3) =>
              Touch(p, k).S3Fifo? && S.CountedIn(s3.small, Touch(p, k).s3.small, k) &&
              S.CountedIn(s3.main, Touch(p, k).s3.main, k)
            case Sieve(sieve) =>
              Touch(p, k).Sieve? && |Touch(p, k).sieve.store| == |sieve.store| &&
              forall i :: 0 <= i < |sieve.store| && sieve.store[i].0 == k ==> Touch(p, k).sieve.store[i] == (k, true)
  {
    match p
    case Lru(_, _) =>
    case S3Fifo(s3) => S.TouchCounts(s3, k);
    case Sieve(sieve) => V.TouchVisits(sieve, k);
  }

  lemma RemoveFacts(p: Policy, k: int)
    requires PolicyOk(p)
    ensures PolicyOk(Remove(p, k)) && KeysOf(Remove(p, k)) == KeysOf(p) - {k} && SameSort(p, Remove(p, k))
  {
    match p
    case Lru(capacity, store) =>
      WithoutNoDup(store, k);
      WithoutKeys(store, k);
    case S3Fifo(s3) =>
      S.RemoveFacts(s3, k);
      forall x ensures x in KeysOf(Remove(p, k)) <==> x in KeysOf(p) - {k} {
        S3Keys(s3, x);
        S3Keys(S.Remove(s3, k), x);
      }
    case Sieve(sieve) => V.RemoveFacts(sieve, k);
  }

  // ------------------------------------------------ room

  /** Whether a policy can admit a key without evicting one. */
  predicate Room(p: Policy, k: int) {
    match p
    case Lru(capacity, store) => k in store || |store| < capacity
    case S3Fifo(s3) => S.Room(s3, k)
    case Sieve(sieve) => k in Ids(sieve.store) || |sieve.store| < sieve.capacity
  }

  lemma AdmitRoom(p: Policy, k: int)
    requires PolicyOk(p)
    ensures Admit(p, k).evicted == [] <==> Room(p, k)
  {
    match p
    case Lru(capacity, store) => LruAdmitFacts(store, capacity, k);
    case S3Fifo(s3) => S.AdmitRoom(s3, k);
    case Sieve(sieve) => V.AdmitFacts(sieve, k);
  }

  /** One pool of blocks: any free place will do for any key. */
  predicate Pooled(p: Policy) {
    !p.S3Fifo?
  }

  ghost predicate SameSort(p: Policy, q: Policy) {
    Pooled(p) == Pooled(q) && (Pooled(p) ==> PoolSize(p) == PoolSize(q))
  }

  function PoolSize(p: Policy): nat
    requires Pooled(p)
  {
    match p
    case Lru(capacity, _) => capacity
    case Sieve(sieve) => sieve.capacity
  }

  lemma PooledRoom(p: Policy, k: int)
    requires PolicyOk(p) && Pooled(p)
    ensures |KeysOf(p)| <= PoolSize(p)
    ensures k in KeysOf(p) || |KeysOf(p)| < PoolSize(p) ==> Room(p, k)
  {
    match p
    case Lru(capacity, store) => NoDupCardinality(store);
    case Sieve(sieve) => NoDupCardinality(Ids(sieve.store));
  }

  // ------------------------------------------------ the two tiers

  datatype Sim = Sim(fast: Policy, slow: Policy, successor: map<int, int>, depth: int)

  /** The tiers are exclusive and each is within its bounds. */
  ghost predicate SimOk(s: Sim) {
    PolicyOk(s.fast) && PolicyOk(s.slow) && KeysOf(s.fast) !! KeysOf(s.slow)
  }

  ghost function Resident(s: Sim): set<int> {
    KeysOf(s.fast) + KeysOf(s.slow)
  }

  /** The slow tier is one pool, large enough for all of `keys`. */
  ghost predicate SlowHolds(s: Sim, keys: set<int>) {
    Pooled(s.slow) && |keys| <= PoolSize(s.slow)
  }

  /** Keys evicted from the fast tier enter the slow tier in turn. */
  ghost function Demote(slow: Policy, evicted: seq<int>): Policy
    decreases |evicted|
  {
    if evicted == [] then slow else Demote(Admit(slow, evicted[0]).policy, evicted[1..])
  }

  /** Bring a key into the fast tier, out of the slow tier if it is there. */
  ghost function Bring(s: Sim, k: int): Sim {
    var a := Admit(s.fast, k);
    s.(fast := a.policy, slow := Demote(Rest(s, k), a.evicted))
  }

  lemma DemoteOne(slow: Policy, evicted: seq<int>)
    requires |evicted| == 1
    ensures Demote(slow, evicted) == Admit(slow, evicted[0]).policy
  {
    assert evicted[1..] == [];
  }

  /** The set view: `k` joins the fast tier, `gone` leave it for the slow tier, `lost` leave that. */
  lemma BringSets(fast: set<int>, fast': set<int>, slow: set<int>, slow': set<int>, k: int, gone: set<int>,
                  lost: set<int>)
    requires fast !! slow && k !in fast
    requires fast' + gone == fast + {k} && fast' !! gone
    requires slow' + lost == (slow - {k}) + gone && slow' !! lost
    ensures fast' !! slow' && fast' + slow' <= fast + slow + {k}
    ensures fast + slow + {k} - (fast' + slow') == lost
  {
  }

  /** The slow tier once the key that is brought in has left it. */
  ghost function Rest(s: Sim, k: int): Policy {
    if k in KeysOf(s.slow) then Remove(s.slow, k) else s.slow
  }

  /** The keys that the slow tier evicts, and that are gone. */
  ghost function Lost(s: Sim, k: int): seq<int> {
    var a := Admit(s.fast, k);
    if a.evicted == [] then [] else Admit(Rest(s, k), a.evicted[0]).evicted
  }

  /** Whether the slow tier can take what the fast tier gives up for `k`. */
  ghost predicate Absorbs(s: Sim, k: int) {
    Room(s.fast, k) || (Admit(s.fast, k).evicted != [] && Room(Rest(s, k), Admit(s.fast, k).evicted[0]))
  }

  /** What becomes of the slow tier when it is handed the keys in `out`, at most one. */
  lemma DemoteFacts(slow: Policy, out: seq<int>)
    requires PolicyOk(slow) && |out| <= 1
    ensures var after := Demote(slow, out);
            var lost := if out == [] then [] else Admit(slow, out[0]).evicted;
            PolicyOk(after) && SameSort(slow, after) && |lost| <= 1 &&
            (lost == [] <==> out == [] || Room(slow, out[0])) &&
            KeysOf(after) + Keys(lost) == KeysOf(slow) + Keys(out) && KeysOf(after) !! Keys(lost)
  {
    if |out| == 1 {
      assert Keys(out) == {out[0]};
      DemoteOne(slow, out);
      AdmitFacts(slow, out[0]);
      AdmitRoom(slow, out[0]);
    }
  }

  /** ... which are those that the fast tier gives up for `k`. */
  lemma BringSlow(s: Sim, k: int)
    requires SimOk(s) && k !in KeysOf(s.fast)
    ensures var a, slow := Admit(s.fast, k), Bring(s, k).slow;
            PolicyOk(slow) && SameSort(s.slow, slow) && |Lost(s, k)| <= 1 && (Lost(s, k) == [] <==> Absorbs(s, k)) &&
            KeysOf(slow) + Keys(Lost(s, k)) == (KeysOf(s.slow) - {k}) + Keys(a.evicted) &&
            KeysOf(slow) !! Keys(Lost(s, k))
  {
    AdmitFacts(s.fast, k);
    AdmitRoom(s.fast, k);
    RemoveFacts(s.slow, k);
    DemoteFacts(Rest(s, k), Admit(s.fast, k).evicted);
  }

  /** Bringing a key in keeps the tiers exclusive and loses at most one key: none if and only if
      the slow tier can take the key that is displaced. */
  lemma BringFacts(s: Sim, k: int)
    requires SimOk(s) && k !in KeysOf(s.fast)
    ensures var r := Bring(s, k);
            SimOk(r) && SameSort(s.slow, r.slow) && Resident(r) <= Resident(s) + {k} &&
            |Resident(s) + {k} - Resident(r)| <= 1 &&
            (Resident(r) == Resident(s) + {k} <==> Absorbs(s, k))
  {
    var a, b := Admit(s.fast, k), Bring(s, k);
    AdmitFacts(s.fast, k);
    BringSlow(s, k);
    BringSets(KeysOf(s.fast), KeysOf(b.fast), KeysOf(s.slow), KeysOf(b.slow), k, Keys(a.evicted), Keys(Lost(s, k)));
    SmallSet(Lost(s, k), Resident(s) + {k} - Resident(b));
    assert Lost(s, k) != [] ==> Lost(s, k)[0] in Keys(Lost(s, k));
  }

  /** A pool that a key has just left has room for any other. */
  lemma LeftRoom(p: Policy, k: int, v: int)
    requires PolicyOk(p) && Pooled(p) && k in KeysOf(p)
    ensures Room(Remove(p, k), v)
  {
    RemoveFacts(p, k);
    PooledRoom(p, k);
    PooledRoom(Remove(p, k), v);
    assert KeysOf(p) == KeysOf(Remove(p, k)) + {k};
  }

  /** A pool that could hold all of `keys` and holds only some has room for each. */
  lemma SpareRoom(p: Policy, keys: set<int>, v: int)
    requires PolicyOk(p) && Pooled(p) && KeysOf(p) <= keys && v in keys && |keys| <= PoolSize(p)
    ensures Room(p, v)
  {
    PooledRoom(p, v);
    if v !in KeysOf(p) {
      Subset(KeysOf(p) + {v}, keys);
    }
  }

  /** One pool absorbs the displaced key if the key brought in has left a place in it, or if it
      could hold everything. */
  lemma PoolAbsorbs(s: Sim, k: int)
    requires SimOk(s) && Pooled(s.slow)
    requires k in KeysOf(s.slow) || SlowHolds(s, Resident(s) + {k})
    ensures Absorbs(s, k)
  {
    AdmitFacts(s.fast, k);
    AdmitRoom(s.fast, k);
    if !Room(s.fast, k) {
      var v := Admit(s.fast, k).evicted[0];
      assert v in Keys(Admit(s.fast, k).evicted);
      if k in KeysOf(s.slow) {
        LeftRoom(s.slow, k, v);
      } else {
        SpareRoom(s.slow, Resident(s) + {k}, v);
      }
    }
  }

  lemma SmallSet(out: seq<int>, lost: set<int>)
    requires |out| <= 1 && lost <= Keys(out)
    ensures |lost| <= 1
  {
    if out != [] {
      assert Keys(out) == {out[0]};
      assert lost == {} || lost == {out[0]};
    } else {
      assert lost == {};
    }
  }

  // ------------------------------------------------ prefetching

  ghost predicate SameBut(s: Sim, s': Sim) {
    SameSort(s.slow, s'.slow) && s'.successor == s.successor && s'.depth == s.depth
  }

  /** How many blocks a number of moves may lose: none if the slow tier is one pool. */
  ghost function MayLose(s: Sim, moves: nat): nat {
    if Pooled(s.slow) then 0 else moves
  }

  /** `r` holds what `s` held, but for the blocks that so many moves may lose. */
  ghost predicate Thinner(s: Sim, r: Sim, moves: nat) {
    SimOk(r) && SameBut(s, r) && Thinned(Resident(s), Resident(r), MayLose(s, moves))
  }

  ghost predicate Thinned(before: set<int>, after: set<int>, n: nat) {
    after <= before && |before - after| <= n
  }

  lemma ThinnedNot(keys: set<int>, n: nat)
    ensures Thinned(keys, keys, n)
  {
    assert keys - keys == {};
  }

  lemma ThinnedTwice(a: set<int>, b: set<int>, c: set<int>, m: nat, n: nat)
    requires Thinned(a, b, m) && Thinned(b, c, n)
    ensures Thinned(a, c, m + n)
  {
    LossAdds(a, b, c);
  }

  lemma ThinnerTwice(s: Sim, r: Sim, t: Sim, m: nat, n: nat)
    requires Thinner(s, r, m) && Thinner(r, t, n)
    ensures Thinner(s, t, m + n)
  {
    ThinnedTwice(Resident(s), Resident(r), Resident(t), MayLose(s, m), MayLose(r, n));
  }

  lemma PromoteFacts(s: Sim, k: int)
    requires SimOk(s) && k in KeysOf(s.slow)
    ensures Thinner(s, Bring(s, k), 1)
  {
    BringFacts(s, k);
    assert Resident(s) + {k} == Resident(s);
    if Pooled(s.slow) {
      PoolAbsorbs(s, k);
      ThinnedNot(Resident(s), 0);
    }
  }

  /** A block lost on the way never comes back: nothing is lost in two stages together if and
      only if nothing is lost in either. */
  lemma LostForGood(a: set<int>, b: set<int>, c: set<int>)
    requires b <= a && c <= b
    ensures c == a <==> b == a && c == b
  {
  }

  /** The tiers after a prefetch, how many blocks it promoted, and whether on every promotion the
      slow tier could take the displaced block. */
  datatype Prefetched = Prefetched(sim: Sim, promoted: nat, absorbed: bool)

  /** What a prefetch makes of the tiers: it loses at most one block per promotion, none if the slow
      tier is one pool, and none at all if and only if every promotion was absorbed. */
  ghost predicate PrefetchOk(s: Sim, r: Prefetched) {
    SimOk(s) ==> Thinner(s, r.sim, r.promoted) && (r.absorbed <==> Resident(r.sim) == Resident(s))
  }

  lemma PromoteThen(s: Sim, k: int, r: Prefetched)
    requires k in KeysOf(s.slow) && PrefetchOk(Bring(s, k), r)
    ensures PrefetchOk(s, Prefetched(r.sim, 1 + r.promoted, Absorbs(s, k) && r.absorbed))
  {
    if SimOk(s) {
      PromoteFacts(s, k);
      ThinnerTwice(s, Bring(s, k), r.sim, 1, r.promoted);
      BringFacts(s, k);
      assert Resident(s) + {k} == Resident(s);
      LostForGood(Resident(s), Resident(Bring(s, k)), Resident(r.sim));
    }
  }

  lemma PrefetchOkThen(s: Sim, p: Prefetched, r: Prefetched)
    requires PrefetchOk(s, p) && PrefetchOk(p.sim, r)
    ensures PrefetchOk(s, Prefetched(r.sim, p.promoted + r.promoted, p.absorbed && r.absorbed))
  {
    if SimOk(s) {
      ThinnerTwice(s, p.sim, r.sim, p.promoted, r.promoted);
      LostForGood(Resident(s), Resident(p.sim), Resident(r.sim));
    }
  }

  lemma PrefetchOkStart(s: Sim)
    ensures PrefetchOk(s, Prefetched(s, 0, true))
  {
    if SimOk(s) {
      ThinnedNot(Resident(s), 0);
    }
  }

  /** Follow the successor chain, moving slow keys on it into the fast tier. */
  ghost function PrefetchChain(s: Sim, cursor: int, budget: nat): (r: Prefetched)
    ensures PrefetchOk(s, r)
    decreases budget
  {
    PrefetchOkStart(s);
    if budget == 0 || cursor !in s.successor then Prefetched(s, 0, true)
    else
      var next := s.successor[cursor];
      if next in KeysOf(s.slow) then
        var r := PrefetchChain(Bring(s, next), next, budget - 1);
        PromoteThen(s, next, r);
        Prefetched(r.sim, 1 + r.promoted, Absorbs(s, next) && r.absorbed)
      else
        PrefetchChain(s, next, budget - 1)
  }

  /** Every key of the request that is resident anchors a chain. */
  ghost function PrefetchAnchors(s: Sim, anchors: seq<int>, budget: nat): (r: Prefetched)
    ensures PrefetchOk(s, r)
  {
    PrefetchOkStart(s);
    if anchors == [] then Prefetched(s, 0, true)
    else
      var before, anchor := PrefetchAnchors(s, anchors[..|anchors| - 1], budget), anchors[|anchors| - 1];
      if anchor in Resident(before.sim) then
        var r := PrefetchChain(before.sim, anchor, budget);
        PrefetchOkThen(s, before, r);
        Prefetched(r.sim, before.promoted + r.promoted, before.absorbed && r.absorbed)
      else before
  }

  /** Prefetching brings in nothing new. It loses at most one block per promotion, nothing if the
      slow tier is one pool, and nothing if and only if every promotion was absorbed. */
  ghost function Prefetch(s: Sim, ids: seq<int>): (r: Prefetched)
    ensures PrefetchOk(s, r)
  {
    PrefetchOkStart(s);
    if s.depth <= 0 then Prefetched(s, 0, true) else PrefetchAnchors(s, ids, |ids| + s.depth)
  }

  /** With one pool as slow tier, prefetching never changes which blocks are resident. */
  lemma PrefetchLossless(s: Sim, ids: seq<int>)
    requires SimOk(s) && Pooled(s.slow)
    ensures var r := Prefetch(s, ids).sim;
            SimOk(r) && SameBut(s, r) && Resident(r) == Resident(s)
  {
    NothingThinned(Resident(s), Resident(Prefetch(s, ids).sim));
  }

  lemma NothingThinned(before: set<int>, after: set<int>)
    requires Thinned(before, after, 0)
    ensures after == before
  {
    assert before - after == {};
  }

  // ------------------------------------------------ requests

  datatype Kind = FastHit | SlowHit | Miss

  ghost function KindOf(s: Sim, k: int): Kind {
    if k in KeysOf(s.fast) then FastHit else if k in KeysOf(s.slow) then SlowHit else Miss
  }

  ghost function Visit(s: Sim, k: int): Sim {
    if KindOf(s, k) == FastHit then s.(fast := Touch(s.fast, k)) else Bring(s, k)
  }

  /** The tiers after `k` was visited: still exclusive, with at most one block lost. */
  ghost predicate Visited(s: Sim, k: int, r: Sim) {
    SimOk(r) && SameBut(s, r) && Thinned(Resident(s) + {k}, Resident(r), 1)
  }

  lemma VisitHit(s: Sim, k: int)
    requires SimOk(s) && k in KeysOf(s.fast)
    ensures Visited(s, k, Visit(s, k)) && Resident(Visit(s, k)) == Resident(s) == Resident(s) + {k}
  {
    TouchFacts(s.fast, k);
    assert Resident(s) + {k} == Resident(s);
    ThinnedNot(Resident(s), 1);
  }

  lemma VisitBrings(s: Sim, k: int)
    requires SimOk(s) && k !in KeysOf(s.fast)
    ensures Visited(s, k, Visit(s, k))
    ensures Pooled(s.slow) && (k in KeysOf(s.slow) || SlowHolds(s, Resident(s) + {k})) ==>
              Resident(Visit(s, k)) == Resident(s) + {k}
  {
    BringFacts(s, k);
    if Pooled(s.slow) && (k in KeysOf(s.slow) || SlowHolds(s, Resident(s) + {k})) {
      PoolAbsorbs(s, k);
    }
  }

  /** A visit keeps the tiers exclusive and loses at most one block, none on a hit in the fast tier
      or in a slow tier that is one pool, and none while everything fits in such a slow tier. */
  lemma VisitFacts(s: Sim, k: int)
    requires SimOk(s)
    ensures Visited(s, k, Visit(s, k))
    ensures KindOf(s, k) == FastHit || (KindOf(s, k) == SlowHit && Pooled(s.slow)) ==>
              Resident(Visit(s, k)) == Resident(s)
    ensures SlowHolds(s, Resident(s) + {k}) ==> Resident(Visit(s, k)) == Resident(s) + {k}
    ensures KindOf(s, k) == Miss <==> k !in Resident(s)
  {
    if KindOf(s, k) == FastHit {
      VisitHit(s, k);
    } else {
      VisitBrings(s, k);
      if KindOf(s, k) == SlowHit {
        assert Resident(s) + {k} == Resident(s);
      }
    }
  }

  /** While everything fits in the slow tier, a visit only adds its key, and misses if it is new. */
  lemma VisitRemembers(s: Sim, k: int, seen: set<int>)
    requires SimOk(s) && Resident(s) == seen && SlowHolds(s, seen + {k})
    ensures SimOk(Visit(s, k)) && SameBut(s, Visit(s, k)) && Resident(Visit(s, k)) == seen + {k}
    ensures KindOf(s, k) == Miss <==> k !in seen
  {
    VisitFacts(s, k);
  }

  datatype Walked = Walked(sim: Sim, kinds: seq<Kind>)

  /** Visit the keys of a request in order, learning which key follows which. */
  ghost function Walk(s: Sim, ids: seq<int>): (w: Walked)
    ensures |w.kinds| == |ids|
  {
    if ids == [] then Walked(s, [])
    else
      var last := |ids| - 1;
      var w := Walk(s, ids[..last]);
      var r := Visit(w.sim, ids[last]);
      Walked(if last > 0 then r.(successor := r.successor[ids[last - 1] := ids[last]]) else r,
             w.kinds + [KindOf(w.sim, ids[last])])
  }

  ghost function Request(s: Sim, ids: seq<int>): Walked {
    Walk(Prefetch(s, ids).sim, ids)
  }

  function CountKind(kinds: seq<Kind>, kind: Kind): nat {
    if kinds == [] then 0 else CountKind(kinds[..|kinds| - 1], kind) + if kinds[|kinds| - 1] == kind then 1 else 0
  }

  ghost predicate SameShape(s: Sim, s': Sim) {
    SameSort(s.slow, s'.slow) && s'.depth == s.depth
  }

  lemma LossAdds(before: set<int>, mid: set<int>, after: set<int>)
    ensures |before - after| <= |before - mid| + |mid - after|
  {
    Subset(before - after, (before - mid) + (mid - after));
  }

  lemma LossStep(before: set<int>, mid: set<int>, after: set<int>, k: int, n: nat)
    requires |before - mid| <= n && Thinned(mid + {k}, after, 1)
    ensures |before - after| <= n + 1
    ensures after == mid ==> |before - after| <= n
  {
    LossAdds(before, mid, after);
    Subset(mid - after, mid + {k} - after);
  }

  /** Visiting a request keeps the tiers exclusive and loses at most one block per miss, and per
      hit in a slow tier that is not one pool. */
  lemma {:induction false} WalkLoses(s: Sim, ids: seq<int>)
    requires SimOk(s)
    ensures var w := Walk(s, ids);
            SimOk(w.sim) && SameShape(s, w.sim) &&
            LosesUpTo(s, w.sim, CountKind(w.kinds, Miss), CountKind(w.kinds, SlowHit))
  {
    if ids == [] {
      assert Resident(s) - Resident(s) == {};
    } else {
      var last := |ids| - 1;
      var w := Walk(s, ids[..last]);
      WalkLoses(s, ids[..last]);
      VisitFacts(w.sim, ids[last]);
      var kinds := Walk(s, ids).kinds;
      assert kinds[..|kinds| - 1] == w.kinds;
      LossStep(Resident(s), Resident(w.sim), Resident(Visit(w.sim, ids[last])), ids[last],
               CountKind(w.kinds, Miss) + MayLose(s, CountKind(w.kinds, SlowHit)));
    }
  }

  /** A whole request, prefetching included, loses at most as many blocks as it has misses, plus
      one for each promotion if the slow tier is not one pool. */
  lemma RequestLoses(s: Sim, ids: seq<int>)
    requires SimOk(s)
    ensures var w := Request(s, ids);
            SimOk(w.sim) && SameShape(s, w.sim) &&
            LosesUpTo(s, w.sim, CountKind(w.kinds, Miss), CountKind(w.kinds, SlowHit) + Prefetch(s, ids).promoted)
  {
    var p := Prefetch(s, ids);
    WalkLoses(p.sim, ids);
    var w := Walk(p.sim, ids);
    LosesThen(s, p.sim, w.sim, p.promoted, CountKind(w.kinds, Miss), CountKind(w.kinds, SlowHit));
  }

  /** At most `misses` blocks are lost, and one more for each move through a slow tier that is
      not one pool. */
  ghost predicate LosesUpTo(s: Sim, r: Sim, misses: nat, moves: nat) {
    |Resident(s) - Resident(r)| <= misses + MayLose(s, moves)
  }

  lemma LosesThen(s: Sim, p: Sim, r: Sim, n: nat, misses: nat, moves: nat)
    requires Thinner(s, p, n) && LosesUpTo(p, r, misses, moves)
    ensures LosesUpTo(s, r, misses, moves + n)
  {
    LossAdds(Resident(s), Resident(p), Resident(r));
  }

  /** Which positions of a request hold a key not in `seen` for the first time. */
  ghost predicate FirstsMiss(ids: seq<int>, kinds: seq<Kind>, seen: set<int>) {
    |kinds| == |ids| &&
    forall i :: 0 <= i < |ids| ==> (kinds[i] == Miss <==> ids[i] !in seen && ids[i] !in ids[..i])
  }

  lemma FirstsMissPush(ids: seq<int>, kinds: seq<Kind>, seen: set<int>, k: int, kind: Kind)
    requires FirstsMiss(ids, kinds, seen) && (kind == Miss <==> k !in seen + Keys(ids))
    ensures FirstsMiss(ids + [k], kinds + [kind], seen)
  {
    var ids' := ids + [k];
    forall i | 0 <= i < |ids'| ensures (kinds + [kind])[i] == Miss <==> ids'[i] !in seen && ids'[i] !in ids'[..i] {
      if i < |ids| {
        assert ids'[..i] == ids[..i];
      } else {
        assert ids'[..i] == ids;
        assert k in Keys(ids) <==> k in ids;
      }
    }
  }

  /** While everything seen fits in the slow tier, nothing is ever lost, and a block misses
      exactly at its first occurrence. */
  lemma {:induction false} WalkFirsts(s: Sim, ids: seq<int>, seen: set<int>)
    requires SimOk(s) && Resident(s) == seen && SlowHolds(s, seen + Keys(ids))
    ensures var w := Walk(s, ids);
            SimOk(w.sim) && SameShape(s, w.sim) && Resident(w.sim) == seen + Keys(ids) && FirstsMiss(ids, w.kinds, seen)
  {
    if ids != [] {
      var last := |ids| - 1;
      var w, front, k := Walk(s, ids[..last]), ids[..last], ids[last];
      assert ids == front + [k];
      KeysPlus(front, [k]);
      assert seen + Keys(ids) == seen + Keys(front) + {k};
      Subset(seen + Keys(front), seen + Keys(ids));
      WalkFirsts(s, front, seen);
      VisitRemembers(w.sim, k, seen + Keys(front));
      FirstsMissPush(front, w.kinds, seen, k, KindOf(w.sim, k));
    } else {
      assert seen + Keys(ids) == seen;
    }
  }

  ghost function Flat(requests: seq<seq<int>>): seq<int> {
    if requests == [] then [] else Flat(requests[..|requests| - 1]) + requests[|requests| - 1]
  }

  ghost function RunRequests(s: Sim, requests: seq<seq<int>>): Sim {
    if requests == [] then s
    else Request(RunRequests(s, requests[..|requests| - 1]), requests[|requests| - 1]).sim
  }

  /** Over any run the tiers stay exclusive and within bounds. */
  lemma {:induction false} RunExclusive(s: Sim, requests: seq<seq<int>>)
    requires SimOk(s)
    ensures SimOk(RunRequests(s, requests)) && SameShape(s, RunRequests(s, requests))
  {
    if requests != [] {
      RunExclusive(s, requests[..|requests| - 1]);
      RequestLoses(RunRequests(s, requests[..|requests| - 1]), requests[|requests| - 1]);
    }
  }

  /** If the distinct keys of a run fit in the slow tier, every block ever requested stays
      resident, and the next request misses exactly on keys never requested before. */
  lemma {:induction false} RunRemembers(s: Sim, requests: seq<seq<int>>)
    requires SimOk(s) && Resident(s) == {} && SlowHolds(s, Keys(Flat(requests)))
    ensures var r := RunRequests(s, requests);
            SimOk(r) && SameShape(s, r) && Resident(r) == Keys(Flat(requests))
    ensures requests != [] ==>
              var before, ids := Flat(requests[..|requests| - 1]), requests[|requests| - 1];
              var kinds := Request(RunRequests(s, requests[..|requests| - 1]), ids).kinds;
              FirstsMiss(ids, kinds, Keys(before))
  {
    if requests != [] {
      var front, ids := requests[..|requests| - 1], requests[|requests| - 1];
      KeysPlus(Flat(front), ids);
      Subset(Keys(Flat(front)), Keys(Flat(requests)));
      RunRemembers(s, front);
      var r := RunRequests(s, front);
      PrefetchLossless(r, ids);
      WalkFirsts(Prefetch(r, ids).sim, ids, Keys(Flat(front)));
    }
  }

  // ------------------------------------------------ the simulator object

  class Simulator {
    var fast: Policy
    var slow: Policy
    var successor: map<int, int>
    const depth: int

    ghost function View(): Sim
      reads this
    {
      Sim(fast, slow, successor, depth)
    }

    constructor (fastPolicy: Policy, slowPolicy: Policy, prefetchDepth: int)
      requires PolicyOk(fastPolicy) && KeysOf(fastPolicy) == {} && PolicyOk(slowPolicy) && KeysOf(slowPolicy) == {}
      ensures SimOk(View()) && Resident(View()) == {}
      ensures View() == Sim(fastPolicy, slowPolicy, map[], prefetchDepth)
    {
      fast, slow, successor := fastPolicy, slowPolicy, map[];
      depth := prefetchDepth;
    }

    /** Admit a key to the fast tier; each key the policy evicts is handed to the slow tier. */
    method AdmitFast(k: int)
      modifies this`fast, this`slow
      ensures fast == Admit(old(fast), k).policy
      ensures slow == Demote(old(slow), Admit(old(fast), k).evicted)
    {
      var a := Admit(fast, k);
      fast := a.policy;
      for i := 0 to |a.evicted|
        invariant fast == a.policy
        invariant Demote(slow, a.evicted[i..]) == Demote(old(slow), a.evicted)
      {
        assert a.evicted[i..][1..] == a.evicted[i + 1..];
        slow := Admit(slow, a.evicted[i]).policy;
      }
    }

    /** Promote the slow keys on one chain; returns how many. */
    method FollowChain(anchor: int, budget: nat) returns (promoted: nat)
      modifies this`fast, this`slow
      ensures var r := PrefetchChain(old(View()), anchor, budget);
              View() == r.sim && promoted == r.promoted
    {
      promoted := 0;
      ghost var goal := PrefetchChain(View(), anchor, budget);
      var cursor, left := anchor, budget;
      while left > 0 && cursor in successor
        invariant left >= 0 && PrefetchChain(View(), cursor, left).sim == goal.sim
        invariant promoted + PrefetchChain(View(), cursor, left).promoted == goal.promoted
        decreases left
      {
        var next := successor[cursor];
        if Has(slow, next) {
          slow := Remove(slow, next);
          AdmitFast(next);
          promoted := promoted + 1;
        }
        cursor, left := next, left - 1;
      }
    }

    /** Promote the slow keys on the chains from the resident anchors; returns how many. */
    method FollowChains(anchors: seq<int>, budget: nat) returns (promoted: nat)
      modifies this`fast, this`slow
      ensures var r := PrefetchAnchors(old(View()), anchors, budget);
              View() == r.sim && promoted == r.promoted
    {
      promoted := 0;
      ghost var done := PrefetchAnchors(View(), anchors[..0], budget);
      for a := 0 to |anchors|
        invariant done == PrefetchAnchors(old(View()), anchors[..a], budget)
        invariant View() == done.sim && promoted == done.promoted
      {
        AnchorsPush(old(View()), anchors, a, budget);
        if Has(fast, anchors[a]) || Has(slow, anchors[a]) {
          var n := FollowChain(anchors[a], budget);
          promoted := promoted + n;
        }
        done := PrefetchAnchors(old(View()), anchors[..a + 1], budget);
      }
      assert anchors[..|anchors|] == anchors;
    }

    /** Prefetch for a request, if prefetching is on. */
    method PrefetchForRequest(ids: seq<int>) returns (promoted: nat)
      modifies this`fast, this`slow
      ensures var r := Prefetch(old(View()), ids);
              View() == r.sim && promoted == r.promoted
    {
      if depth <= 0 || ids == [] {
        return 0;
      }
      promoted := FollowChains(ids, |ids| + depth);
    }

    /** Access one key of a request. */
    method VisitKey(k: int) returns (kind: Kind)
      modifies this`fast, this`slow
      ensures View() == Visit(old(View()), k) && kind == KindOf(old(View()), k)
    {
      if Has(fast, k) {
        fast := Touch(fast, k);
        return FastHit;
      }
      kind := if Has(slow, k) then SlowHit else Miss;
      if Has(slow, k) {
        slow := Remove(slow, k);
      }
      AdmitFast(k);
    }

    method ReplayKeys(ids: seq<int>) returns (fastHits: nat, slowHits: nat, misses: nat, blockHits: seq<bool>)
      modifies this
      ensures View() == Walk(old(View()), ids).sim
      ensures Reports(Walk(old(View()), ids).kinds, fastHits, slowHits, misses, blockHits)
    {
      ghost var kinds: seq<Kind> := [];
      fastHits, slowHits, misses, blockHits := 0, 0, 0, [];
      for i := 0 to |ids|
        invariant Walked(View(), kinds) == Walk(old(View()), ids[..i])
        invariant Reports(kinds, fastHits, slowHits, misses, blockHits)
      {
        WalkPush(old(View()), ids, i);
        var kind := VisitKey(ids[i]);
        ReportsPush(kinds, fastHits, slowHits, misses, blockHits, kind);
        kinds := kinds + [kind];
        fastHits := fastHits + if kind == FastHit then 1 else 0;
        slowHits := slowHits + if kind == SlowHit then 1 else 0;
        misses := misses + if kind == Miss then 1 else 0;
        blockHits := blockHits + [kind != Miss];
        if i > 0 {
          successor := successor[ids[i - 1] := ids[i]];
        }
      }
      assert ids[..|ids|] == ids;
    }

    /** Replay one request: prefetch, then access its keys in order. */
    method ProcessRequest(ids: seq<int>) returns (fastHits: nat, slowHits: nat, misses: nat, blockHits: seq<bool>)
      requires SimOk(View())
      modifies this
      ensures SimOk(View()) && View() == Request(old(View()), ids).sim
      ensures Reports(Request(old(View()), ids).kinds, fastHits, slowHits, misses, blockHits)
    {
      RequestLoses(View(), ids);
      var promoted := PrefetchForRequest(ids);
      fastHits, slowHits, misses, blockHits := ReplayKeys(ids);
    }
  }

  /** The counters of a request's outcome, tied to what happened to each key. */
  ghost predicate Reports(kinds: seq<Kind>, fastHits: nat, slowHits: nat, misses: nat, blockHits: seq<bool>) {
    fastHits == CountKind(kinds, FastHit) && slowHits == CountKind(kinds, SlowHit) &&
    misses == CountKind(kinds, Miss) &&
    fastHits + slowHits + misses == |kinds| == |blockHits| &&
    forall i :: 0 <= i < |kinds| ==> blockHits[i] == (kinds[i] != Miss)
  }

  lemma ReportsPush(kinds: seq<Kind>, fastHits: nat, slowHits: nat, misses: nat, blockHits: seq<bool>, kind: Kind)
    requires Reports(kinds, fastHits, slowHits, misses, blockHits)
    ensures Reports(kinds + [kind], fastHits + (if kind == FastHit then 1 else 0),
                    slowHits + (if kind == SlowHit then 1 else 0),
                    misses + (if kind == Miss then 1 else 0), blockHits + [kind != Miss])
  {
    CountKindPush(kinds, kind);
  }

  lemma CountKindPush(kinds: seq<Kind>, kind: Kind)
    ensures forall k: Kind :: CountKind(kinds + [kind], k) == CountKind(kinds, k) + if kind == k then 1 else 0
  {
    assert (kinds + [kind])[..|kinds|] == kinds;
  }

  lemma AnchorsPush(s: Sim, ids: seq<int>, a: nat, budget: nat)
    requires a < |ids|
    ensures var before, after := PrefetchAnchors(s, ids[..a], budget), PrefetchAnchors(s, ids[..a + 1], budget);
            if ids[a] !in Resident(before.sim) then after == before
            else
              var r := PrefetchChain(before.sim, ids[a], budget);
              after.sim == r.sim && after.promoted == before.promoted + r.promoted
  {
    assert ids[..a + 1][..a] == ids[..a];
  }

  lemma WalkPush(s: Sim, ids: seq<int>, i: nat)
    requires i < |ids|
    ensures var w := Walk(s, ids[..i]);
            var r := Visit(w.sim, ids[i]);
            Walk(s, ids[..i + 1]) ==
            Walked(if i > 0 then r.(successor := r.successor[ids[i - 1] := ids[i]]) else r,
                   w.kinds + [KindOf(w.sim, ids[i])])
  {
    assert ids[..i + 1][..i] == ids[..i];
  }
}
