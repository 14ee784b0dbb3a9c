/** Capacity: in every reachable state every tier is within its eviction threshold. */
module StoreCapacity {
  import opened Blocks
  import opened Tiers
  import opened Totals
  import opened StoreModel
  import opened StoreInvariant

  ghost predicate Bounded(s: Store) {
    forall u: Tier :: Used(s, u) <= Limit(s, u)
  }

  ghost function Restrict(m: BlockMap, t: Tier): BlockMap {
    map k | k in m && m[k].entry.tier == t :: m[k]
  }

  lemma {:induction false} TotalRestrict(g: Gauge, m: BlockMap)
    ensures Total(g, m) == Total(g, Restrict(m, g.tier))
    decreases |m|
  {
    if m == map[] {
      assert Restrict(m, g.tier) == map[];
    } else {
      var k :| k in m;
      Smaller(m, k);
      TotalRemove(g, m, k);
      TotalRestrict(g, m - {k});
      if m[k].entry.tier == g.tier {
        TotalRemove(g, Restrict(m, g.tier), k);
        assert Restrict(m, g.tier) - {k} == Restrict(m - {k}, g.tier);
      } else {
        assert Restrict(m, g.tier) == Restrict(m - {k}, g.tier);
      }
    }
  }

  lemma RestrictFaster(m: BlockMap, m': BlockMap, t: Tier, u: Tier)
    requires SameFaster(m, m', t) && u < t
    ensures Restrict(m, u) == Restrict(m', u)
  {
    var r, r' := Restrict(m, u), Restrict(m', u);
    forall k ensures (k in r <==> k in r') && (k in r ==> r[k] == r'[k]) {
      assert (k in m && m[k].entry.tier < t) <==> (k in m' && m'[k].entry.tier < t);
    }
  }

  /** Changes confined to tier `t` and slower leave the gauges of faster tiers alone. */
  lemma FasterTotals(m: BlockMap, m': BlockMap, t: Tier, g: Gauge)
    requires SameFaster(m, m', t) && g.tier < t
    ensures Total(g, m) == Total(g, m')
  {
    TotalRestrict(g, m);
    TotalRestrict(g, m');
    RestrictFaster(m, m', t, g.tier);
  }

  /** An eviction moves the victim's bytes from its tier to the landing tier. */
  lemma EvictUsed(s: Store, t: Tier, u: Tier)
    requires Pick(s, t).victim.Some?
    ensures var size := s.blocks[Victim(s, t)].entry.size;
            Used(Evict(s, t), u) + (if u == t then size else 0) ==
            Used(s, u) + (if LandingTier(s, t) == Some(u) then size else 0)
  {
    PickFrame(s, t);
    var g, m, v := TierBytes(u), Pick(s, t).store.blocks, Victim(s, t);
    TotalAgree(g, s.blocks, g, m);
    TotalRemove(g, m, v);
    if LandingTier(s, t).Some? {
      TotalInsert(g, m, v, Evict(s, t).blocks[v]);
    }
  }

  /** The recursive enforcement leaves tiers faster than the landing tier alone. */
  lemma NextUsed(s: Store, t: Tier, u: Tier)
    requires Pick(s, t).victim.Some? && (LandingTier(s, t).None? || u < LandingTier(s, t).value)
    ensures Used(Next(s, t), u) == Used(Evict(s, t), u)
  {
    if LandingTier(s, t).Some? {
      FasterTotals(Evict(s, t).blocks, Next(s, t).blocks, LandingTier(s, t).value, TierBytes(u));
    }
  }

  /** Enforcing a tier whose slower tiers are within bounds brings it, and leaves them, within bounds. */
  lemma {:induction false} EnforceBounds(s: Store, t: Tier)
    requires Inv(s) && forall u: Tier :: u > t ==> Used(s, u) <= Limit(s, u)
    ensures forall u: Tier :: u >= t ==> Used(Enforce(s, t).store, u) <= Limit(s, u)
    decreases 3 - t, |KeysAt(s.blocks, t)|
  {
    if Used(s, t) > Limit(s, t) {
      Step(s, t);
      var landing := LandingTier(s, t);
      forall u: Tier | u > t && landing != Some(u) ensures Used(Evict(s, t), u) <= Limit(s, u) {
        EvictUsed(s, t, u);
      }
      if landing.Some? {
        EnforceBounds(Evict(s, t), landing.value);
      }
      forall u: Tier | u > t && (landing.None? || u < landing.value) ensures Used(Next(s, t), u) <= Limit(s, u) {
        NextUsed(s, t, u);
      }
      EnforceBounds(Next(s, t), t);
    }
  }

  lemma EnforceAllBounded(s: Store, t: Tier)
    requires Inv(s) && forall u: Tier :: u != t ==> Used(s, u) <= Limit(s, u)
    ensures Bounded(Enforce(s, t).store)
  {
    EnforceBounds(s, t);
    forall u: Tier | u < t ensures Used(Enforce(s, t).store, u) <= Limit(s, u) {
      FasterTotals(s.blocks, Enforce(s, t).store.blocks, t, TierBytes(u));
    }
  }

  lemma AdmitUsed(s: Store, block: KVCacheBlock, t: Tier, tenant: nat, u: Tier)
    ensures Used(Admit(s, block, t, tenant), u) <= Used(s, u) + (if u == t then BlockSize(block) else 0)
  {
    var b := Admit(s, block, t, tenant).blocks[block.key];
    TotalInsert(TierBytes(u), s.blocks, block.key, b);
    if block.key in s.blocks {
      TotalRemove(TierBytes(u), s.blocks, block.key);
    }
  }

  lemma PlaceBounded(s: Store, block: KVCacheBlock, t: Tier, tenant: nat)
    requires Inv(s) && Bounded(s) && Configured(s.cfg, t)
    ensures Bounded(Place(s, block, t, tenant).store)
  {
    AdmitInv(s, block, t, tenant);
    forall u: Tier { AdmitUsed(s, block, t, tenant, u); }
    if BlockSize(block) <= Limit(s, t) {
      EnforceAllBounded(Admit(s, block, t, tenant), t);
    }
  }

  lemma TouchUsed(s: Store, k: BlockKey, u: Tier)
    requires k in s.blocks
    ensures Used(Touch(s, k), u) == Used(s, u)
  {
    TotalInsert(TierBytes(u), s.blocks, k, Touch(s, k).blocks[k]);
  }

  /** A promotion moves the block's bytes from its tier to the fastest tier. */
  lemma PromoteUsed(s: Store, k: BlockKey, fast: Tier, u: Tier)
    requires k in s.blocks && s.blocks[k].entry.tier != fast
    ensures var size := s.blocks[k].entry.size;
            Used(Promote(s, k, fast), u) + (if u == s.blocks[k].entry.tier then size else 0) ==
            Used(s, u) + (if u == fast then size else 0)
  {
    TotalInsert(TierBytes(u), s.blocks, k, Promote(s, k, fast).blocks[k]);
    TotalRemove(TierBytes(u), s.blocks, k);
  }

  lemma ReadBounded(s: Store, k: BlockKey)
    requires Inv(s) && Bounded(s)
    ensures Bounded(Read(s, k).store)
  {
    if k in s.blocks {
      TouchInv(s, k);
      forall u: Tier { TouchUsed(s, k, u); }
      if ReadPromotes(s, k) {
        var fast := Fastest(s.cfg).value;
        PromoteInv(Touch(s, k), k, fast);
        forall u: Tier { PromoteUsed(Touch(s, k), k, fast, u); }
        EnforceAllBounded(Promote(Touch(s, k), k, fast), fast);
      }
    }
  }

  lemma {:induction false} PrefetchBounded(s: Store, keys: seq<BlockKey>, fast: Tier)
    requires Inv(s) && Bounded(s) && Configured(s.cfg, fast)
    ensures Bounded(PrefetchAll(s, keys, fast).store)
    decreases |keys|
  {
    if keys != [] {
      if PrefetchMoves(s, keys[0], fast) {
        PlaceInv(s, s.blocks[keys[0]].block, fast, s.blocks[keys[0]].entry.tenant);
        PlaceBounded(s, s.blocks[keys[0]].block, fast, s.blocks[keys[0]].entry.tenant);
      }
      PrefetchBounded(PrefetchOne(s, keys[0], fast).store, keys[1..], fast);
    }
  }

  /** Every operation, whether or not it succeeds, keeps every tier within its threshold. */
  lemma ApplyBounded(s: Store, op: Op)
    requires Inv(s) && Bounded(s)
    ensures Bounded(Apply(s, op))
  {
    match op
    case WriteOp(block, target, tenant) =>
      if Resolve(s.cfg, target).Some? {
        PlaceBounded(s, block, Resolve(s.cfg, target).value, tenant);
      }
    case ReadOp(k) => ReadBounded(s, k);
    case PrefetchOp(keys) =>
      if Fastest(s.cfg).Some? {
        PrefetchBounded(s, keys, Fastest(s.cfg).value);
      }
    case EnforceOp(t) =>
  }

  /** In every reachable state every tier is within its threshold and its capacity,
      so enforcing a capacity between operations changes nothing. */
  lemma {:induction false} RunBounded(cfg: Config, ops: seq<Op>)
    ensures Bounded(Run(Empty(cfg), ops))
    ensures forall u: Tier :: Used(Run(Empty(cfg), ops), u) <= CapacityOf(cfg, u)
    ensures forall u: Tier :: Apply(Run(Empty(cfg), ops), EnforceOp(u)) == Run(Empty(cfg), ops)
    decreases |ops|
  {
    RunInv(cfg, ops);
    if ops != [] {
      var before := Run(Empty(cfg), ops[..|ops| - 1]);
      RunBounded(cfg, ops[..|ops| - 1]);
      RunInv(cfg, ops[..|ops| - 1]);
      ApplyBounded(before, ops[|ops| - 1]);
    }
  }
}
