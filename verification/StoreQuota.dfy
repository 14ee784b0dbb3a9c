/** Tenant isolation: where a tier's threshold covers the shares of its tenants in whole bytes, a tenant
    that stays within its weighted share never loses a block to other tenants' traffic. */
module StoreQuota {
  import opened Blocks
  import opened Tiers
  import opened Totals
  import opened VictimOrder
  import opened Accounting
  import opened StoreModel
  import opened StoreInvariant
  import opened StoreContents

  /** The whole bytes of a tenant's share of a tier. */
  ghost function ShareBytes(cfg: Config, t: Tier, id: nat): nat {
    ShareNonNegative(cfg, id, t);
    Share(cfg, id, t).Floor
  }

  /** An owner within its share owns no more than those. */
  lemma WholeBytes(cfg: Config, t: Tier, id: nat, bytes: nat)
    ensures bytes <= ShareBytes(cfg, t, id) <==> bytes as real <= Share(cfg, id, t)
  {
    FloorGalois(bytes, Share(cfg, id, t));
  }

  ghost function ShareSum(cfg: Config, t: Tier, ids: set<nat>): nat {
    if ids == {} then 0 else
      var id :| id in ids;
      ShareBytes(cfg, t, id) + ShareSum(cfg, t, ids - {id})
  }

  /** Quotas are on, and down to tier `u` every tier's threshold covers the shares of all its tenants. */
  ghost predicate Covered(cfg: Config, u: Tier) {
    QuotaEnabled(cfg) && forall t: Tier :: t <= u ==> ShareSum(cfg, t, cfg.tenantWeights.Keys) <= Threshold(cfg, t)
  }

  // ------------------------------------------------ pigeonhole

  ghost predicate WithinShare(s: Store, t: Tier, id: nat) {
    Total(TenantBytes(t, id), s.blocks) as real <= Share(s.cfg, id, t)
  }

  /** The part of a tier that belongs to a group of registered tenants. */
  ghost function Portion(cfg: Config, t: Tier, ids: set<nat>): real
    requires ids <= cfg.tenantWeights.Keys
  {
    var total := WeightSum(cfg.tenantWeights, cfg.tenantWeights.Keys);
    if total <= 0.0 then 0.0 else Fraction(CapacityOf(cfg, t), WeightSum(cfg.tenantWeights, ids), total)
  }

  lemma Distribute(c: nat, a: real, b: real, sum: real, d: real)
    requires d > 0.0 && sum == a + b
    ensures Fraction(c, a, d) + Fraction(c, b, d) == Fraction(c, sum, d)
  {
    var x := c as real;
    assert x * sum == x * (a + b) == x * a + x * b;
    AddFractions(x * a, x * b, d);
  }

  lemma AddFractions(x: real, y: real, d: real)
    requires d > 0.0
    ensures x / d + y / d == (x + y) / d
  {
  }

  lemma PortionSplit(cfg: Config, t: Tier, ids: set<nat>, id: nat, sum: real, rest: real)
    requires ids <= cfg.tenantWeights.Keys && id in ids
    requires sum == WeightSum(cfg.tenantWeights, ids) && rest == WeightSum(cfg.tenantWeights, ids - {id})
    requires sum == cfg.tenantWeights[id] + rest
    ensures Portion(cfg, t, ids) == Share(cfg, id, t) + Portion(cfg, t, ids - {id})
  {
    var total := WeightSum(cfg.tenantWeights, cfg.tenantWeights.Keys);
    if total > 0.0 {
      Distribute(CapacityOf(cfg, t), cfg.tenantWeights[id], rest, sum, total);
    }
  }

  lemma PortionWhole(cfg: Config, t: Tier)
    ensures Portion(cfg, t, cfg.tenantWeights.Keys) <= CapacityOf(cfg, t) as real
  {
    var total := WeightSum(cfg.tenantWeights, cfg.tenantWeights.Keys);
    if total > 0.0 {
      assert CapacityOf(cfg, t) as real * total / total == CapacityOf(cfg, t) as real;
    }
  }

  lemma {:induction false} ShareSumBound(cfg: Config, t: Tier, ids: set<nat>)
    requires ids <= cfg.tenantWeights.Keys
    ensures ShareSum(cfg, t, ids) as real <= Portion(cfg, t, ids)
  {
    var weights := cfg.tenantWeights;
    if ids == {} {
      assert Portion(cfg, t, ids) == 0.0;
    } else {
      var id :| id in ids && ShareSum(cfg, t, ids) == ShareBytes(cfg, t, id) + ShareSum(cfg, t, ids - {id});
      ShareSumBound(cfg, t, ids - {id});
      WholeBytes(cfg, t, id, ShareBytes(cfg, t, id));
      WeightSumRemove(weights, ids, id);
      PortionSplit(cfg, t, ids, id, WeightSum(weights, ids), WeightSum(weights, ids - {id}));
    }
  }

  /** With thresholds at capacity every tier is covered. */
  lemma RatioCovers(cfg: Config, u: Tier)
    requires QuotaEnabled(cfg) && cfg.highWaterRatio >= 1.0
    ensures Covered(cfg, u)
  {
    forall t: Tier ensures ShareSum(cfg, t, cfg.tenantWeights.Keys) <= Threshold(cfg, t) {
      ShareSumBound(cfg, t, cfg.tenantWeights.Keys);
      PortionWhole(cfg, t);
    }
  }

  /** Tenants that are each within their share together own no more than their whole bytes. */
  lemma {:induction false} GroupWithin(s: Store, t: Tier, ids: set<nat>)
    requires forall id :: id in ids ==> WithinShare(s, t, id)
    ensures Total(GroupBytes(t, ids), s.blocks) <= ShareSum(s.cfg, t, ids)
  {
    if ids == {} {
      if Total(GroupBytes(t, ids), s.blocks) > 0 {
        var k := TotalPositive(GroupBytes(t, ids), s.blocks);
        assert false;
      }
    } else {
      var id :| id in ids && ShareSum(s.cfg, t, ids) == ShareBytes(s.cfg, t, id) + ShareSum(s.cfg, t, ids - {id});
      GroupWithin(s, t, ids - {id});
      TotalSplit(GroupBytes(t, ids), TenantBytes(t, id), GroupBytes(t, ids - {id}), s.blocks);
      assert WithinShare(s, t, id);
      WholeBytes(s.cfg, t, id, Total(TenantBytes(t, id), s.blocks));
    }
  }

  /** If every tenant is within its share, the tier holds no more than the shares in whole bytes. */
  lemma AllWithin(s: Store, t: Tier)
    requires forall id :: id in TenantsAt(s.blocks, t) ==> WithinShare(s, t, id)
    ensures Used(s, t) <= ShareSum(s.cfg, t, s.cfg.tenantWeights.Keys)
  {
    var ids := s.cfg.tenantWeights.Keys;
    forall k | k in s.blocks && s.blocks[k].entry.tier == t && s.blocks[k].entry.tenant !in ids
      ensures s.blocks[k].entry.size == 0
    {
      var id := s.blocks[k].entry.tenant;
      assert id in TenantsAt(s.blocks, t);
      TotalRemove(TenantBytes(t, id), s.blocks, k);
      assert Share(s.cfg, id, t) == 0.0;
    }
    TotalAgree(TierBytes(t), s.blocks, GroupBytes(t, ids), s.blocks);
    forall id | id in ids ensures WithinShare(s, t, id) {
      if id !in TenantsAt(s.blocks, t) {
        AbsentTenant(s, t, id);
      }
    }
    GroupWithin(s, t, ids);
  }

  lemma ShareNonNegative(cfg: Config, id: nat, t: Tier)
    ensures Share(cfg, id, t) >= 0.0
  {
    var total := WeightSum(cfg.tenantWeights, cfg.tenantWeights.Keys);
    if total > 0.0 && id in cfg.tenantWeights {
      assert CapacityOf(cfg, t) as real * cfg.tenantWeights[id] >= 0.0;
    }
  }

  lemma AbsentTenant(s: Store, t: Tier, id: nat)
    requires id !in TenantsAt(s.blocks, t)
    ensures WithinShare(s, t, id)
  {
    ShareNonNegative(s.cfg, id, t);
    if Total(TenantBytes(t, id), s.blocks) > 0 {
      var k := TotalPositive(TenantBytes(t, id), s.blocks);
      assert false;
    }
  }

  ghost predicate IsWorstOf(s: Store, t: Tier, ids: set<nat>, id: nat) {
    id in ids &&
    forall j :: j in ids ==>
      Overage(s, j, t) < Overage(s, id, t) || (Overage(s, j, t) == Overage(s, id, t) && id <= j)
  }

  lemma {:induction false} WorstExists(s: Store, t: Tier, ids: set<nat>)
    requires ids != {}
    ensures exists id :: IsWorstOf(s, t, ids, id)
  {
    var j :| j in ids;
    if ids == {j} {
      assert IsWorstOf(s, t, ids, j);
    } else {
      WorstExists(s, t, ids - {j});
      var id :| IsWorstOf(s, t, ids - {j}, id);
      var over := Overage(s, id, t) - Overage(s, j, t);
      assert ids == (ids - {j}) + {j};
      assert IsWorstOf(s, t, ids, if over > 0.0 || (over == 0.0 && id <= j) then id else j);
    }
  }

  /** A covered tier over its threshold has a tenant over its share, so the quota policy
      decides every eviction and the global fallback is never taken. */
  lemma QuotaDecides(s: Store, t: Tier)
    requires Covered(s.cfg, t) && Used(s, t) > Limit(s, t)
    ensures Pick(s, t) == QuotaPick(s, t) && Pick(s, t).victim.Some? && WorstTenant(s, t).Some?
    ensures s.blocks[Victim(s, t)].entry.tenant == WorstTenant(s, t).value
    ensures !WithinShare(s, t, WorstTenant(s, t).value)
  {
    if forall id :: id in TenantsAt(s.blocks, t) ==> WithinShare(s, t, id) {
      AllWithin(s, t);
      assert false;
    }
    var over :| over in TenantsAt(s.blocks, t) && !WithinShare(s, t, over);
    WorstExists(s, t, TenantsAt(s.blocks, t));
    var id :| IsWorstOf(s, t, TenantsAt(s.blocks, t), id);
    assert IsWorst(s, t, id);
    var worst := WorstTenant(s, t).value;
    TenantIndexNonempty(s.blocks, t, worst);
    assert First(TenantIndexOf(s.blocks, t, worst)) in TenantIndexOf(s.blocks, t, worst);
  }

  // ------------------------------------------------ isolation

  /** A tenant's blocks in tier `u` and faster. */
  ghost function Part(m: BlockMap, u: Tier, id: nat): BlockMap {
    map k | k in m && m[k].entry.tier <= u && m[k].entry.tenant == id :: m[k]
  }

  lemma {:induction false} TotalPart(m: BlockMap, u: Tier, id: nat, t: Tier)
    requires t <= u
    ensures Total(TenantBytes(t, id), m) == Total(TenantBytes(t, id), Part(m, u, id))
    decreases |m|
  {
    var g := TenantBytes(t, id);
    if m == map[] {
      assert Part(m, u, id) == map[];
    } else {
      var k :| k in m;
      Smaller(m, k);
      TotalRemove(g, m, k);
      TotalPart(m - {k}, u, id, t);
      if k in Part(m, u, id) {
        TotalRemove(g, Part(m, u, id), k);
        assert Part(m, u, id) - {k} == Part(m - {k}, u, id);
      } else {
        assert Part(m, u, id) == Part(m - {k}, u, id);
      }
    }
  }

  /** The tenant is within its share in every tier from the fastest to `u`. */
  ghost predicate Modest(s: Store, u: Tier, id: nat) {
    forall t: Tier :: t <= u ==> WithinShare(s, t, id)
  }

  lemma ModestKept(s: Store, s': Store, u: Tier, id: nat)
    requires Modest(s, u, id) && s'.cfg == s.cfg && Part(s'.blocks, u, id) == Part(s.blocks, u, id)
    ensures Modest(s', u, id)
  {
    forall t: Tier | t <= u ensures WithinShare(s', t, id) {
      TotalPart(s.blocks, u, id, t);
      TotalPart(s'.blocks, u, id, t);
      assert WithinShare(s, t, id);
    }
  }

  lemma EvictShields(s: Store, t: Tier, u: Tier, id: nat)
    requires Covered(s.cfg, u) && Used(s, t) > Limit(s, t) && Modest(s, u, id) && t <= u
    ensures Pick(s, t).victim.Some? && Part(Evict(s, t).blocks, u, id) == Part(s.blocks, u, id)
  {
    QuotaDecides(s, t);
    assert WithinShare(s, t, id);
  }

  lemma PartFaster(m: BlockMap, m': BlockMap, t: Tier, u: Tier, id: nat)
    requires SameFaster(m, m', t) && u < t
    ensures Part(m, u, id) == Part(m', u, id)
  {
    var p, p' := Part(m, u, id), Part(m', u, id);
    forall k ensures (k in p <==> k in p') && (k in p ==> p[k] == p'[k]) {
      assert (k in m && m[k].entry.tier < t) <==> (k in m' && m'[k].entry.tier < t);
    }
  }

  /** A whole cascade of evictions spares a modest tenant. */
  lemma {:induction false} EnforceShields(s: Store, t: Tier, u: Tier, id: nat)
    requires Inv(s) && Covered(s.cfg, u) && Modest(s, u, id)
    ensures Part(Enforce(s, t).store.blocks, u, id) == Part(s.blocks, u, id)
    decreases 3 - t, |KeysAt(s.blocks, t)|
  {
    if u < t {
      PartFaster(s.blocks, Enforce(s, t).store.blocks, t, u, id);
    } else if Used(s, t) > Limit(s, t) {
      Step(s, t);
      EvictShields(s, t, u, id);
      ModestKept(s, Evict(s, t), u, id);
      if LandingTier(s, t).Some? {
        EnforceShields(Evict(s, t), LandingTier(s, t).value, u, id);
      }
      ModestKept(s, Next(s, t), u, id);
      EnforceShields(Next(s, t), t, u, id);
    }
  }

  /** All keys the tenant owns are among `keys`. */
  ghost predicate OwnsOnly(m: BlockMap, id: nat, keys: set<BlockKey>) {
    forall k :: k in m && m[k].entry.tenant == id ==> k in keys
  }

  /** The operation neither writes for the tenant nor names any key in `keys`. */
  ghost predicate Foreign(op: Op, id: nat, keys: set<BlockKey>) {
    match op
    case WriteOp(block, _, tenant) => tenant != id && block.key !in keys
    case ReadOp(k) => k !in keys
    case PrefetchOp(ks) => forall i :: 0 <= i < |ks| ==> ks[i] !in keys
    case EnforceOp(_) => true
  }

  ghost predicate Safe(s: Store, s': Store, u: Tier, id: nat, keys: set<BlockKey>) {
    s'.cfg == s.cfg && Part(s'.blocks, u, id) == Part(s.blocks, u, id) && OwnsOnly(s'.blocks, id, keys)
  }

  lemma EnforceSafe(s: Store, t: Tier, u: Tier, id: nat, keys: set<BlockKey>)
    requires Inv(s) && Covered(s.cfg, u) && Modest(s, u, id) && OwnsOnly(s.blocks, id, keys)
    ensures Safe(s, Enforce(s, t).store, u, id, keys)
  {
    EnforceShields(s, t, u, id);
    EnforceFewer(s, t);
  }

  lemma TouchPart(s: Store, k: BlockKey, u: Tier, id: nat, keys: set<BlockKey>)
    requires k in s.blocks && OwnsOnly(s.blocks, id, keys) && k !in keys
    ensures Part(Touch(s, k).blocks, u, id) == Part(s.blocks, u, id)
  {
  }

  lemma PromotePart(s: Store, k: BlockKey, fast: Tier, u: Tier, id: nat)
    requires k in s.blocks && s.blocks[k].entry.tenant != id
    ensures Part(Promote(s, k, fast).blocks, u, id) == Part(s.blocks, u, id)
  {
  }

  lemma AdmitPart(s: Store, block: KVCacheBlock, t: Tier, tenant: nat, u: Tier, id: nat, keys: set<BlockKey>)
    requires OwnsOnly(s.blocks, id, keys) && tenant != id && block.key !in keys
    ensures Part(Admit(s, block, t, tenant).blocks, u, id) == Part(s.blocks, u, id)
    ensures OwnsOnly(Admit(s, block, t, tenant).blocks, id, keys)
  {
  }

  lemma FewerOwned(m: BlockMap, m': BlockMap, id: nat, keys: set<BlockKey>)
    requires Fewer(m, m') && OwnsOnly(m, id, keys)
    ensures OwnsOnly(m', id, keys)
  {
  }

  lemma PlaceSafe(s: Store, block: KVCacheBlock, t: Tier, tenant: nat, u: Tier, id: nat, keys: set<BlockKey>)
    requires Inv(s) && Covered(s.cfg, u) && Modest(s, u, id) && OwnsOnly(s.blocks, id, keys)
    requires Configured(s.cfg, t) && tenant != id && block.key !in keys
    ensures Safe(s, Place(s, block, t, tenant).store, u, id, keys)
  {
    var a := Admit(s, block, t, tenant);
    AdmitInv(s, block, t, tenant);
    AdmitPart(s, block, t, tenant, u, id, keys);
    ModestKept(s, a, u, id);
    EnforceSafe(a, t, u, id, keys);
  }

  lemma ReadSafe(s: Store, k: BlockKey, u: Tier, id: nat, keys: set<BlockKey>)
    requires Inv(s) && Covered(s.cfg, u) && Modest(s, u, id) && OwnsOnly(s.blocks, id, keys) && k !in keys
    ensures Safe(s, Read(s, k).store, u, id, keys)
  {
    if k in s.blocks {
      var touched := Touch(s, k);
      TouchInv(s, k);
      TouchPart(s, k, u, id, keys);
      if ReadPromotes(s, k) {
        var fast := Fastest(s.cfg).value;
        var p := Promote(touched, k, fast);
        PromoteInv(touched, k, fast);
        PromotePart(touched, k, fast, u, id);
        ModestKept(s, p, u, id);
        EnforceSafe(p, fast, u, id, keys);
      }
    }
  }

  lemma {:induction false} PrefetchSafe(s: Store, ks: seq<BlockKey>, fast: Tier, u: Tier, id: nat, keys: set<BlockKey>)
    requires Inv(s) && Covered(s.cfg, u) && Modest(s, u, id) && OwnsOnly(s.blocks, id, keys)
    requires Configured(s.cfg, fast) && forall i :: 0 <= i < |ks| ==> ks[i] !in keys
    ensures Safe(s, PrefetchAll(s, ks, fast).store, u, id, keys)
    decreases |ks|
  {
    if ks != [] {
      var next := PrefetchOne(s, ks[0], fast).store;
      assert ks[0] !in keys;
      if PrefetchMoves(s, ks[0], fast) {
        assert BlockOk(s.cfg, s.clock, s.blocks, ks[0]);
        PlaceInv(s, s.blocks[ks[0]].block, fast, s.blocks[ks[0]].entry.tenant);
        PlaceSafe(s, s.blocks[ks[0]].block, fast, s.blocks[ks[0]].entry.tenant, u, id, keys);
        ModestKept(s, next, u, id);
      }
      PrefetchSafe(next, ks[1..], fast, u, id, keys);
    }
  }

  lemma ApplySafe(s: Store, op: Op, u: Tier, id: nat, keys: set<BlockKey>)
    requires Inv(s) && Covered(s.cfg, u) && Modest(s, u, id) && OwnsOnly(s.blocks, id, keys) && Foreign(op, id, keys)
    ensures Safe(s, Apply(s, op), u, id, keys)
  {
    match op
    case WriteOp(block, target, tenant) =>
      if Resolve(s.cfg, target).Some? {
        PlaceSafe(s, block, Resolve(s.cfg, target).value, tenant, u, id, keys);
      }
    case ReadOp(k) => ReadSafe(s, k, u, id, keys);
    case PrefetchOp(ks) =>
      if Fastest(s.cfg).Some? {
        PrefetchSafe(s, ks, Fastest(s.cfg).value, u, id, keys);
      }
    case EnforceOp(t) => EnforceSafe(s, t, u, id, keys);
  }

  /** Quota isolation over whole runs: whatever other tenants do, a tenant within its share
      of every tier down to `u` keeps exactly its blocks there, in place and unmodified. */
  lemma {:induction false} RunIsolated(s: Store, ops: seq<Op>, u: Tier, id: nat, keys: set<BlockKey>)
    requires Inv(s) && Covered(s.cfg, u) && Modest(s, u, id) && OwnsOnly(s.blocks, id, keys)
    requires forall i :: 0 <= i < |ops| ==> Foreign(ops[i], id, keys)
    ensures Inv(Run(s, ops)) && Safe(s, Run(s, ops), u, id, keys)
    decreases |ops|
  {
    if ops != [] {
      var before, op := Run(s, ops[..|ops| - 1]), ops[|ops| - 1];
      RunIsolated(s, ops[..|ops| - 1], u, id, keys);
      ModestKept(s, before, u, id);
      ApplyInv(before, op);
      ApplySafe(before, op, u, id, keys);
    }
  }

  // ------------------------------------------------ a tenant's own blocks

  /** Where the tiers are covered, an accepted write that leaves its tenant within its share of every tier
      down to the written one stays in that tier, whatever has to be evicted for it. */
  lemma ModestWriteStays(s: Store, block: KVCacheBlock, target: Tier, tenant: nat)
    requires Inv(s) && Accepts(s.cfg, block, target) && Covered(s.cfg, Resolve(s.cfg, target).value)
    requires Modest(Admit(s, block, Resolve(s.cfg, target).value, tenant), Resolve(s.cfg, target).value, tenant)
    ensures var t := Resolve(s.cfg, target).value;
            var after := Write(s, block, target, tenant).store.blocks;
            At(after, block.key, t) && after[block.key].block == block &&
            Part(after, t, tenant) == Part(Admit(s, block, t, tenant).blocks, t, tenant)
  {
    var t := Resolve(s.cfg, target).value;
    var a := Admit(s, block, t, tenant);
    AdmitInv(s, block, t, tenant);
    EnforceShields(a, t, t, tenant);
    assert block.key in Part(a.blocks, t, tenant);
  }

  /** Likewise a read whose promotion leaves the owner within its share hits, and the block stays
      in the fastest tier. */
  lemma ModestReadStays(s: Store, k: BlockKey)
    requires Inv(s) && k in s.blocks && ReadPromotes(s, k) && Covered(s.cfg, Fastest(s.cfg).value)
    requires var fast := Fastest(s.cfg).value;
             Modest(Promote(Touch(s, k), k, fast), fast, s.blocks[k].entry.tenant)
    ensures Read(s, k).result == Hit(s.blocks[k].block) && At(Read(s, k).store.blocks, k, Fastest(s.cfg).value)
  {
    var fast, id := Fastest(s.cfg).value, s.blocks[k].entry.tenant;
    var p := Promote(Touch(s, k), k, fast);
    TouchInv(s, k);
    PromoteInv(Touch(s, k), k, fast);
    EnforceInv(p, fast);
    EnforceShields(p, fast, fast, id);
    assert k in Part(p.blocks, fast, id);
    assert Part(Enforce(p, fast).store.blocks, fast, id)[k] == p.blocks[k];
  }
}
