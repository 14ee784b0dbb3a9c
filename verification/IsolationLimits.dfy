/** Exactly which configurations isolate tenants in the fastest tier. */
module IsolationLimits {
  import opened Blocks
  import opened Tiers
  import opened Totals
  import opened StoreModel
  import opened StoreInvariant
  import opened StoreCapacity
  import opened StoreContents
  import opened StoreQuota
  import L = StoreLimits
  import Q = QuotaLimits

  /** In every reachable state, an operation foreign to a tenant within its share leaves the tenant's
      blocks of the fastest tier alone. */
  ghost predicate Isolated(cfg: Config, fast: Tier) {
    forall ops, op, id, keys :: Spares(Run(Empty(cfg), ops), op, fast, id, keys)
  }

  ghost predicate Spares(s: Store, op: Op, fast: Tier, id: nat, keys: set<BlockKey>) {
    Modest(s, fast, id) && OwnsOnly(s.blocks, id, keys) && Foreign(op, id, keys) ==>
      Part(Apply(s, op).blocks, fast, id) == Part(s.blocks, fast, id)
  }

  // ------------------------------------------------ a fastest tier for empty blocks only

  lemma OnlyConfigured(s: Store, t: Tier)
    requires Inv(s)
    ensures Used(s, t) > 0 ==> Configured(s.cfg, t)
  {
    if Used(s, t) > 0 {
      var k := TotalPositive(TierBytes(t), s.blocks);
      assert BlockOk(s.cfg, s.clock, s.blocks, k);
    }
  }

  /** Enforcing any tier leaves a fastest tier within its threshold alone. */
  lemma EnforceQuiet(s: Store, t: Tier, fast: Tier, id: nat)
    requires Inv(s) && Fastest(s.cfg) == Some(fast) && Used(s, fast) <= Limit(s, fast)
    ensures Part(Enforce(s, t).store.blocks, fast, id) == Part(s.blocks, fast, id)
  {
    OnlyConfigured(s, t);
    if t > fast {
      PartFaster(s.blocks, Enforce(s, t).store.blocks, t, fast, id);
    }
  }

  lemma PlaceQuiet(s: Store, block: KVCacheBlock, t: Tier, tenant: nat, fast: Tier, id: nat, keys: set<BlockKey>)
    requires Inv(s) && Bounded(s) && Fastest(s.cfg) == Some(fast) && Threshold(s.cfg, fast) == 0
    requires OwnsOnly(s.blocks, id, keys) && Configured(s.cfg, t) && tenant != id && block.key !in keys
    ensures Safe(s, Place(s, block, t, tenant).store, fast, id, keys)
  {
    if BlockSize(block) <= Limit(s, t) {
      var a := Admit(s, block, t, tenant);
      AdmitInv(s, block, t, tenant);
      AdmitUsed(s, block, t, tenant, fast);
      AdmitPart(s, block, t, tenant, fast, id, keys);
      EnforceQuiet(a, t, fast, id);
      EnforceFewer(a, t);
      FewerOwned(a.blocks, Enforce(a, t).store.blocks, id, keys);
    }
  }

  lemma ReadQuiet(s: Store, k: BlockKey, fast: Tier, id: nat, keys: set<BlockKey>)
    requires Inv(s) && Bounded(s) && Fastest(s.cfg) == Some(fast) && Threshold(s.cfg, fast) == 0
    requires OwnsOnly(s.blocks, id, keys) && k !in keys
    ensures Part(Read(s, k).store.blocks, fast, id) == Part(s.blocks, fast, id)
  {
    if k in s.blocks {
      var touched := Touch(s, k);
      TouchInv(s, k);
      TouchUsed(s, k, fast);
      TouchPart(s, k, fast, id, keys);
      if ReadPromotes(s, k) {
        PromoteInv(touched, k, fast);
        PromoteUsed(touched, k, fast, fast);
        PromotePart(touched, k, fast, fast, id);
        EnforceQuiet(Promote(touched, k, fast), fast, fast, id);
      }
    }
  }

  lemma {:induction false} PrefetchQuiet(s: Store, ks: seq<BlockKey>, fast: Tier, id: nat, keys: set<BlockKey>)
    requires Inv(s) && Bounded(s) && Fastest(s.cfg) == Some(fast) && Threshold(s.cfg, fast) == 0
    requires OwnsOnly(s.blocks, id, keys) && forall i :: 0 <= i < |ks| ==> ks[i] !in keys
    ensures Part(PrefetchAll(s, ks, fast).store.blocks, fast, id) == Part(s.blocks, fast, id)
    decreases |ks|
  {
    if ks != [] {
      var next := PrefetchOne(s, ks[0], fast).store;
      if PrefetchMoves(s, ks[0], fast) {
        var b := s.blocks[ks[0]];
        assert BlockOk(s.cfg, s.clock, s.blocks, ks[0]);
        assert ks[0] !in keys;
        PlaceInv(s, b.block, fast, b.entry.tenant);
        PlaceBounded(s, b.block, fast, b.entry.tenant);
        PlaceQuiet(s, b.block, fast, b.entry.tenant, fast, id, keys);
      }
      PrefetchQuiet(next, ks[1..], fast, id, keys);
    }
  }

  lemma ApplyQuiet(s: Store, op: Op, fast: Tier, id: nat, keys: set<BlockKey>)
    requires Inv(s) && Bounded(s) && Fastest(s.cfg) == Some(fast) && Threshold(s.cfg, fast) == 0
    requires OwnsOnly(s.blocks, id, keys) && Foreign(op, id, keys)
    ensures Part(Apply(s, op).blocks, fast, id) == Part(s.blocks, fast, id)
  {
    match op
    case WriteOp(block, target, tenant) =>
      if Resolve(s.cfg, target).Some? {
        PlaceQuiet(s, block, Resolve(s.cfg, target).value, tenant, fast, id, keys);
      }
    case ReadOp(k) => ReadQuiet(s, k, fast, id, keys);
    case PrefetchOp(ks) => PrefetchQuiet(s, ks, fast, id, keys);
    case EnforceOp(t) => EnforceQuiet(s, t, fast, id);
  }

  // ------------------------------------------------ everybody within its share, and the tier over

  /** The store of the run: an empty block of a tenant without a share heads the small queue, behind it
      `n` one-byte blocks of tenants within their shares. */
  ghost predicate Lined(s: Store, fast: Tier, base: nat, n: nat) {
    var head := Q.Passenger(base);
    Fastest(s.cfg) == Some(fast) && (forall j :: j in s.cfg.tenantWeights ==> j < base) &&
    s.small != [] && s.small[0] == head && s.main == [] && s.ghosts == {} &&
    head in s.blocks && s.blocks[head].entry.size == 0 && s.blocks[head].entry.tenant == base &&
    (forall k :: k in s.blocks ==> LinedBlock(s, k, fast, base, n)) &&
    Used(s, fast) == n && forall j: nat :: Total(TenantBytes(fast, j), s.blocks) <= ShareBytes(s.cfg, fast, j)
  }

  ghost predicate LinedBlock(s: Store, k: BlockKey, fast: Tier, base: nat, n: nat)
    requires k in s.blocks
  {
    At(s.blocks, k, fast) && s.blocks[k].freq == 0 && !s.blocks[k].inMain && base <= k.hashId <= base + n &&
    (k != Q.Passenger(base) ==> s.blocks[k].entry.tenant < base)
  }

  /** While the tier holds fewer bytes than the shares, some registered tenant has a byte left. */
  lemma {:induction false} SomebodyShort(s: Store, t: Tier, ids: set<nat>) returns (id: nat)
    requires Total(GroupBytes(t, ids), s.blocks) < ShareSum(s.cfg, t, ids)
    ensures id in ids && Total(TenantBytes(t, id), s.blocks) < ShareBytes(s.cfg, t, id)
  {
    id :| id in ids && ShareSum(s.cfg, t, ids) == ShareBytes(s.cfg, t, id) + ShareSum(s.cfg, t, ids - {id});
    if Total(TenantBytes(t, id), s.blocks) >= ShareBytes(s.cfg, t, id) {
      TotalSplit(GroupBytes(t, ids), TenantBytes(t, id), GroupBytes(t, ids - {id}), s.blocks);
      id := SomebodyShort(s, t, ids - {id});
    }
  }

  lemma {:induction false} GroupAtMost(s: Store, t: Tier, ids: set<nat>, m: BlockMap)
    ensures Total(GroupBytes(t, ids), m) <= Total(TierBytes(t), m)
    decreases |m|
  {
    if m != map[] {
      var k :| k in m;
      Smaller(m, k);
      TotalRemove(GroupBytes(t, ids), m, k);
      TotalRemove(TierBytes(t), m, k);
      GroupAtMost(s, t, ids, m - {k});
    }
  }

  lemma NextTenant(s: Store, fast: Tier, base: nat, n: nat) returns (j: nat)
    requires Lined(s, fast, base, n) && n < ShareSum(s.cfg, fast, s.cfg.tenantWeights.Keys)
    ensures j in s.cfg.tenantWeights && Total(TenantBytes(fast, j), s.blocks) < ShareBytes(s.cfg, fast, j)
  {
    GroupAtMost(s, fast, s.cfg.tenantWeights.Keys, s.blocks);
    j := SomebodyShort(s, fast, s.cfg.tenantWeights.Keys);
  }

  ghost function Joining(base: nat, n: nat, fast: Tier, j: nat): Op {
    WriteOp(L.MakeBlock(Q.Passenger(base + n + 1), 1), fast, j)
  }

  /** One more byte, by a tenant that still has one left. */
  lemma Joins(s: Store, fast: Tier, base: nat, n: nat, j: nat)
    requires Lined(s, fast, base, n) && j < base && Total(TenantBytes(fast, j), s.blocks) < ShareBytes(s.cfg, fast, j)
    ensures Lined(Admit(s, Joining(base, n, fast, j).block, fast, j), fast, base, n + 1)
  {
    var block := Joining(base, n, fast, j).block;
    var a := Admit(s, block, fast, j);
    assert block.key !in s.blocks;
    TotalInsert(TierBytes(fast), s.blocks, block.key, a.blocks[block.key]);
    forall i: nat ensures Total(TenantBytes(fast, i), a.blocks) <= ShareBytes(s.cfg, fast, i) {
      TotalInsert(TenantBytes(fast, i), s.blocks, block.key, a.blocks[block.key]);
    }
    forall k | k in a.blocks ensures LinedBlock(a, k, fast, base, n + 1) {
      assert k in s.blocks ==> LinedBlock(s, k, fast, base, n);
    }
  }

  lemma JoinsRun(s: Store, fast: Tier, base: nat, n: nat, j: nat)
    requires Lined(s, fast, base, n) && j < base && Total(TenantBytes(fast, j), s.blocks) < ShareBytes(s.cfg, fast, j)
    requires n < Limit(s, fast)
    ensures Lined(Apply(s, Joining(base, n, fast, j)), fast, base, n + 1)
    ensures Apply(s, Joining(base, n, fast, j)).cfg == s.cfg
  {
    var op := Joining(base, n, fast, j);
    Joins(s, fast, base, n, j);
    assert op.block.key !in s.blocks;
    Q.PlainWrite(s, op.block, fast, j);
  }

  lemma NextInLine(s: Store, fast: Tier, base: nat, n: nat) returns (op: Op)
    requires Lined(s, fast, base, n)
    requires n < Limit(s, fast) && n < ShareSum(s.cfg, fast, s.cfg.tenantWeights.Keys)
    ensures Lined(Apply(s, op), fast, base, n + 1) && Apply(s, op).cfg == s.cfg
  {
    var j := NextTenant(s, fast, base, n);
    JoinsRun(s, fast, base, n, j);
    op := Joining(base, n, fast, j);
  }

  lemma {:induction false} LineUp(cfg: Config, fast: Tier, base: nat, n: nat) returns (ops: seq<Op>)
    requires Fastest(cfg) == Some(fast) && forall j :: j in cfg.tenantWeights ==> j < base
    requires n <= Threshold(cfg, fast) && n <= ShareSum(cfg, fast, cfg.tenantWeights.Keys)
    ensures Lined(Run(Empty(cfg), ops), fast, base, n) && Run(Empty(cfg), ops).cfg == cfg
  {
    if n == 0 {
      ops := [WriteOp(L.MakeBlock(Q.Passenger(base), 0), fast, base)];
      HeadOfLine(cfg, fast, base, ops[0]);
    } else {
      ops := LineUp(cfg, fast, base, n - 1);
      var op := NextInLine(Run(Empty(cfg), ops), fast, base, n - 1);
      RunPush(Empty(cfg), ops, op);
      ops := ops + [op];
    }
  }

  lemma HeadOfLine(cfg: Config, fast: Tier, base: nat, op: Op)
    requires Fastest(cfg) == Some(fast) && forall j :: j in cfg.tenantWeights ==> j < base
    requires op == WriteOp(L.MakeBlock(Q.Passenger(base), 0), fast, base)
    ensures Lined(Run(Empty(cfg), [op]), fast, base, 0) && Run(Empty(cfg), [op]).cfg == cfg
  {
    var s0 := Empty(cfg);
    Q.PlainWrite(s0, op.block, fast, base);
    RunOne(s0, op);
    var s, k := Admit(s0, op.block, fast, base), op.block.key;
    forall j: nat ensures Total(TenantBytes(fast, j), s.blocks) == 0 {
      TotalInsert(TenantBytes(fast, j), s0.blocks, k, s.blocks[k]);
    }
    forall i | i in s.blocks ensures LinedBlock(s, i, fast, base, 0) {
    }
  }

  /** With everybody within its share the quota policy finds no victim, and S3-FIFO takes the head of
      the small queue. */
  lemma HeadTaken(a: Store, fast: Tier, base: nat, n: nat)
    requires Lined(a, fast, base, n)
    ensures Pick(a, fast).victim == Some(Q.Passenger(base))
  {
    forall id: nat ensures !IsWorst(a, fast, id) {
      WholeBytes(a.cfg, fast, id, Total(TenantBytes(fast, id), a.blocks));
    }
    assert LinedBlock(a, Q.Passenger(base), fast, base, n);
  }

  /** The head's owner, within its share, loses it. */
  lemma HeadLost(a: Store, fast: Tier, base: nat, n: nat)
    requires Inv(a) && Lined(a, fast, base, n) && Used(a, fast) > Limit(a, fast)
    ensures Q.Passenger(base) !in Part(Enforce(a, fast).store.blocks, fast, base)
  {
    HeadTaken(a, fast, base, n);
    Step(a, fast);
    assert Q.Passenger(base) !in KeysAt(Next(a, fast).blocks, fast);
    EnforceFewer(a, fast);
    EnforceFewer(Next(a, fast), fast);
    EnforceFewer(Evict(a, fast), fast);
    NotBack(a, fast, Q.Passenger(base));
  }

  /** A victim does not come back into its tier. */
  lemma NotBack(s: Store, t: Tier, k: BlockKey)
    requires Inv(s) && Used(s, t) > Limit(s, t) && Pick(s, t).victim == Some(k)
    ensures k in Enforce(s, t).store.blocks ==> Enforce(s, t).store.blocks[k].entry.tier > t
  {
    Step(s, t);
    EvictFewer(s, t);
    if LandingTier(s, t).Some? {
      EnforceFewer(Evict(s, t), LandingTier(s, t).value);
    }
    EnforceFewer(Next(s, t), t);
  }

  lemma LinedModest(s: Store, fast: Tier, base: nat, n: nat)
    requires Inv(s) && Lined(s, fast, base, n)
    ensures Modest(s, fast, base) && OwnsOnly(s.blocks, base, {Q.Passenger(base)})
  {
    forall t: Tier | t <= fast ensures WithinShare(s, t, base) {
      ShareNonNegative(s.cfg, base, t);
      if Total(TenantBytes(t, base), s.blocks) > 0 {
        var k := TotalPositive(TenantBytes(t, base), s.blocks);
        assert false;
      }
    }
    forall k | k in s.blocks && s.blocks[k].entry.tenant == base ensures k in {Q.Passenger(base)} {
      assert LinedBlock(s, k, fast, base, n);
    }
  }

  /** The byte that takes the tier over its threshold costs the head's owner its block. */
  lemma LastJoins(s: Store, fast: Tier, base: nat, n: nat, op: Op, j: nat)
    requires Inv(s) && Lined(s, fast, base, n) && n == Limit(s, fast) > 0 && j < base && op == Joining(base, n, fast, j)
    requires Total(TenantBytes(fast, j), s.blocks) < ShareBytes(s.cfg, fast, j)
    ensures !Spares(s, op, fast, base, {Q.Passenger(base)})
  {
    var a, head := Admit(s, op.block, fast, j), Q.Passenger(base);
    Joins(s, fast, base, n, j);
    AdmitInv(s, op.block, fast, j);
    LinedModest(s, fast, base, n);
    HeadLost(a, fast, base, n + 1);
    assert LinedBlock(s, head, fast, base, n) && head in Part(s.blocks, fast, base);
    assert Apply(s, op) == Enforce(a, fast).store;
  }

  /** If the shares exceed the threshold, a tenant within its share can lose a block to others. */
  lemma NotIsolated(cfg: Config, fast: Tier)
    requires Fastest(cfg) == Some(fast) && 0 < Threshold(cfg, fast) < ShareSum(cfg, fast, cfg.tenantWeights.Keys)
    ensures !Isolated(cfg, fast)
  {
    var base := Q.NewTenants(cfg.tenantWeights.Keys);
    var n := Threshold(cfg, fast);
    var ops := LineUp(cfg, fast, base, n);
    RunInv(cfg, ops);
    var j := NextTenant(Run(Empty(cfg), ops), fast, base, n);
    LastJoins(Run(Empty(cfg), ops), fast, base, n, Joining(base, n, fast, j), j);
  }

  // ------------------------------------------------ the exact condition

  /** Tiers faster than the fastest are not configured and hold no shares. */
  lemma FastestCovered(cfg: Config, fast: Tier)
    requires QuotaEnabled(cfg) && Fastest(cfg) == Some(fast)
    requires ShareSum(cfg, fast, cfg.tenantWeights.Keys) <= Threshold(cfg, fast)
    ensures Covered(cfg, fast)
  {
    forall t: Tier | t < fast ensures ShareSum(cfg, t, cfg.tenantWeights.Keys) <= Threshold(cfg, t) {
      ShareSumBound(cfg, t, cfg.tenantWeights.Keys);
      PortionWhole(cfg, t);
    }
  }

  /** With quotas, tenants are isolated in the fastest tier, in every reachable state, if and only if the
      shares of all tenants in whole bytes fit within its threshold, or that threshold is zero. */
  lemma IsolatedExactly(cfg: Config, fast: Tier)
    requires QuotaEnabled(cfg) && Fastest(cfg) == Some(fast)
    ensures Isolated(cfg, fast) <==>
            Threshold(cfg, fast) == 0 || ShareSum(cfg, fast, cfg.tenantWeights.Keys) <= Threshold(cfg, fast)
  {
    if Threshold(cfg, fast) == 0 || ShareSum(cfg, fast, cfg.tenantWeights.Keys) <= Threshold(cfg, fast) {
      forall ops, op, id, keys ensures Spares(Run(Empty(cfg), ops), op, fast, id, keys) {
        var s := Run(Empty(cfg), ops);
        RunInv(cfg, ops);
        RunBounded(cfg, ops);
        if Modest(s, fast, id) && OwnsOnly(s.blocks, id, keys) && Foreign(op, id, keys) {
          if Threshold(cfg, fast) == 0 {
            ApplyQuiet(s, op, fast, id, keys);
          } else {
            FastestCovered(cfg, fast);
            ApplySafe(s, op, fast, id, keys);
          }
        }
      }
    } else {
      NotIsolated(cfg, fast);
    }
  }
}
