/** Exactly which configurations without quotas never lose a block they have accepted, and the runs
    that lose one under every other configuration without quotas. */
module StoreLimits {
  import opened Blocks
  import opened Tiers
  import opened Totals
  import opened VictimOrder
  import opened StoreModel
  import opened StoreInvariant
  import opened StoreCapacity
  import opened StoreContents
  import opened StoreRetention

  // ------------------------------------------------ two blocks

  const FIRST: BlockKey := BlockKey(1, 0, 1)
  const SECOND: BlockKey := BlockKey(2, 0, 1)

  ghost function MakeBlock(key: BlockKey, size: nat): (block: KVCacheBlock)
    ensures block.key == key && BlockSize(block) == size
  {
    KVCacheBlock(key, 1, 1, 1, 0, seq(size, _ => 0), [])
  }

  /** A block as it stands in tier `t` after `count` accesses, the last at time `ts`. */
  ghost function Placed(key: BlockKey, size: nat, t: Tier, count: nat, ts: nat, inMain: bool): StoredBlock {
    StoredBlock(MakeBlock(key, size), TierEntry(key, t, size, AccessStats(count, ts), 0), 0, inMain)
  }

  lemma TotalOne(g: Gauge, k: BlockKey, x: StoredBlock)
    ensures Total(g, map[k := x]) == Weight(g, x)
  {
    TotalInsert(g, map[], k, x);
    assert map[][k := x] == map[k := x];
  }

  lemma TotalTwo(g: Gauge, a: BlockKey, x: StoredBlock, b: BlockKey, y: StoredBlock)
    requires a != b
    ensures Total(g, map[a := x, b := y]) == Weight(g, x) + Weight(g, y)
  {
    TotalOne(g, a, x);
    TotalInsert(g, map[a := x], b, y);
    assert map[a := x][b := y] == map[a := x, b := y];
  }

  // ------------------------------------------------ the run that fills the fastest tier

  /** An empty block written twice, so that it heads the main queue, then a block that
      fills the tier, also written twice. */
  ghost function Fill(cfg: Config, fast: Tier): seq<Op> {
    var head := WriteOp(MakeBlock(FIRST, 0), fast, 0);
    var filler := WriteOp(MakeBlock(SECOND, Threshold(cfg, fast)), fast, 0);
    [] + [head] + [head] + [filler] + [filler]
  }

  /** The store after `Fill`: both blocks in the main queue, the tier exactly at its threshold. */
  ghost function Filled(cfg: Config, fast: Tier): Store {
    var x := Placed(FIRST, 0, fast, 2, 2, true);
    var y := Placed(SECOND, Threshold(cfg, fast), fast, 2, 4, true);
    Store(cfg, 4, map[FIRST := x, SECOND := y], [FIRST, SECOND], [FIRST, SECOND], {}, [])
  }

  /** A write that leaves its tier within the threshold only admits the block. */
  lemma WritePlain(s: Store, block: KVCacheBlock, t: Tier, s': Store)
    requires Configured(s.cfg, t) && s' == Admit(s, block, t, 0) && BlockSize(block) <= Limit(s, t) &&
             Used(s', t) <= Limit(s, t)
    ensures Apply(s, WriteOp(block, t, 0)) == s'
  {
  }

  lemma HeadRuns(cfg: Config, fast: Tier, s: Store)
    requires Fastest(cfg) == Some(fast)
    requires s == Store(cfg, 2, map[FIRST := Placed(FIRST, 0, fast, 2, 2, true)], [FIRST], [FIRST], {}, [])
    ensures var head := WriteOp(MakeBlock(FIRST, 0), fast, 0);
            Run(Empty(cfg), [] + [head] + [head]) == s
  {
    var a := MakeBlock(FIRST, 0);
    var w := WriteOp(a, fast, 0);
    var s1 := Store(cfg, 1, map[FIRST := Placed(FIRST, 0, fast, 1, 1, false)], [FIRST], [], {}, []);
    assert Admit(Empty(cfg), a, fast, 0) == s1;
    assert Admit(s1, a, fast, 0) == s;
    TotalOne(TierBytes(fast), FIRST, s1.blocks[FIRST]);
    TotalOne(TierBytes(fast), FIRST, s.blocks[FIRST]);
    WritePlain(Empty(cfg), a, fast, s1);
    WritePlain(s1, a, fast, s);
    RunPush(Empty(cfg), [], w);
    RunPush(Empty(cfg), [] + [w], w);
  }

  lemma FillRuns(cfg: Config, fast: Tier)
    requires Fastest(cfg) == Some(fast)
    ensures Run(Empty(cfg), Fill(cfg, fast)) == Filled(cfg, fast)
  {
    var limit := Threshold(cfg, fast);
    var b := MakeBlock(SECOND, limit);
    var w, v := WriteOp(MakeBlock(FIRST, 0), fast, 0), WriteOp(b, fast, 0);
    var x, y := Placed(FIRST, 0, fast, 2, 2, true), Placed(SECOND, limit, fast, 1, 3, false);
    var s2 := Store(cfg, 2, map[FIRST := x], [FIRST], [FIRST], {}, []);
    var s3 := Store(cfg, 3, map[FIRST := x, SECOND := y], [FIRST, SECOND], [FIRST], {}, []);
    var s4 := Filled(cfg, fast);
    assert Admit(s2, b, fast, 0) == s3;
    assert Admit(s3, b, fast, 0) == s4;
    TotalTwo(TierBytes(fast), FIRST, x, SECOND, y);
    TotalTwo(TierBytes(fast), FIRST, x, SECOND, s4.blocks[SECOND]);
    HeadRuns(cfg, fast, s2);
    WritePlain(s2, b, fast, s3);
    WritePlain(s3, b, fast, s4);
    RunPush(Empty(cfg), [] + [w] + [w], v);
    RunPush(Empty(cfg), [] + [w] + [w] + [v], v);
  }

  /** The store after the head has been rewritten into tier `t`. */
  ghost function Rewritten(cfg: Config, size: nat, fast: Tier, t: Tier): Store {
    var x, y := Placed(FIRST, size, t, 3, 5, t == fast), Filled(cfg, fast).blocks[SECOND];
    var main := if t == fast then [FIRST, SECOND, FIRST] else [FIRST, SECOND];
    Store(cfg, 5, map[FIRST := x, SECOND := y], [FIRST, SECOND], main, {}, [])
  }

  lemma HeadRewritten(cfg: Config, size: nat, fast: Tier, t: Tier)
    requires Fastest(cfg) == Some(fast)
    ensures Admit(Filled(cfg, fast), MakeBlock(FIRST, size), t, 0) == Rewritten(cfg, size, fast, t)
  {
    var a, r := Admit(Filled(cfg, fast), MakeBlock(FIRST, size), t, 0), Rewritten(cfg, size, fast, t);
    assert a.blocks[FIRST] == r.blocks[FIRST];
    assert a.blocks == r.blocks;
  }

  /** A block that enters the main queue while an older entry of its key still heads that
      queue is the next victim. */
  lemma HeadEvicted(s: Store, fast: Tier, size: nat, count: nat, ts: nat)
    requires Inv(s) && !QuotaEnabled(s.cfg) && Fastest(s.cfg) == Some(fast) && size > 0
    requires s.blocks == map[FIRST := Placed(FIRST, size, fast, count, ts, true),
                             SECOND := Filled(s.cfg, fast).blocks[SECOND]]
    requires s.main == [FIRST, SECOND, FIRST]
    ensures RestsAt(Enforce(s, fast).store.blocks, FIRST, Haven(s.cfg, size, fast))
  {
    TotalTwo(TierBytes(fast), FIRST, s.blocks[FIRST], SECOND, s.blocks[SECOND]);
    TotalTwo(SmallBytes(fast), FIRST, s.blocks[FIRST], SECOND, s.blocks[SECOND]);
    assert Pick(s, fast).victim == Some(FIRST);
    Step(s, fast);
    VictimRests(s, fast, FIRST);
    EvictUsed(s, fast, fast);
    NextUsed(s, fast, fast);
  }

  // ------------------------------------------------ writes

  /** No accepted write of a block of this size to tier `t` ever vanishes. */
  ghost predicate WritesKept(cfg: Config, size: nat, t: Tier) {
    forall ops, block, target, tenant ::
      BlockSize(block) == size && Resolve(cfg, target) == Some(t) ==>
        block.key in Write(Run(Empty(cfg), ops), block, target, tenant).store.blocks
  }

  /** ... and the block is found in that tier or the next. */
  ghost predicate WritesNear(cfg: Config, size: nat, t: Tier) {
    forall ops, block, target, tenant ::
      BlockSize(block) == size && Resolve(cfg, target) == Some(t) ==>
        var after := Write(Run(Empty(cfg), ops), block, target, tenant).store.blocks;
        At(after, block.key, t) || (NextSlower(cfg, t).Some? && At(after, block.key, NextSlower(cfg, t).value))
  }

  /** After `Fill`, rewriting the head with a block of any positive size evicts that block. */
  lemma WriteEvicted(cfg: Config, size: nat, fast: Tier)
    requires !QuotaEnabled(cfg) && Fastest(cfg) == Some(fast) && 0 < size <= Threshold(cfg, fast)
    ensures var w := Write(Run(Empty(cfg), Fill(cfg, fast)), MakeBlock(FIRST, size), fast, 0);
            w.status == Ok && RestsAt(w.store.blocks, FIRST, Haven(cfg, size, fast))
  {
    FillRuns(cfg, fast);
    RunInv(cfg, Fill(cfg, fast));
    var s, block := Filled(cfg, fast), MakeBlock(FIRST, size);
    var a := Admit(s, block, fast, 0);
    AdmitInv(s, block, fast, 0);
    HeadRewritten(cfg, size, fast, fast);
    HeadEvicted(a, fast, size, 3, 5);
    EnforceInv(a, fast);
  }

  lemma WriteOfNothing(s: Store, block: KVCacheBlock, target: Tier, tenant: nat)
    requires Inv(s) && Bounded(s) && Accepts(s.cfg, block, target) && BlockSize(block) == 0
    ensures At(Write(s, block, target, tenant).store.blocks, block.key, Resolve(s.cfg, target).value)
  {
    WriteFits(s, block, target, tenant);
  }

  /** Empty blocks evict nothing and stay, with or without quotas. */
  lemma EmptyWritesKept(cfg: Config, t: Tier)
    ensures WritesKept(cfg, 0, t) && WritesNear(cfg, 0, t)
  {
    forall ops, block, target, tenant | BlockSize(block) == 0 && Resolve(cfg, target) == Some(t)
      ensures At(Write(Run(Empty(cfg), ops), block, target, tenant).store.blocks, block.key, t)
    {
      RunInv(cfg, ops);
      RunBounded(cfg, ops);
      WriteOfNothing(Run(Empty(cfg), ops), block, target, tenant);
    }
  }

  /** Without quotas, accepted writes below the fastest tier are never lost. */
  lemma SlowerWritesKept(cfg: Config, size: nat, t: Tier)
    requires !QuotaEnabled(cfg) && Fastest(cfg) != Some(t) && size <= Threshold(cfg, t)
    ensures WritesKept(cfg, size, t) && WritesNear(cfg, size, t)
  {
    forall ops, block, target, tenant | BlockSize(block) == size && Resolve(cfg, target) == Some(t)
      ensures At(Write(Run(Empty(cfg), ops), block, target, tenant).store.blocks, block.key, t)
    {
      RunInv(cfg, ops);
      RunBounded(cfg, ops);
      WriteRests(Run(Empty(cfg), ops), block, target, tenant);
    }
  }

  /** Without quotas, writes of a given size to the fastest tier are never lost if and only if an
      evicted block of that size has a haven; they stay within the two fastest tiers if and only if
      that haven is the next tier. */
  lemma WritesKeptWithoutQuotas(cfg: Config, size: nat, fast: Tier)
    requires !QuotaEnabled(cfg) && Fastest(cfg) == Some(fast) && size <= Threshold(cfg, fast)
    ensures WritesKept(cfg, size, fast) <==> size == 0 || Haven(cfg, size, fast).Some?
    ensures WritesNear(cfg, size, fast) <==>
            size == 0 || (NextSlower(cfg, fast).Some? && size <= Threshold(cfg, NextSlower(cfg, fast).value))
  {
    if size == 0 {
      EmptyWritesKept(cfg, fast);
    } else {
      forall ops, block, target, tenant | BlockSize(block) == size && Resolve(cfg, target) == Some(fast)
        ensures var after := Write(Run(Empty(cfg), ops), block, target, tenant).store.blocks;
                At(after, block.key, fast) || RestsAt(after, block.key, Haven(cfg, size, fast))
      {
        RunInv(cfg, ops);
        RunBounded(cfg, ops);
        WriteRests(Run(Empty(cfg), ops), block, target, tenant);
      }
      WriteEvicted(cfg, size, fast);
      assert BlockSize(MakeBlock(FIRST, size)) == size && Resolve(cfg, fast) == Some(fast);
    }
  }

  // ------------------------------------------------ reads

  /** Every stored block of this size can always be read. */
  ghost predicate ReadsSucceed(cfg: Config, size: nat) {
    forall ops, k :: Readable(Run(Empty(cfg), ops), k, size)
  }

  ghost predicate Readable(s: Store, k: BlockKey, size: nat) {
    k in s.blocks && s.blocks[k].entry.size == size ==> Read(s, k).result == Hit(s.blocks[k].block)
  }

  /** Some tier below the fastest can hold a block of this size, so a read may promote it. */
  ghost predicate MayPromote(cfg: Config, size: nat, fast: Tier) {
    size <= Threshold(cfg, fast) && exists u: Tier :: u > fast && Configured(cfg, u) && size <= Threshold(cfg, u)
  }

  lemma SinkRuns(cfg: Config, size: nat, fast: Tier, u: Tier)
    requires Fastest(cfg) == Some(fast) && u > fast && Configured(cfg, u) && size <= Threshold(cfg, u)
    ensures Run(Empty(cfg), Fill(cfg, fast) + [WriteOp(MakeBlock(FIRST, size), u, 0)]) == Rewritten(cfg, size, fast, u)
  {
    var s, block := Rewritten(cfg, size, fast, u), MakeBlock(FIRST, size);
    FillRuns(cfg, fast);
    RunPush(Empty(cfg), Fill(cfg, fast), WriteOp(block, u, 0));
    HeadRewritten(cfg, size, fast, u);
    TotalTwo(TierBytes(u), FIRST, s.blocks[FIRST], SECOND, s.blocks[SECOND]);
    WritePlain(Filled(cfg, fast), block, u, s);
  }

  lemma HeadPromoted(cfg: Config, size: nat, fast: Tier, u: Tier)
    requires Fastest(cfg) == Some(fast) && u > fast
    ensures var s := Rewritten(cfg, size, fast, u);
            var p := Promote(Touch(s, FIRST), FIRST, fast);
            p.cfg == cfg && p.main == [FIRST, SECOND, FIRST] &&
            p.blocks == map[FIRST := Placed(FIRST, size, fast, 4, 6, true), SECOND := s.blocks[SECOND]]
  {
  }

  /** Read back from the slower tier, it is evicted by its own promotion. */
  lemma ReadEvicted(cfg: Config, size: nat, fast: Tier, u: Tier)
    requires !QuotaEnabled(cfg) && Fastest(cfg) == Some(fast) && 0 < size <= Threshold(cfg, fast)
    requires u > fast && Configured(cfg, u) && size <= Threshold(cfg, u)
    ensures var s := Run(Empty(cfg), Fill(cfg, fast) + [WriteOp(MakeBlock(FIRST, size), u, 0)]);
            At(s.blocks, FIRST, u) && s.blocks[FIRST].entry.size == size &&
            RestsAt(Read(s, FIRST).store.blocks, FIRST, Haven(cfg, size, fast)) &&
            (Haven(cfg, size, fast).None? ==> Read(s, FIRST).result == Failed(Internal))
  {
    SinkRuns(cfg, size, fast, u);
    RunInv(cfg, Fill(cfg, fast) + [WriteOp(MakeBlock(FIRST, size), u, 0)]);
    var s := Rewritten(cfg, size, fast, u);
    var p := Promote(Touch(s, FIRST), FIRST, fast);
    TouchInv(s, FIRST);
    PromoteInv(Touch(s, FIRST), FIRST, fast);
    HeadPromoted(cfg, size, fast, u);
    HeadEvicted(p, fast, size, 4, 6);
    EnforceInv(p, fast);
  }

  /** Without quotas, reads of blocks of a given size always succeed if and only if none can be promoted
      or an evicted one has a haven. */
  lemma ReadsSucceedWithoutQuotas(cfg: Config, size: nat, fast: Tier)
    requires !QuotaEnabled(cfg) && Fastest(cfg) == Some(fast)
    ensures ReadsSucceed(cfg, size) <==> size == 0 || !MayPromote(cfg, size, fast) || Haven(cfg, size, fast).Some?
  {
    if size == 0 || !MayPromote(cfg, size, fast) || Haven(cfg, size, fast).Some? {
      forall ops, k ensures Readable(Run(Empty(cfg), ops), k, size) {
        RunInv(cfg, ops);
        RunBounded(cfg, ops);
        ReadSucceeds(Run(Empty(cfg), ops), k, size, fast);
      }
    } else {
      var u: Tier :| u > fast && Configured(cfg, u) && size <= Threshold(cfg, u);
      ReadEvicted(cfg, size, fast, u);
      assert !Readable(Run(Empty(cfg), Fill(cfg, fast) + [WriteOp(MakeBlock(FIRST, size), u, 0)]), FIRST, size);
    }
  }

  /** A read that promotes proves that blocks of its size may be promoted. */
  lemma PromotionAllowed(s: Store, k: BlockKey, fast: Tier)
    requires Inv(s) && Bounded(s) && Fastest(s.cfg) == Some(fast) && k in s.blocks && ReadPromotes(s, k)
    ensures MayPromote(s.cfg, s.blocks[k].entry.size, fast)
  {
    var size, u := s.blocks[k].entry.size, s.blocks[k].entry.tier;
    assert BlockOk(s.cfg, s.clock, s.blocks, k);
    TotalRemove(TierBytes(u), s.blocks, k);
    assert size <= Used(s, u) <= Threshold(s.cfg, u);
    assert u > fast && Configured(s.cfg, u);
  }

  lemma EmptyReadable(s: Store, k: BlockKey)
    requires Inv(s) && Bounded(s) && k in s.blocks && s.blocks[k].entry.size == 0 && ReadPromotes(s, k)
    ensures Read(s, k).result == Hit(s.blocks[k].block)
  {
    var fast := Fastest(s.cfg).value;
    TouchUsed(s, k, fast);
    PromoteUsed(Touch(s, k), k, fast, fast);
  }

  lemma ReadSucceeds(s: Store, k: BlockKey, size: nat, fast: Tier)
    requires Inv(s) && Bounded(s) && !QuotaEnabled(s.cfg) && Fastest(s.cfg) == Some(fast)
    requires size == 0 || !MayPromote(s.cfg, size, fast) || Haven(s.cfg, size, fast).Some?
    ensures Readable(s, k, size)
  {
    if k in s.blocks && s.blocks[k].entry.size == size && ReadPromotes(s, k) {
      PromotionAllowed(s, k, fast);
      if size == 0 {
        EmptyReadable(s, k);
      } else {
        PromotionRests(s, k);
      }
    }
  }

  // ------------------------------------------------ instances

  const ONLY_HBM: Config := TierConfig(Some(10), None, None, 1.0, map[])

  /** A write accepted by a single-tier store can vanish. */
  lemma WriteMayVanish()
    ensures var w := Write(Run(Empty(ONLY_HBM), Fill(ONLY_HBM, HBM)), MakeBlock(FIRST, 2), HBM, 0);
            w.status == Ok && FIRST !in w.store.blocks
  {
    WriteEvicted(ONLY_HBM, 2, HBM);
  }

  const TINY_DRAM: Config := TierConfig(Some(10), Some(1), Some(100), 1.0, map[])

  /** Reading a stored block can fail, and lose it, when the next tier is too small to catch it. */
  lemma ReadMayFail()
    ensures var s := Run(Empty(TINY_DRAM), Fill(TINY_DRAM, HBM) + [WriteOp(MakeBlock(FIRST, 2), NVME, 0)]);
            FIRST in s.blocks && Read(s, FIRST).result == Failed(Internal) && FIRST !in Read(s, FIRST).store.blocks
  {
    ReadEvicted(TINY_DRAM, 2, HBM, NVME);
  }

  // ------------------------------------------------ blocks of several sizes

  const TWO_TIERS: Config := TierConfig(Some(2), Some(2), None, 1.0, map[])
  const THIRD: BlockKey := BlockKey(3, 0, 1)

  /** A large block in the fastest tier and two small ones in the next, both full. */
  ghost function Mixed(): seq<Op> {
    [] + [WriteOp(MakeBlock(FIRST, 2), HBM, 0)] + [WriteOp(MakeBlock(SECOND, 1), DRAM, 0)] +
    [WriteOp(MakeBlock(THIRD, 1), DRAM, 0)]
  }

  ghost function MixedStore(): Store {
    Store(TWO_TIERS, 3,
          map[FIRST := Placed(FIRST, 2, HBM, 1, 1, false), SECOND := Placed(SECOND, 1, DRAM, 1, 2, false),
              THIRD := Placed(THIRD, 1, DRAM, 1, 3, false)],
          [FIRST], [], {}, [])
  }

  lemma TotalThree(g: Gauge, x: StoredBlock, y: StoredBlock, z: StoredBlock)
    ensures Total(g, map[FIRST := x, SECOND := y, THIRD := z]) == Weight(g, x) + Weight(g, y) + Weight(g, z)
  {
    TotalTwo(g, FIRST, x, SECOND, y);
    TotalInsert(g, map[FIRST := x, SECOND := y], THIRD, z);
    assert map[FIRST := x, SECOND := y][THIRD := z] == map[FIRST := x, SECOND := y, THIRD := z];
  }

  lemma TwoTiers()
    ensures Threshold(TWO_TIERS, HBM) == Threshold(TWO_TIERS, DRAM) == 2 && Fastest(TWO_TIERS) == Some(HBM)
    ensures NextSlower(TWO_TIERS, HBM) == Some(DRAM) && NextSlower(TWO_TIERS, DRAM) == None
  {
    assert NextSlower(TWO_TIERS, NVME) == None;
  }

  lemma MixedRuns()
    ensures Run(Empty(TWO_TIERS), Mixed()) == MixedStore()
  {
    TwoTiers();
    var a, b, c := MakeBlock(FIRST, 2), MakeBlock(SECOND, 1), MakeBlock(THIRD, 1);
    var s0, m := Empty(TWO_TIERS), MixedStore().blocks;
    var s1 := Store(TWO_TIERS, 1, map[FIRST := m[FIRST]], [FIRST], [], {}, []);
    var s2 := Store(TWO_TIERS, 2, map[FIRST := m[FIRST], SECOND := m[SECOND]], [FIRST], [], {}, []);
    assert Admit(s0, a, HBM, 0) == s1;
    assert Admit(s1, b, DRAM, 0) == s2;
    assert Admit(s2, c, DRAM, 0) == MixedStore();
    TotalOne(TierBytes(HBM), FIRST, m[FIRST]);
    TotalTwo(TierBytes(DRAM), FIRST, m[FIRST], SECOND, m[SECOND]);
    TotalThree(TierBytes(DRAM), m[FIRST], m[SECOND], m[THIRD]);
    WritePlain(s0, a, HBM, s1);
    WritePlain(s1, b, DRAM, s2);
    WritePlain(s2, c, DRAM, MixedStore());
    RunPush(s0, [], WriteOp(a, HBM, 0));
    RunPush(s0, [] + [WriteOp(a, HBM, 0)], WriteOp(b, DRAM, 0));
    RunPush(s0, [] + [WriteOp(a, HBM, 0)] + [WriteOp(b, DRAM, 0)], WriteOp(c, DRAM, 0));
  }

  /** The promotion of a small block evicts the large one ... */
  lemma LargeDemoted(p: Store)
    requires Inv(p) && p.cfg == TWO_TIERS && p.small == [FIRST] && p.clock == 4
    requires p.blocks == map[FIRST := Placed(FIRST, 2, HBM, 1, 1, false), SECOND := Placed(SECOND, 1, HBM, 2, 4, true),
                             THIRD := Placed(THIRD, 1, DRAM, 1, 3, false)]
    ensures Used(p, HBM) > Limit(p, HBM) && Pick(p, HBM).victim.Some? && LandingTier(p, HBM) == Some(DRAM)
    ensures Evict(p, HBM).cfg == TWO_TIERS &&
            Evict(p, HBM).blocks == p.blocks[FIRST := Placed(FIRST, 2, DRAM, 1, 5, false)]
  {
    TwoTiers();
    TotalThree(TierBytes(HBM), p.blocks[FIRST], p.blocks[SECOND], p.blocks[THIRD]);
    TotalThree(SmallBytes(HBM), p.blocks[FIRST], p.blocks[SECOND], p.blocks[THIRD]);
    GhostInsertFrame(PopSmall(p), FIRST);
    assert Pick(p, HBM) == Picked(GhostInsert(PopSmall(p), FIRST), Some(FIRST));
  }

  /** ... which takes the place of both small ones in the next tier. */
  lemma SmallLost(d: Store)
    requires Inv(d) && d.cfg == TWO_TIERS
    requires d.blocks == map[FIRST := Placed(FIRST, 2, DRAM, 1, 5, false), SECOND := Placed(SECOND, 1, HBM, 2, 4, true),
                             THIRD := Placed(THIRD, 1, DRAM, 1, 3, false)]
    ensures THIRD !in Enforce(d, DRAM).store.blocks
  {
    TwoTiers();
    TotalThree(TierBytes(DRAM), d.blocks[FIRST], d.blocks[SECOND], d.blocks[THIRD]);
    var index := IndexOf(d.blocks, DRAM);
    assert OrderOf(d.blocks[THIRD], THIRD) in index;
    assert OrderLeq(First(index), OrderOf(d.blocks[THIRD], THIRD));
    assert Pick(d, DRAM).victim == Some(THIRD);
    Step(d, DRAM);
    EnforceFewer(Next(d, DRAM), DRAM);
  }

  lemma MixedPromoted(p: Store)
    requires Inv(MixedStore()) && p == Promote(Touch(MixedStore(), SECOND), SECOND, HBM)
    ensures Inv(p) && p.cfg == TWO_TIERS && p.small == [FIRST] && p.clock == 4
    ensures p.blocks == map[FIRST := Placed(FIRST, 2, HBM, 1, 1, false), SECOND := Placed(SECOND, 1, HBM, 2, 4, true),
                            THIRD := Placed(THIRD, 1, DRAM, 1, 3, false)]
  {
    TwoTiers();
    TouchInv(MixedStore(), SECOND);
    PromoteInv(Touch(MixedStore(), SECOND), SECOND, HBM);
  }

  lemma SmallLostBy(p: Store)
    requires Inv(p) && p.cfg == TWO_TIERS && p.small == [FIRST] && p.clock == 4
    requires p.blocks == map[FIRST := Placed(FIRST, 2, HBM, 1, 1, false), SECOND := Placed(SECOND, 1, HBM, 2, 4, true),
                             THIRD := Placed(THIRD, 1, DRAM, 1, 3, false)]
    ensures THIRD !in Enforce(p, HBM).store.blocks
  {
    LargeDemoted(p);
    EvictInv(p, HBM);
    SmallLost(Evict(p, HBM));
    LostByCascade(p, HBM, THIRD);
  }

  /** What the cascade below a tier has lost does not come back. */
  lemma LostByCascade(s: Store, t: Tier, k: BlockKey)
    requires Inv(s) && Used(s, t) > Limit(s, t) && Pick(s, t).victim.Some? && LandingTier(s, t).Some?
    requires k !in Enforce(Evict(s, t), LandingTier(s, t).value).store.blocks
    ensures k !in Enforce(s, t).store.blocks
  {
    Step(s, t);
    EnforceFewer(Next(s, t), t);
  }

  lemma MixedRead(p: Store)
    requires p == Promote(Touch(MixedStore(), SECOND), SECOND, HBM)
    ensures Read(MixedStore(), SECOND).store == Enforce(p, HBM).store
  {
    TwoTiers();
  }

  lemma MixedFits(s: Store, k: BlockKey, u: Tier)
    requires s == MixedStore() && k in s.blocks && Configured(s.cfg, u)
    ensures s.blocks[k].entry.size <= Limit(s, u)
  {
    TwoTiers();
    assert u == HBM || u == DRAM;
  }

  /** With blocks of several sizes a read can lose another block, although every block fits into
      every tier. */
  lemma MixedMayLose(s: Store)
    requires s == Run(Empty(TWO_TIERS), Mixed())
    ensures forall k, u: Tier :: k in s.blocks && Configured(s.cfg, u) ==> s.blocks[k].entry.size <= Limit(s, u)
    ensures THIRD in s.blocks && THIRD !in Read(s, SECOND).store.blocks
  {
    MixedRuns();
    RunInv(TWO_TIERS, Mixed());
    forall k, u: Tier | k in s.blocks && Configured(s.cfg, u) ensures s.blocks[k].entry.size <= Limit(s, u) {
      MixedFits(s, k, u);
    }
    var p := Promote(Touch(MixedStore(), SECOND), SECOND, HBM);
    MixedPromoted(p);
    SmallLostBy(p);
    MixedRead(p);
  }

  // ------------------------------------------------ a victim forgotten at once

  /** What every block of this run is: as large as the tier. */
  ghost function Whole(key: BlockKey): Op {
    WriteOp(MakeBlock(key, 10), HBM, 0)
  }

  ghost function Fresh(i: nat): BlockKey {
    BlockKey(3 + i, 0, 1)
  }

  ghost function FreshKeys(n: nat): seq<BlockKey> {
    seq(n, i requires 0 <= i < n => Fresh(i))
  }

  /** Two blocks that displace each other twice, so that both have left a residue among the
      ghosts, then `n` blocks that are each evicted at once. */
  ghost function Churn(n: nat): seq<Op> {
    if n == 0 then [] + [Whole(FIRST)] + [Whole(SECOND)] + [Whole(FIRST)] + [Whole(SECOND)]
    else Churn(n - 1) + [Whole(Fresh(n - 1))]
  }

  ghost function Churned(n: nat): Store {
    Store(ONLY_HBM, 4 + n, map[SECOND := Placed(SECOND, 10, HBM, 2, 4, true)], [], [SECOND],
          set i | 0 <= i < n :: Fresh(i), [FIRST, SECOND] + FreshKeys(n))
  }

  lemma OnlyTier()
    ensures Threshold(ONLY_HBM, HBM) == 10 && NextSlower(ONLY_HBM, HBM) == None && Fastest(ONLY_HBM) == Some(HBM)
  {
    assert NextSlower(ONLY_HBM, DRAM) == NextSlower(ONLY_HBM, NVME) == None;
  }

  /** Of two blocks that each fill the tier, the victim goes and the other stays. */
  lemma OneGoes(s: Store, a: BlockKey, x: StoredBlock, b: BlockKey, y: StoredBlock, p: Picked)
    requires s.cfg == ONLY_HBM && s.blocks == map[a := x, b := y] && a != b
    requires x.entry.tier == y.entry.tier == HBM && x.entry.size == y.entry.size == 10
    requires p == Pick(s, HBM) && p.victim == Some(a) && p.store.blocks == s.blocks
    ensures Enforce(s, HBM) == Outcome(p.store.(blocks := map[b := y]), Ok)
  {
    OnlyTier();
    TotalTwo(TierBytes(HBM), a, x, b, y);
    OneEvicted(s, a, x, b, y, p);
    EnforceStep(s, HBM);
    TotalOne(TierBytes(HBM), b, y);
  }

  lemma OneEvicted(s: Store, a: BlockKey, x: StoredBlock, b: BlockKey, y: StoredBlock, p: Picked)
    requires s.cfg == ONLY_HBM && s.blocks == map[a := x, b := y] && a != b
    requires p == Pick(s, HBM) && p.victim == Some(a) && p.store.blocks == s.blocks
    ensures LandingTier(s, HBM) == None && Evict(s, HBM) == p.store.(blocks := map[b := y])
    ensures p.store.cfg == s.cfg
  {
    OnlyTier();
    PickFrame(s, HBM);
    assert s.blocks - {a} == map[b := y];
  }

  /** A write that finds the tier full: the block is admitted and one of the two goes. */
  lemma WriteDisplaces(s: Store, k: BlockKey, a: Store, after: Store)
    requires s.cfg == ONLY_HBM && a == Admit(s, MakeBlock(k, 10), HBM, 0) && Enforce(a, HBM) == Outcome(after, Ok)
    ensures Apply(s, Whole(k)) == after
  {
  }

  /** An unknown block, written while one block of the main queue fills the tier, is evicted
      at once and handed to the ghost memory. */
  lemma ColdWrite(s: Store, k: BlockKey, b: BlockKey, y: StoredBlock)
    requires s.cfg == ONLY_HBM && s.blocks == map[b := y] && b != k && k !in s.ghosts && s.small == []
    requires y.entry.tier == HBM && y.entry.size == 10 && y.inMain
    ensures Apply(s, Whole(k)) == GhostInsert(s.(clock := s.clock + 1), k)
  {
    var x := Placed(k, 10, HBM, 1, s.clock + 1, false);
    var a := Admit(s, MakeBlock(k, 10), HBM, 0);
    assert a.blocks == map[k := x, b := y] && a.small == [k];
    TotalTwo(SmallBytes(HBM), k, x, b, y);
    GhostInsertFrame(PopSmall(a), k);
    OnlyTier();
    OneGoes(a, k, x, b, y, Picked(GhostInsert(PopSmall(a), k), Some(k)));
    WriteDisplaces(s, k, a, GhostInsert(PopSmall(a), k).(blocks := map[b := y]));
    GhostInsertBlocks(PopSmall(a), k, s.blocks);
    assert s.ghosts - {k} == s.ghosts;
    assert PopSmall(a).(blocks := s.blocks) == s.(clock := s.clock + 1);
  }

  /** The ghost memory does not look at the stored blocks. */
  lemma GhostInsertBlocks(s: Store, k: BlockKey, m: BlockMap)
    ensures GhostInsert(s, k).(blocks := m) == GhostInsert(s.(blocks := m), k)
  {
    if k !in s.ghosts {
      GhostTrimBlocks(s.(ghosts := s.ghosts + {k}, ghostFifo := s.ghostFifo + [k]), m);
    }
  }

  lemma {:induction false} GhostTrimBlocks(s: Store, m: BlockMap)
    ensures GhostTrim(s).(blocks := m) == GhostTrim(s.(blocks := m))
    decreases |s.ghostFifo|
  {
    if |s.ghostFifo| > GHOST_CAPACITY {
      GhostTrimBlocks(s.(ghosts := s.ghosts - {s.ghostFifo[0]}, ghostFifo := s.ghostFifo[1..]), m);
    }
  }

  /** The store in which one block of the run fills the tier. */
  ghost function Sole(k: BlockKey, count: nat, now: nat, ghosts: set<BlockKey>, fifo: seq<BlockKey>): Store {
    var inMain := count > 1;
    Store(ONLY_HBM, now, map[k := Placed(k, 10, HBM, count, now, inMain)],
          if inMain then [] else [k], if inMain then [k] else [], ghosts, fifo)
  }

  /** A newcomer of the small queue displaces an older one, which becomes a ghost. */
  lemma SmallDisplaces(now: nat)
    ensures Apply(Sole(FIRST, 1, now, {}, []), Whole(SECOND)) == Sole(SECOND, 1, now + 1, {FIRST}, [FIRST])
  {
    var s := Sole(FIRST, 1, now, {}, []);
    var a := Admit(s, MakeBlock(SECOND, 10), HBM, 0);
    var x, y := s.blocks[FIRST], Placed(SECOND, 10, HBM, 1, now + 1, false);
    OnlyTier();
    assert a.blocks == map[FIRST := x, SECOND := y] && a.small == [FIRST, SECOND];
    TotalTwo(SmallBytes(HBM), FIRST, x, SECOND, y);
    var g := GhostInsert(PopSmall(a), FIRST);
    assert g == PopSmall(a).(ghosts := {FIRST}, ghostFifo := [FIRST]);
    OneGoes(a, FIRST, x, SECOND, y, Picked(g, Some(FIRST)));
    WriteDisplaces(s, SECOND, a, g.(blocks := map[SECOND := y]));
  }

  /** A ghost that returns enters the main queue and displaces the block of the small queue. */
  lemma GhostDisplaces(now: nat)
    ensures Apply(Sole(SECOND, 1, now, {FIRST}, [FIRST]), Whole(FIRST)) ==
            Sole(FIRST, 2, now + 1, {SECOND}, [FIRST, SECOND])
  {
    var s := Sole(SECOND, 1, now, {FIRST}, [FIRST]);
    var a := Admit(s, MakeBlock(FIRST, 10), HBM, 0);
    var x, y := Placed(FIRST, 10, HBM, 2, now + 1, true), s.blocks[SECOND];
    OnlyTier();
    assert a.blocks == map[SECOND := y, FIRST := x] && a.small == [SECOND] && a.main == [FIRST];
    TotalTwo(SmallBytes(HBM), SECOND, y, FIRST, x);
    var g := GhostInsert(PopSmall(a), SECOND);
    assert g == PopSmall(a).(ghosts := {SECOND}, ghostFifo := [FIRST, SECOND]);
    OneGoes(a, SECOND, y, FIRST, x, Picked(g, Some(SECOND)));
    WriteDisplaces(s, FIRST, a, g.(blocks := map[FIRST := x]));
  }

  /** A second ghost that returns displaces the first from the main queue, and no ghost is left;
      the residues of both are. */
  lemma MainDisplaces(now: nat)
    ensures Apply(Sole(FIRST, 2, now, {SECOND}, [FIRST, SECOND]), Whole(SECOND)) ==
            Sole(SECOND, 2, now + 1, {}, [FIRST, SECOND])
  {
    var s := Sole(FIRST, 2, now, {SECOND}, [FIRST, SECOND]);
    var a := Admit(s, MakeBlock(SECOND, 10), HBM, 0);
    var x, y := s.blocks[FIRST], Placed(SECOND, 10, HBM, 2, now + 1, true);
    OnlyTier();
    assert a.blocks == map[FIRST := x, SECOND := y] && a.small == [] && a.main == [FIRST, SECOND];
    TotalTwo(SmallBytes(HBM), FIRST, x, SECOND, y);
    OneGoes(a, FIRST, x, SECOND, y, Picked(PopMain(a), Some(FIRST)));
    WriteDisplaces(s, SECOND, a, PopMain(a).(blocks := map[SECOND := y]));
  }

  lemma ChurnStarts()
    ensures Run(Empty(ONLY_HBM), Churn(0)) == Churned(0)
  {
    var s0, s1 := Empty(ONLY_HBM), Sole(FIRST, 1, 1, {}, []);
    OnlyTier();
    assert Admit(s0, MakeBlock(FIRST, 10), HBM, 0) == s1;
    TotalOne(TierBytes(HBM), FIRST, s1.blocks[FIRST]);
    WritePlain(s0, MakeBlock(FIRST, 10), HBM, s1);
    SmallDisplaces(1);
    GhostDisplaces(2);
    MainDisplaces(3);
    var a, b := Whole(FIRST), Whole(SECOND);
    RunPush(s0, [], a);
    RunPush(s0, [] + [a], b);
    RunPush(s0, [] + [a] + [b], a);
    RunPush(s0, [] + [a] + [b] + [a], b);
    assert Sole(SECOND, 2, 4, {}, [FIRST, SECOND]) == Churned(0);
  }

  lemma FreshRemembered(s: Store, s': Store, n: nat)
    requires 0 < n <= GHOST_CAPACITY - 2 && s == Churned(n - 1).(clock := 4 + n) && s' == Churned(n)
    ensures GhostInsert(s, Fresh(n - 1)) == s'
  {
    assert FreshKeys(n) == FreshKeys(n - 1) + [Fresh(n - 1)];
    assert s.ghostFifo + [Fresh(n - 1)] == s'.ghostFifo;
    assert s.ghosts + {Fresh(n - 1)} == s'.ghosts;
  }

  lemma {:induction false} ChurnRuns(n: nat)
    requires n <= GHOST_CAPACITY - 2
    ensures Run(Empty(ONLY_HBM), Churn(n)) == Churned(n)
  {
    if n == 0 {
      ChurnStarts();
    } else {
      var s := Churned(n - 1);
      ChurnRuns(n - 1);
      RunPush(Empty(ONLY_HBM), Churn(n - 1), Whole(Fresh(n - 1)));
      ColdWrite(s, Fresh(n - 1), SECOND, s.blocks[SECOND]);
      FreshRemembered(s.(clock := s.clock + 1), Churned(n), n);
    }
  }

  /** The ghost memory can forget a victim at once: after this run the first key is written,
      evicted from the small queue, and neither stored nor remembered. */
  lemma GhostMayForget()
    ensures var s := Run(Empty(ONLY_HBM), Churn(GHOST_CAPACITY - 2));
            var w := Write(s, MakeBlock(FIRST, 10), HBM, 0);
            w.status == Ok && FIRST !in w.store.blocks && FIRST !in w.store.ghosts
  {
    var n := GHOST_CAPACITY - 2;
    var s := Churned(n);
    ChurnRuns(n);
    RunInv(ONLY_HBM, Churn(n));
    OnlyTier();
    WriteStatus(s, MakeBlock(FIRST, 10), HBM, 0);
    ColdWrite(s, FIRST, SECOND, s.blocks[SECOND]);
    GhostRemembers(s.(clock := s.clock + 1), FIRST);
    GhostInsertFrame(s.(clock := s.clock + 1), FIRST);
  }
}
