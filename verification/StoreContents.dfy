/** Contents: the store refines a lossy map. It may forget a block, but what it
    still holds for a key is the block last written for it. */
module StoreContents {
  import opened Blocks
  import opened Tiers
  import opened Totals
  import opened StoreModel
  import opened StoreInvariant

  /** `m'` holds some of the blocks of `m`, unaltered, owned by the same tenants, in no faster tier. */
  ghost predicate Fewer(m: BlockMap, m': BlockMap) {
    forall k :: k in m' ==>
      k in m && m'[k].block == m[k].block && m'[k].entry.tenant == m[k].entry.tenant &&
      m'[k].entry.size == m[k].entry.size && m'[k].entry.stats.accessCount == m[k].entry.stats.accessCount &&
      m[k].entry.tier <= m'[k].entry.tier
  }

  lemma EvictFewer(s: Store, t: Tier)
    requires Pick(s, t).victim.Some?
    ensures Fewer(s.blocks, Evict(s, t).blocks)
  {
    PickFrame(s, t);
  }

  /** Eviction only demotes or drops: payloads, owners and access counts survive. */
  lemma {:induction false} EnforceFewer(s: Store, t: Tier)
    requires Inv(s)
    ensures Fewer(s.blocks, Enforce(s, t).store.blocks)
    decreases 3 - t, |KeysAt(s.blocks, t)|
  {
    if Used(s, t) > Limit(s, t) {
      Step(s, t);
      EvictFewer(s, t);
      if LandingTier(s, t).Some? {
        EnforceFewer(Evict(s, t), LandingTier(s, t).value);
      }
      EnforceFewer(Next(s, t), t);
    }
  }

  /** Whether a write is accepted: some tier resolves the target and is large enough. */
  ghost predicate Accepts(cfg: Config, block: KVCacheBlock, target: Tier) {
    Resolve(cfg, target).Some? && BlockSize(block) <= Threshold(cfg, Resolve(cfg, target).value)
  }

  /** A write succeeds exactly when the configuration accepts it; a refused write changes nothing. */
  lemma WriteStatus(s: Store, block: KVCacheBlock, target: Tier, tenant: nat)
    requires Inv(s)
    ensures Write(s, block, target, tenant).status == Ok <==> Accepts(s.cfg, block, target)
    ensures !Accepts(s.cfg, block, target) ==> Write(s, block, target, tenant).store == s
  {
    if Resolve(s.cfg, target).Some? {
      PlaceInv(s, block, Resolve(s.cfg, target).value, tenant);
    }
  }

  /** The block last written successfully for each key. */
  ghost function Written(cfg: Config, ops: seq<Op>): map<BlockKey, KVCacheBlock>
    decreases |ops|
  {
    if ops == [] then map[] else
    var before := Written(cfg, ops[..|ops| - 1]);
    match ops[|ops| - 1]
    case WriteOp(block, target, _) => if Accepts(cfg, block, target) then before[block.key := block] else before
    case _ => before
  }

  ghost predicate Faithful(m: BlockMap, written: map<BlockKey, KVCacheBlock>) {
    forall k :: k in m ==> k in written && m[k].block == written[k]
  }

  lemma PlaceFaithful(s: Store, block: KVCacheBlock, t: Tier, tenant: nat, written: map<BlockKey, KVCacheBlock>)
    requires Inv(s) && Configured(s.cfg, t) && Faithful(s.blocks, written) && BlockSize(block) <= Limit(s, t)
    ensures Faithful(Place(s, block, t, tenant).store.blocks, written[block.key := block])
  {
    AdmitInv(s, block, t, tenant);
    EnforceFewer(Admit(s, block, t, tenant), t);
  }

  lemma ReadFaithful(s: Store, k: BlockKey, written: map<BlockKey, KVCacheBlock>)
    requires Inv(s) && Faithful(s.blocks, written)
    ensures Faithful(Read(s, k).store.blocks, written)
    ensures Read(s, k).result.Hit? ==> k in written && Read(s, k).result.block == written[k]
  {
    if k in s.blocks {
      TouchInv(s, k);
      if ReadPromotes(s, k) {
        var fast := Fastest(s.cfg).value;
        PromoteInv(Touch(s, k), k, fast);
        EnforceFewer(Promote(Touch(s, k), k, fast), fast);
      }
    }
  }

  /** A read that hits counts exactly one access, wherever promotion and eviction leave the block. */
  lemma ReadCounts(s: Store, k: BlockKey)
    requires Inv(s) && k in s.blocks && Read(s, k).result.Hit?
    ensures var after := Read(s, k).store.blocks;
            k in after && after[k].entry.stats.accessCount == s.blocks[k].entry.stats.accessCount + 1 &&
            after[k].entry.tenant == s.blocks[k].entry.tenant
  {
    TouchInv(s, k);
    if ReadPromotes(s, k) {
      var fast := Fastest(s.cfg).value;
      PromoteInv(Touch(s, k), k, fast);
      EnforceFewer(Promote(Touch(s, k), k, fast), fast);
    }
  }

  lemma {:induction false} PrefetchFaithful(s: Store, keys: seq<BlockKey>, fast: Tier,
                                            written: map<BlockKey, KVCacheBlock>)
    requires Inv(s) && Configured(s.cfg, fast) && Faithful(s.blocks, written)
    ensures Faithful(PrefetchAll(s, keys, fast).store.blocks, written)
    decreases |keys|
  {
    if keys != [] {
      var k := keys[0];
      if PrefetchMoves(s, k, fast) {
        PlaceInv(s, s.blocks[k].block, fast, s.blocks[k].entry.tenant);
        PlaceFaithful(s, s.blocks[k].block, fast, s.blocks[k].entry.tenant, written);
        assert BlockOk(s.cfg, s.clock, s.blocks, k) && written[k := s.blocks[k].block] == written;
      }
      PrefetchFaithful(PrefetchOne(s, k, fast).store, keys[1..], fast, written);
    }
  }

  /** Over every run, through any chain of demotions, promotions and prefetches, a stored
      block is the one last written, and a read that hits returns exactly it. */
  lemma {:induction false} RunFaithful(cfg: Config, ops: seq<Op>)
    ensures Faithful(Run(Empty(cfg), ops).blocks, Written(cfg, ops))
    ensures forall k :: Read(Run(Empty(cfg), ops), k).result.Hit? ==>
              k in Written(cfg, ops) && Read(Run(Empty(cfg), ops), k).result.block == Written(cfg, ops)[k]
    decreases |ops|
  {
    if ops != [] {
      var before, written := Run(Empty(cfg), ops[..|ops| - 1]), Written(cfg, ops[..|ops| - 1]);
      RunInv(cfg, ops[..|ops| - 1]);
      RunFaithful(cfg, ops[..|ops| - 1]);
      match ops[|ops| - 1]
      case WriteOp(block, target, tenant) =>
        WriteStatus(before, block, target, tenant);
        if Accepts(cfg, block, target) {
          PlaceFaithful(before, block, Resolve(cfg, target).value, tenant, written);
        }
      case ReadOp(k) => ReadFaithful(before, k, written);
      case PrefetchOp(keys) =>
        if Fastest(cfg).Some? {
          PrefetchFaithful(before, keys, Fastest(cfg).value, written);
        }
      case EnforceOp(t) => EnforceFewer(before, t);
    }
    RunInv(cfg, ops);
    forall k ensures Read(Run(Empty(cfg), ops), k).result.Hit? ==>
        k in Written(cfg, ops) && Read(Run(Empty(cfg), ops), k).result.block == Written(cfg, ops)[k] {
      ReadFaithful(Run(Empty(cfg), ops), k, Written(cfg, ops));
    }
  }
}
