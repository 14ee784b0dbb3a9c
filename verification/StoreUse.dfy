/** What reading and prefetching do for a block: a read counts a use and makes the block the most recent,
    a prefetch brings it into the fastest tier. */
module StoreUse {
  import opened Blocks
  import opened Numbers
  import opened Tiers
  import opened Totals
  import opened StoreModel
  import opened StoreInvariant
  import opened StoreCapacity
  import opened StoreContents
  import opened StoreRetention

  // ------------------------------------------------ reads

  /** No block was accessed as recently as `k`. */
  ghost predicate Newest(m: BlockMap, k: BlockKey) {
    k in m && forall j :: j in m && j != k ==> Stamp(m, j) < Stamp(m, k)
  }

  /** A read that promotes nothing counts one access and makes the block the most recent of the store; in
      the fastest tier it counts one use, up to three. Nothing else changes. */
  lemma ReadInPlace(s: Store, k: BlockKey, fast: Tier)
    requires Inv(s) && k in s.blocks && Fastest(s.cfg) == Some(fast)
    requires s.blocks[k].entry.tier == fast || s.blocks[k].entry.size > Limit(s, fast)
    ensures var before, after := s.blocks, Read(s, k).store.blocks;
            Read(s, k).result == Hit(before[k].block) && after - {k} == before - {k} && Newest(after, k) &&
            At(after, k, before[k].entry.tier) && after[k].inMain == before[k].inMain &&
            after[k].entry.tenant == before[k].entry.tenant && after[k].block == before[k].block &&
            after[k].entry.stats.accessCount == before[k].entry.stats.accessCount + 1 &&
            after[k].freq == if before[k].entry.tier == fast then Min(before[k].freq + 1, 3) else before[k].freq
  {
    assert BlockOk(s.cfg, s.clock, s.blocks, k);
    forall j | j in s.blocks && j != k ensures Stamp(s.blocks, j) < s.clock + 1 {
      assert BlockOk(s.cfg, s.clock, s.blocks, j);
    }
  }

  /** A read that promotes leaves the block, if no eviction is needed, as the most recent of the store, in the
      fastest tier's main queue, with no use yet. */
  lemma ReadPromoted(s: Store, k: BlockKey, fast: Tier)
    requires Inv(s) && k in s.blocks && Fastest(s.cfg) == Some(fast) && s.blocks[k].entry.tier != fast
    requires Used(s, fast) + s.blocks[k].entry.size <= Limit(s, fast)
    ensures var before, after := s.blocks, Read(s, k).store.blocks;
            Read(s, k).result == Hit(before[k].block) && after - {k} == before - {k} && Newest(after, k) &&
            At(after, k, fast) && after[k].inMain && after[k].freq == 0 && k in Read(s, k).store.main &&
            after[k].entry.tenant == before[k].entry.tenant &&
            after[k].entry.stats.accessCount == before[k].entry.stats.accessCount + 1
  {
    TouchUsed(s, k, fast);
    PromoteUsed(Touch(s, k), k, fast, fast);
    forall j | j in s.blocks && j != k ensures Stamp(s.blocks, j) < s.clock + 1 {
      assert BlockOk(s.cfg, s.clock, s.blocks, j);
    }
  }

  /** A block of the small queue that is read is not taken from there by the next search: it survives it, or
      it has meanwhile moved to the main queue and used up its second chances. */
  lemma ReadSpares(s: Store, k: BlockKey, fast: Tier)
    requires Inv(s) && At(s.blocks, k, fast) && Fastest(s.cfg) == Some(fast)
    ensures var p := S3Pick(Read(s, k).store, fast);
            p.victim == Some(k) ==> k in p.store.blocks && p.store.blocks[k].inMain
  {
    ReadInPlace(s, k, fast);
    S3PickAges(Read(s, k).store, fast, k);
  }

  /** A block of a slower tier that is read is not the next victim of its tier, as long as it fits. */
  lemma ReadSparesSlower(s: Store, k: BlockKey, t: Tier)
    requires Inv(s) && At(s.blocks, k, t) && Fastest(s.cfg).Some? && Fastest(s.cfg) != Some(t)
    requires s.blocks[k].entry.size > Limit(s, Fastest(s.cfg).value)
    ensures var r := Read(s, k).store;
            s.blocks[k].entry.size <= Limit(r, t) < Used(r, t) ==> LruPick(r, t).victim != Some(k)
  {
    ReadInPlace(s, k, Fastest(s.cfg).value);
    var r := Read(s, k).store;
    assert Latest(r.blocks, k, t);
    if s.blocks[k].entry.size <= Limit(r, t) < Used(r, t) {
      LruSparesLatest(r, t, k);
    }
  }

  // ------------------------------------------------ prefetches

  /** A key that is not stored, already in the fastest tier or too large for it is left alone. */
  lemma PrefetchSkips(s: Store, k: BlockKey, fast: Tier)
    requires Fastest(s.cfg) == Some(fast)
    requires k !in s.blocks || s.blocks[k].entry.tier == fast || BlockSize(s.blocks[k].block) > Limit(s, fast)
    ensures PrefetchOne(s, k, fast) == Outcome(s, Ok)
  {
  }

  /** One access more: the first access of a remembered ghost counts twice. */
  ghost function CountOnce(s: Store, k: BlockKey): nat
    requires k in s.blocks
  {
    if s.blocks[k].entry.stats.accessCount == 0 && k in s.ghosts then 2 else s.blocks[k].entry.stats.accessCount + 1
  }

  /** The block of `k` is now in tier `t`, with its owner and payload, accessed once more. */
  ghost predicate Brought(s: Store, after: BlockMap, k: BlockKey, t: Tier)
    requires k in s.blocks
  {
    At(after, k, t) && after[k].block == s.blocks[k].block && after[k].entry.tenant == s.blocks[k].entry.tenant &&
    after[k].entry.stats.accessCount == CountOnce(s, k)
  }

  /** Any other key is brought into the fastest tier, if there is room, and nothing else changes. */
  lemma PrefetchBrings(s: Store, k: BlockKey, fast: Tier)
    requires Inv(s) && Fastest(s.cfg) == Some(fast) && k in s.blocks && s.blocks[k].entry.tier != fast
    requires Used(s, fast) + s.blocks[k].entry.size <= Limit(s, fast)
    ensures var r := PrefetchOne(s, k, fast);
            r.status == Ok && Brought(s, r.store.blocks, k, fast) && r.store.blocks - {k} == s.blocks - {k} &&
            r.store.cfg == s.cfg && Inv(r.store) && Newest(r.store.blocks, k) &&
            Used(r.store, fast) == Used(s, fast) + s.blocks[k].entry.size && r.store.ghosts == s.ghosts - {k}
  {
    var b := s.blocks[k];
    assert BlockOk(s.cfg, s.clock, s.blocks, k);
    AdmitInv(s, b.block, fast, b.entry.tenant);
    TotalInsert(TierBytes(fast), s.blocks, k, Admit(s, b.block, fast, b.entry.tenant).blocks[k]);
    forall j | j in s.blocks && j != k ensures Stamp(s.blocks, j) < s.clock + 1 {
      assert BlockOk(s.cfg, s.clock, s.blocks, j);
    }
  }

  /** If others have to make way, and there are no quotas, it ends in the fastest tier or in its haven. */
  lemma PrefetchRests(s: Store, k: BlockKey, fast: Tier)
    requires Inv(s) && Bounded(s) && !QuotaEnabled(s.cfg) && Fastest(s.cfg) == Some(fast)
    requires k in s.blocks && s.blocks[k].entry.tier != fast && s.blocks[k].entry.size <= Limit(s, fast)
    ensures var r, size := PrefetchOne(s, k, fast), s.blocks[k].entry.size;
            r.status == Ok &&
            (Brought(s, r.store.blocks, k, fast) ||
             match Haven(s.cfg, size, fast)
             case Some(w) => Brought(s, r.store.blocks, k, w)
             case None => k !in r.store.blocks)
  {
    var b := s.blocks[k];
    var a := Admit(s, b.block, fast, b.entry.tenant);
    assert BlockOk(s.cfg, s.clock, s.blocks, k);
    PlaceInv(s, b.block, fast, b.entry.tenant);
    AdmitInv(s, b.block, fast, b.entry.tenant);
    AdmitUsed(s, b.block, fast, b.entry.tenant, fast);
    EnforceNewcomer(a, fast, k);
    EnforceFewer(a, fast);
  }

  // ------------------------------------------------ prefetching a list of keys

  /** Whether a key is stored below the fastest tier and fits into it. */
  ghost predicate Below(s: Store, k: BlockKey, fast: Tier) {
    k in s.blocks && s.blocks[k].entry.tier != fast && s.blocks[k].entry.size <= Limit(s, fast)
  }

  /** The bytes of the blocks that a list of keys brings in, each key counted once. */
  ghost function BytesBelow(s: Store, keys: seq<BlockKey>, fast: Tier, counted: set<BlockKey>): nat
    decreases |keys|
  {
    if keys == [] then 0
    else (if keys[0] !in counted && Below(s, keys[0], fast) then s.blocks[keys[0]].entry.size else 0) +
         BytesBelow(s, keys[1..], fast, counted + {keys[0]})
  }

  /** A key that is no longer below the fastest tier counts as much as one already counted. */
  lemma {:induction false} BytesCounted(s: Store, r: Store, keys: seq<BlockKey>, fast: Tier,
                                        counted: set<BlockKey>, k: BlockKey)
    requires r.cfg == s.cfg && r.blocks - {k} == s.blocks - {k} && !Below(r, k, fast)
    ensures BytesBelow(r, keys, fast, counted) == BytesBelow(s, keys, fast, counted + {k})
    decreases |keys|
  {
    if keys != [] {
      var h := keys[0];
      BytesCounted(s, r, keys[1..], fast, counted + {h}, k);
      assert counted + {h} + {k} == counted + {k} + {h};
      if h != k {
        assert h in r.blocks <==> h in r.blocks - {k};
        assert h in s.blocks <==> h in s.blocks - {k};
        assert h in s.blocks ==> (r.blocks - {k})[h] == (s.blocks - {k})[h];
      }
    }
  }

  /** Exactly the keys that were below the fastest tier have been brought in. */
  ghost predicate Gathered(s: Store, after: BlockMap, keys: seq<BlockKey>, fast: Tier) {
    after.Keys == s.blocks.Keys &&
    forall k :: k in s.blocks ==>
      if k in keys && Below(s, k, fast) then Brought(s, after, k, fast) else after[k] == s.blocks[k]
  }

  /** A prefetch for which there is room brings in exactly the named keys stored below the fastest tier. */
  lemma PrefetchGathers(s: Store, keys: seq<BlockKey>, fast: Tier)
    requires Inv(s) && Fastest(s.cfg) == Some(fast) && Used(s, fast) + BytesBelow(s, keys, fast, {}) <= Limit(s, fast)
    ensures Prefetch(s, keys).status == Ok && Gathered(s, Prefetch(s, keys).store.blocks, keys, fast)
  {
    AllGather(s, keys, fast);
  }

  /** A prefetch of one key does for it what is said above; without any tier it is refused. */
  lemma PrefetchSingle(s: Store, k: BlockKey)
    ensures match Fastest(s.cfg)
            case Some(fast) => Prefetch(s, [k]) == PrefetchOne(s, k, fast)
            case None => Prefetch(s, [k]) == Outcome(s, InvalidArgument)
  {
    if Fastest(s.cfg).Some? {
      var o := PrefetchOne(s, k, Fastest(s.cfg).value);
      assert [k][1..] == [];
      assert PrefetchAll(o.store, [], Fastest(s.cfg).value) == Outcome(o.store, Ok);
    }
  }

  lemma {:induction false} AllGather(s: Store, keys: seq<BlockKey>, fast: Tier)
    requires Inv(s) && Fastest(s.cfg) == Some(fast) && Used(s, fast) + BytesBelow(s, keys, fast, {}) <= Limit(s, fast)
    ensures PrefetchAll(s, keys, fast).status == Ok && Gathered(s, PrefetchAll(s, keys, fast).store.blocks, keys, fast)
    decreases |keys|
  {
    if keys != [] {
      var k, rest := keys[0], keys[1..];
      var r := PrefetchOne(s, k, fast).store;
      assert keys == [k] + rest;
      assert {} + {k} == {k};
      PrefetchStep(s, k, fast);
      BytesCounted(s, r, rest, fast, {}, k);
      AllGather(r, rest, fast);
      GatheredThen(s, r, PrefetchAll(s, keys, fast).store.blocks, k, rest, fast);
    }
  }

  lemma PrefetchStep(s: Store, k: BlockKey, fast: Tier)
    requires Inv(s) && Fastest(s.cfg) == Some(fast)
    requires Below(s, k, fast) ==> Used(s, fast) + s.blocks[k].entry.size <= Limit(s, fast)
    ensures var o := PrefetchOne(s, k, fast);
            var r := o.store;
            o.status == Ok && Inv(r) && r.cfg == s.cfg && r.blocks - {k} == s.blocks - {k} && !Below(r, k, fast) &&
            (if Below(s, k, fast) then Brought(s, r.blocks, k, fast) else r.blocks == s.blocks) &&
            Used(r, fast) == Used(s, fast) + (if Below(s, k, fast) then s.blocks[k].entry.size else 0) &&
            forall j :: j != k ==> (j in r.ghosts <==> j in s.ghosts)
  {
    if Below(s, k, fast) {
      PrefetchBrings(s, k, fast);
    } else {
      if k in s.blocks {
        assert BlockOk(s.cfg, s.clock, s.blocks, k);
      }
      PrefetchSkips(s, k, fast);
    }
  }

  lemma GatheredThen(s: Store, r: Store, after: BlockMap, k: BlockKey, rest: seq<BlockKey>, fast: Tier)
    requires r.cfg == s.cfg && r.blocks - {k} == s.blocks - {k} && Gathered(r, after, rest, fast)
    requires if Below(s, k, fast) then Brought(s, r.blocks, k, fast) else r.blocks == s.blocks
    requires forall j :: j != k ==> (j in r.ghosts <==> j in s.ghosts)
    ensures Gathered(s, after, [k] + rest, fast)
  {
    forall j | j != k ensures (j in r.blocks <==> j in s.blocks) && (j in s.blocks ==> r.blocks[j] == s.blocks[j]) {
      assert j in r.blocks - {k} <==> j in s.blocks - {k};
      assert j in s.blocks ==> (r.blocks - {k})[j] == (s.blocks - {k})[j];
    }
    forall j | j in s.blocks
      ensures if j in [k] + rest && Below(s, j, fast) then Brought(s, after, j, fast) else after[j] == s.blocks[j]
    {
      if j != k {
        assert j in [k] + rest <==> j in rest;
      }
    }
  }

  // ------------------------------------------------ access counts

  ghost predicate Counted(m: BlockMap) {
    forall k :: k in m ==> m[k].entry.stats.accessCount > 0
  }

  lemma EnforceCounted(s: Store, t: Tier)
    requires Inv(s) && Counted(s.blocks)
    ensures Counted(Enforce(s, t).store.blocks)
  {
    EnforceFewer(s, t);
  }

  lemma PlaceCounted(s: Store, block: KVCacheBlock, t: Tier, tenant: nat)
    requires Inv(s) && Counted(s.blocks) && Configured(s.cfg, t)
    ensures Counted(Place(s, block, t, tenant).store.blocks)
  {
    AdmitInv(s, block, t, tenant);
    EnforceCounted(Admit(s, block, t, tenant), t);
  }

  lemma {:induction false} PrefetchCounted(s: Store, keys: seq<BlockKey>, fast: Tier)
    requires Inv(s) && Counted(s.blocks) && Configured(s.cfg, fast)
    ensures Counted(PrefetchAll(s, keys, fast).store.blocks)
    decreases |keys|
  {
    if keys != [] {
      if PrefetchMoves(s, keys[0], fast) {
        PlaceInv(s, s.blocks[keys[0]].block, fast, s.blocks[keys[0]].entry.tenant);
        PlaceCounted(s, s.blocks[keys[0]].block, fast, s.blocks[keys[0]].entry.tenant);
      }
      PrefetchCounted(PrefetchOne(s, keys[0], fast).store, keys[1..], fast);
    }
  }

  /** In every reachable state every stored block has been accessed, so a prefetch counts exactly once. */
  lemma {:induction false} RunCounted(cfg: Config, ops: seq<Op>)
    ensures Counted(Run(Empty(cfg), ops).blocks)
    ensures var s := Run(Empty(cfg), ops);
            forall k :: k in s.blocks ==> CountOnce(s, k) == s.blocks[k].entry.stats.accessCount + 1
    decreases |ops|
  {
    if ops != [] {
      var s := Run(Empty(cfg), ops[..|ops| - 1]);
      RunInv(cfg, ops[..|ops| - 1]);
      RunCounted(cfg, ops[..|ops| - 1]);
      match ops[|ops| - 1]
      case WriteOp(block, target, tenant) =>
        if Resolve(cfg, target).Some? {
          PlaceCounted(s, block, Resolve(cfg, target).value, tenant);
        }
      case ReadOp(k) =>
        if k in s.blocks {
          TouchInv(s, k);
          if ReadPromotes(s, k) {
            var fast := Fastest(s.cfg).value;
            PromoteInv(Touch(s, k), k, fast);
            EnforceCounted(Promote(Touch(s, k), k, fast), fast);
          }
        }
      case PrefetchOp(keys) =>
        if Fastest(cfg).Some? {
          PrefetchCounted(s, keys, Fastest(cfg).value);
        }
      case EnforceOp(t) => EnforceCounted(s, t);
    }
  }
}
