/** Retention: which blocks an operation is guaranteed not to lose. */
module StoreRetention {
  import opened Blocks
  import opened Tiers
  import opened Totals
  import opened VictimOrder
  import opened StoreModel
  import opened StoreInvariant
  import opened StoreCapacity
  import opened StoreContents

  // ------------------------------------------------ the most recent block of a slower tier

  /** No other block of tier `t` was accessed after `k`. */
  ghost predicate Latest(m: BlockMap, k: BlockKey, t: Tier) {
    At(m, k, t) && forall j :: j in KeysAt(m, t) && j != k ==> Stamp(m, j) < Stamp(m, k)
  }

  lemma UsedAlone(s: Store, k: BlockKey, t: Tier)
    requires k in s.blocks && KeysAt(s.blocks, t) == {k}
    ensures Used(s, t) == s.blocks[k].entry.size
  {
    var g := TierBytes(t);
    TotalRemove(g, s.blocks, k);
    assert k in KeysAt(s.blocks, t);
    if Total(g, s.blocks - {k}) > 0 {
      var j := TotalPositive(g, s.blocks - {k});
      assert false;
    }
  }

  /** Least-recently-used eviction never takes the latest block of a tier it fits in. */
  lemma LruSparesLatest(s: Store, t: Tier, k: BlockKey)
    requires Latest(s.blocks, k, t) && s.blocks[k].entry.size <= Limit(s, t) < Used(s, t)
    ensures LruPick(s, t).victim != Some(k)
  {
    if LruPick(s, t).victim == Some(k) {
      LatestFirst(s, t, k);
      UsedAlone(s, k, t);
    }
  }

  /** Evicting some other block leaves `k`, and its place in the order of tier `t`, as they were. */
  lemma StepSpares(s: Store, t: Tier, k: BlockKey)
    requires Inv(s) && Used(s, t) > Limit(s, t) && At(s.blocks, k, t) && Pick(s, t).victim != Some(k)
    ensures Pick(s, t).victim.Some?
    ensures At(Next(s, t).blocks, k, t) && Next(s, t).blocks[k].entry == s.blocks[k].entry
    ensures Latest(s.blocks, k, t) ==> Latest(Next(s, t).blocks, k, t)
  {
    Step(s, t);
    PickFrame(s, t);
    forall j | j in KeysAt(Next(s, t).blocks, t)
      ensures j in s.blocks && Next(s, t).blocks[j].entry == s.blocks[j].entry
    {
      assert j in KeysAt(Evict(s, t).blocks, t) && Evict(s, t).blocks[j].entry == s.blocks[j].entry;
    }
    assert k in KeysAt(Next(s, t).blocks, t);
  }

  /** Without quotas, enforcing a tier below the fastest keeps its most recent block in place. */
  lemma {:induction false} EnforceKeepsLatest(s: Store, t: Tier, k: BlockKey)
    requires Inv(s) && !QuotaEnabled(s.cfg) && Fastest(s.cfg) != Some(t)
    requires Latest(s.blocks, k, t) && s.blocks[k].entry.size <= Limit(s, t)
    ensures At(Enforce(s, t).store.blocks, k, t)
    decreases |KeysAt(s.blocks, t)|
  {
    if Used(s, t) > Limit(s, t) {
      LruSparesLatest(s, t, k);
      Step(s, t);
      StepSpares(s, t, k);
      EnforceKeepsLatest(Next(s, t), t, k);
    }
  }

  // ------------------------------------------------ where a block comes to rest

  /** Where the newest block of tier `t` comes to rest once it is evicted: a tier drops a block
      above its capacity, passes on a block above its threshold and keeps a smaller one. */
  ghost function Haven(cfg: Config, size: nat, t: Tier): Option<Tier>
    decreases 3 - t
  {
    match NextSlower(cfg, t)
    case None => None
    case Some(w) =>
      if size > CapacityOf(cfg, w) then None
      else if size <= Threshold(cfg, w) then Some(w)
      else Haven(cfg, size, w)
  }

  /** `k` is in tier `w`, or in no tier at all. */
  ghost predicate RestsAt(m: BlockMap, k: BlockKey, w: Option<Tier>) {
    match w
    case Some(u) => At(m, k, u)
    case None => k !in m
  }

  /** The victim enters the slower tier as its latest block. */
  lemma EvictedLatest(s: Store, t: Tier)
    requires Inv(s) && Pick(s, t).victim.Some? && LandingTier(s, t).Some?
    ensures Latest(Evict(s, t).blocks, Victim(s, t), LandingTier(s, t).value)
  {
    PickFrame(s, t);
    var w, d, k := LandingTier(s, t).value, Evict(s, t), Victim(s, t);
    forall j | j in KeysAt(d.blocks, w) && j != k ensures Stamp(d.blocks, j) < Stamp(d.blocks, k) {
      assert BlockOk(s.cfg, s.clock, s.blocks, j);
    }
  }

  lemma UsedNone(s: Store, t: Tier)
    ensures KeysAt(s.blocks, t) == {} ==> Used(s, t) == 0
  {
    if Used(s, t) > 0 {
      var j := TotalPositive(TierBytes(t), s.blocks);
      assert j in KeysAt(s.blocks, t);
    }
  }

  /** Without quotas, enforcing a tier below the fastest leaves its latest block exactly where
      the thresholds and capacities of that tier and the slower ones say. */
  lemma {:induction false} EnforceLatest(s: Store, t: Tier, k: BlockKey)
    requires Inv(s) && !QuotaEnabled(s.cfg) && Latest(s.blocks, k, t)
    requires forall u: Tier :: u >= t ==> Fastest(s.cfg) != Some(u)
    ensures var size := s.blocks[k].entry.size;
            RestsAt(Enforce(s, t).store.blocks, k, if size <= Limit(s, t) then Some(t) else Haven(s.cfg, size, t))
    decreases 3 - t, |KeysAt(s.blocks, t)|
  {
    if s.blocks[k].entry.size <= Limit(s, t) {
      EnforceKeepsLatest(s, t, k);
    } else {
      TotalRemove(TierBytes(t), s.blocks, k);
      Step(s, t);
      if Pick(s, t).victim != Some(k) {
        StepSpares(s, t, k);
        EnforceLatest(Next(s, t), t, k);
      } else {
        LatestFirst(s, t, k);
        UsedNone(Next(s, t), t);
        VictimRests(s, t, k);
      }
    }
  }

  /** If the latest block of a tier is also its least recently used, it is alone there. */
  lemma LatestFirst(s: Store, t: Tier, k: BlockKey)
    requires Latest(s.blocks, k, t) && LruPick(s, t).victim == Some(k)
    ensures KeysAt(s.blocks, t) == {k}
  {
    var index := IndexOf(s.blocks, t);
    forall j | j in KeysAt(s.blocks, t) ensures j == k {
      assert OrderOf(s.blocks[j], j) in index;
      assert OrderLeq(First(index), OrderOf(s.blocks[j], j));
      assert Stamp(s.blocks, j) >= Stamp(s.blocks, k);
    }
  }

  /** The victim of one iteration ends up in its haven. */
  lemma {:induction false} VictimRests(s: Store, t: Tier, k: BlockKey)
    requires Inv(s) && !QuotaEnabled(s.cfg) && Used(s, t) > Limit(s, t) && Pick(s, t).victim == Some(k)
    requires forall u: Tier :: u > t ==> Fastest(s.cfg) != Some(u)
    ensures At(s.blocks, k, t) && RestsAt(Next(s, t).blocks, k, Haven(s.cfg, s.blocks[k].entry.size, t))
    decreases 3 - t, 0
  {
    Step(s, t);
    PickFrame(s, t);
    if LandingTier(s, t).Some? {
      EvictedLatest(s, t);
      EnforceLatest(Evict(s, t), LandingTier(s, t).value, k);
    }
  }

  // ------------------------------------------------ a newcomer of the fastest tier

  /** Without quotas, a block just brought into the fastest tier is only ever its last victim,
      so it stays there or comes to rest in its haven. */
  lemma {:induction false} EnforceNewcomer(s: Store, fast: Tier, k: BlockKey)
    requires Inv(s) && !QuotaEnabled(s.cfg) && Fastest(s.cfg) == Some(fast) && At(s.blocks, k, fast)
    requires Used(s, fast) <= Limit(s, fast) + s.blocks[k].entry.size
    ensures At(Enforce(s, fast).store.blocks, k, fast) ||
            RestsAt(Enforce(s, fast).store.blocks, k, Haven(s.cfg, s.blocks[k].entry.size, fast))
    decreases |KeysAt(s.blocks, fast)|
  {
    if Used(s, fast) > Limit(s, fast) {
      Step(s, fast);
      EvictUsed(s, fast, fast);
      NextUsed(s, fast, fast);
      if Pick(s, fast).victim == Some(k) {
        VictimRests(s, fast, k);
      } else {
        StepSpares(s, fast, k);
        EnforceNewcomer(Next(s, fast), fast, k);
      }
    }
  }

  // ------------------------------------------------ no lost write

  /** A write that fits below the threshold lands in its target tier and evicts nothing. */
  lemma WriteFits(s: Store, block: KVCacheBlock, target: Tier, tenant: nat)
    requires Inv(s) && Accepts(s.cfg, block, target)
    requires Used(s, Resolve(s.cfg, target).value) + BlockSize(block) <= Limit(s, Resolve(s.cfg, target).value)
    ensures var s' := Write(s, block, target, tenant).store;
            At(s'.blocks, block.key, Resolve(s.cfg, target).value) &&
            s'.blocks - {block.key} == s.blocks - {block.key}
  {
    AdmitUsed(s, block, Resolve(s.cfg, target).value, tenant, Resolve(s.cfg, target).value);
  }

  /** Without quotas, an accepted write below the fastest tier leaves the block in exactly its
      target tier; one to the fastest tier leaves it there or in its haven. */
  lemma WriteRests(s: Store, block: KVCacheBlock, target: Tier, tenant: nat)
    requires Inv(s) && Bounded(s) && !QuotaEnabled(s.cfg) && Accepts(s.cfg, block, target)
    ensures var t := Resolve(s.cfg, target).value;
            var after := Write(s, block, target, tenant).store.blocks;
            At(after, block.key, t) ||
            (Fastest(s.cfg) == Some(t) && RestsAt(after, block.key, Haven(s.cfg, BlockSize(block), t)))
  {
    var t, k := Resolve(s.cfg, target).value, block.key;
    var a := Admit(s, block, t, tenant);
    AdmitInv(s, block, t, tenant);
    AdmitUsed(s, block, t, tenant, t);
    if Fastest(s.cfg) != Some(t) {
      forall j | j in KeysAt(a.blocks, t) && j != k ensures Stamp(a.blocks, j) < Stamp(a.blocks, k) {
        assert BlockOk(s.cfg, s.clock, s.blocks, j);
      }
      EnforceKeepsLatest(a, t, k);
    } else {
      EnforceNewcomer(a, t, k);
    }
  }

  /** Without quotas, a promoted block ends in the fastest tier or in its haven, and the read
      succeeds exactly when the block is still stored. */
  lemma PromotionRests(s: Store, k: BlockKey)
    requires Inv(s) && Bounded(s) && !QuotaEnabled(s.cfg) && k in s.blocks && ReadPromotes(s, k)
    ensures var fast, after := Fastest(s.cfg).value, Read(s, k).store.blocks;
            (At(after, k, fast) || RestsAt(after, k, Haven(s.cfg, s.blocks[k].entry.size, fast))) &&
            Read(s, k).result == if k in after then Hit(s.blocks[k].block) else Failed(Internal)
  {
    var fast := Fastest(s.cfg).value;
    var promoted := Promote(Touch(s, k), k, fast);
    TouchInv(s, k);
    PromoteInv(Touch(s, k), k, fast);
    TouchUsed(s, k, fast);
    PromoteUsed(Touch(s, k), k, fast, fast);
    EnforceNewcomer(promoted, fast, k);
    EnforceInv(promoted, fast);
    EnforceFewer(promoted, fast);
  }

  // ------------------------------------------------ lossless movement

  /** All blocks have one size, and every configured tier can hold at least one. */
  ghost predicate Uniform(s: Store, size: nat) {
    (forall k :: k in s.blocks ==> s.blocks[k].entry.size == size) &&
    forall u: Tier :: Configured(s.cfg, u) ==> size <= Limit(s, u)
  }

  lemma EvictUniform(s: Store, t: Tier, size: nat)
    requires Pick(s, t).victim.Some? && Uniform(s, size) && NextSlower(s.cfg, t).Some?
    ensures Uniform(Evict(s, t), size) && LandingTier(s, t) == NextSlower(s.cfg, t)
    ensures Evict(s, t).blocks.Keys == s.blocks.Keys && Evict(s, t).cfg == s.cfg
  {
    PickFrame(s, t);
  }

  /** Tier `t` holds at most one block too many and tier `room` can take one more. */
  ghost predicate Slack(s: Store, t: Tier, room: Tier, size: nat) {
    t < room && Configured(s.cfg, room) &&
    Used(s, t) <= Limit(s, t) + size && Used(s, room) + size <= Limit(s, room) &&
    forall u: Tier :: t < u < room ==> Used(s, u) <= Limit(s, u)
  }

  /** The bytes of `size` have moved from tier `from` to tier `to`. */
  ghost predicate Shifted(s: Store, d: Store, from: Tier, to: Tier, size: nat) {
    d.cfg == s.cfg &&
    forall u: Tier ::
      Used(d, u) + (if u == from then size else 0) == Used(s, u) + (if u == to then size else 0)
  }

  /** One eviction passes the excess on to the next tier, where there is still slack. */
  lemma SlackMoves(s: Store, d: Store, t: Tier, w: Tier, room: Tier, size: nat)
    requires Slack(s, t, room, size) && Shifted(s, d, t, w, size) && t < w <= room
    ensures if w < room then Slack(d, w, room, size) else Used(d, w) <= Limit(d, w)
    ensures Used(d, t) <= Limit(d, t)
  {
  }

  lemma EvictShifts(s: Store, t: Tier, size: nat)
    requires Pick(s, t).victim.Some? && Uniform(s, size) && NextSlower(s.cfg, t).Some?
    ensures Shifted(s, Evict(s, t), t, NextSlower(s.cfg, t).value, size)
  {
    EvictUniform(s, t, size);
    var d, w := Evict(s, t), NextSlower(s.cfg, t).value;
    forall u: Tier
      ensures Used(d, u) + (if u == t then size else 0) == Used(s, u) + (if u == w then size else 0)
    {
      EvictUsed(s, t, u);
    }
  }

  /** Taking one block out of a slower tier makes the slack that its promotion needs. */
  lemma PromotionSlack(s: Store, d: Store, fast: Tier, room: Tier, size: nat)
    requires Bounded(s) && Shifted(s, d, room, fast, size) && fast < room && Configured(s.cfg, room)
    ensures Slack(d, fast, room, size)
  {
  }

  /** With one block too many in tier `t` and room for one in tier `room`, every tier from
      `t` to `room` passes at most one block on and no block is lost. */
  lemma {:induction false} EnforceLossless(s: Store, t: Tier, room: Tier, size: nat)
    requires Inv(s) && Uniform(s, size) && Slack(s, t, room, size)
    ensures Enforce(s, t).store.blocks.Keys == s.blocks.Keys
    decreases room - t
  {
    if Used(s, t) > Limit(s, t) {
      Step(s, t);
      var w := NextSlower(s.cfg, t).value;
      EvictUniform(s, t, size);
      EvictShifts(s, t, size);
      SlackMoves(s, Evict(s, t), t, w, room, size);
      if w < room {
        EnforceLossless(Evict(s, t), w, room, size);
      }
      NextUsed(s, t, t);
    }
  }

  /** Promoting a block of a uniform store, then enforcing the fastest tier, loses nothing. */
  lemma PromotionLossless(s: Store, d: Store, fast: Tier, room: Tier, size: nat)
    requires Bounded(s) && Inv(d) && Uniform(d, size)
    requires Shifted(s, d, room, fast, size) && fast < room && Configured(s.cfg, room)
    ensures var r := Enforce(d, fast);
            r.status == Ok && r.store.blocks.Keys == d.blocks.Keys && Uniform(r.store, size) &&
            forall k :: k in d.blocks ==> r.store.blocks[k].block == d.blocks[k].block
  {
    PromotionSlack(s, d, fast, room, size);
    EnforceLossless(d, fast, room, size);
    EnforceFewer(d, fast);
    EnforceInv(d, fast);
  }

  lemma PromoteShifts(s: Store, k: BlockKey, fast: Tier)
    requires k in s.blocks && s.blocks[k].entry.tier != fast
    ensures Shifted(s, Promote(Touch(s, k), k, fast), s.blocks[k].entry.tier, fast, s.blocks[k].entry.size)
  {
    var d, room, size := Promote(Touch(s, k), k, fast), s.blocks[k].entry.tier, s.blocks[k].entry.size;
    forall u: Tier
      ensures Used(d, u) + (if u == room then size else 0) == Used(s, u) + (if u == fast then size else 0)
    {
      TouchUsed(s, k, u);
      PromoteUsed(Touch(s, k), k, fast, u);
    }
  }

  lemma AdmitShifts(s: Store, k: BlockKey, fast: Tier)
    requires Inv(s) && k in s.blocks && s.blocks[k].entry.tier != fast
    ensures Shifted(s, Admit(s, s.blocks[k].block, fast, s.blocks[k].entry.tenant),
                    s.blocks[k].entry.tier, fast, s.blocks[k].entry.size)
  {
    assert BlockOk(s.cfg, s.clock, s.blocks, k);
    var b := s.blocks[k];
    var d := Admit(s, b.block, fast, b.entry.tenant);
    forall u: Tier
      ensures Used(d, u) + (if u == b.entry.tier then b.entry.size else 0) ==
                Used(s, u) + (if u == fast then b.entry.size else 0)
    {
      TotalInsert(TierBytes(u), s.blocks, k, d.blocks[k]);
      TotalRemove(TierBytes(u), s.blocks, k);
    }
  }

  lemma ReadLossless(s: Store, k: BlockKey, size: nat)
    requires Inv(s) && Bounded(s) && Uniform(s, size)
    ensures Read(s, k).store.blocks.Keys == s.blocks.Keys
    ensures Uniform(Read(s, k).store, size)
    ensures k in s.blocks ==> Read(s, k).result == Hit(s.blocks[k].block)
  {
    if k in s.blocks && ReadPromotes(s, k) {
      var fast, room := Fastest(s.cfg).value, s.blocks[k].entry.tier;
      var promoted := Promote(Touch(s, k), k, fast);
      assert BlockOk(s.cfg, s.clock, s.blocks, k);
      TouchInv(s, k);
      PromoteInv(Touch(s, k), k, fast);
      PromoteShifts(s, k, fast);
      PromotionLossless(s, promoted, fast, room, size);
    }
  }

  lemma PrefetchOneLossless(s: Store, k: BlockKey, fast: Tier, size: nat)
    requires Inv(s) && Bounded(s) && Uniform(s, size) && Fastest(s.cfg) == Some(fast)
    ensures PrefetchOne(s, k, fast).store.blocks.Keys == s.blocks.Keys
    ensures Uniform(PrefetchOne(s, k, fast).store, size)
  {
    if PrefetchMoves(s, k, fast) {
      var b, room := s.blocks[k], s.blocks[k].entry.tier;
      var a := Admit(s, b.block, fast, b.entry.tenant);
      assert BlockOk(s.cfg, s.clock, s.blocks, k);
      AdmitInv(s, b.block, fast, b.entry.tenant);
      AdmitShifts(s, k, fast);
      PromotionLossless(s, a, fast, room, size);
    }
  }

  lemma {:induction false} PrefetchLossless(s: Store, keys: seq<BlockKey>, fast: Tier, size: nat)
    requires Inv(s) && Bounded(s) && Uniform(s, size) && Fastest(s.cfg) == Some(fast)
    ensures PrefetchAll(s, keys, fast).store.blocks.Keys == s.blocks.Keys
    ensures Uniform(PrefetchAll(s, keys, fast).store, size)
    decreases |keys|
  {
    if keys != [] {
      PrefetchAllInv(s, keys[..1], fast);
      PrefetchBounded(s, keys[..1], fast);
      assert PrefetchAll(s, keys[..1], fast) == PrefetchOne(s, keys[0], fast);
      PrefetchOneLossless(s, keys[0], fast, size);
      PrefetchLossless(PrefetchOne(s, keys[0], fast).store, keys[1..], fast, size);
    }
  }

  ghost predicate Moves(op: Op) {
    !op.WriteOp?
  }

  /** With uniform block sizes no sequence of reads, prefetches and enforcements ever loses
      or adds a stored key, whatever the victim policy, and every stored key stays readable. */
  lemma {:induction false} MovementLossless(s: Store, ops: seq<Op>, size: nat)
    requires Inv(s) && Bounded(s) && Uniform(s, size) && forall i :: 0 <= i < |ops| ==> Moves(ops[i])
    ensures var s' := Run(s, ops);
            Inv(s') && Bounded(s') && Uniform(s', size) && s'.cfg == s.cfg && s'.blocks.Keys == s.blocks.Keys &&
            forall k :: k in s.blocks ==> Read(s', k).result.Hit?
    decreases |ops|
  {
    if ops != [] {
      var before, op := Run(s, ops[..|ops| - 1]), ops[|ops| - 1];
      MovementLossless(s, ops[..|ops| - 1], size);
      ApplyInv(before, op);
      ApplyBounded(before, op);
      match op
      case ReadOp(k) => ReadLossless(before, k, size);
      case PrefetchOp(keys) =>
        if Fastest(s.cfg).Some? {
          PrefetchLossless(before, keys, Fastest(s.cfg).value, size);
        }
      case EnforceOp(t) =>
      case WriteOp(_, _, _) => assert false;
    }
    forall k | k in s.blocks ensures Read(Run(s, ops), k).result.Hit? {
      ReadLossless(Run(s, ops), k, size);
    }
  }
}
