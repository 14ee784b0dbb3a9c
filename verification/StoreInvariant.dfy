/** The representation invariant of the store, kept by every operation, and what
    follows from it: eviction always finds a victim, so enforcement never fails. */
module StoreInvariant {
  import opened Blocks
  import opened Tiers
  import opened Totals
  import opened StoreModel

  ghost predicate BlockOk(cfg: Config, clock: nat, m: BlockMap, k: BlockKey)
    requires k in m
  {
    var b := m[k];
    b.block.key == k && b.entry.key == k && b.entry.size == BlockSize(b.block) &&
    Configured(cfg, b.entry.tier) && b.entry.stats.lastAccess <= clock && b.freq <= FREQ_CAP
  }

  ghost predicate AllBlocksOk(cfg: Config, clock: nat, m: BlockMap) {
    forall k {:trigger BlockOk(cfg, clock, m, k)} :: k in m ==> BlockOk(cfg, clock, m, k)
  }

  lemma BlocksOkDrop(cfg: Config, clock: nat, m: BlockMap, k: BlockKey)
    requires AllBlocksOk(cfg, clock, m)
    ensures AllBlocksOk(cfg, clock, m - {k})
  {
    forall j | j in m - {k} ensures BlockOk(cfg, clock, m - {k}, j) {
      assert BlockOk(cfg, clock, m, j);
    }
  }

  lemma BlocksOkPut(cfg: Config, clock: nat, clock': nat, m: BlockMap, k: BlockKey, b: StoredBlock)
    requires AllBlocksOk(cfg, clock, m) && clock <= clock' && BlockOk(cfg, clock', m[k := b], k)
    ensures AllBlocksOk(cfg, clock', m[k := b])
  {
    forall j | j in m && j != k ensures BlockOk(cfg, clock', m[k := b], j) {
      assert BlockOk(cfg, clock, m, j);
    }
  }

  lemma BlocksOkLater(cfg: Config, clock: nat, clock': nat, m: BlockMap)
    requires AllBlocksOk(cfg, clock, m) && clock <= clock'
    ensures AllBlocksOk(cfg, clock', m)
  {
    forall j | j in m ensures BlockOk(cfg, clock', m, j) {
      assert BlockOk(cfg, clock, m, j);
    }
  }

  ghost function Stamp(m: BlockMap, k: BlockKey): nat
    requires k in m
  {
    m[k].entry.stats.lastAccess
  }

  ghost predicate Timestamps(m: BlockMap) {
    forall j, k :: j in m && k in m && Stamp(m, j) == Stamp(m, k) ==> j == k
  }

  /** Every block of the fastest tier, except those in `loose`, waits in its queue. */
  ghost predicate Queued(s: Store, loose: set<BlockKey>) {
    forall k :: k in s.blocks && k !in loose && Fastest(s.cfg) == Some(s.blocks[k].entry.tier) ==>
      if s.blocks[k].inMain then k in s.main else k in s.small
  }

  ghost predicate GhostBounded(s: Store) {
    |s.ghostFifo| <= GHOST_CAPACITY && forall k :: k in s.ghosts ==> k in s.ghostFifo
  }

  ghost predicate InvBut(s: Store, loose: set<BlockKey>) {
    AllBlocksOk(s.cfg, s.clock, s.blocks) && Timestamps(s.blocks) && Queued(s, loose) && GhostBounded(s)
  }

  ghost predicate Inv(s: Store) {
    InvBut(s, {})
  }

  /** Putting one well-formed, freshly stamped and queued block keeps the invariant. */
  lemma PutInv(s: Store, s': Store, k: BlockKey, b: StoredBlock)
    requires InvBut(s, {k}) && GhostBounded(s')
    requires s'.cfg == s.cfg && s.clock <= s'.clock && s'.blocks == s.blocks[k := b]
    requires s.small <= s'.small && s.main <= s'.main
    requires BlockOk(s'.cfg, s'.clock, s'.blocks, k)
    requires b.entry.stats.lastAccess == (if k in s.blocks && s'.clock == s.clock then Stamp(s.blocks, k) else s'.clock)
    requires s.clock == s'.clock ==> k in s.blocks
    requires Fastest(s.cfg) == Some(b.entry.tier) ==> if b.inMain then k in s'.main else k in s'.small
    ensures Inv(s')
  {
    forall j | j in s'.blocks && j != k
      ensures BlockOk(s'.cfg, s'.clock, s'.blocks, j) && Stamp(s'.blocks, j) == Stamp(s.blocks, j) <= s.clock
    {
      assert BlockOk(s.cfg, s.clock, s.blocks, j);
    }
    if k in s.blocks {
      assert Stamp(s'.blocks, k) == Stamp(s.blocks, k) || Stamp(s'.blocks, k) > s.clock;
    } else {
      assert Stamp(s'.blocks, k) > s.clock;
    }
  }

  lemma DropInv(s: Store, s': Store, k: BlockKey)
    requires InvBut(s, {k}) && s' == s.(clock := s'.clock, blocks := s.blocks - {k}) && s.clock <= s'.clock
    ensures Inv(s')
  {
    forall j | j in s'.blocks
      ensures BlockOk(s'.cfg, s'.clock, s'.blocks, j) && Stamp(s'.blocks, j) == Stamp(s.blocks, j)
    {
      assert BlockOk(s.cfg, s.clock, s.blocks, j);
    }
  }

  lemma GhostInsertInv(s: Store, k: BlockKey)
    requires InvBut(s, {k})
    ensures InvBut(GhostInsert(s, k), {k})
  {
    GhostInsertFrame(s, k);
    forall j | j in s.blocks
      ensures BlockOk(GhostInsert(s, k).cfg, GhostInsert(s, k).clock, GhostInsert(s, k).blocks, j)
    {
      assert BlockOk(s.cfg, s.clock, s.blocks, j);
    }
    var g := s.(ghosts := s.ghosts + {k}, ghostFifo := s.ghostFifo + [k]);
    if |g.ghostFifo| > GHOST_CAPACITY {
      var h := g.(ghosts := g.ghosts - {g.ghostFifo[0]}, ghostFifo := g.ghostFifo[1..]);
      forall j | j in h.ghosts ensures j in h.ghostFifo {
        assert j in g.ghostFifo && g.ghostFifo == [g.ghostFifo[0]] + h.ghostFifo;
      }
      assert GhostTrim(g) == GhostTrim(h) == h;
    }
  }

  /** A key evicted from the small queue is remembered, except in one case: the memory is full
      and a residue of the same key is the next to be dropped. */
  lemma GhostRemembers(s: Store, k: BlockKey)
    requires GhostBounded(s)
    ensures k in GhostInsert(s, k).ghosts <==>
            k in s.ghosts || |s.ghostFifo| < GHOST_CAPACITY || s.ghostFifo[0] != k
  {
    var g := s.(ghosts := s.ghosts + {k}, ghostFifo := s.ghostFifo + [k]);
    if |g.ghostFifo| > GHOST_CAPACITY {
      var h := g.(ghosts := g.ghosts - {g.ghostFifo[0]}, ghostFifo := g.ghostFifo[1..]);
      assert GhostTrim(g) == GhostTrim(h) == h;
    }
  }

  /** A search ages blocks, never the other way: uses are only spent and blocks only move from
      the small queue to the main queue. Its victim has no use left, and a block of the small
      queue that was used is not evicted from there. */
  lemma {:induction false} S3PickAges(s: Store, fast: Tier, k: BlockKey)
    requires k in s.blocks
    ensures var p := S3Pick(s, fast);
            k in p.store.blocks && p.store.blocks[k].freq <= s.blocks[k].freq &&
            (s.blocks[k].inMain ==> p.store.blocks[k].inMain) &&
            (p.victim == Some(k) ==> p.store.blocks[k].freq == 0) &&
            (p.victim == Some(k) && s.blocks[k].freq > 0 ==> p.store.blocks[k].inMain)
    decreases |s.small|, Total(MainFreq(fast), s.blocks), |s.main|
  {
    if FromSmall(s, fast) {
      if s.small != [] {
        var j := s.small[0];
        if !InSmall(s.blocks, j, fast) {
          S3PickAges(PopSmall(s), fast, k);
        } else if s.blocks[j].freq > 0 {
          S3PickAges(Graduate(PopSmall(s), j), fast, k);
        } else {
          GhostInsertFrame(PopSmall(s), j);
        }
      }
    } else {
      var j := s.main[0];
      if !InMain(s.blocks, j, fast) {
        S3PickAges(PopMain(s), fast, k);
      } else if s.blocks[j].freq > 0 {
        TotalInsert(MainFreq(fast), s.blocks, j, s.blocks[j].(freq := s.blocks[j].freq - 1));
        S3PickAges(SecondChance(PopMain(s), j), fast, k);
      }
    }
  }

  lemma QueuedPop(s: Store, s': Store, k: BlockKey)
    requires s' == s.(small := s'.small, main := s'.main)
    requires Inv(s)
    requires (s.small != [] && s.small[0] == k && s'.small == s.small[1..] && s'.main == s.main) ||
             (s.main != [] && s.main[0] == k && s'.main == s.main[1..] && s'.small == s.small)
    ensures InvBut(s', {k})
  {
    forall j | j in s'.blocks ensures BlockOk(s'.cfg, s'.clock, s'.blocks, j) {
      assert BlockOk(s.cfg, s.clock, s.blocks, j);
    }
    forall j | j in s.blocks && j != k && Fastest(s.cfg) == Some(s.blocks[j].entry.tier)
      ensures if s.blocks[j].inMain then j in s'.main else j in s'.small
    {
      if s.small != [] { assert s.small == [s.small[0]] + s.small[1..]; }
      if s.main != [] { assert s.main == [s.main[0]] + s.main[1..]; }
    }
  }

  lemma GraduateInv(s: Store, k: BlockKey, fast: Tier)
    requires InvBut(s, {k}) && Fastest(s.cfg) == Some(fast) && At(s.blocks, k, fast)
    ensures Inv(Graduate(s, k))
    ensures s.blocks[k].freq > 0 && s.blocks[k].inMain ==> Inv(SecondChance(s, k))
  {
    assert BlockOk(s.cfg, s.clock, s.blocks, k);
    PutInv(s, Graduate(s, k), k, Graduate(s, k).blocks[k]);
    if s.blocks[k].freq > 0 && s.blocks[k].inMain {
      PutInv(s, SecondChance(s, k), k, SecondChance(s, k).blocks[k]);
    }
  }

  /** The search keeps the invariant, up to the victim it has already unqueued. */
  lemma {:induction false} S3PickInv(s: Store, fast: Tier)
    requires Inv(s) && Fastest(s.cfg) == Some(fast)
    ensures var p := S3Pick(s, fast);
            if p.victim.Some? then InvBut(p.store, {p.victim.value}) else Inv(p.store)
    decreases |s.small|, Total(MainFreq(fast), s.blocks), |s.main|
  {
    if FromSmall(s, fast) {
      if s.small != [] {
        var k := s.small[0];
        QueuedPop(s, PopSmall(s), k);
        if !InSmall(s.blocks, k, fast) {
          S3PickInv(PopSmall(s), fast);
        } else if s.blocks[k].freq > 0 {
          GraduateInv(PopSmall(s), k, fast);
          S3PickInv(Graduate(PopSmall(s), k), fast);
        } else {
          GhostInsertInv(PopSmall(s), k);
        }
      }
    } else {
      var k := s.main[0];
      QueuedPop(s, PopMain(s), k);
      if !InMain(s.blocks, k, fast) {
        S3PickInv(PopMain(s), fast);
      } else if s.blocks[k].freq > 0 {
        TotalInsert(MainFreq(fast), s.blocks, k, s.blocks[k].(freq := s.blocks[k].freq - 1));
        GraduateInv(PopMain(s), k, fast);
        S3PickInv(SecondChance(PopMain(s), k), fast);
      }
    }
  }

  /** The search gives up only when both queues are empty. */
  lemma {:induction false} S3PickGivesUp(s: Store, fast: Tier)
    ensures var p := S3Pick(s, fast);
            p.victim.None? ==> p.store.small == [] && p.store.main == []
    decreases |s.small|, Total(MainFreq(fast), s.blocks), |s.main|
  {
    if FromSmall(s, fast) {
      if s.small != [] {
        var k := s.small[0];
        if !InSmall(s.blocks, k, fast) {
          S3PickGivesUp(PopSmall(s), fast);
        } else if s.blocks[k].freq > 0 {
          S3PickGivesUp(Graduate(PopSmall(s), k), fast);
        }
      }
    } else {
      var k := s.main[0];
      if !InMain(s.blocks, k, fast) {
        S3PickGivesUp(PopMain(s), fast);
      } else if s.blocks[k].freq > 0 {
        TotalInsert(MainFreq(fast), s.blocks, k, s.blocks[k].(freq := s.blocks[k].freq - 1));
        S3PickGivesUp(SecondChance(PopMain(s), k), fast);
      }
    }
  }

  /** If the fastest tier holds any block, the search finds one. */
  lemma S3PickFinds(s: Store, fast: Tier, w: BlockKey)
    requires Inv(s) && Fastest(s.cfg) == Some(fast) && At(s.blocks, w, fast)
    ensures S3Pick(s, fast).victim.Some?
  {
    S3PickInv(s, fast);
    S3PickFrame(s, fast);
    S3PickGivesUp(s, fast);
    var p := S3Pick(s, fast);
    assert w in p.store.blocks;
  }

  lemma PickInv(s: Store, t: Tier)
    requires Inv(s)
    ensures var p := Pick(s, t);
            if p.victim.Some? then InvBut(p.store, {p.victim.value}) else Inv(p.store)
  {
    if Fastest(s.cfg) == Some(t) {
      S3PickInv(s, t);
    }
  }

  /** A tier over its threshold always has a victim: the internal error of
      capacity enforcement is unreachable. */
  lemma PickFinds(s: Store, t: Tier)
    requires Inv(s) && Used(s, t) > Limit(s, t)
    ensures Pick(s, t).victim.Some?
  {
    var w := TotalPositive(TierBytes(t), s.blocks);
    assert OrderOf(s.blocks[w], w) in IndexOf(s.blocks, t);
    if Fastest(s.cfg) == Some(t) {
      S3PickFinds(s, t, w);
    }
  }

  lemma DemoteInv(s: Store, v: BlockKey, t: Tier)
    requires v in s.blocks && InvBut(s, {v}) && s.blocks[v].entry.tier == t
    ensures Inv(Demote(s, v, t))
  {
    assert BlockOk(s.cfg, s.clock, s.blocks, v);
    var d := Demote(s, v, t);
    if v in d.blocks {
      PutInv(s, d, v, d.blocks[v]);
    } else {
      DropInv(s, d, v);
    }
  }

  lemma EvictInv(s: Store, t: Tier)
    requires Inv(s) && Used(s, t) > Limit(s, t)
    ensures Pick(s, t).victim.Some? && Inv(Evict(s, t))
  {
    PickFinds(s, t);
    PickInv(s, t);
    PickFrame(s, t);
    DemoteInv(Pick(s, t).store, Victim(s, t), t);
  }

  /** Enforcement keeps the invariant and never fails. */
  lemma {:induction false} EnforceInv(s: Store, t: Tier)
    requires Inv(s)
    ensures Inv(Enforce(s, t).store) && Enforce(s, t).status == Ok
    decreases 3 - t, |KeysAt(s.blocks, t)|
  {
    if Used(s, t) > Limit(s, t) {
      EvictInv(s, t);
      EnforceStep(s, t);
      if LandingTier(s, t).Some? {
        EnforceInv(Evict(s, t), LandingTier(s, t).value);
      }
      EnforceInv(Settle(s, t).store, t);
    }
  }

  /** The store after one iteration of enforcement. */
  ghost function Next(s: Store, t: Tier): Store
    requires Pick(s, t).victim.Some?
  {
    Settle(s, t).store
  }

  /** One iteration from a state that satisfies the invariant: it takes exactly the victim
      out of tier `t` and recurses only into a strictly slower tier. */
  lemma Step(s: Store, t: Tier)
    requires Inv(s) && Used(s, t) > Limit(s, t)
    ensures Pick(s, t).victim.Some? && Inv(Evict(s, t)) && Inv(Next(s, t))
    ensures Next(s, t).cfg == Evict(s, t).cfg == s.cfg
    ensures LandingTier(s, t).Some? ==> LandingTier(s, t).value > t
    ensures Next(s, t) == if LandingTier(s, t).Some? then Enforce(Evict(s, t), LandingTier(s, t).value).store
                          else Evict(s, t)
    ensures KeysAt(Next(s, t).blocks, t) == KeysAt(Evict(s, t).blocks, t) == KeysAt(s.blocks, t) - {Victim(s, t)}
    ensures |KeysAt(Next(s, t).blocks, t)| < |KeysAt(s.blocks, t)|
    ensures Enforce(s, t).store == Enforce(Next(s, t), t).store
  {
    EvictInv(s, t);
    EnforceStep(s, t);
    PickFrame(s, t);
    if LandingTier(s, t).Some? {
      EnforceInv(Evict(s, t), LandingTier(s, t).value);
    }
  }

  lemma AdmitInv(s: Store, block: KVCacheBlock, t: Tier, tenant: nat)
    requires Inv(s) && Configured(s.cfg, t)
    ensures Inv(Admit(s, block, t, tenant))
  {
    PutInv(s, Admit(s, block, t, tenant), block.key, Admit(s, block, t, tenant).blocks[block.key]);
  }

  lemma PlaceInv(s: Store, block: KVCacheBlock, t: Tier, tenant: nat)
    requires Inv(s) && Configured(s.cfg, t)
    ensures Inv(Place(s, block, t, tenant).store)
    ensures Place(s, block, t, tenant).status == if BlockSize(block) > Limit(s, t) then OutOfCapacity else Ok
  {
    AdmitInv(s, block, t, tenant);
    EnforceInv(Admit(s, block, t, tenant), t);
  }

  lemma TouchInv(s: Store, k: BlockKey)
    requires Inv(s) && k in s.blocks
    ensures Inv(Touch(s, k))
  {
    assert BlockOk(s.cfg, s.clock, s.blocks, k);
    PutInv(s, Touch(s, k), k, Touch(s, k).blocks[k]);
  }

  lemma PromoteInv(s: Store, k: BlockKey, fast: Tier)
    requires Inv(s) && k in s.blocks && Fastest(s.cfg) == Some(fast)
    ensures Inv(Promote(s, k, fast))
  {
    assert BlockOk(s.cfg, s.clock, s.blocks, k);
    PutInv(s, Promote(s, k, fast), k, Promote(s, k, fast).blocks[k]);
  }

  lemma ReadInv(s: Store, k: BlockKey)
    requires Inv(s)
    ensures Inv(Read(s, k).store)
  {
    if k in s.blocks {
      TouchInv(s, k);
      if ReadPromotes(s, k) {
        var fast := Fastest(s.cfg).value;
        PromoteInv(Touch(s, k), k, fast);
        EnforceInv(Promote(Touch(s, k), k, fast), fast);
      }
    }
  }

  lemma {:induction false} PrefetchAllInv(s: Store, keys: seq<BlockKey>, fast: Tier)
    requires Inv(s) && Configured(s.cfg, fast)
    ensures Inv(PrefetchAll(s, keys, fast).store) && PrefetchAll(s, keys, fast).status == Ok
    decreases |keys|
  {
    if keys != [] {
      if PrefetchMoves(s, keys[0], fast) {
        PlaceInv(s, s.blocks[keys[0]].block, fast, s.blocks[keys[0]].entry.tenant);
      }
      PrefetchAllInv(PrefetchOne(s, keys[0], fast).store, keys[1..], fast);
    }
  }

  lemma ApplyInv(s: Store, op: Op)
    requires Inv(s)
    ensures Inv(Apply(s, op)) && Apply(s, op).cfg == s.cfg
  {
    match op
    case WriteOp(block, target, tenant) =>
      if Resolve(s.cfg, target).Some? {
        PlaceInv(s, block, Resolve(s.cfg, target).value, tenant);
      }
    case ReadOp(k) => ReadInv(s, k);
    case PrefetchOp(keys) =>
      if Fastest(s.cfg).Some? {
        PrefetchAllInv(s, keys, Fastest(s.cfg).value);
        PrefetchCfg(s, keys, Fastest(s.cfg).value);
      }
    case EnforceOp(t) => EnforceInv(s, t);
  }

  lemma {:induction false} PrefetchCfg(s: Store, keys: seq<BlockKey>, fast: Tier)
    ensures PrefetchAll(s, keys, fast).store.cfg == s.cfg
    decreases |keys|
  {
    if keys != [] && PrefetchOne(s, keys[0], fast).status == Ok {
      PrefetchCfg(PrefetchOne(s, keys[0], fast).store, keys[1..], fast);
    }
  }

  /** The invariant holds in every reachable state. */
  lemma {:induction false} RunInv(cfg: Config, ops: seq<Op>)
    ensures Inv(Run(Empty(cfg), ops)) && Run(Empty(cfg), ops).cfg == cfg
    decreases |ops|
  {
    if ops != [] {
      RunInv(cfg, ops[..|ops| - 1]);
      ApplyInv(Run(Empty(cfg), ops[..|ops| - 1]), ops[|ops| - 1]);
    }
  }
}
