/** What quotas cost: the runs in which a store with quotas loses a block that it would have kept
    without them, because its owner is the tenant furthest over its share. */
module QuotaLimits {
  import opened Blocks
  import opened Tiers
  import opened Totals
  import opened VictimOrder
  import opened Accounting
  import opened StoreModel
  import opened StoreInvariant
  import opened StoreCapacity
  import opened StoreContents
  import opened StoreRetention
  import opened StoreLimits

  // ------------------------------------------------ tenants without a share

  ghost predicate Strangers(s: Store) {
    forall k :: k in s.blocks ==> s.blocks[k].entry.tenant !in s.cfg.tenantWeights
  }

  lemma StrangerShare(cfg: Config, id: nat, t: Tier)
    requires id !in cfg.tenantWeights
    ensures Share(cfg, id, t) == 0.0
  {
  }

  /** From some id on, no tenant is registered. */
  lemma {:induction false} NewTenants(ids: set<nat>) returns (base: nat)
    ensures forall id :: id in ids ==> id < base
  {
    if ids == {} {
      base := 0;
    } else {
      var id :| id in ids;
      var rest := NewTenants(ids - {id});
      assert ids == (ids - {id}) + {id};
      base := if rest > id then rest else id + 1;
    }
  }

  ghost function Owned(s: Store, t: Tier, id: nat): nat {
    Total(TenantBytes(t, id), s.blocks)
  }

  /** No other tenant is ahead of `id`, which owns `bytes` of tier `t`. */
  ghost predicate Tops(s: Store, t: Tier, id: nat, bytes: nat) {
    forall j: nat :: j != id ==> Owned(s, t, j) < bytes || (Owned(s, t, j) == bytes && id < j)
  }

  ghost predicate SameOwner(e: TierEntry, f: TierEntry) {
    e.tier == f.tier && e.tenant == f.tenant
  }

  /** `k` is the oldest block of its tenant in its tier. */
  ghost predicate Oldest(s: Store, k: BlockKey)
    requires k in s.blocks
  {
    forall j :: j in s.blocks && j != k && SameOwner(s.blocks[j].entry, s.blocks[k].entry) ==>
      Stamp(s.blocks, k) < Stamp(s.blocks, j)
  }

  /** Among tenants without a share, the one that owns most loses its oldest block. */
  lemma TopIsPicked(s: Store, t: Tier, k: BlockKey, id: nat)
    requires QuotaEnabled(s.cfg) && Strangers(s) && At(s.blocks, k, t) && Oldest(s, k)
    requires id == s.blocks[k].entry.tenant && Owned(s, t, id) > 0 && Tops(s, t, id, Owned(s, t, id))
    ensures Pick(s, t) == Picked(s, Some(k))
  {
    forall j | j in TenantsAt(s.blocks, t) ensures Overage(s, j, t) == Owned(s, t, j) as real {
      StrangerShare(s.cfg, j, t);
    }
    assert id in TenantsAt(s.blocks, t);
    assert IsWorst(s, t, id);
    WorstUnique(s, t, id);
    var index := TenantIndexOf(s.blocks, t, id);
    TenantIndexNonempty(s.blocks, t, id);
    assert OrderOf(s.blocks[k], k) in index;
    assert First(index) in index && OrderLeq(First(index), OrderOf(s.blocks[k], k));
  }

  // ------------------------------------------------ a block that sinks

  ghost predicate Sole(s: Store, k: BlockKey)
    requires k in s.blocks
  {
    forall j :: j in s.blocks && j != k ==> s.blocks[j].entry.tenant != s.blocks[k].entry.tenant
  }

  lemma SoleOwned(s: Store, k: BlockKey, t: Tier)
    requires k in s.blocks && Sole(s, k)
    ensures Owned(s, t, s.blocks[k].entry.tenant) == if s.blocks[k].entry.tier == t then s.blocks[k].entry.size else 0
  {
    var g := TenantBytes(t, s.blocks[k].entry.tenant);
    TotalRemove(g, s.blocks, k);
    if Total(g, s.blocks - {k}) > 0 {
      var j := TotalPositive(g, s.blocks - {k});
      assert false;
    }
  }

  /** Moving or dropping one block changes nothing for the other tenants. */
  lemma OthersOwn(m: BlockMap, m': BlockMap, k: BlockKey, t: Tier, j: nat)
    requires k in m && m' - {k} == m - {k} && m[k].entry.tenant != j && (k in m' ==> m'[k].entry.tenant != j)
    ensures Total(TenantBytes(t, j), m') == Total(TenantBytes(t, j), m)
  {
    var g := TenantBytes(t, j);
    TotalRemove(g, m, k);
    if k in m' {
      TotalRemove(g, m', k);
    } else {
      assert m' == m' - {k};
    }
  }

  /** What a block of the leading tenant meets on its way down: every slower tier is so full that
      it must pass the block on. */
  ghost predicate NoRoomBelow(s: Store, t: Tier, size: nat) {
    forall u: Tier :: u > t && Configured(s.cfg, u) ==> Used(s, u) <= Limit(s, u) < Used(s, u) + size
  }

  ghost predicate TopsFrom(s: Store, t: Tier, id: nat, bytes: nat) {
    forall u: Tier :: u >= t ==> Tops(s, u, id, bytes)
  }

  /** The only block of the leading tenant falls through every full tier. */
  lemma {:induction false} Sinks(s: Store, t: Tier, k: BlockKey)
    requires Inv(s) && QuotaEnabled(s.cfg) && Strangers(s) && At(s.blocks, k, t) && Sole(s, k)
    requires var size := s.blocks[k].entry.size;
             size > 0 && Limit(s, t) < Used(s, t) <= Limit(s, t) + size &&
             TopsFrom(s, t, s.blocks[k].entry.tenant, size) && NoRoomBelow(s, t, size)
    ensures k !in Enforce(s, t).store.blocks
    decreases 3 - t
  {
    var size, id := s.blocks[k].entry.size, s.blocks[k].entry.tenant;
    SoleOwned(s, k, t);
    TopIsPicked(s, t, k, id);
    Step(s, t);
    var d := Evict(s, t);
    if LandingTier(s, t).Some? {
      var w := LandingTier(s, t).value;
      Sunk(s, t, k, w);
      Sinks(d, w, k);
    }
    EvictUsed(s, t, t);
    NextUsed(s, t, t);
  }

  /** One tier further down the block is in the same situation. */
  lemma Sunk(s: Store, t: Tier, k: BlockKey, w: Tier)
    requires Pick(s, t) == Picked(s, Some(k)) && LandingTier(s, t) == Some(w)
    requires k in s.blocks && Sole(s, k) && Strangers(s)
    requires t < w && Configured(s.cfg, w)
    requires var size := s.blocks[k].entry.size;
             TopsFrom(s, t, s.blocks[k].entry.tenant, size) && NoRoomBelow(s, t, size)
    ensures var d, size := Evict(s, t), s.blocks[k].entry.size;
            At(d.blocks, k, w) && Sole(d, k) && Strangers(d) && d.cfg == s.cfg &&
            d.blocks[k].entry.size == size && d.blocks[k].entry.tenant == s.blocks[k].entry.tenant &&
            Limit(d, w) < Used(d, w) <= Limit(d, w) + size &&
            TopsFrom(d, w, d.blocks[k].entry.tenant, size) && NoRoomBelow(d, w, size)
  {
    var d, size, id := Evict(s, t), s.blocks[k].entry.size, s.blocks[k].entry.tenant;
    EvictUsed(s, t, w);
    forall u: Tier | u > w && Configured(d.cfg, u) ensures Used(d, u) <= Limit(d, u) < Used(d, u) + size {
      EvictUsed(s, t, u);
    }
    forall u: Tier | u >= w ensures Tops(d, u, id, size) {
      assert Tops(s, u, id, size);
      forall j: nat | j != id ensures Owned(d, u, j) == Owned(s, u, j) {
        OthersOwn(s.blocks, d.blocks, k, u, j);
      }
    }
  }

  // ------------------------------------------------ a crowded store

  ghost function Passenger(id: nat): BlockKey {
    BlockKey(id, 0, 1)
  }

  /** Beside the blocks of `core`, whose keys are numbered up to `lo`, the store holds one-byte blocks
      of as many strangers, numbered from there up to `hi`. */
  ghost predicate Crowded(s: Store, core: BlockMap, lo: nat, hi: nat) {
    lo <= hi &&
    (forall k :: k in core ==>
       k in s.blocks && s.blocks[k] == core[k] && k.hashId <= lo && core[k].entry.tenant <= lo) &&
    forall k :: k in s.blocks && k !in core ==>
      lo < k.hashId <= hi && k == Passenger(k.hashId) &&
      s.blocks[k].entry.tenant == k.hashId && s.blocks[k].entry.size == 1
  }

  /** A write that leaves its tier within the threshold only admits the block. */
  lemma PlainWrite(s: Store, block: KVCacheBlock, t: Tier, tenant: nat)
    requires Configured(s.cfg, t) && block.key !in s.blocks && Used(s, t) + BlockSize(block) <= Limit(s, t)
    ensures Apply(s, WriteOp(block, t, tenant)) == Admit(s, block, t, tenant)
    ensures forall u: Tier ::
              Used(Admit(s, block, t, tenant), u) == Used(s, u) + (if u == t then BlockSize(block) else 0)
  {
    forall u: Tier
      ensures Used(Admit(s, block, t, tenant), u) == Used(s, u) + (if u == t then BlockSize(block) else 0)
    {
      TotalInsert(TierBytes(u), s.blocks, block.key, Admit(s, block, t, tenant).blocks[block.key]);
    }
  }

  ghost predicate SameElse(s: Store, s': Store, t: Tier) {
    s'.cfg == s.cfg && forall u: Tier :: u != t ==> Used(s', u) == Used(s, u)
  }

  /** One more passenger. */
  lemma Board(s: Store, core: BlockMap, lo: nat, hi: nat, t: Tier, op: Op)
    requires Crowded(s, core, lo, hi) && Configured(s.cfg, t) && Used(s, t) < Limit(s, t)
    requires op == WriteOp(MakeBlock(Passenger(hi + 1), 1), t, hi + 1)
    ensures Crowded(Apply(s, op), core, lo, hi + 1) && SameElse(s, Apply(s, op), t)
    ensures Used(Apply(s, op), t) == Used(s, t) + 1
  {
    PlainWrite(s, op.block, t, op.tenant);
  }

  /** Passengers can fill a tier up to its threshold. */
  lemma {:induction false} FillTier(s: Store, core: BlockMap, lo: nat, hi: nat, t: Tier)
    returns (ops: seq<Op>, hi': nat)
    requires Crowded(s, core, lo, hi) && Configured(s.cfg, t) && Used(s, t) <= Limit(s, t)
    ensures Crowded(Run(s, ops), core, lo, hi') && SameElse(s, Run(s, ops), t)
    ensures Used(Run(s, ops), t) == Limit(s, t)
    decreases Limit(s, t) - Used(s, t)
  {
    if Used(s, t) == Limit(s, t) {
      ops, hi' := [], hi;
    } else {
      var op := WriteOp(MakeBlock(Passenger(hi + 1), 1), t, hi + 1);
      Board(s, core, lo, hi, t, op);
      var rest;
      rest, hi' := FillTier(Apply(s, op), core, lo, hi + 1, t);
      ops := [op] + rest;
      RunPlus(s, [op], rest);
      RunOne(s, op);
    }
  }

  ghost predicate Full(s: Store, t: Tier) {
    Configured(s.cfg, t) ==> Used(s, t) == Limit(s, t)
  }

  lemma FillIfConfigured(s: Store, core: BlockMap, lo: nat, hi: nat, t: Tier) returns (ops: seq<Op>, hi': nat)
    requires Crowded(s, core, lo, hi) && Used(s, t) <= Limit(s, t)
    ensures Crowded(Run(s, ops), core, lo, hi') && SameElse(s, Run(s, ops), t) && Full(Run(s, ops), t)
  {
    if Configured(s.cfg, t) {
      ops, hi' := FillTier(s, core, lo, hi, t);
    } else {
      ops, hi' := [], hi;
    }
  }

  /** Passengers can fill every tier at once. */
  lemma FillAll(s: Store, core: BlockMap, lo: nat) returns (ops: seq<Op>, hi: nat)
    requires Crowded(s, core, lo, lo) && Bounded(s)
    ensures Crowded(Run(s, ops), core, lo, hi) && Run(s, ops).cfg == s.cfg
    ensures forall u: Tier :: Full(Run(s, ops), u)
  {
    var a, ha := FillIfConfigured(s, core, lo, lo, HBM);
    var s1 := Run(s, a);
    var b, hb := FillIfConfigured(s1, core, lo, ha, DRAM);
    var s2 := Run(s1, b);
    var c, hc := FillIfConfigured(s2, core, lo, hb, NVME);
    RunPlus(s, a, b);
    RunPlus(s, a + b, c);
    ops, hi := a + b + c, hc;
    forall u: Tier ensures Full(Run(s, ops), u) {
      assert u == HBM || u == DRAM || u == NVME;
    }
  }

  /** A passenger owns at most its one byte, and nobody else owns anything beside the core. */
  lemma PassengerOwns(s: Store, core: BlockMap, lo: nat, hi: nat, t: Tier, j: nat)
    requires Crowded(s, core, lo, hi) && forall k :: k in core ==> core[k].entry.tenant != j
    ensures Owned(s, t, j) <= (if j > lo then 1 else 0)
  {
    var g, m, k := TenantBytes(t, j), s.blocks, Passenger(j);
    if Total(g, m) > 0 {
      var i := TotalPositive(g, m);
      assert i == k;
      TotalRemove(g, m, k);
      if Total(g, m - {k}) > 0 {
        var i' := TotalPositive(g, m - {k});
        assert false;
      }
    }
  }

  // ------------------------------------------------ writes

  /** With quotas, whatever the configuration, a write of any positive size to any tier can be accepted
      and lost at once: all tiers are full and nobody is further over its share than the writer. */
  lemma QuotaLosesWrite(cfg: Config, size: nat, t: Tier) returns (ops: seq<Op>, block: KVCacheBlock, tenant: nat)
    requires QuotaEnabled(cfg) && Configured(cfg, t) && 0 < size <= Threshold(cfg, t)
    ensures BlockSize(block) == size
    ensures var w := Write(Run(Empty(cfg), ops), block, t, tenant);
            w.status == Ok && block.key !in w.store.blocks
  {
    tenant := NewTenants(cfg.tenantWeights.Keys);
    block := MakeBlock(Passenger(tenant), size);
    EmptyUsed(cfg);
    var hi;
    ops, hi := FillAll(Empty(cfg), map[], tenant);
    RunInv(cfg, ops);
    WriterSinks(Run(Empty(cfg), ops), tenant, hi, size, t);
    WriteStatus(Run(Empty(cfg), ops), block, t, tenant);
  }

  lemma EmptyUsed(cfg: Config)
    ensures Bounded(Empty(cfg))
  {
  }

  lemma WriterSinks(s: Store, id: nat, hi: nat, size: nat, t: Tier)
    requires Inv(s) && QuotaEnabled(s.cfg) && Configured(s.cfg, t) && 0 < size <= Threshold(s.cfg, t)
    requires Crowded(s, map[], id, hi) && forall u: Tier :: Full(s, u)
    requires forall j :: j in s.cfg.tenantWeights ==> j < id
    ensures Passenger(id) !in Place(s, MakeBlock(Passenger(id), size), t, id).store.blocks
  {
    var block, k := MakeBlock(Passenger(id), size), Passenger(id);
    var a := Admit(s, block, t, id);
    AdmitInv(s, block, t, id);
    forall u: Tier | Configured(s.cfg, u) ensures Used(a, u) == Limit(s, u) + (if u == t then size else 0) {
      assert Full(s, u);
      TotalInsert(TierBytes(u), s.blocks, k, a.blocks[k]);
    }
    forall u: Tier, j: nat | j != id ensures Owned(a, u, j) <= (if j > id then 1 else 0) {
      PassengerOwns(s, map[], id, hi, u, j);
      TotalInsert(TenantBytes(u, j), s.blocks, k, a.blocks[k]);
    }
    assert Sole(a, k) && Strangers(a);
    Sinks(a, t, k);
  }

  // ------------------------------------------------ reads of one byte

  /** Between tier `t`, which holds one byte too many, and tier `room`, which has room for one, every
      tier is large enough for a byte. */
  ghost predicate ByteSlack(s: Store, t: Tier, room: Tier) {
    Slack(s, t, room, 1) && forall u: Tier :: t < u < room && Configured(s.cfg, u) ==> 1 <= CapacityOf(s.cfg, u)
  }

  lemma SameSlack(s: Store, d: Store, t: Tier, room: Tier)
    requires ByteSlack(s, t, room) && d.cfg == s.cfg && forall u: Tier :: Used(d, u) == Used(s, u)
    ensures ByteSlack(d, t, room)
  {
  }

  /** An empty victim takes no room. */
  lemma EmptyVictim(s: Store, t: Tier, room: Tier)
    requires Inv(s) && ByteSlack(s, t, room) && Used(s, t) > Limit(s, t) && Pick(s, t).victim.Some?
    requires s.blocks[Victim(s, t)].entry.size == 0
    ensures ByteSlack(Next(s, t), t, room)
  {
    Step(s, t);
    forall u: Tier ensures Used(Evict(s, t), u) == Used(s, u) {
      EvictUsed(s, t, u);
    }
    if LandingTier(s, t).Some? {
      assert LandingTier(s, t).value <= room;
      assert Next(s, t) == Evict(s, t);
    }
    SameSlack(s, Next(s, t), t, room);
  }

  /** The byte itself, once evicted, is in the same situation one tier further down. */
  lemma ByteEvicted(s: Store, t: Tier, room: Tier, k: BlockKey)
    requires Inv(s) && ByteSlack(s, t, room) && Used(s, t) > Limit(s, t) && Pick(s, t).victim == Some(k)
    requires At(s.blocks, k, t) && s.blocks[k].entry.size == 1
    ensures LandingTier(s, t).Some?
    ensures var d, w := Evict(s, t), LandingTier(s, t).value;
            w <= room && At(d.blocks, k, w) && d.blocks[k].entry.size == 1 && Used(d, t) <= Limit(d, t) &&
            if w < room then ByteSlack(d, w, room) else Used(d, w) <= Limit(d, w)
  {
    Step(s, t);
    PickFrame(s, t);
    ByteShifts(s, t, k);
    SlackFalls(s, Evict(s, t), t, LandingTier(s, t).value, room);
  }

  lemma ByteShifts(s: Store, t: Tier, k: BlockKey)
    requires Pick(s, t).victim == Some(k) && LandingTier(s, t).Some? && s.blocks[k].entry.size == 1
    ensures Shifted(s, Evict(s, t), t, LandingTier(s, t).value, 1)
  {
    PickFrame(s, t);
    var d, w := Evict(s, t), LandingTier(s, t).value;
    forall u: Tier
      ensures Used(d, u) + (if u == t then 1 else 0) == Used(s, u) + (if u == w then 1 else 0)
    {
      EvictUsed(s, t, u);
    }
  }

  lemma SlackFalls(s: Store, d: Store, t: Tier, w: Tier, room: Tier)
    requires ByteSlack(s, t, room) && Shifted(s, d, t, w, 1) && t < w <= room
    ensures Used(d, t) <= Limit(d, t)
    ensures if w < room then ByteSlack(d, w, room) else Used(d, w) <= Limit(d, w)
  {
    SlackMoves(s, d, t, w, room, 1);
  }

  /** Whatever the victim policy, a single byte that is promoted finds room again at the latest in
      the tier that it left. */
  lemma {:induction false} ByteStays(s: Store, t: Tier, room: Tier, k: BlockKey)
    requires Inv(s) && ByteSlack(s, t, room) && At(s.blocks, k, t) && s.blocks[k].entry.size == 1
    ensures k in Enforce(s, t).store.blocks
    decreases 3 - t, |KeysAt(s.blocks, t)|
  {
    if Used(s, t) > Limit(s, t) {
      Step(s, t);
      NextUsed(s, t, t);
      if Pick(s, t).victim == Some(k) {
        ByteEvicted(s, t, room, k);
        var w := LandingTier(s, t).value;
        if w < room {
          ByteStays(Evict(s, t), w, room, k);
        }
      } else {
        StepSpares(s, t, k);
        if s.blocks[Victim(s, t)].entry.size == 0 {
          EmptyVictim(s, t, room);
          ByteStays(Next(s, t), t, room, k);
        } else {
          EvictUsed(s, t, t);
        }
      }
    }
  }

  /** Every tier between the fastest and one that holds a byte can take a byte, if a byte has a haven. */
  lemma ByteHaven(cfg: Config, fast: Tier, u: Tier, v: Tier)
    requires Fastest(cfg) == Some(fast) && Haven(cfg, 1, fast).Some? && fast < v < u && Configured(cfg, v)
    ensures 1 <= CapacityOf(cfg, v)
  {
    assert NextSlower(cfg, fast) == Some(v);
  }

  lemma ByteReadable(s: Store, k: BlockKey)
    requires Inv(s) && Bounded(s) && k in s.blocks && s.blocks[k].entry.size == 1 && ReadPromotes(s, k)
    requires Haven(s.cfg, 1, Fastest(s.cfg).value).Some?
    ensures Read(s, k).result == Hit(s.blocks[k].block)
  {
    var fast, room := Fastest(s.cfg).value, s.blocks[k].entry.tier;
    var p := Promote(Touch(s, k), k, fast);
    assert BlockOk(s.cfg, s.clock, s.blocks, k);
    TouchInv(s, k);
    PromoteInv(Touch(s, k), k, fast);
    PromoteShifts(s, k, fast);
    PromotionSlack(s, p, fast, room, 1);
    forall v: Tier | fast < v < room && Configured(s.cfg, v) ensures 1 <= CapacityOf(s.cfg, v) {
      ByteHaven(s.cfg, fast, room, v);
    }
    ByteStays(p, fast, room, k);
    EnforceInv(p, fast);
    EnforceFewer(p, fast);
  }

  // ------------------------------------------------ reads that fail

  /** The leading tenant's only block, too large for the next tier, is dropped. */
  lemma Dropped(s: Store, t: Tier, k: BlockKey)
    requires Inv(s) && QuotaEnabled(s.cfg) && Strangers(s) && At(s.blocks, k, t) && Sole(s, k)
    requires var size := s.blocks[k].entry.size;
             size > 0 && Limit(s, t) < Used(s, t) <= Limit(s, t) + size && Tops(s, t, s.blocks[k].entry.tenant, size) &&
             NextSlower(s.cfg, t).Some? && size > CapacityOf(s.cfg, NextSlower(s.cfg, t).value)
    ensures k !in Enforce(s, t).store.blocks
  {
    SoleOwned(s, k, t);
    TopIsPicked(s, t, k, s.blocks[k].entry.tenant);
    Step(s, t);
    EvictUsed(s, t, t);
  }

  lemma ReadDropped(s: Store, k: BlockKey, id: nat, hi: nat, fast: Tier)
    requires Inv(s) && QuotaEnabled(s.cfg) && Fastest(s.cfg) == Some(fast) && (forall u: Tier :: Full(s, u))
    requires k == Passenger(id) && k in s.blocks && s.blocks[k].entry.tenant == id
    requires Crowded(s, map[k := s.blocks[k]], id, hi) && forall j :: j in s.cfg.tenantWeights ==> j < id
    requires s.blocks[k].entry.size > 0 && ReadPromotes(s, k)
    requires NextSlower(s.cfg, fast).Some? && s.blocks[k].entry.size > CapacityOf(s.cfg, NextSlower(s.cfg, fast).value)
    ensures Read(s, k).result == Failed(Internal)
  {
    var p, size := Promote(Touch(s, k), k, fast), s.blocks[k].entry.size;
    TouchInv(s, k);
    PromoteInv(Touch(s, k), k, fast);
    PromoteShifts(s, k, fast);
    assert Full(s, fast) && Used(p, fast) == Used(s, fast) + size;
    forall j: nat | j != id ensures Owned(p, fast, j) <= (if j > id then 1 else 0) {
      PassengerOwns(s, map[k := s.blocks[k]], id, hi, fast, j);
      OthersOwn(s.blocks, p.blocks, k, fast, j);
    }
    assert Sole(p, k) && Strangers(p);
    Dropped(p, fast, k);
    EnforceInv(p, fast);
  }

  // ------------------------------------------------ a smaller block takes the room first

  /** `k` has moved to tier `u`, and nothing else has changed. */
  ghost predicate Moved(m: BlockMap, m': BlockMap, k: BlockKey, u: Tier) {
    k in m && At(m', k, u) && m' - {k} == m - {k} &&
    m'[k].entry.tenant == m[k].entry.tenant && m'[k].entry.size == m[k].entry.size
  }

  lemma MovedTotal(m: BlockMap, m': BlockMap, k: BlockKey, u: Tier, g: Gauge)
    requires Moved(m, m', k, u)
    ensures Total(g, m') + Weight(g, m[k]) == Total(g, m) + Weight(g, m'[k])
  {
    TotalRemove(g, m, k);
    TotalRemove(g, m', k);
  }

  lemma EvictMoves(s: Store, t: Tier, k: BlockKey)
    requires Pick(s, t) == Picked(s, Some(k)) && LandingTier(s, t).Some?
    ensures Moved(s.blocks, Evict(s, t).blocks, k, LandingTier(s, t).value) && Evict(s, t).cfg == s.cfg
  {
    PickFrame(s, t);
    var m, m' := s.blocks, Evict(s, t).blocks;
    assert m' - {k} == m - {k};
  }

  /** A byte of the leading tenant passes a full tier and comes to rest in the next. */
  lemma Passes(s: Store, w: Tier, u: Tier, k: BlockKey)
    requires Inv(s) && QuotaEnabled(s.cfg) && Strangers(s) && At(s.blocks, k, w) && Oldest(s, k)
    requires s.blocks[k].entry.size == 1 == Owned(s, w, s.blocks[k].entry.tenant)
    requires Tops(s, w, s.blocks[k].entry.tenant, 1) && Used(s, w) == Limit(s, w) + 1
    requires NextSlower(s.cfg, w) == Some(u) && Used(s, u) + 1 <= Limit(s, u)
    ensures Moved(s.blocks, Enforce(s, w).store.blocks, k, u)
  {
    TopIsPicked(s, w, k, s.blocks[k].entry.tenant);
    Step(s, w);
    EvictUsed(s, w, w);
    EvictUsed(s, w, u);
    EvictMoves(s, w, k);
  }

  /** The three blocks of the run: two of one tenant in the fastest tier, the older of one byte, which
      together are as large as the block of another tenant in tier `u`. */
  ghost predicate Trio(s: Store, fast: Tier, u: Tier, base: nat, size: nat) {
    var a, b, k := Passenger(base), BlockKey(base, 1, 1), Passenger(base + 1);
    At(s.blocks, a, fast) && At(s.blocks, b, fast) && At(s.blocks, k, u) &&
    s.blocks[a].entry.tenant == s.blocks[b].entry.tenant == base && s.blocks[k].entry.tenant == base + 1 &&
    s.blocks[a].entry.size == 1 && s.blocks[b].entry.size == size - 1 && s.blocks[k].entry.size == size &&
    Stamp(s.blocks, a) < Stamp(s.blocks, b)
  }

  ghost predicate TrioCrowd(s: Store, core: BlockMap, base: nat, hi: nat) {
    core.Keys == {Passenger(base), BlockKey(base, 1, 1), Passenger(base + 1)} &&
    Crowded(s, core, base + 1, hi) && forall j :: j in s.cfg.tenantWeights ==> j < base
  }

  /** Who owns what, before and after the promotion of the large block. */
  lemma TrioOwns(s: Store, core: BlockMap, fast: Tier, u: Tier, base: nat, hi: nat, size: nat, t: Tier, j: nat)
    requires Trio(s, fast, u, base, size) && TrioCrowd(s, core, base, hi) && size >= 2
    ensures j == base ==> Owned(s, t, j) == if t == fast then size else 0
    ensures j == base + 1 ==> Owned(s, t, j) == if t == u then size else 0
    ensures j != base && j != base + 1 ==> Owned(s, t, j) <= (if j > base then 1 else 0)
  {
    var a, b, k, m, g := Passenger(base), BlockKey(base, 1, 1), Passenger(base + 1), s.blocks, TenantBytes(t, j);
    if j != base && j != base + 1 {
      PassengerOwns(s, core, base + 1, hi, t, j);
    } else {
      TotalRemove(g, m, a);
      TotalRemove(g, m - {a}, b);
      TotalRemove(g, m - {a} - {b}, k);
      if Total(g, m - {a} - {b} - {k}) > 0 {
        var i := TotalPositive(g, m - {a} - {b} - {k});
        assert false;
      }
    }
  }

  /** The situation just after the promotion: the fastest tier is over by `size`, tier `u` has that
      much room, and every other tier is full. */
  ghost predicate Promoted(p: Store, core: BlockMap, fast: Tier, u: Tier, base: nat, hi: nat, size: nat) {
    Inv(p) && QuotaEnabled(p.cfg) && Strangers(p) && size >= 2 && fast < u && Configured(p.cfg, fast) &&
    Configured(p.cfg, u) && size <= Limit(p, u) &&
    Trio(p, fast, fast, base, size) && TrioCrowd(p, core, base, hi) &&
    Used(p, fast) == Limit(p, fast) + size && Used(p, u) + size == Limit(p, u) &&
    forall v: Tier :: v != fast && v != u && Configured(p.cfg, v) ==> Used(p, v) == Limit(p, v)
  }

  lemma TrioPromoted(s: Store, core: BlockMap, fast: Tier, u: Tier, base: nat, hi: nat, size: nat)
    requires Inv(s) && QuotaEnabled(s.cfg) && Fastest(s.cfg) == Some(fast) && (forall v: Tier :: Full(s, v))
    requires Trio(s, fast, u, base, size) && TrioCrowd(s, core, base, hi) && size >= 2
    requires fast < u && Configured(s.cfg, u) && size <= Limit(s, u)
    ensures var k := Passenger(base + 1);
            var p := Promote(Touch(s, k), k, fast);
            Promoted(p, core[k := p.blocks[k]], fast, u, base, hi, size)
  {
    var k := Passenger(base + 1);
    var p := Promote(Touch(s, k), k, fast);
    TouchInv(s, k);
    PromoteInv(Touch(s, k), k, fast);
    PromoteShifts(s, k, fast);
    forall v: Tier | Configured(s.cfg, v)
      ensures Used(p, v) + (if v == u then size else 0) == Limit(s, v) + (if v == fast then size else 0)
    {
      assert Full(s, v);
    }
    TrioCrowdKept(s, p, core, fast, u, base, hi, size);
    CrowdStrangers(p, core[k := p.blocks[k]], base, hi, fast, size);
  }

  lemma TrioCrowdKept(s: Store, p: Store, core: BlockMap, fast: Tier, u: Tier, base: nat, hi: nat, size: nat)
    requires Trio(s, fast, u, base, size) && TrioCrowd(s, core, base, hi) && size >= 2
    requires p == Promote(Touch(s, Passenger(base + 1)), Passenger(base + 1), fast)
    ensures Trio(p, fast, fast, base, size)
    ensures TrioCrowd(p, core[Passenger(base + 1) := p.blocks[Passenger(base + 1)]], base, hi)
  {
  }

  lemma CrowdStrangers(s: Store, core: BlockMap, base: nat, hi: nat, fast: Tier, size: nat)
    requires TrioCrowd(s, core, base, hi) && Trio(s, fast, fast, base, size)
    ensures Strangers(s)
  {
    forall k | k in s.blocks ensures s.blocks[k].entry.tenant >= base {
      if k in core {
        assert k == Passenger(base) || k == BlockKey(base, 1, 1) || k == Passenger(base + 1);
      }
    }
  }

  /** The first victim is the byte of the tenant that owns two blocks. */
  lemma ByteGoesFirst(p: Store, core: BlockMap, fast: Tier, u: Tier, base: nat, hi: nat, size: nat)
    requires Promoted(p, core, fast, u, base, hi, size)
    ensures Pick(p, fast) == Picked(p, Some(Passenger(base)))
  {
    forall j: nat ensures j != base ==> Owned(p, fast, j) < size || (Owned(p, fast, j) == size && base < j) {
      TrioOwns(p, core, fast, fast, base, hi, size, fast, j);
    }
    TrioOwns(p, core, fast, fast, base, hi, size, fast, base);
    TopIsPicked(p, fast, Passenger(base), base);
  }

  /** It takes part of the room in tier `u`. */
  lemma ByteTakesRoom(p: Store, core: BlockMap, fast: Tier, u: Tier, base: nat, hi: nat, size: nat)
    requires Promoted(p, core, fast, u, base, hi, size)
    requires NextSlower(p.cfg, fast).Some? && 1 <= CapacityOf(p.cfg, NextSlower(p.cfg, fast).value)
    ensures Pick(p, fast).victim.Some? && Moved(p.blocks, Next(p, fast).blocks, Passenger(base), u)
  {
    ByteGoesFirst(p, core, fast, u, base, hi, size);
    Step(p, fast);
    var d, w := Evict(p, fast), LandingTier(p, fast).value;
    EvictMoves(p, fast, Passenger(base));
    EvictUsed(p, fast, w);
    EvictUsed(p, fast, u);
    if w < u {
      BytePasses(p, d, core, fast, u, w, base, hi, size);
    }
  }

  lemma MovedOthers(s: Store, d: Store, k: BlockKey, u: Tier)
    requires Moved(s.blocks, d.blocks, k, u) && d.cfg == s.cfg
    ensures forall j :: j != k ==> (j in d.blocks <==> j in s.blocks) && (j in s.blocks ==> d.blocks[j] == s.blocks[j])
    ensures Strangers(s) ==> Strangers(d)
  {
    forall j | j != k ensures (j in d.blocks <==> j in s.blocks) && (j in s.blocks ==> d.blocks[j] == s.blocks[j]) {
      assert j in d.blocks - {k} <==> j in s.blocks - {k};
      assert j in s.blocks ==> (d.blocks - {k})[j] == (s.blocks - {k})[j];
    }
  }

  /** The only blocks of the first tenant, and the only one of the second. */
  lemma TrioAlone(s: Store, core: BlockMap, fast: Tier, u: Tier, base: nat, hi: nat, size: nat, j: BlockKey)
    requires Trio(s, fast, u, base, size) && TrioCrowd(s, core, base, hi) && j in s.blocks
    ensures s.blocks[j].entry.tenant == base ==> j == Passenger(base) || j == BlockKey(base, 1, 1)
    ensures s.blocks[j].entry.tenant == base + 1 ==> j == Passenger(base + 1)
  {
    if j in core {
      assert j == Passenger(base) || j == BlockKey(base, 1, 1) || j == Passenger(base + 1);
    }
  }

  lemma ByteTops(p: Store, d: Store, core: BlockMap, fast: Tier, u: Tier, w: Tier, base: nat, hi: nat, size: nat)
    requires Promoted(p, core, fast, u, base, hi, size) && fast < w && Moved(p.blocks, d.blocks, Passenger(base), w)
    ensures Owned(d, w, base) == 1 && Tops(d, w, base, 1)
  {
    var k := Passenger(base);
    forall j: nat ensures if j == base then Owned(d, w, j) == 1 else Owned(d, w, j) <= (if j > base then 1 else 0) {
      TrioOwns(p, core, fast, fast, base, hi, size, w, j);
      MovedTotal(p.blocks, d.blocks, k, w, TenantBytes(w, j));
    }
  }

  lemma BytePasses(p: Store, d: Store, core: BlockMap, fast: Tier, u: Tier, w: Tier, base: nat, hi: nat, size: nat)
    requires Promoted(p, core, fast, u, base, hi, size) && Inv(d) && d.cfg == p.cfg
    requires fast < w < u && Configured(p.cfg, w) && Moved(p.blocks, d.blocks, Passenger(base), w)
    requires Used(d, w) == Used(p, w) + 1 && Used(d, u) == Used(p, u)
    ensures Moved(p.blocks, Enforce(d, w).store.blocks, Passenger(base), u)
  {
    var k := Passenger(base);
    ByteTops(p, d, core, fast, u, w, base, hi, size);
    MovedOthers(p, d, k, w);
    forall j | j in d.blocks && j != k ensures !SameOwner(d.blocks[j].entry, d.blocks[k].entry) {
      TrioAlone(p, core, fast, fast, base, hi, size, j);
    }
    assert Oldest(d, k);
    assert NextSlower(d.cfg, w) == Some(u);
    Passes(d, w, u, k);
  }

  lemma LargeTops(p: Store, e: Store, core: BlockMap, fast: Tier, u: Tier, base: nat, hi: nat, size: nat)
    requires Promoted(p, core, fast, u, base, hi, size) && Moved(p.blocks, e.blocks, Passenger(base), u)
    ensures TopsFrom(e, fast, base + 1, size)
  {
    var a := Passenger(base);
    forall v: Tier, j: nat | j != base + 1 ensures Owned(e, v, j) < size {
      TrioOwns(p, core, fast, fast, base, hi, size, v, j);
      MovedTotal(p.blocks, e.blocks, a, u, TenantBytes(v, j));
    }
  }

  lemma LargeNoRoom(p: Store, e: Store, core: BlockMap, fast: Tier, u: Tier, base: nat, hi: nat, size: nat)
    requires Promoted(p, core, fast, u, base, hi, size) && Moved(p.blocks, e.blocks, Passenger(base), u)
    requires e.cfg == p.cfg
    ensures NoRoomBelow(e, fast, size) && Used(e, fast) == Limit(e, fast) + size - 1
  {
    var a := Passenger(base);
    forall v: Tier ensures Used(e, v) + (if v == fast then 1 else 0) == Used(p, v) + (if v == u then 1 else 0) {
      MovedTotal(p.blocks, e.blocks, a, u, TierBytes(v));
    }
  }

  /** Then the promoted block is the next victim, and no tier has room for it any more. */
  lemma LargeSinks(p: Store, e: Store, core: BlockMap, fast: Tier, u: Tier, base: nat, hi: nat, size: nat)
    requires Promoted(p, core, fast, u, base, hi, size) && Inv(e) && e.cfg == p.cfg
    requires Moved(p.blocks, e.blocks, Passenger(base), u)
    ensures Passenger(base + 1) !in Enforce(e, fast).store.blocks
  {
    var a, k := Passenger(base), Passenger(base + 1);
    LargeTops(p, e, core, fast, u, base, hi, size);
    LargeNoRoom(p, e, core, fast, u, base, hi, size);
    MovedOthers(p, e, a, u);
    forall j | j in e.blocks && j != k ensures e.blocks[j].entry.tenant != base + 1 {
      TrioAlone(p, core, fast, fast, base, hi, size, j);
    }
    Sinks(e, fast, k);
  }

  lemma ReadSinks(s: Store, core: BlockMap, fast: Tier, u: Tier, base: nat, hi: nat, size: nat)
    requires Inv(s) && QuotaEnabled(s.cfg) && Fastest(s.cfg) == Some(fast) && (forall v: Tier :: Full(s, v))
    requires Trio(s, fast, u, base, size) && TrioCrowd(s, core, base, hi) && size >= 2
    requires fast < u && Configured(s.cfg, u) && size <= Limit(s, u) && size <= Limit(s, fast)
    requires NextSlower(s.cfg, fast).Some? && 1 <= CapacityOf(s.cfg, NextSlower(s.cfg, fast).value)
    ensures Read(s, Passenger(base + 1)).result == Failed(Internal)
  {
    var k := Passenger(base + 1);
    var p := Promote(Touch(s, k), k, fast);
    TrioPromoted(s, core, fast, u, base, hi, size);
    ByteTakesRoom(p, core[k := p.blocks[k]], fast, u, base, hi, size);
    Step(p, fast);
    LargeSinks(p, Next(p, fast), core[k := p.blocks[k]], fast, u, base, hi, size);
    EnforceInv(p, fast);
  }

  // ------------------------------------------------ the runs that fail a read

  /** Fill up a store reached by some run, keeping the blocks it already holds. */
  lemma FillUp(cfg: Config, ops: seq<Op>, lo: nat) returns (all: seq<Op>, hi: nat)
    requires Crowded(Run(Empty(cfg), ops), Run(Empty(cfg), ops).blocks, lo, lo)
    ensures var s := Run(Empty(cfg), all);
            Inv(s) && s.cfg == cfg && Crowded(s, Run(Empty(cfg), ops).blocks, lo, hi) && forall u: Tier :: Full(s, u)
  {
    var s := Run(Empty(cfg), ops);
    RunBounded(cfg, ops);
    RunInv(cfg, ops);
    var more;
    more, hi := FillAll(s, s.blocks, lo);
    all := ops + more;
    RunPlus(Empty(cfg), ops, more);
    RunInv(cfg, all);
  }

  lemma OneWrite(cfg: Config, size: nat, u: Tier, id: nat, op: Op)
    requires Configured(cfg, u) && size <= Threshold(cfg, u) && op == WriteOp(MakeBlock(Passenger(id), size), u, id)
    ensures var s, k := Run(Empty(cfg), [op]), Passenger(id);
            s.blocks.Keys == {k} && At(s.blocks, k, u) &&
            s.blocks[k].entry.tenant == id && s.blocks[k].entry.size == size
  {
    RunOne(Empty(cfg), op);
    PlainWrite(Empty(cfg), op.block, u, id);
  }

  /** A block that does not fit into the next tier is lost when it is read. */
  lemma FailsWhenDropped(cfg: Config, size: nat, fast: Tier, u: Tier) returns (ops: seq<Op>, k: BlockKey)
    requires QuotaEnabled(cfg) && Fastest(cfg) == Some(fast) && 0 < size <= Threshold(cfg, fast)
    requires u > fast && Configured(cfg, u) && size <= Threshold(cfg, u)
    requires NextSlower(cfg, fast).Some? && size > CapacityOf(cfg, NextSlower(cfg, fast).value)
    ensures !Readable(Run(Empty(cfg), ops), k, size)
  {
    var id := NewTenants(cfg.tenantWeights.Keys);
    k := Passenger(id);
    var op := WriteOp(MakeBlock(k, size), u, id);
    OneWrite(cfg, size, u, id, op);
    var hi;
    ops, hi := FillUp(cfg, [op], id);
    var s, core := Run(Empty(cfg), ops), Run(Empty(cfg), [op]).blocks;
    assert core == map[k := s.blocks[k]];
    ReadDropped(s, k, id, hi, fast);
  }

  lemma ThreeWrites(cfg: Config, size: nat, fast: Tier, u: Tier, base: nat, ops: seq<Op>)
    requires 2 <= size <= Threshold(cfg, fast) && Configured(cfg, fast) && fast < u
    requires Configured(cfg, u) && size <= Threshold(cfg, u)
    requires ops == [] + [WriteOp(MakeBlock(Passenger(base), 1), fast, base)] +
                    [WriteOp(MakeBlock(BlockKey(base, 1, 1), size - 1), fast, base)] +
                    [WriteOp(MakeBlock(Passenger(base + 1), size), u, base + 1)]
    ensures var s := Run(Empty(cfg), ops);
            Trio(s, fast, u, base, size) &&
            s.blocks.Keys == {Passenger(base), BlockKey(base, 1, 1), Passenger(base + 1)}
  {
    var a, b, c := ops[0], ops[1], ops[2];
    var s0 := Empty(cfg);
    PlainWrite(s0, a.block, fast, base);
    var s1 := Apply(s0, a);
    PlainWrite(s1, b.block, fast, base);
    var s2 := Apply(s1, b);
    PlainWrite(s2, c.block, u, base + 1);
    RunPush(s0, [], a);
    RunPush(s0, [] + [a], b);
    RunPush(s0, [] + [a] + [b], c);
  }

  /** A block of two bytes or more loses the room it has left to a smaller victim. */
  lemma FailsWhenOvertaken(cfg: Config, size: nat, fast: Tier, u: Tier) returns (ops: seq<Op>, k: BlockKey)
    requires QuotaEnabled(cfg) && Fastest(cfg) == Some(fast) && 2 <= size <= Threshold(cfg, fast)
    requires u > fast && Configured(cfg, u) && size <= Threshold(cfg, u)
    requires NextSlower(cfg, fast).Some? && 1 <= CapacityOf(cfg, NextSlower(cfg, fast).value)
    ensures !Readable(Run(Empty(cfg), ops), k, size)
  {
    var base := NewTenants(cfg.tenantWeights.Keys);
    k := Passenger(base + 1);
    var writes := [] + [WriteOp(MakeBlock(Passenger(base), 1), fast, base)] +
                  [WriteOp(MakeBlock(BlockKey(base, 1, 1), size - 1), fast, base)] +
                  [WriteOp(MakeBlock(k, size), u, base + 1)];
    ThreeWrites(cfg, size, fast, u, base, writes);
    var core := Run(Empty(cfg), writes).blocks;
    var hi;
    TrioCore(Run(Empty(cfg), writes), fast, u, base, size);
    ops, hi := FillUp(cfg, writes, base + 1);
    var s := Run(Empty(cfg), ops);
    TrioKept(Run(Empty(cfg), writes), s, fast, u, base, size);
    ReadSinks(s, core, fast, u, base, hi, size);
  }

  lemma TrioCore(s: Store, fast: Tier, u: Tier, base: nat, size: nat)
    requires Trio(s, fast, u, base, size)
    requires s.blocks.Keys == {Passenger(base), BlockKey(base, 1, 1), Passenger(base + 1)}
    ensures Crowded(s, s.blocks, base + 1, base + 1)
  {
    forall k | k in s.blocks ensures k.hashId <= base + 1 && s.blocks[k].entry.tenant <= base + 1 {
      assert k == Passenger(base) || k == BlockKey(base, 1, 1) || k == Passenger(base + 1);
    }
  }

  lemma TrioKept(s: Store, s': Store, fast: Tier, u: Tier, base: nat, size: nat)
    requires Trio(s, fast, u, base, size) && forall k :: k in s.blocks ==> k in s'.blocks && s'.blocks[k] == s.blocks[k]
    ensures Trio(s', fast, u, base, size)
  {
  }

  // ------------------------------------------------ exact conditions

  /** With quotas, writes of a given size to a tier are never lost if and only if the size is zero: a
      haven is no protection. */
  lemma WritesKeptWithQuotas(cfg: Config, size: nat, t: Tier)
    requires QuotaEnabled(cfg) && Configured(cfg, t) && size <= Threshold(cfg, t)
    ensures WritesKept(cfg, size, t) <==> size == 0
    ensures WritesNear(cfg, size, t) <==> size == 0
  {
    if size > 0 {
      var ops, block, tenant := QuotaLosesWrite(cfg, size, t);
      assert BlockSize(block) == size && Resolve(cfg, t) == Some(t);
      assert block.key !in Write(Run(Empty(cfg), ops), block, t, tenant).store.blocks;
    } else {
      EmptyWritesKept(cfg, t);
    }
  }

  /** With quotas, reads of blocks of a given size always succeed if and only if none can be promoted
      or the block is a single byte that has a haven. */
  lemma ReadsSucceedWithQuotas(cfg: Config, size: nat, fast: Tier)
    requires QuotaEnabled(cfg) && Fastest(cfg) == Some(fast)
    ensures ReadsSucceed(cfg, size) <==>
            size == 0 || !MayPromote(cfg, size, fast) || (size == 1 && Haven(cfg, size, fast).Some?)
  {
    if size == 0 || !MayPromote(cfg, size, fast) || (size == 1 && Haven(cfg, size, fast).Some?) {
      forall ops, k ensures Readable(Run(Empty(cfg), ops), k, size) {
        RunInv(cfg, ops);
        RunBounded(cfg, ops);
        QuotaReadable(Run(Empty(cfg), ops), k, size, fast);
      }
    } else {
      var u: Tier :| u > fast && Configured(cfg, u) && size <= Threshold(cfg, u);
      var next := NextSlower(cfg, fast).value;
      var ops, k;
      if size > CapacityOf(cfg, next) {
        ops, k := FailsWhenDropped(cfg, size, fast, u);
      } else {
        ByteWithoutHaven(cfg, fast, u);
        ops, k := FailsWhenOvertaken(cfg, size, fast, u);
      }
    }
  }

  /** A byte that fits into the next tier has a haven, if any slower tier can hold a byte. */
  lemma ByteWithoutHaven(cfg: Config, fast: Tier, u: Tier)
    requires Fastest(cfg) == Some(fast) && u > fast && Configured(cfg, u) && 1 <= Threshold(cfg, u)
    requires 1 <= CapacityOf(cfg, NextSlower(cfg, fast).value)
    ensures Haven(cfg, 1, fast).Some?
  {
    var w := NextSlower(cfg, fast).value;
    if w < u {
      assert NextSlower(cfg, w) == Some(u);
    }
  }

  lemma QuotaReadable(s: Store, k: BlockKey, size: nat, fast: Tier)
    requires Inv(s) && Bounded(s) && Fastest(s.cfg) == Some(fast)
    requires size == 0 || !MayPromote(s.cfg, size, fast) || (size == 1 && Haven(s.cfg, size, fast).Some?)
    ensures Readable(s, k, size)
  {
    if k in s.blocks && s.blocks[k].entry.size == size && ReadPromotes(s, k) {
      PromotionAllowed(s, k, fast);
      if size == 0 {
        EmptyReadable(s, k);
      } else {
        ByteReadable(s, k);
      }
    }
  }
}
