/** What the tiered storage manager does, over a value that holds only the
    authoritative state: the block map, the logical clock, the two S3-FIFO queues
    of the fastest tier and the ghost queue. Every quantity that the manager caches
    (byte counters, victim indexes, tenant accounts) is recomputed here from the
    block map. */
module StoreModel {
  import opened Blocks
  import opened Tiers
  import opened Totals
  import opened VictimOrder

  const GHOST_CAPACITY: nat := 8192
  const FREQ_CAP: nat := 3

  datatype Store = Store(
    cfg: Config,
    clock: nat,
    blocks: BlockMap,
    small: seq<BlockKey>,
    main: seq<BlockKey>,
    ghosts: set<BlockKey>,
    ghostFifo: seq<BlockKey>)

  ghost function Empty(cfg: Config): Store {
    Store(cfg, 0, map[], [], [], {}, [])
  }

  // ------------------------------------------------------------ derived data

  ghost predicate At(m: BlockMap, k: BlockKey, t: Tier) {
    k in m && m[k].entry.tier == t
  }

  ghost function KeysAt(m: BlockMap, t: Tier): set<BlockKey> {
    set k | k in m && m[k].entry.tier == t
  }

  ghost function Used(s: Store, t: Tier): nat {
    Total(TierBytes(t), s.blocks)
  }

  ghost function Limit(s: Store, t: Tier): nat {
    Threshold(s.cfg, t)
  }

  ghost function OrderOf(b: StoredBlock, k: BlockKey): Order {
    (b.entry.stats.lastAccess, k)
  }

  /** The blocks of a tier in least-recently-used order. */
  ghost function IndexOf(m: BlockMap, t: Tier): set<Order> {
    set k | k in m && m[k].entry.tier == t :: OrderOf(m[k], k)
  }

  /** The blocks of one tenant in a tier, in least-recently-used order. */
  ghost function TenantIndexOf(m: BlockMap, t: Tier, id: nat): set<Order> {
    set k | k in m && m[k].entry.tier == t && m[k].entry.tenant == id :: OrderOf(m[k], k)
  }

  ghost function TenantsAt(m: BlockMap, t: Tier): set<nat> {
    set k | k in m && m[k].entry.tier == t :: m[k].entry.tenant
  }

  // ------------------------------------------------------------ tenant quotas

  ghost function WeightSum(weights: map<nat, real>, ids: set<nat>): real
    requires ids <= weights.Keys
  {
    if ids == {} then 0.0 else
      var id :| id in ids;
      weights[id] + WeightSum(weights, ids - {id})
  }

  /** The part of a capacity that falls to a weight. */
  function Fraction(capacity: nat, weight: real, total: real): real
    requires total > 0.0
  {
    capacity as real * weight / total
  }

  ghost function Share(cfg: Config, id: nat, t: Tier): real {
    var total := WeightSum(cfg.tenantWeights, cfg.tenantWeights.Keys);
    if total <= 0.0 then 0.0 else
      var weight := if id in cfg.tenantWeights then cfg.tenantWeights[id] else 0.0;
      Fraction(CapacityOf(cfg, t), weight, total)
  }

  ghost function Overage(s: Store, id: nat, t: Tier): real {
    Total(TenantBytes(t, id), s.blocks) as real - Share(s.cfg, id, t)
  }

  /** `id` exceeds its share of tier `t` by the most; ties go to the lower id. */
  ghost predicate IsWorst(s: Store, t: Tier, id: nat) {
    id in TenantsAt(s.blocks, t) &&
    Overage(s, id, t) > 0.0 &&
    forall j :: j in TenantsAt(s.blocks, t) ==>
      Overage(s, j, t) < Overage(s, id, t) || (Overage(s, j, t) == Overage(s, id, t) && id <= j)
  }

  ghost function WorstTenant(s: Store, t: Tier): Option<nat> {
    if exists id :: IsWorst(s, t, id) then
      var id :| IsWorst(s, t, id);
      Some(id)
    else
      None
  }

  lemma TenantIndexNonempty(m: BlockMap, t: Tier, id: nat)
    requires id in TenantsAt(m, t)
    ensures TenantIndexOf(m, t, id) != {}
  {
    var k :| k in m && m[k].entry.tier == t && m[k].entry.tenant == id;
    assert OrderOf(m[k], k) in TenantIndexOf(m, t, id);
  }

  // ------------------------------------------------------------ victim choice

  datatype Picked = Picked(store: Store, victim: Option<BlockKey>)

  ghost function LruPick(s: Store, t: Tier): Picked {
    Picked(s, if IndexOf(s.blocks, t) == {} then None else Some(First(IndexOf(s.blocks, t)).1))
  }

  ghost function QuotaPick(s: Store, t: Tier): Picked {
    match WorstTenant(s, t)
    case None => Picked(s, None)
    case Some(id) =>
      TenantIndexNonempty(s.blocks, t, id);
      Picked(s, Some(First(TenantIndexOf(s.blocks, t, id)).1))
  }

  ghost function GhostInsert(s: Store, k: BlockKey): Store {
    if k in s.ghosts then s
    else GhostTrim(s.(ghosts := s.ghosts + {k}, ghostFifo := s.ghostFifo + [k]))
  }

  ghost function GhostTrim(s: Store): Store
    decreases |s.ghostFifo|
  {
    if |s.ghostFifo| <= GHOST_CAPACITY then s
    else GhostTrim(s.(ghosts := s.ghosts - {s.ghostFifo[0]}, ghostFifo := s.ghostFifo[1..]))
  }

  ghost predicate InSmall(m: BlockMap, k: BlockKey, fast: Tier) {
    At(m, k, fast) && !m[k].inMain
  }

  ghost predicate InMain(m: BlockMap, k: BlockKey, fast: Tier) {
    At(m, k, fast) && m[k].inMain
  }

  /** Whether the next S3-FIFO candidate comes from the small queue. */
  ghost predicate FromSmall(s: Store, fast: Tier) {
    (Total(SmallBytes(fast), s.blocks) > CapacityOf(s.cfg, fast) / 10 && s.small != []) || s.main == []
  }

  ghost function PopSmall(s: Store): Store
    requires s.small != []
  {
    s.(small := s.small[1..])
  }

  ghost function PopMain(s: Store): Store
    requires s.main != []
  {
    s.(main := s.main[1..])
  }

  /** A reused block of the small queue moves to the back of the main queue. */
  ghost function Graduate(s: Store, k: BlockKey): Store
    requires k in s.blocks
  {
    s.(blocks := s.blocks[k := s.blocks[k].(inMain := true, freq := 0)], main := s.main + [k])
  }

  /** A reused block of the main queue goes round again with one use spent. */
  ghost function SecondChance(s: Store, k: BlockKey): Store
    requires k in s.blocks && s.blocks[k].freq > 0
  {
    s.(blocks := s.blocks[k := s.blocks[k].(freq := s.blocks[k].freq - 1)], main := s.main + [k])
  }

  /** S3-FIFO victim search: queue entries may be stale, so each is checked when popped. */
  ghost function S3Pick(s: Store, fast: Tier): Picked
    decreases |s.small|, Total(MainFreq(fast), s.blocks), |s.main|
  {
    if FromSmall(s, fast) then
      if s.small == [] then Picked(s, None)
      else
        var k := s.small[0];
        if !InSmall(s.blocks, k, fast) then S3Pick(PopSmall(s), fast)
        else if s.blocks[k].freq > 0 then S3Pick(Graduate(PopSmall(s), k), fast)
        else Picked(GhostInsert(PopSmall(s), k), Some(k))
    else
      var k := s.main[0];
      if !InMain(s.blocks, k, fast) then S3Pick(PopMain(s), fast)
      else if s.blocks[k].freq > 0 then
        TotalInsert(MainFreq(fast), s.blocks, k, s.blocks[k].(freq := s.blocks[k].freq - 1));
        S3Pick(SecondChance(PopMain(s), k), fast)
      else Picked(PopMain(s), Some(k))
  }

  ghost function GlobalPick(s: Store, t: Tier): Picked {
    if Fastest(s.cfg) == Some(t) then S3Pick(s, t) else LruPick(s, t)
  }

  /** With quotas on, the tenant furthest over its share loses its oldest block;
      otherwise, and when no tenant is over its share, the tier's own policy decides. */
  ghost function Pick(s: Store, t: Tier): Picked {
    if QuotaEnabled(s.cfg) && QuotaPick(s, t).victim.Some? then QuotaPick(s, t) else GlobalPick(s, t)
  }

  // ------------------------------------------------------------ eviction

  /** The tier a block evicted from `t` drops into, if one is configured and big enough. */
  ghost function Landing(s: Store, b: StoredBlock, t: Tier): Option<Tier> {
    match NextSlower(s.cfg, t)
    case Some(w) => if b.entry.size <= CapacityOf(s.cfg, w) then Some(w) else None
    case None => None
  }

  ghost function Demoted(b: StoredBlock, w: Tier, now: nat): StoredBlock {
    StoredBlock(b.block, b.entry.(tier := w, stats := b.entry.stats.(lastAccess := now)), 0, false)
  }

  /** Take `v` out of tier `t`; it enters the slower tier as its most recent block. */
  ghost function Demote(s: Store, v: BlockKey, t: Tier): Store
    requires v in s.blocks
  {
    var b := s.blocks[v];
    var now := if NextSlower(s.cfg, t).Some? then s.clock + 1 else s.clock;
    match Landing(s, b, t)
    case Some(w) => s.(clock := now, blocks := s.blocks[v := Demoted(b, w, now)])
    case None => s.(clock := now, blocks := s.blocks - {v})
  }

  datatype Outcome = Outcome(store: Store, status: Status)

  ghost predicate SameFaster(m: BlockMap, m': BlockMap, t: Tier) {
    forall k ::
      ((k in m && m[k].entry.tier < t) <==> (k in m' && m'[k].entry.tier < t)) &&
      (k in m && m[k].entry.tier < t ==> m'[k] == m[k])
  }

  /** Bring tier `t` back under its threshold, victim by victim; each demotion is
      followed by the same enforcement on the slower tier. */
  ghost function Enforce(s: Store, t: Tier): (r: Outcome)
    ensures r.store.cfg == s.cfg
    ensures SameFaster(s.blocks, r.store.blocks, t)
    decreases 3 - t, |KeysAt(s.blocks, t)|
  {
    if Used(s, t) <= Limit(s, t) then Outcome(s, Ok) else
    var p := Pick(s, t);
    match p.victim
    case None => PickFrame(s, t); Outcome(p.store, Internal)
    case Some(v) =>
      PickFrame(s, t);
      var landing := Landing(p.store, p.store.blocks[v], t);
      var d := Demote(p.store, v, t);
      DemoteShrinks(s, t);
      var r := if landing.Some? then Enforce(d, landing.value) else Outcome(d, Ok);
      assert KeysAt(r.store.blocks, t) == KeysAt(d.blocks, t) by {
        if landing.Some? {
          SameFasterKeys(d.blocks, r.store.blocks, landing.value, t);
        }
      }
      if r.status != Ok then r else Enforce(r.store, t)
  }

  // ------------------------------------------------------------ public operations

  /** Place a block in tier `t`, replacing any earlier placement of its key. A key that
      was seen before, or is remembered by the ghost queue, enters the main queue. */
  ghost function Admit(s: Store, block: KVCacheBlock, t: Tier, tenant: nat): Store {
    var k := block.key;
    var seen := if k in s.blocks then s.blocks[k].entry.stats.accessCount else 0;
    var ghostHit := k in s.ghosts;
    var count := if seen == 0 && ghostHit then 2 else seen + 1;
    var isFast := Fastest(s.cfg) == Some(t);
    var inMain := isFast && (ghostHit || count > 1);
    var entry := TierEntry(k, t, BlockSize(block), AccessStats(count, s.clock + 1), tenant);
    Store(
      s.cfg,
      s.clock + 1,
      s.blocks[k := StoredBlock(block, entry, 0, inMain)],
      if isFast && !inMain then s.small + [k] else s.small,
      if inMain then s.main + [k] else s.main,
      s.ghosts - {k},
      s.ghostFifo)
  }

  ghost function Place(s: Store, block: KVCacheBlock, t: Tier, tenant: nat): Outcome {
    if BlockSize(block) > Limit(s, t) then Outcome(s, OutOfCapacity)
    else Enforce(Admit(s, block, t, tenant), t)
  }

  ghost function Write(s: Store, block: KVCacheBlock, target: Tier, tenant: nat): Outcome {
    match Resolve(s.cfg, target)
    case None => Outcome(s, InvalidArgument)
    case Some(t) => Place(s, block, t, tenant)
  }

  /** One more access, now. */
  ghost function Bump(b: StoredBlock, now: nat): StoredBlock {
    b.(entry := b.entry.(stats := AccessStats(b.entry.stats.accessCount + 1, now)))
  }

  ghost function Touch(s: Store, k: BlockKey): Store
    requires k in s.blocks
  {
    var b := s.blocks[k];
    var freq := if Fastest(s.cfg) == Some(b.entry.tier) && b.freq < FREQ_CAP then b.freq + 1 else b.freq;
    s.(clock := s.clock + 1, blocks := s.blocks[k := Bump(b, s.clock + 1).(freq := freq)])
  }

  /** Move a block to the main queue of the fastest tier. */
  ghost function Promote(s: Store, k: BlockKey, fast: Tier): Store
    requires k in s.blocks
  {
    var b := s.blocks[k];
    s.(blocks := s.blocks[k := StoredBlock(b.block, b.entry.(tier := fast), 0, true)], main := s.main + [k])
  }

  datatype ReadOutcome = ReadOutcome(store: Store, result: ReadResult)

  ghost predicate ReadPromotes(s: Store, k: BlockKey)
    requires k in s.blocks
  {
    Fastest(s.cfg).Some? && s.blocks[k].entry.tier != Fastest(s.cfg).value &&
    s.blocks[k].entry.size <= Limit(s, Fastest(s.cfg).value)
  }

  ghost function Read(s: Store, k: BlockKey): ReadOutcome {
    if k !in s.blocks then ReadOutcome(s, Failed(NotFound))
    else if !ReadPromotes(s, k) then ReadOutcome(Touch(s, k), Hit(s.blocks[k].block))
    else
      var fast := Fastest(s.cfg).value;
      var r := Enforce(Promote(Touch(s, k), k, fast), fast);
      if r.status != Ok then ReadOutcome(r.store, Failed(r.status))
      else if k !in r.store.blocks then ReadOutcome(r.store, Failed(Internal))
      else ReadOutcome(r.store, Hit(r.store.blocks[k].block))
  }

  /** Whether a predicted key is stored below the fastest tier and fits into it. */
  ghost predicate PrefetchMoves(s: Store, k: BlockKey, fast: Tier) {
    k in s.blocks && s.blocks[k].entry.tier != fast && BlockSize(s.blocks[k].block) <= Limit(s, fast)
  }

  ghost function PrefetchOne(s: Store, k: BlockKey, fast: Tier): Outcome {
    if PrefetchMoves(s, k, fast) then Place(s, s.blocks[k].block, fast, s.blocks[k].entry.tenant)
    else Outcome(s, Ok)
  }

  ghost function PrefetchAll(s: Store, keys: seq<BlockKey>, fast: Tier): Outcome
    decreases |keys|
  {
    if keys == [] then Outcome(s, Ok)
    else
      var r := PrefetchOne(s, keys[0], fast);
      if r.status != Ok then r else PrefetchAll(r.store, keys[1..], fast)
  }

  ghost function Prefetch(s: Store, keys: seq<BlockKey>): Outcome {
    match Fastest(s.cfg)
    case None => Outcome(s, InvalidArgument)
    case Some(fast) => PrefetchAll(s, keys, fast)
  }

  /** The operations a caller may perform; `result` of `ReadOp` is `Read(s, k).result`. */
  datatype Op =
    | WriteOp(block: KVCacheBlock, target: Tier, tenant: nat)
    | ReadOp(key: BlockKey)
    | PrefetchOp(keys: seq<BlockKey>)
    | EnforceOp(tier: Tier)

  ghost function Apply(s: Store, op: Op): Store {
    match op
    case WriteOp(block, target, tenant) => Write(s, block, target, tenant).store
    case ReadOp(k) => Read(s, k).store
    case PrefetchOp(keys) => Prefetch(s, keys).store
    case EnforceOp(t) => Enforce(s, t).store
  }

  ghost function Run(s: Store, ops: seq<Op>): Store
    decreases |ops|
  {
    if ops == [] then s else Apply(Run(s, ops[..|ops| - 1]), ops[|ops| - 1])
  }

  lemma {:induction false} RunPlus(s: Store, a: seq<Op>, b: seq<Op>)
    ensures Run(s, a + b) == Run(Run(s, a), b)
    decreases |b|
  {
    if b == [] {
      assert a + b == a;
    } else {
      var last := |b| - 1;
      assert (a + b)[..|a + b| - 1] == a + b[..last];
      RunPlus(s, a, b[..last]);
    }
  }

  lemma RunOne(s: Store, op: Op)
    ensures Run(s, [op]) == Apply(s, op)
  {
    assert [op][..0] == [];
    assert Run(s, []) == s;
  }

  lemma RunPush(s: Store, ops: seq<Op>, op: Op)
    ensures Run(s, ops + [op]) == Apply(Run(s, ops), op)
  {
    assert (ops + [op])[..|ops + [op]| - 1] == ops;
  }

  // ------------------------------------------------------------ frames

  lemma SameFasterKeys(m: BlockMap, m': BlockMap, w: Tier, t: Tier)
    requires SameFaster(m, m', w) && t < w
    ensures KeysAt(m, t) == KeysAt(m', t)
  {
    forall k ensures k in KeysAt(m, t) <==> k in KeysAt(m', t) {
      assert ((k in m && m[k].entry.tier < w) <==> (k in m' && m'[k].entry.tier < w));
    }
  }

  /** The same blocks in the same places; only S3-FIFO bookkeeping may differ. */
  ghost predicate SameEntries(m: BlockMap, m': BlockMap) {
    m.Keys == m'.Keys &&
    forall k :: k in m ==> m'[k].block == m[k].block && m'[k].entry == m[k].entry
  }

  /** ... and it may differ only in tier `t`. */
  ghost predicate SameElsewhere(m: BlockMap, m': BlockMap, t: Tier) {
    SameEntries(m, m') && forall k :: k in m && m[k].entry.tier != t ==> m'[k] == m[k]
  }

  lemma GhostInsertFrame(s: Store, k: BlockKey)
    ensures var g := GhostInsert(s, k);
            g.cfg == s.cfg && g.clock == s.clock && g.blocks == s.blocks &&
            g.small == s.small && g.main == s.main
  {
    GhostTrimFrame(s.(ghosts := s.ghosts + {k}, ghostFifo := s.ghostFifo + [k]));
  }

  lemma {:induction false} GhostTrimFrame(s: Store)
    ensures var g := GhostTrim(s);
            g.cfg == s.cfg && g.clock == s.clock && g.blocks == s.blocks &&
            g.small == s.small && g.main == s.main
    decreases |s.ghostFifo|
  {
    if |s.ghostFifo| > GHOST_CAPACITY {
      GhostTrimFrame(s.(ghosts := s.ghosts - {s.ghostFifo[0]}, ghostFifo := s.ghostFifo[1..]));
    }
  }

  /** An S3-FIFO search moves no block and its victim is in the fastest tier. */
  lemma {:induction false} S3PickFrame(s: Store, fast: Tier)
    ensures var p := S3Pick(s, fast);
            p.store.cfg == s.cfg && p.store.clock == s.clock &&
            SameElsewhere(s.blocks, p.store.blocks, fast) &&
            (p.victim.Some? ==> At(s.blocks, p.victim.value, fast))
    decreases |s.small|, Total(MainFreq(fast), s.blocks), |s.main|
  {
    if FromSmall(s, fast) {
      if s.small != [] {
        var k := s.small[0];
        if !InSmall(s.blocks, k, fast) {
          S3PickFrame(PopSmall(s), fast);
        } else if s.blocks[k].freq > 0 {
          S3PickFrame(Graduate(PopSmall(s), k), fast);
        } else {
          GhostInsertFrame(PopSmall(s), k);
        }
      }
    } else {
      var k := s.main[0];
      if !InMain(s.blocks, k, fast) {
        S3PickFrame(PopMain(s), fast);
      } else if s.blocks[k].freq > 0 {
        TotalInsert(MainFreq(fast), s.blocks, k, s.blocks[k].(freq := s.blocks[k].freq - 1));
        S3PickFrame(SecondChance(PopMain(s), k), fast);
      }
    }
  }

  /** Whatever the policy, choosing a victim moves no block and the victim is in tier `t`. */
  lemma PickFrame(s: Store, t: Tier)
    ensures var p := Pick(s, t);
            p.store.cfg == s.cfg && p.store.clock == s.clock &&
            SameElsewhere(s.blocks, p.store.blocks, t) &&
            (p.victim.Some? ==> At(s.blocks, p.victim.value, t))
  {
    S3PickFrame(s, t);
    if WorstTenant(s, t).Some? {
      var id := WorstTenant(s, t).value;
      TenantIndexNonempty(s.blocks, t, id);
      assert First(TenantIndexOf(s.blocks, t, id)) in TenantIndexOf(s.blocks, t, id);
    }
    if IndexOf(s.blocks, t) != {} {
      assert First(IndexOf(s.blocks, t)) in IndexOf(s.blocks, t);
    }
  }

  /** Each enforcement iteration takes exactly one block out of its own tier. */
  lemma DemoteShrinks(s: Store, t: Tier)
    requires Pick(s, t).victim.Some?
    ensures var p := Pick(s, t);
            var v := p.victim.value;
            v in KeysAt(s.blocks, t) && v in p.store.blocks &&
            KeysAt(Demote(p.store, v, t).blocks, t) == KeysAt(s.blocks, t) - {v} &&
            |KeysAt(Demote(p.store, v, t).blocks, t)| < |KeysAt(s.blocks, t)| &&
            SameFaster(s.blocks, Demote(p.store, v, t).blocks, t)
  {
    PickFrame(s, t);
    var p := Pick(s, t);
    var v := p.victim.value;
    assert KeysAt(Demote(p.store, v, t).blocks, t) == KeysAt(s.blocks, t) - {v};
  }

  // One iteration of enforcement, taken apart for proofs that follow its recursion.

  ghost function Victim(s: Store, t: Tier): (v: BlockKey)
    requires Pick(s, t).victim.Some?
    ensures At(s.blocks, v, t) && v in Pick(s, t).store.blocks
  {
    PickFrame(s, t);
    Pick(s, t).victim.value
  }

  ghost function LandingTier(s: Store, t: Tier): Option<Tier>
    requires Pick(s, t).victim.Some?
  {
    Landing(s, s.blocks[Victim(s, t)], t)
  }

  /** The store with the victim demoted. */
  ghost function Evict(s: Store, t: Tier): Store
    requires Pick(s, t).victim.Some?
  {
    Demote(Pick(s, t).store, Victim(s, t), t)
  }

  /** ... and the tier it landed in enforced in turn. */
  ghost function Settle(s: Store, t: Tier): Outcome
    requires Pick(s, t).victim.Some?
  {
    match LandingTier(s, t)
    case Some(w) => Enforce(Evict(s, t), w)
    case None => Outcome(Evict(s, t), Ok)
  }

  lemma EnforceStep(s: Store, t: Tier)
    requires Used(s, t) > Limit(s, t) && Pick(s, t).victim.Some?
    ensures Enforce(s, t) == if Settle(s, t).status != Ok then Settle(s, t) else Enforce(Settle(s, t).store, t)
    ensures KeysAt(Settle(s, t).store.blocks, t) == KeysAt(Evict(s, t).blocks, t) ==
              KeysAt(s.blocks, t) - {Victim(s, t)}
    ensures |KeysAt(Settle(s, t).store.blocks, t)| < |KeysAt(s.blocks, t)|
  {
    PickFrame(s, t);
    DemoteShrinks(s, t);
    var landing := LandingTier(s, t);
    if landing.Some? {
      SameFasterKeys(Evict(s, t).blocks, Settle(s, t).store.blocks, landing.value, t);
    }
  }
}
