/** The tiered storage manager itself: one authoritative block map and the structures
    kept in step with it by every operation. Each method is proved to do to the
    authoritative state what the store model says. */
module TieredStorage {
  import opened Blocks
  import opened Tiers
  import opened Totals
  import opened VictimOrder
  import opened StoreModel
  import opened StoreInvariant
  import opened StoreCapacity
  import opened Accounting

  datatype LookupResult = LookupResult(hit: bool, tier: Tier, key: BlockKey)

  datatype TierOccupancy = TierOccupancy(usedBytes: nat, capacityBytes: nat)

  class TieredStorageManager {
    const cfg: Config
    const fastest: Option<Tier>
    var clock: nat
    var blocks: BlockMap
    var victimIndex: seq<set<Order>>
    var small: seq<BlockKey>
    var main: seq<BlockKey>
    var smallUsed: nat
    var usedBytes: seq<nat>
    var ghosts: set<BlockKey>
    var ghostFifo: seq<BlockKey>
    var tenantUsed: seq<map<nat, nat>>
    var tenantIndex: seq<map<nat, set<Order>>>

    /** The authoritative state. */
    ghost function View(): Store
      reads this
    {
      Store(cfg, clock, blocks, small, main, ghosts, ghostFifo)
    }

    /** Every cached structure equals its recomputation from the block map. */
    ghost predicate Accounted()
      reads this
    {
      fastest == Fastest(cfg) &&
      AllBlocksOk(cfg, clock, blocks) &&
      BytesOk(blocks, usedBytes) && SmallOk(cfg, blocks, smallUsed) &&
      IndexesOk(cfg, blocks, victimIndex) && TenantsOk(cfg, blocks, tenantUsed, tenantIndex)
    }

    /** What holds between public operations. */
    ghost predicate Valid()
      reads this
    {
      Accounted() && Inv(View()) && Bounded(View())
    }

    constructor (config: Config)
      ensures Valid() && View() == Empty(config)
    {
      cfg, fastest := config, Fastest(config);
      clock, blocks := 0, map[];
      victimIndex := [{}, {}, {}];
      small, main, smallUsed := [], [], 0;
      usedBytes := [0, 0, 0];
      ghosts, ghostFifo := {}, [];
      tenantUsed, tenantIndex := [map[], map[], map[]], [map[], map[], map[]];
    }

    // ------------------------------------------------ cached structures

    method IndexInsert(entry: TierEntry)
      requires |victimIndex| == 3
      modifies this`victimIndex
      ensures victimIndex == old(victimIndex)[entry.tier := old(victimIndex)[entry.tier] +
                                              {(entry.stats.lastAccess, entry.key)}]
    {
      victimIndex := victimIndex[entry.tier := victimIndex[entry.tier] + {(entry.stats.lastAccess, entry.key)}];
    }

    method IndexErase(entry: TierEntry)
      requires |victimIndex| == 3
      modifies this`victimIndex
      ensures victimIndex == old(victimIndex)[entry.tier := old(victimIndex)[entry.tier] -
                                              {(entry.stats.lastAccess, entry.key)}]
    {
      victimIndex := victimIndex[entry.tier := victimIndex[entry.tier] - {(entry.stats.lastAccess, entry.key)}];
    }

    /** Charge a block that is about to join the blocks in `m` to its tenant. */
    method AccountInsert(entry: TierEntry, ghost m: BlockMap, ghost b: StoredBlock)
      requires TenantsOk(cfg, m, tenantUsed, tenantIndex) && entry.key !in m && b.entry == entry
      modifies this`tenantUsed, this`tenantIndex
      ensures TenantsOk(cfg, m[entry.key := b], tenantUsed, tenantIndex)
    {
      if !QuotaEnabled(cfg) {
        return;
      }
      var t, id := entry.tier, entry.tenant;
      ghost var used, indexes := tenantUsed, tenantIndex;
      var charge: nat := Charge(tenantUsed[t], id) + entry.size;
      var row: map<nat, nat> := tenantUsed[t][id := charge];
      tenantUsed := tenantUsed[t := row];
      var index := if id in tenantIndex[t] then tenantIndex[t][id] else {};
      tenantIndex := tenantIndex[t := tenantIndex[t][id := index + {(entry.stats.lastAccess, entry.key)}]];
      forall u: Tier
        ensures ChargesOk(m[entry.key := b], u, tenantUsed[u]) && TenantIndexOk(m[entry.key := b], u, tenantIndex[u])
      {
        ChargeInsert(m, entry.key, b, u, used[u], tenantUsed[u]);
        TenantIndexInsert(m, entry.key, b, u, indexes[u], tenantIndex[u]);
      }
    }

    /** Take a block that is leaving the blocks in `m` off its tenant's account. */
    method AccountErase(entry: TierEntry, ghost m: BlockMap)
      requires TenantsOk(cfg, m, tenantUsed, tenantIndex) && entry.key in m && m[entry.key].entry == entry
      modifies this`tenantUsed, this`tenantIndex
      ensures TenantsOk(cfg, m - {entry.key}, tenantUsed, tenantIndex)
    {
      if !QuotaEnabled(cfg) {
        return;
      }
      var t, id := entry.tier, entry.tenant;
      ghost var used, indexes := tenantUsed, tenantIndex;
      TotalRemove(TenantBytes(t, id), m, entry.key);
      if id in tenantUsed[t] {
        var charge := tenantUsed[t][id];
        var left: nat := charge - if charge < entry.size then charge else entry.size;
        var row: map<nat, nat> := if left == 0 then tenantUsed[t] - {id} else tenantUsed[t][id := left];
        tenantUsed := tenantUsed[t := row];
      }
      if id in tenantIndex[t] {
        var rest := tenantIndex[t][id] - {(entry.stats.lastAccess, entry.key)};
        tenantIndex := tenantIndex[t := if rest == {} then tenantIndex[t] - {id} else tenantIndex[t][id := rest]];
      }
      assert id in TenantsAt(m, t);
      forall u: Tier
        ensures ChargesOk(m - {entry.key}, u, tenantUsed[u]) && TenantIndexOk(m - {entry.key}, u, tenantIndex[u])
      {
        ChargeErase(m, entry.key, u, used[u], tenantUsed[u]);
        TenantIndexErase(m, entry.key, u, indexes[u], tenantIndex[u]);
      }
    }

    /** Take a block of `m` off the byte counters and the victim index of its tier. */
    method CountOut(b: StoredBlock, ghost m: BlockMap)
      requires b.entry.key in m && b == m[b.entry.key] && fastest == Fastest(cfg)
      requires BytesOk(m, usedBytes) && SmallOk(cfg, m, smallUsed) && IndexesOk(cfg, m, victimIndex)
      modifies this`victimIndex, this`smallUsed, this`usedBytes
      ensures var rest := m - {b.entry.key};
              BytesOk(rest, usedBytes) && SmallOk(cfg, rest, smallUsed) && IndexesOk(cfg, rest, victimIndex)
    {
      ghost var used, indexes := usedBytes, victimIndex;
      BytesCover(m, b.entry.key, used);
      LeaveSmallOk(cfg, m, b.entry.key, smallUsed);
      if fastest == Some(b.entry.tier) {
        if !b.inMain {
          smallUsed := smallUsed - b.entry.size;
        }
      } else {
        IndexErase(b.entry);
      }
      usedBytes := usedBytes[b.entry.tier := usedBytes[b.entry.tier] - b.entry.size];
      LeaveOk(cfg, m, b.entry.key, used, usedBytes, indexes, victimIndex);
    }

    /** Add a block that joins `m` to the byte counters and the victim index of its tier. */
    method CountIn(b: StoredBlock, ghost m: BlockMap)
      requires b.entry.key !in m && fastest == Fastest(cfg)
      requires BytesOk(m, usedBytes) && SmallOk(cfg, m, smallUsed) && IndexesOk(cfg, m, victimIndex)
      modifies this`victimIndex, this`smallUsed, this`usedBytes
      ensures var more := m[b.entry.key := b];
              BytesOk(more, usedBytes) && SmallOk(cfg, more, smallUsed) && IndexesOk(cfg, more, victimIndex)
    {
      ghost var used, indexes := usedBytes, victimIndex;
      EnterSmallOk(cfg, m, b.entry.key, b, smallUsed);
      if fastest == Some(b.entry.tier) {
        if !b.inMain {
          smallUsed := smallUsed + b.entry.size;
        }
      } else {
        IndexInsert(b.entry);
      }
      usedBytes := usedBytes[b.entry.tier := usedBytes[b.entry.tier] + b.entry.size];
      EnterOk(cfg, m, b.entry.key, b, used, usedBytes, indexes, victimIndex);
    }

    /** Take a block out of the map and out of everything that accounts for it. Queue
        entries stay behind as residue. */
    method Remove(k: BlockKey)
      requires Accounted()
      modifies this`blocks, this`victimIndex, this`smallUsed, this`usedBytes, this`tenantUsed, this`tenantIndex
      ensures Accounted() && View() == old(View()).(blocks := old(blocks) - {k})
    {
      if k !in blocks {
        assert blocks - {k} == blocks;
        return;
      }
      var b := blocks[k];
      assert BlockOk(cfg, clock, blocks, k);
      CountOut(b, blocks);
      AccountErase(b.entry, blocks);
      BlocksOkDrop(cfg, clock, blocks, k);
      blocks := blocks - {k};
    }

    /** Put a new block into the map and into everything that accounts for it. */
    method Install(k: BlockKey, b: StoredBlock)
      requires Accounted() && k !in blocks && BlockOk(cfg, clock, blocks[k := b], k)
      modifies this`blocks, this`victimIndex, this`smallUsed, this`usedBytes, this`tenantUsed, this`tenantIndex
      ensures Accounted() && View() == old(View()).(blocks := old(blocks)[k := b])
    {
      CountIn(b, blocks);
      AccountInsert(b.entry, blocks, b);
      BlocksOkPut(cfg, clock, clock, blocks, k, b);
      blocks := blocks[k := b];
    }

    /** Put a block into the map in place of any earlier placement of its key. */
    method Replace(k: BlockKey, b: StoredBlock)
      requires Accounted() && BlockOk(cfg, clock, blocks[k := b], k)
      modifies this`blocks, this`victimIndex, this`smallUsed, this`usedBytes, this`tenantUsed, this`tenantIndex
      ensures Accounted() && View() == old(View()).(blocks := old(blocks)[k := b])
    {
      Remove(k);
      Install(k, b);
      assert blocks == old(blocks)[k := b];
    }

    /** Advance the logical clock. */
    method Tick()
      requires Accounted()
      modifies this`clock
      ensures Accounted() && View() == old(View()).(clock := old(clock) + 1)
    {
      BlocksOkLater(cfg, clock, clock + 1, blocks);
      clock := clock + 1;
    }

    // ------------------------------------------------ ghost queue

    method GhostInsertLocked(k: BlockKey)
      modifies this`ghosts, this`ghostFifo
      ensures View() == GhostInsert(old(View()), k)
    {
      if k in ghosts {
        return;
      }
      ghosts, ghostFifo := ghosts + {k}, ghostFifo + [k];
      while |ghostFifo| > GHOST_CAPACITY
        invariant GhostTrim(View()) == GhostInsert(old(View()), k)
        decreases |ghostFifo|
      {
        ghosts, ghostFifo := ghosts - {ghostFifo[0]}, ghostFifo[1..];
      }
    }

    method GhostConsume(k: BlockKey) returns (hit: bool)
      modifies this`ghosts
      ensures hit == (k in old(ghosts)) && ghosts == old(ghosts) - {k}
    {
      hit := k in ghosts;
      ghosts := ghosts - {k};
    }

    // ------------------------------------------------ victim choice

    /** The part of the accounting that a victim search can affect. */
    ghost predicate Searchable()
      reads this
    {
      fastest == Fastest(cfg) && fastest.Some? &&
      AllBlocksOk(cfg, clock, blocks) && SmallOk(cfg, blocks, smallUsed)
    }

    /** Change only the S3-FIFO state of a block of the fastest tier. */
    method Relabel(k: BlockKey, b: StoredBlock)
      requires Searchable() && k in blocks && fastest == Some(b.entry.tier) && b.freq <= FREQ_CAP
      requires b.block == blocks[k].block && b.entry == blocks[k].entry && (blocks[k].inMain ==> b.inMain)
      modifies this`blocks, this`smallUsed
      ensures Searchable() && blocks == old(blocks)[k := b]
    {
      assert BlockOk(cfg, clock, blocks, k);
      RelabelSmallOk(cfg, blocks, k, b, smallUsed);
      BlocksOkPut(cfg, clock, clock, blocks, k, b);
      if b.inMain && !blocks[k].inMain {
        smallUsed := smallUsed - b.entry.size;
      }
      blocks := blocks[k := b];
    }

    /** S3-FIFO on the fastest tier. */
    method PickS3Victim() returns (victim: Option<BlockKey>)
      requires Accounted() && fastest.Some?
      modifies this`blocks, this`small, this`main, this`smallUsed, this`ghosts, this`ghostFifo
      ensures Accounted() && Picked(View(), victim) == S3Pick(old(View()), fastest.value)
    {
      victim := SearchS3();
      S3PickFrame(old(View()), fastest.value);
      SameEntriesOk(cfg, old(blocks), blocks, usedBytes, victimIndex, tenantUsed, tenantIndex);
    }

    method SearchS3() returns (victim: Option<BlockKey>)
      requires Searchable()
      modifies this`blocks, this`small, this`main, this`smallUsed, this`ghosts, this`ghostFifo
      ensures Searchable() && Picked(View(), victim) == S3Pick(old(View()), fastest.value)
    {
      var fast := fastest.value;
      var budget := CapacityOf(cfg, fast) / 10;
      while true
        invariant Searchable() && S3Pick(View(), fast) == S3Pick(old(View()), fast)
        decreases |small|, Total(MainFreq(fast), blocks), |main|
      {
        if (smallUsed > budget && small != []) || main == [] {
          assert FromSmall(View(), fast);
          if small == [] {
            return None;
          }
          victim := ServeSmall();
        } else {
          assert !FromSmall(View(), fast);
          victim := ServeMain();
        }
        if victim.Some? {
          return;
        }
      }
    }

    /** Take the front key of the small queue: it is stale, or reused, or the victim. */
    method ServeSmall() returns (victim: Option<BlockKey>)
      requires Searchable() && small != [] && FromSmall(View(), fastest.value)
      modifies this`blocks, this`small, this`main, this`smallUsed, this`ghosts, this`ghostFifo
      ensures Searchable() && |small| < |old(small)|
      ensures S3Pick(old(View()), fastest.value) ==
              if victim.Some? then Picked(View(), victim) else S3Pick(View(), fastest.value)
    {
      ghost var before := View();
      var k := small[0];
      small := small[1..];
      assert View() == PopSmall(before);
      if k !in blocks || fastest != Some(blocks[k].entry.tier) || blocks[k].inMain {
        return None;
      }
      if blocks[k].freq > 0 {
        Relabel(k, blocks[k].(inMain := true, freq := 0));
        main := main + [k];
        assert View() == Graduate(PopSmall(before), k);
        return None;
      }
      GhostInsertLocked(k);
      return Some(k);
    }

    /** Take the front key of the main queue: it is stale, or goes round again, or is the victim. */
    method ServeMain() returns (victim: Option<BlockKey>)
      requires Searchable() && main != [] && !FromSmall(View(), fastest.value)
      modifies this`blocks, this`main, this`smallUsed
      ensures Searchable() && small == old(small)
      ensures victim.None? ==>
                Total(MainFreq(fastest.value), blocks) < old(Total(MainFreq(fastest.value), blocks)) ||
                (blocks == old(blocks) && |main| < |old(main)|)
      ensures S3Pick(old(View()), fastest.value) ==
              if victim.Some? then Picked(View(), victim) else S3Pick(View(), fastest.value)
    {
      ghost var before := View();
      var fast, k := fastest.value, main[0];
      main := main[1..];
      assert View() == PopMain(before);
      if k !in blocks || blocks[k].entry.tier != fast || !blocks[k].inMain {
        return None;
      }
      if blocks[k].freq > 0 {
        assert BlockOk(cfg, clock, blocks, k);
        TotalInsert(MainFreq(fast), blocks, k, blocks[k].(freq := blocks[k].freq - 1));
        Relabel(k, blocks[k].(freq := blocks[k].freq - 1));
        main := main + [k];
        assert View() == SecondChance(PopMain(before), k);
        return None;
      }
      return Some(k);
    }

    /** Least recently used on any other tier. */
    method PickVictim(t: Tier) returns (victim: Option<BlockKey>)
      requires Accounted() && fastest != Some(t)
      ensures victim == LruPick(View(), t).victim
    {
      if victimIndex[t] == {} {
        return None;
      }
      return Some(First(victimIndex[t]).1);
    }

    /** A tenant's share of a tier, in proportion to its weight. */
    method TenantShareOf(id: nat, t: Tier) returns (share: real)
      ensures share == Share(cfg, id, t)
    {
      var total := 0.0;
      var rest := cfg.tenantWeights.Keys;
      while rest != {}
        invariant rest <= cfg.tenantWeights.Keys
        invariant total + WeightSum(cfg.tenantWeights, rest) == WeightSum(cfg.tenantWeights, cfg.tenantWeights.Keys)
        decreases rest
      {
        LeastExists(rest);
        var next :| IsLeast(next, rest);
        WeightSumRemove(cfg.tenantWeights, rest, next);
        total := total + cfg.tenantWeights[next];
        rest := rest - {next};
      }
      if total <= 0.0 {
        return 0.0;
      }
      var weight := if id in cfg.tenantWeights then cfg.tenantWeights[id] else 0.0;
      share := Fraction(CapacityOf(cfg, t), weight, total);
    }

    /** The oldest block of the tenant furthest over its share, if any tenant is over. */
    method PickQuotaVictim(t: Tier) returns (victim: Option<BlockKey>)
      requires Accounted() && QuotaEnabled(cfg)
      ensures victim == QuotaPick(View(), t).victim
    {
      var worstOverage := 0.0;
      var worst: Option<nat> := None;
      var rest := tenantIndex[t].Keys;
      ghost var done: set<nat> := {};
      while rest != {}
        invariant done + rest == tenantIndex[t].Keys
        invariant forall i, j :: i in done && j in rest ==> i < j
        invariant WorstSoFar(View(), t, done, worst, worstOverage)
        decreases rest
      {
        LeastExists(rest);
        var id :| IsLeast(id, rest);
        var share := TenantShareOf(id, t);
        assert ChargesOk(blocks, t, tenantUsed[t]);
        var overage := Charge(tenantUsed[t], id) as real - share;
        assert overage == Overage(View(), id, t);
        WorstSoFarStep(View(), t, done, worst, worstOverage, id);
        if overage > worstOverage {
          worstOverage, worst := overage, Some(id);
        }
        rest, done := rest - {id}, done + {id};
      }
      assert TenantIndexOk(blocks, t, tenantIndex[t]) && done == TenantsAt(blocks, t);
      WorstFound(View(), t, worst, worstOverage);
      if worst.None? {
        return None;
      }
      TenantIndexNonempty(blocks, t, worst.value);
      return Some(First(tenantIndex[t][worst.value]).1);
    }

    method ChooseVictim(t: Tier) returns (victim: Option<BlockKey>)
      requires Accounted()
      modifies this`blocks, this`small, this`main, this`smallUsed, this`ghosts, this`ghostFifo
      ensures Accounted() && Picked(View(), victim) == Pick(old(View()), t)
    {
      victim := None;
      if QuotaEnabled(cfg) {
        victim := PickQuotaVictim(t);
      }
      if victim.None? {
        if fastest == Some(t) {
          victim := PickS3Victim();
        } else {
          victim := PickVictim(t);
        }
      }
    }

    // ------------------------------------------------ eviction

    /** Take a victim out of tier `t` and, if the next slower tier can hold it, put it there. */
    method DemoteVictim(v: BlockKey, t: Tier) returns (landing: Option<Tier>)
      requires Accounted() && At(blocks, v, t)
      modifies this
      ensures Accounted() && View() == Demote(old(View()), v, t)
      ensures landing == Landing(old(View()), old(blocks)[v], t)
    {
      var b := blocks[v];
      assert BlockOk(cfg, clock, blocks, v);
      landing := None;
      var slower := NextSlower(cfg, t);
      if slower.Some? {
        Tick();
        var size := BlockSize(b.block);
        if size <= CapacityOf(cfg, slower.value) {
          landing := slower;
          var stats := b.entry.stats.(lastAccess := clock);
          var entry := TierEntry(b.block.key, slower.value, size, stats, b.entry.tenant);
          Replace(v, StoredBlock(b.block, entry, 0, false));
          return;
        }
      }
      Remove(v);
    }

    /** Bring tier `t` back under its threshold. */
    method EnforceCapacityLocked(t: Tier) returns (status: Status)
      requires Accounted()
      modifies this
      ensures Accounted() && Outcome(View(), status) == Enforce(old(View()), t)
      decreases 3 - t
    {
      var threshold := Threshold(cfg, t);
      while usedBytes[t] > threshold
        invariant Accounted() && Enforce(View(), t) == Enforce(old(View()), t)
        decreases |KeysAt(blocks, t)|
      {
        ghost var before := View();
        var victim := ChooseVictim(t);
        PickFrame(before, t);
        if victim.None? {
          return Internal;
        }
        EnforceStep(before, t);
        var landing := DemoteVictim(victim.value, t);
        assert View() == Evict(before, t) && landing == LandingTier(before, t);
        if landing.Some? {
          status := EnforceCapacityLocked(landing.value);
          if status != Ok {
            return;
          }
        }
        assert View() == Settle(before, t).store;
      }
      return Ok;
    }

    method EnforceCapacity(t: Tier) returns (status: Status)
      requires Valid()
      modifies this
      ensures Valid() && status == Ok && View() == old(View())
    {
      status := EnforceCapacityLocked(t);
    }

    // ------------------------------------------------ public operations

    /** Put a block into tier `t`, replacing any earlier placement of its key. */
    method AdmitBlock(block: KVCacheBlock, t: Tier, tenant: nat)
      requires Accounted() && Configured(cfg, t)
      modifies this
      ensures Accounted() && View() == Admit(old(View()), block, t, tenant)
    {
      var k := block.key;
      var count := 1 + if k in blocks then blocks[k].entry.stats.accessCount else 0;
      Tick();
      var ghostHit := GhostConsume(k);
      if count == 1 && ghostHit {
        count := 2;
      }
      var isFastest := fastest == Some(t);
      var inMain := isFastest && (ghostHit || count > 1);
      if inMain {
        main := main + [k];
      } else if isFastest {
        small := small + [k];
      }
      Replace(k, StoredBlock(block, TierEntry(k, t, BlockSize(block), AccessStats(count, clock), tenant), 0, inMain));
    }

    method PlaceLocked(block: KVCacheBlock, t: Tier, tenant: nat) returns (status: Status)
      requires Accounted() && Configured(cfg, t)
      modifies this
      ensures Accounted() && Outcome(View(), status) == Place(old(View()), block, t, tenant)
    {
      if BlockSize(block) > Threshold(cfg, t) {
        return OutOfCapacity;
      }
      AdmitBlock(block, t, tenant);
      status := EnforceCapacityLocked(t);
    }

    method WriteBlock(block: KVCacheBlock, target: Tier, tenant: nat) returns (status: Status)
      requires Valid()
      modifies this
      ensures Valid() && Outcome(View(), status) == Write(old(View()), block, target, tenant)
    {
      ApplyInv(View(), WriteOp(block, target, tenant));
      ApplyBounded(View(), WriteOp(block, target, tenant));
      var t := Resolve(cfg, target);
      if t.None? {
        return InvalidArgument;
      }
      status := PlaceLocked(block, t.value, tenant);
    }

    /** Swap the victim-index entry of a block of `m` whose statistics change. */
    method Reindex(b: StoredBlock, b': StoredBlock, ghost m: BlockMap)
      requires b.entry.key in m && b == m[b.entry.key] && fastest == Fastest(cfg)
      requires b'.entry == b.entry.(stats := b'.entry.stats) && b'.inMain == b.inMain
      requires BytesOk(m, usedBytes) && SmallOk(cfg, m, smallUsed) && IndexesOk(cfg, m, victimIndex)
      modifies this`victimIndex
      ensures var m' := m[b.entry.key := b'];
              BytesOk(m', usedBytes) && SmallOk(cfg, m', smallUsed) && IndexesOk(cfg, m', victimIndex)
    {
      ghost var indexes := victimIndex;
      if fastest != Some(b.entry.tier) {
        IndexErase(b.entry);
        IndexInsert(b'.entry);
      }
      RefreshOk(cfg, m, b.entry.key, b', usedBytes, smallUsed, indexes, victimIndex);
    }

    /** Swap the tenant-index entry of a block of `m` whose statistics change. */
    method Reaccount(b: StoredBlock, b': StoredBlock, ghost m: BlockMap)
      requires b.entry.key in m && b == m[b.entry.key] && b'.entry == b.entry.(stats := b'.entry.stats)
      requires TenantsOk(cfg, m, tenantUsed, tenantIndex)
      modifies this`tenantUsed, this`tenantIndex
      ensures TenantsOk(cfg, m[b.entry.key := b'], tenantUsed, tenantIndex)
    {
      AccountErase(b.entry, m);
      AccountInsert(b'.entry, m - {b.entry.key}, b');
      assert (m - {b.entry.key})[b.entry.key := b'] == m[b.entry.key := b'];
    }

    /** Change a stored block's statistics and frequency in place. */
    method Refresh(k: BlockKey, b': StoredBlock)
      requires Accounted() && k in blocks && BlockOk(cfg, clock, blocks[k := b'], k)
      requires b'.entry == blocks[k].entry.(stats := b'.entry.stats) && b'.inMain == blocks[k].inMain
      modifies this`blocks, this`victimIndex, this`tenantUsed, this`tenantIndex
      ensures Accounted() && View() == old(View()).(blocks := old(blocks)[k := b'])
    {
      assert BlockOk(cfg, clock, blocks, k);
      BlocksOkPut(cfg, clock, clock, blocks, k, b');
      Reindex(blocks[k], b', blocks);
      Reaccount(blocks[k], b', blocks);
      blocks := blocks[k := b'];
    }

    /** Count an access to a stored block, in place. */
    method TouchBlock(k: BlockKey)
      requires Accounted() && k in blocks
      modifies this
      ensures Accounted() && View() == Touch(old(View()), k)
    {
      Tick();
      var b := blocks[k];
      assert BlockOk(cfg, clock, blocks, k);
      var freq := if fastest == Some(b.entry.tier) && b.freq < FREQ_CAP then b.freq + 1 else b.freq;
      var entry := b.entry.(stats := AccessStats(b.entry.stats.accessCount + 1, clock));
      Refresh(k, b.(entry := entry, freq := freq));
    }

    /** Move a stored block to the main queue of the fastest tier. */
    method PromoteBlock(k: BlockKey)
      requires Accounted() && k in blocks && fastest.Some?
      modifies this
      ensures Accounted() && View() == Promote(old(View()), k, fastest.value)
    {
      var b, fast := blocks[k], fastest.value;
      assert BlockOk(cfg, clock, blocks, k);
      main := main + [k];
      Replace(k, StoredBlock(b.block, TierEntry(k, fast, b.entry.size, b.entry.stats, b.entry.tenant), 0, true));
    }

    method ReadBlock(k: BlockKey) returns (result: ReadResult)
      requires Valid()
      modifies this
      ensures Valid() && ReadOutcome(View(), result) == Read(old(View()), k)
    {
      ApplyInv(View(), ReadOp(k));
      ApplyBounded(View(), ReadOp(k));
      if k !in blocks {
        return Failed(NotFound);
      }
      TouchBlock(k);
      var b := blocks[k];
      if fastest != Some(b.entry.tier) && fastest.Some? && b.entry.size <= Threshold(cfg, fastest.value) {
        PromoteBlock(k);
        var status := EnforceCapacityLocked(fastest.value);
        if status != Ok {
          return Failed(status);
        }
        if k !in blocks {
          return Failed(Internal);
        }
        return Hit(blocks[k].block);
      }
      return Hit(b.block);
    }

    method PrefetchKeys(keys: seq<BlockKey>) returns (status: Status)
      requires Valid()
      modifies this
      ensures Valid() && Outcome(View(), status) == Prefetch(old(View()), keys)
    {
      ApplyInv(View(), PrefetchOp(keys));
      ApplyBounded(View(), PrefetchOp(keys));
      if fastest.None? {
        return InvalidArgument;
      }
      var fast := fastest.value;
      for i := 0 to |keys|
        invariant Accounted() && PrefetchAll(View(), keys[i..], fast) == PrefetchAll(old(View()), keys, fast)
      {
        var k := keys[i];
        assert keys[i..][0] == k && keys[i..][1..] == keys[i + 1..];
        if k in blocks && blocks[k].entry.tier != fast && BlockSize(blocks[k].block) <= Threshold(cfg, fast) {
          status := PlaceLocked(blocks[k].block, fast, blocks[k].entry.tenant);
          if status != Ok {
            return;
          }
        }
      }
      return Ok;
    }

    method Locate(k: BlockKey) returns (r: LookupResult)
      requires Valid()
      ensures r.hit <==> exists t: Tier :: At(blocks, k, t)
      ensures r.hit ==> forall t: Tier :: At(blocks, k, t) <==> t == r.tier
      ensures r.key == k
    {
      if k in blocks {
        assert At(blocks, k, blocks[k].entry.tier);
        r := LookupResult(true, blocks[k].entry.tier, k);
      } else {
        r := LookupResult(false, HBM, k);
      }
    }

    method Occupancy(t: Tier) returns (r: TierOccupancy)
      requires Valid()
      ensures r == TierOccupancy(Used(View(), t), CapacityOf(cfg, t)) && r.usedBytes <= r.capacityBytes
    {
      assert Used(View(), t) <= Limit(View(), t);
      r := TierOccupancy(usedBytes[t], CapacityOf(cfg, t));
    }
  }
}
