/** Stored blocks and the quantities summed over them. Every byte counter of the
    storage manager is the total of one gauge, so one set of lemmas serves all. */
module Totals {
  import opened Blocks
  import opened Tiers

  datatype AccessStats = AccessStats(accessCount: nat, lastAccess: nat)

  datatype TierEntry = TierEntry(key: BlockKey, tier: Tier, size: nat, stats: AccessStats, tenant: nat)

  /** `freq` and `inMain` matter only for blocks of the fastest tier. */
  datatype StoredBlock = StoredBlock(block: KVCacheBlock, entry: TierEntry, freq: nat, inMain: bool)

  type BlockMap = map<BlockKey, StoredBlock>

  datatype Gauge =
    | TierBytes(tier: Tier)
    | SmallBytes(tier: Tier)
    | MainFreq(tier: Tier)
    | TenantBytes(tier: Tier, tenant: nat)
    | GroupBytes(tier: Tier, tenants: set<nat>)

  ghost function Weight(g: Gauge, b: StoredBlock): nat {
    if b.entry.tier != g.tier then 0 else
    match g
    case TierBytes(_) => b.entry.size
    case SmallBytes(_) => if b.inMain then 0 else b.entry.size
    case MainFreq(_) => if b.inMain then b.freq else 0
    case TenantBytes(_, id) => if b.entry.tenant == id then b.entry.size else 0
    case GroupBytes(_, ids) => if b.entry.tenant in ids then b.entry.size else 0
  }

  lemma Smaller(m: BlockMap, k: BlockKey)
    requires k in m
    ensures |m - {k}| == |m| - 1
  {
    assert (m - {k}).Keys == m.Keys - {k};
  }

  ghost function Total(g: Gauge, m: BlockMap): nat
    decreases |m|
  {
    if m == map[] then 0 else
      var k :| k in m;
      Smaller(m, k);
      Weight(g, m[k]) + Total(g, m - {k})
  }

  /** The order in which a total is added up does not matter. */
  lemma {:induction false} TotalRemove(g: Gauge, m: BlockMap, k: BlockKey)
    requires k in m
    ensures Total(g, m) == Weight(g, m[k]) + Total(g, m - {k})
    decreases |m|
  {
    var first :| first in m && Total(g, m) == Weight(g, m[first]) + Total(g, m - {first});
    if first != k {
      Smaller(m, first);
      Smaller(m, k);
      TotalRemove(g, m - {first}, k);
      TotalRemove(g, m - {k}, first);
      assert m - {first} - {k} == m - {k} - {first};
    }
  }

  lemma TotalInsert(g: Gauge, m: BlockMap, k: BlockKey, b: StoredBlock)
    ensures Total(g, m[k := b]) == Weight(g, b) + Total(g, m - {k})
    ensures k in m ==> Total(g, m[k := b]) == Total(g, m) - Weight(g, m[k]) + Weight(g, b)
    ensures k !in m ==> Total(g, m[k := b]) == Total(g, m) + Weight(g, b)
  {
    TotalRemove(g, m[k := b], k);
    assert m[k := b] - {k} == m - {k};
    if k in m {
      TotalRemove(g, m, k);
    } else {
      assert m - {k} == m;
    }
  }

  lemma {:induction false} TotalSplit(g: Gauge, g1: Gauge, g2: Gauge, m: BlockMap)
    requires forall k :: k in m ==> Weight(g, m[k]) == Weight(g1, m[k]) + Weight(g2, m[k])
    ensures Total(g, m) == Total(g1, m) + Total(g2, m)
    decreases |m|
  {
    if m != map[] {
      var k :| k in m;
      Smaller(m, k);
      TotalRemove(g, m, k);
      TotalRemove(g1, m, k);
      TotalRemove(g2, m, k);
      TotalSplit(g, g1, g2, m - {k});
    }
  }

  lemma {:induction false} TotalAgree(g: Gauge, m: BlockMap, g': Gauge, m': BlockMap)
    requires m.Keys == m'.Keys
    requires forall k :: k in m ==> Weight(g, m[k]) == Weight(g', m'[k])
    ensures Total(g, m) == Total(g', m')
    decreases |m|
  {
    if m != map[] {
      var k :| k in m;
      Smaller(m, k);
      assert (m - {k}).Keys == (m' - {k}).Keys;
      TotalRemove(g, m, k);
      TotalRemove(g', m', k);
      TotalAgree(g, m - {k}, g', m' - {k});
    } else {
      assert m' == map[];
    }
  }

  lemma {:induction false} TotalPositive(g: Gauge, m: BlockMap) returns (k: BlockKey)
    requires Total(g, m) > 0
    ensures k in m && Weight(g, m[k]) > 0
    decreases |m|
  {
    k :| k in m;
    TotalRemove(g, m, k);
    if Weight(g, m[k]) == 0 {
      Smaller(m, k);
      k := TotalPositive(g, m - {k});
    }
  }
}
