/** What it means for the manager's cached structures to equal their recomputation
    from the block map, and how they change when a block enters or leaves it. */
module Accounting {
  import opened Blocks
  import opened Tiers
  import opened Totals
  import opened VictimOrder
  import opened StoreModel

  ghost predicate BytesOk(m: BlockMap, used: seq<nat>) {
    |used| == 3 && forall t: Tier :: used[t] == Total(TierBytes(t), m)
  }

  ghost predicate SmallOk(cfg: Config, m: BlockMap, smallUsed: nat) {
    Fastest(cfg).Some? ==> smallUsed == Total(SmallBytes(Fastest(cfg).value), m)
  }

  /** The fastest tier is not indexed; every other tier is. */
  ghost predicate IndexesOk(cfg: Config, m: BlockMap, indexes: seq<set<Order>>) {
    |indexes| == 3 &&
    forall t: Tier :: indexes[t] == if Fastest(cfg) == Some(t) then {} else IndexOf(m, t)
  }

  function Charge(used: map<nat, nat>, id: nat): nat {
    if id in used then used[id] else 0
  }

  ghost predicate ChargesOk(m: BlockMap, t: Tier, used: map<nat, nat>) {
    forall id: nat :: Charge(used, id) == Total(TenantBytes(t, id), m)
  }

  ghost predicate TenantIndexOk(m: BlockMap, t: Tier, index: map<nat, set<Order>>) {
    index.Keys == TenantsAt(m, t) && forall id :: id in index ==> index[id] == TenantIndexOf(m, t, id)
  }

  ghost predicate TenantsOk(cfg: Config, m: BlockMap, used: seq<map<nat, nat>>, indexes: seq<map<nat, set<Order>>>) {
    |used| == 3 && |indexes| == 3 &&
    forall t: Tier ::
      if QuotaEnabled(cfg) then ChargesOk(m, t, used[t]) && TenantIndexOk(m, t, indexes[t])
      else used[t] == map[] && indexes[t] == map[]
  }

  // ------------------------------------------------ a block leaves

  lemma IndexWithout(m: BlockMap, k: BlockKey, t: Tier)
    requires k in m
    ensures IndexOf(m - {k}, t) == IndexOf(m, t) - (if m[k].entry.tier == t then {OrderOf(m[k], k)} else {})
  {
    var lhs, rhs := IndexOf(m - {k}, t), IndexOf(m, t) - (if m[k].entry.tier == t then {OrderOf(m[k], k)} else {});
    forall o ensures o in lhs <==> o in rhs {
      if o in rhs {
        assert o.1 in m - {k};
      }
    }
  }

  lemma TenantIndexWithout(m: BlockMap, k: BlockKey, t: Tier, id: nat)
    requires k in m
    ensures TenantIndexOf(m - {k}, t, id) ==
            TenantIndexOf(m, t, id) -
            (if m[k].entry.tier == t && m[k].entry.tenant == id then {OrderOf(m[k], k)} else {})
  {
    var lhs := TenantIndexOf(m - {k}, t, id);
    var rhs := TenantIndexOf(m, t, id) -
        (if m[k].entry.tier == t && m[k].entry.tenant == id then {OrderOf(m[k], k)} else {});
    forall o ensures o in lhs <==> o in rhs {
      if o in rhs {
        assert o.1 in m - {k};
      }
    }
  }

  /** A tenant is present in a tier exactly when its index there is not empty. */
  lemma TenantPresent(m: BlockMap, t: Tier, id: nat)
    ensures id in TenantsAt(m, t) <==> TenantIndexOf(m, t, id) != {}
  {
    if id in TenantsAt(m, t) {
      TenantIndexNonempty(m, t, id);
    }
    if TenantIndexOf(m, t, id) != {} {
      var o :| o in TenantIndexOf(m, t, id);
      assert o.1 in m && m[o.1].entry.tier == t;
    }
  }

  lemma TenantIndexErase(m: BlockMap, k: BlockKey, t: Tier, index: map<nat, set<Order>>, index': map<nat, set<Order>>)
    requires k in m && TenantIndexOk(m, t, index)
    requires m[k].entry.tier != t ==> index' == index
    requires m[k].entry.tier == t ==>
               var id := m[k].entry.tenant;
               id in index && var rest := index[id] - {OrderOf(m[k], k)};
               index' == if rest == {} then index - {id} else index[id := rest]
    ensures TenantIndexOk(m - {k}, t, index')
  {
    forall id: nat
      ensures (id in index' <==> id in TenantsAt(m - {k}, t)) &&
              (id in index' ==> index'[id] == TenantIndexOf(m - {k}, t, id))
    {
      TenantIndexWithout(m, k, t, id);
      TenantPresent(m, t, id);
      TenantPresent(m - {k}, t, id);
    }
  }

  lemma ChargeErase(m: BlockMap, k: BlockKey, t: Tier, used: map<nat, nat>, used': map<nat, nat>)
    requires k in m && ChargesOk(m, t, used)
    requires m[k].entry.tier != t ==> used' == used
    requires m[k].entry.tier == t ==>
               forall id: nat :: Charge(used', id) == Charge(used, id) - Weight(TenantBytes(t, id), m[k])
    ensures ChargesOk(m - {k}, t, used')
  {
    forall id: nat ensures Charge(used', id) == Total(TenantBytes(t, id), m - {k}) {
      TotalRemove(TenantBytes(t, id), m, k);
    }
  }

  // ------------------------------------------------ a block enters

  lemma IndexWith(m: BlockMap, k: BlockKey, b: StoredBlock, t: Tier)
    requires k !in m
    ensures IndexOf(m[k := b], t) == IndexOf(m, t) + (if b.entry.tier == t then {OrderOf(b, k)} else {})
  {
    assert m[k := b] - {k} == m;
    IndexWithout(m[k := b], k, t);
    if b.entry.tier == t {
      assert OrderOf(m[k := b][k], k) in IndexOf(m[k := b], t);
    }
  }

  lemma TenantIndexInsert(m: BlockMap, k: BlockKey, b: StoredBlock, t: Tier, index: map<nat, set<Order>>,
                          index': map<nat, set<Order>>)
    requires k !in m && TenantIndexOk(m, t, index)
    requires b.entry.tier != t ==> index' == index
    requires b.entry.tier == t ==>
               var id := b.entry.tenant;
               index' == index[id := (if id in index then index[id] else {}) + {OrderOf(b, k)}]
    ensures TenantIndexOk(m[k := b], t, index')
  {
    var m' := m[k := b];
    assert m' - {k} == m;
    forall id: nat
      ensures (id in index' <==> id in TenantsAt(m', t)) && (id in index' ==> index'[id] == TenantIndexOf(m', t, id))
    {
      TenantIndexWithout(m', k, t, id);
      TenantPresent(m, t, id);
      TenantPresent(m', t, id);
      if b.entry.tier == t && b.entry.tenant == id {
        assert OrderOf(m'[k], k) in TenantIndexOf(m', t, id);
      }
    }
  }

  lemma ChargeInsert(m: BlockMap, k: BlockKey, b: StoredBlock, t: Tier, used: map<nat, nat>, used': map<nat, nat>)
    requires k !in m && ChargesOk(m, t, used)
    requires b.entry.tier != t ==> used' == used
    requires b.entry.tier == t ==> used' == used[b.entry.tenant := Charge(used, b.entry.tenant) + b.entry.size]
    ensures ChargesOk(m[k := b], t, used')
  {
    forall id: nat ensures Charge(used', id) == Total(TenantBytes(t, id), m[k := b]) {
      TotalInsert(TenantBytes(t, id), m, k, b);
    }
  }

  // ------------------------------------------------ byte counters and victim indexes

  /** A stored block's bytes are part of its tier's counter. */
  lemma BytesCover(m: BlockMap, k: BlockKey, used: seq<nat>)
    requires k in m && BytesOk(m, used)
    ensures m[k].entry.size <= used[m[k].entry.tier]
  {
    TotalRemove(TierBytes(m[k].entry.tier), m, k);
  }

  lemma LeaveOk(cfg: Config, m: BlockMap, k: BlockKey, used: seq<nat>, used': seq<nat>,
                indexes: seq<set<Order>>, indexes': seq<set<Order>>)
    requires k in m && BytesOk(m, used) && IndexesOk(cfg, m, indexes)
    requires m[k].entry.size <= used[m[k].entry.tier]
    requires used' == used[m[k].entry.tier := used[m[k].entry.tier] - m[k].entry.size]
    requires indexes' == if Fastest(cfg) == Some(m[k].entry.tier) then indexes
                         else indexes[m[k].entry.tier := indexes[m[k].entry.tier] - {OrderOf(m[k], k)}]
    ensures BytesOk(m - {k}, used') && IndexesOk(cfg, m - {k}, indexes')
  {
    forall t: Tier ensures used'[t] == Total(TierBytes(t), m - {k}) {
      TotalRemove(TierBytes(t), m, k);
    }
    forall t: Tier ensures indexes'[t] == if Fastest(cfg) == Some(t) then {} else IndexOf(m - {k}, t) {
      IndexWithout(m, k, t);
    }
  }

  lemma EnterOk(cfg: Config, m: BlockMap, k: BlockKey, b: StoredBlock, used: seq<nat>, used': seq<nat>,
                indexes: seq<set<Order>>, indexes': seq<set<Order>>)
    requires k !in m && BytesOk(m, used) && IndexesOk(cfg, m, indexes)
    requires used' == used[b.entry.tier := used[b.entry.tier] + b.entry.size]
    requires indexes' == if Fastest(cfg) == Some(b.entry.tier) then indexes
                         else indexes[b.entry.tier := indexes[b.entry.tier] + {OrderOf(b, k)}]
    ensures BytesOk(m[k := b], used') && IndexesOk(cfg, m[k := b], indexes')
  {
    forall t: Tier ensures used'[t] == Total(TierBytes(t), m[k := b]) {
      TotalInsert(TierBytes(t), m, k, b);
    }
    forall t: Tier ensures indexes'[t] == if Fastest(cfg) == Some(t) then {} else IndexOf(m[k := b], t) {
      IndexWith(m, k, b, t);
    }
  }

  /** A block whose statistics change in place keeps its bytes and swaps its index entry. */
  lemma RefreshOk(cfg: Config, m: BlockMap, k: BlockKey, b: StoredBlock, used: seq<nat>, smallUsed: nat,
                  indexes: seq<set<Order>>, indexes': seq<set<Order>>)
    requires k in m && BytesOk(m, used) && SmallOk(cfg, m, smallUsed) && IndexesOk(cfg, m, indexes)
    requires b.entry.tier == m[k].entry.tier && b.entry.size == m[k].entry.size && b.inMain == m[k].inMain
    requires var t := b.entry.tier;
             indexes' == if Fastest(cfg) == Some(t) then indexes
                         else indexes[t := indexes[t] - {OrderOf(m[k], k)} + {OrderOf(b, k)}]
    ensures BytesOk(m[k := b], used) && SmallOk(cfg, m[k := b], smallUsed) && IndexesOk(cfg, m[k := b], indexes')
  {
    forall t: Tier ensures Total(TierBytes(t), m[k := b]) == used[t] {
      TotalInsert(TierBytes(t), m, k, b);
    }
    forall t: Tier ensures indexes'[t] == if Fastest(cfg) == Some(t) then {} else IndexOf(m[k := b], t) {
      IndexWithout(m, k, t);
      IndexWith(m - {k}, k, b, t);
      assert (m - {k})[k := b] == m[k := b];
    }
    if Fastest(cfg).Some? {
      TotalInsert(SmallBytes(Fastest(cfg).value), m, k, b);
    }
  }

  lemma LeaveSmallOk(cfg: Config, m: BlockMap, k: BlockKey, smallUsed: nat)
    requires k in m && SmallOk(cfg, m, smallUsed)
    ensures if Fastest(cfg) == Some(m[k].entry.tier) && !m[k].inMain
            then m[k].entry.size <= smallUsed && SmallOk(cfg, m - {k}, smallUsed - m[k].entry.size)
            else SmallOk(cfg, m - {k}, smallUsed)
  {
    if Fastest(cfg).Some? {
      TotalRemove(SmallBytes(Fastest(cfg).value), m, k);
    }
  }

  lemma EnterSmallOk(cfg: Config, m: BlockMap, k: BlockKey, b: StoredBlock, smallUsed: nat)
    requires k !in m && SmallOk(cfg, m, smallUsed)
    ensures SmallOk(cfg, m[k := b],
                    if Fastest(cfg) == Some(b.entry.tier) && !b.inMain then smallUsed + b.entry.size else smallUsed)
  {
    if Fastest(cfg).Some? {
      TotalInsert(SmallBytes(Fastest(cfg).value), m, k, b);
    }
  }

  // ------------------------------------------------ only S3-FIFO bookkeeping changes

  lemma SameEntriesOk(cfg: Config, m: BlockMap, m': BlockMap, used: seq<nat>, indexes: seq<set<Order>>,
                      tenantUsed: seq<map<nat, nat>>, tenantIndexes: seq<map<nat, set<Order>>>)
    requires SameEntries(m, m')
    requires BytesOk(m, used) && IndexesOk(cfg, m, indexes) && TenantsOk(cfg, m, tenantUsed, tenantIndexes)
    ensures BytesOk(m', used) && IndexesOk(cfg, m', indexes) && TenantsOk(cfg, m', tenantUsed, tenantIndexes)
  {
    forall t: Tier ensures used[t] == Total(TierBytes(t), m') && IndexOf(m', t) == IndexOf(m, t) {
      TotalAgree(TierBytes(t), m, TierBytes(t), m');
      SameIndex(m, m', t);
    }
    if QuotaEnabled(cfg) {
      forall t: Tier ensures ChargesOk(m', t, tenantUsed[t]) && TenantIndexOk(m', t, tenantIndexes[t]) {
        forall id: nat ensures Total(TenantBytes(t, id), m') == Total(TenantBytes(t, id), m) {
          TotalAgree(TenantBytes(t, id), m, TenantBytes(t, id), m');
        }
        SameTenants(m, m', t);
      }
    }
  }

  /** Relabelling one block's S3-FIFO state moves its bytes in or out of the small queue's counter. */
  lemma RelabelSmallOk(cfg: Config, m: BlockMap, k: BlockKey, b: StoredBlock, smallUsed: nat)
    requires k in m && SmallOk(cfg, m, smallUsed) && b.entry == m[k].entry
    requires Fastest(cfg) == Some(b.entry.tier)
    ensures if b.inMain && !m[k].inMain
            then b.entry.size <= smallUsed && SmallOk(cfg, m[k := b], smallUsed - b.entry.size)
            else b.inMain == m[k].inMain ==> SmallOk(cfg, m[k := b], smallUsed)
  {
    TotalInsert(SmallBytes(b.entry.tier), m, k, b);
    TotalRemove(SmallBytes(b.entry.tier), m, k);
  }

  lemma SameIndex(m: BlockMap, m': BlockMap, t: Tier)
    requires SameEntries(m, m')
    ensures IndexOf(m', t) == IndexOf(m, t)
  {
    assert forall k :: k in m ==> OrderOf(m[k], k) == OrderOf(m'[k], k);
  }

  lemma SameTenants(m: BlockMap, m': BlockMap, t: Tier)
    requires SameEntries(m, m')
    ensures TenantsAt(m', t) == TenantsAt(m, t)
    ensures forall id: nat :: TenantIndexOf(m', t, id) == TenantIndexOf(m, t, id)
  {
    forall id: nat
      ensures TenantIndexOf(m', t, id) == TenantIndexOf(m, t, id) && (id in TenantsAt(m, t) <==> id in TenantsAt(m', t))
    {
      assert forall k :: k in m ==> OrderOf(m[k], k) == OrderOf(m'[k], k);
      TenantPresent(m, t, id);
      TenantPresent(m', t, id);
    }
  }

  // ------------------------------------------------ tenant shares

  lemma {:induction false} WeightSumRemove(weights: map<nat, real>, ids: set<nat>, id: nat)
    requires ids <= weights.Keys && id in ids
    ensures WeightSum(weights, ids) == weights[id] + WeightSum(weights, ids - {id})
    decreases |ids|
  {
    var first :| first in ids && WeightSum(weights, ids) == weights[first] + WeightSum(weights, ids - {first});
    if first != id {
      WeightSumRemove(weights, ids - {first}, id);
      WeightSumRemove(weights, ids - {id}, first);
      assert ids - {first} - {id} == ids - {id} - {first};
    }
  }

  /** `worst` exceeds its share by `over`, the most among the tenants in `done`, if any of them is over. */
  ghost predicate WorstSoFar(s: Store, t: Tier, done: set<nat>, worst: Option<nat>, over: real) {
    (worst.None? ==> over == 0.0) &&
    (worst.Some? ==> worst.value in done && over == Overage(s, worst.value, t) > 0.0) &&
    forall j :: j in done ==>
      Overage(s, j, t) < over || (Overage(s, j, t) == over && (worst.Some? ==> worst.value <= j))
  }

  lemma WorstSoFarStep(s: Store, t: Tier, done: set<nat>, worst: Option<nat>, over: real, id: nat)
    requires WorstSoFar(s, t, done, worst, over) && forall i :: i in done ==> i < id
    ensures if Overage(s, id, t) > over then WorstSoFar(s, t, done + {id}, Some(id), Overage(s, id, t))
            else WorstSoFar(s, t, done + {id}, worst, over)
  {
  }

  lemma WorstFound(s: Store, t: Tier, worst: Option<nat>, over: real)
    requires WorstSoFar(s, t, TenantsAt(s.blocks, t), worst, over)
    ensures WorstTenant(s, t) == worst
  {
    if worst.Some? {
      assert IsWorst(s, t, worst.value);
      WorstUnique(s, t, worst.value);
    }
  }

  lemma WorstUnique(s: Store, t: Tier, id: nat)
    requires IsWorst(s, t, id)
    ensures WorstTenant(s, t) == Some(id)
  {
    var other := WorstTenant(s, t).value;
    assert IsWorst(s, t, other);
  }
}
