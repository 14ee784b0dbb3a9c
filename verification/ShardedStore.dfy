/** The sharded store: every key belongs to one of several independent managers, each with
    an equal part of the capacity. */
module ShardedStore {
  import opened Blocks
  import opened Tiers
  import opened StoreModel
  import opened StoreInvariant
  import opened StoreCapacity
  import opened StoreContents
  import opened TieredStorage
  import opened Numbers

  /** The hash is any fixed function of the key. */
  type Hash = BlockKey -> nat

  function ShardOf(hash: Hash, k: BlockKey, n: nat): (i: nat)
    requires n > 0
    ensures i < n
  {
    hash(k) % n
  }

  /** Two keys share a shard exactly when their hashes agree modulo the number of shards. */
  lemma ShardsAgree(hash: Hash, j: BlockKey, k: BlockKey, n: nat)
    requires n > 0
    ensures ShardOf(hash, j, n) == ShardOf(hash, k, n) <==> (hash(j) - hash(k)) % n == 0
  {
    var a, b := hash(j), hash(k);
    if a % n == b % n {
      assert a - b == (a / n - b / n) * n;
      OneQuotient(a - b, n, a / n - b / n, 0);
    } else if (a - b) % n == 0 {
      var q := (a - b) / n;
      assert a == b + q * n;
      assert a == (b / n + q) * n + b % n;
      OneQuotient(a, n, b / n + q, b % n);
    }
  }

  function Divide(slot: Option<nat>, n: nat): Option<nat>
    requires n > 0
  {
    match slot
    case Some(bytes) => Some(bytes / n)
    case None => None
  }

  function PerShard(cfg: Config, n: nat): Config
    requires n > 0
  {
    cfg.(hbm := Divide(cfg.hbm, n), dram := Divide(cfg.dram, n), nvme := Divide(cfg.nvme, n))
  }

  /** Every shard gets its whole part of each configured capacity, and the other settings. */
  lemma PerShardCapacity(cfg: Config, n: nat, t: Tier)
    requires n > 0
    ensures Configured(PerShard(cfg, n), t) <==> Configured(cfg, t)
    ensures var part := CapacityOf(PerShard(cfg, n), t);
            n * part <= CapacityOf(cfg, t) < n * (part + 1)
    ensures PerShard(cfg, n).highWaterRatio == cfg.highWaterRatio && PerShard(cfg, n).tenantWeights == cfg.tenantWeights
  {
  }

  // ------------------------------------------------ the model

  ghost function EmptyShards(cfg: Config, n: nat): seq<Store>
    requires n > 0
  {
    seq(n, _ => Empty(PerShard(cfg, n)))
  }

  /** One key at a time, each in its own shard, up to the first failure. */
  ghost function PrefetchKeys(hash: Hash, shards: seq<Store>, keys: seq<BlockKey>): (r: seq<Store>)
    requires shards != []
    ensures |r| == |shards|
    decreases |keys|
  {
    if keys == [] then shards
    else
      var i := ShardOf(hash, keys[0], |shards|);
      var o := Prefetch(shards[i], [keys[0]]);
      if o.status != Ok then shards[i := o.store]
      else PrefetchKeys(hash, shards[i := o.store], keys[1..])
  }

  /** Every shard in turn, up to the first failure. */
  ghost function EnforceFrom(shards: seq<Store>, t: Tier, i: nat): (r: seq<Store>)
    requires i <= |shards|
    ensures |r| == |shards|
    decreases |shards| - i
  {
    if i == |shards| then shards
    else
      var o := Enforce(shards[i], t);
      if o.status != Ok then shards[i := o.store] else EnforceFrom(shards[i := o.store], t, i + 1)
  }

  ghost function ApplySharded(hash: Hash, shards: seq<Store>, op: Op): (r: seq<Store>)
    requires shards != []
    ensures |r| == |shards|
  {
    match op
    case WriteOp(block, target, tenant) =>
      var i := ShardOf(hash, block.key, |shards|);
      shards[i := Write(shards[i], block, target, tenant).store]
    case ReadOp(k) =>
      var i := ShardOf(hash, k, |shards|);
      shards[i := Read(shards[i], k).store]
    case PrefetchOp(keys) => PrefetchKeys(hash, shards, keys)
    case EnforceOp(t) => EnforceFrom(shards, t, 0)
  }

  ghost function RunSharded(hash: Hash, shards: seq<Store>, ops: seq<Op>): (r: seq<Store>)
    requires shards != []
    ensures |r| == |shards|
    decreases |ops|
  {
    if ops == [] then shards else ApplySharded(hash, RunSharded(hash, shards, ops[..|ops| - 1]), ops[|ops| - 1])
  }

  // ------------------------------------------------ independence

  /** What a shard sees of a list of keys. */
  ghost function ProjectKeys(hash: Hash, n: nat, i: nat, keys: seq<BlockKey>): seq<Op>
    requires n > 0
    decreases |keys|
  {
    if keys == [] then []
    else (if ShardOf(hash, keys[0], n) == i then [PrefetchOp([keys[0]])] else []) + ProjectKeys(hash, n, i, keys[1..])
  }

  ghost function ProjectOp(hash: Hash, n: nat, i: nat, op: Op): seq<Op>
    requires n > 0
  {
    match op
    case WriteOp(block, _, _) => if ShardOf(hash, block.key, n) == i then [op] else []
    case ReadOp(k) => if ShardOf(hash, k, n) == i then [op] else []
    case PrefetchOp(keys) => ProjectKeys(hash, n, i, keys)
    case EnforceOp(_) => [op]
  }

  ghost function Project(hash: Hash, n: nat, i: nat, ops: seq<Op>): seq<Op>
    requires n > 0
    decreases |ops|
  {
    if ops == [] then []
    else Project(hash, n, i, ops[..|ops| - 1]) + ProjectOp(hash, n, i, ops[|ops| - 1])
  }

  ghost predicate AllInv(shards: seq<Store>, cfg: Config) {
    forall i :: 0 <= i < |shards| ==> Inv(shards[i]) && shards[i].cfg == cfg
  }

  /** A prefetch that fails has changed nothing, and none after it would. */
  lemma PrefetchOneKey(s: Store, k: BlockKey)
    requires Inv(s)
    ensures Prefetch(s, [k]).status == Ok <==> Fastest(s.cfg).Some?
    ensures Fastest(s.cfg).None? ==> Prefetch(s, [k]).store == s
    ensures Inv(Prefetch(s, [k]).store) && Prefetch(s, [k]).store.cfg == s.cfg
  {
    ApplyInv(s, PrefetchOp([k]));
    if Fastest(s.cfg).Some? {
      PrefetchAllInv(s, [k], Fastest(s.cfg).value);
    }
  }

  lemma {:induction false} ProjectKeysIdle(hash: Hash, n: nat, i: nat, keys: seq<BlockKey>, s: Store)
    requires n > 0 && Inv(s) && Fastest(s.cfg).None?
    ensures Run(s, ProjectKeys(hash, n, i, keys)) == s
    decreases |keys|
  {
    if keys == [] {
      assert Run(s, []) == s;
    } else {
      var head := if ShardOf(hash, keys[0], n) == i then [PrefetchOp([keys[0]])] else [];
      ProjectKeysIdle(hash, n, i, keys[1..], s);
      PrefetchOneKey(s, keys[0]);
      RunOne(s, PrefetchOp([keys[0]]));
      RunPlus(s, head, ProjectKeys(hash, n, i, keys[1..]));
      assert Run(s, []) == s;
    }
  }

  lemma {:induction false} PrefetchProjects(hash: Hash, shards: seq<Store>, keys: seq<BlockKey>, i: nat, cfg: Config)
    requires i < |shards| && AllInv(shards, cfg)
    ensures PrefetchKeys(hash, shards, keys)[i] == Run(shards[i], ProjectKeys(hash, |shards|, i, keys))
    ensures AllInv(PrefetchKeys(hash, shards, keys), cfg)
    decreases |keys|
  {
    var n := |shards|;
    assert Run(shards[i], []) == shards[i];
    if keys != [] {
      var j := ShardOf(hash, keys[0], n);
      PrefetchOneKey(shards[j], keys[0]);
      var next := shards[j := Prefetch(shards[j], [keys[0]]).store];
      if Fastest(cfg).None? {
        assert next == shards;
        ProjectKeysIdle(hash, n, i, keys, shards[i]);
      } else {
        PrefetchProjects(hash, next, keys[1..], i, cfg);
        var head := if j == i then [PrefetchOp([keys[0]])] else [];
        RunOne(shards[i], PrefetchOp([keys[0]]));
        RunPlus(shards[i], head, ProjectKeys(hash, n, i, keys[1..]));
      }
    }
  }

  lemma {:induction false} EnforceProjects(shards: seq<Store>, t: Tier, i: nat, j: nat, cfg: Config)
    requires i <= |shards| && j < |shards| && AllInv(shards, cfg)
    ensures EnforceFrom(shards, t, i)[j] == if j < i then shards[j] else Enforce(shards[j], t).store
    ensures AllInv(EnforceFrom(shards, t, i), cfg)
    decreases |shards| - i
  {
    if i < |shards| {
      EnforceInv(shards[i], t);
      EnforceProjects(shards[i := Enforce(shards[i], t).store], t, i + 1, j, cfg);
    }
  }

  lemma ApplyProjects(hash: Hash, shards: seq<Store>, op: Op, i: nat, cfg: Config)
    requires i < |shards| && AllInv(shards, cfg)
    ensures ApplySharded(hash, shards, op)[i] == Run(shards[i], ProjectOp(hash, |shards|, i, op))
    ensures AllInv(ApplySharded(hash, shards, op), cfg)
  {
    assert Run(shards[i], []) == shards[i];
    RunOne(shards[i], op);
    match op
    case WriteOp(block, _, _) => ApplyInv(shards[ShardOf(hash, block.key, |shards|)], op);
    case ReadOp(k) => ApplyInv(shards[ShardOf(hash, k, |shards|)], op);
    case PrefetchOp(keys) => PrefetchProjects(hash, shards, keys, i, cfg);
    case EnforceOp(t) => EnforceProjects(shards, t, 0, i, cfg);
  }

  /** Independence: over every run each shard is exactly a manager of its own that ran the
      operations on its keys. */
  lemma {:induction false} RunProjects(hash: Hash, cfg: Config, n: nat, ops: seq<Op>, i: nat)
    requires i < n
    ensures RunSharded(hash, EmptyShards(cfg, n), ops)[i] == Run(Empty(PerShard(cfg, n)), Project(hash, n, i, ops))
    ensures AllInv(RunSharded(hash, EmptyShards(cfg, n), ops), PerShard(cfg, n))
    decreases |ops|
  {
    if ops == [] {
      assert Run(Empty(PerShard(cfg, n)), []) == Empty(PerShard(cfg, n));
      RunInv(PerShard(cfg, n), []);
    } else {
      var front, last := ops[..|ops| - 1], ops[|ops| - 1];
      RunProjects(hash, cfg, n, front, i);
      ApplyProjects(hash, RunSharded(hash, EmptyShards(cfg, n), front), last, i, PerShard(cfg, n));
      RunPlus(Empty(PerShard(cfg, n)), Project(hash, n, i, front), ProjectOp(hash, n, i, last));
    }
  }

  // ------------------------------------------------ what follows for the whole store

  ghost function TotalUsed(shards: seq<Store>, t: Tier): nat {
    if shards == [] then 0 else TotalUsed(shards[..|shards| - 1], t) + Used(shards[|shards| - 1], t)
  }

  lemma {:induction false} TotalUsedBound(shards: seq<Store>, t: Tier, each: nat)
    requires forall i :: 0 <= i < |shards| ==> Used(shards[i], t) <= each
    ensures TotalUsed(shards, t) <= |shards| * each
  {
    if shards != [] {
      TotalUsedBound(shards[..|shards| - 1], t, each);
      assert |shards| * each == (|shards| - 1) * each + each;
    }
  }

  lemma DivideBound(bytes: nat, n: nat)
    requires n > 0
    ensures n * (bytes / n) <= bytes
  {
    assert bytes == n * (bytes / n) + bytes % n;
  }

  /** In every reachable state the whole store is within the global capacity of every tier. */
  lemma ShardedCapacity(hash: Hash, cfg: Config, n: nat, ops: seq<Op>, t: Tier)
    requires n > 0
    ensures TotalUsed(RunSharded(hash, EmptyShards(cfg, n), ops), t) <= CapacityOf(cfg, t)
  {
    var shards := RunSharded(hash, EmptyShards(cfg, n), ops);
    forall i | 0 <= i < n ensures Used(shards[i], t) <= CapacityOf(PerShard(cfg, n), t) {
      RunProjects(hash, cfg, n, ops, i);
      RunBounded(PerShard(cfg, n), Project(hash, n, i, ops));
    }
    TotalUsedBound(shards, t, CapacityOf(PerShard(cfg, n), t));
    DivideBound(CapacityOf(cfg, t), n);
  }

  lemma {:induction false} WrittenKeys(hash: Hash, n: nat, i: nat, keys: seq<BlockKey>, cfg: Config, before: seq<Op>)
    requires n > 0
    ensures Written(cfg, before + ProjectKeys(hash, n, i, keys)) == Written(cfg, before)
    decreases |keys|
  {
    if keys == [] {
      assert before + [] == before;
    } else {
      var head := if ShardOf(hash, keys[0], n) == i then [PrefetchOp([keys[0]])] else [];
      var rest := ProjectKeys(hash, n, i, keys[1..]);
      assert before + (head + rest) == (before + head) + rest;
      WrittenKeys(hash, n, i, keys[1..], cfg, before + head);
      if head == [] {
        assert before + head == before;
      } else {
        assert (before + head)[..|before|] == before;
      }
    }
  }

  lemma WrittenPush(cfg: Config, before: seq<Op>, op: Op)
    ensures Written(cfg, before + [op]) ==
            if op.WriteOp? && Accepts(cfg, op.block, op.target) then Written(cfg, before)[op.block.key := op.block]
            else Written(cfg, before)
  {
    assert (before + [op])[..|before|] == before;
  }

  /** For a key of shard `i`, what was last written to the whole store is what was last written
      to the shard; keys of other shards were never written there. */
  lemma {:induction false} WrittenProjects(hash: Hash, cfg: Config, n: nat, ops: seq<Op>, i: nat, k: BlockKey)
    requires n > 0
    ensures var here, everywhere := Written(cfg, Project(hash, n, i, ops)), Written(cfg, ops);
            if ShardOf(hash, k, n) == i
            then (k in here <==> k in everywhere) && (k in here ==> here[k] == everywhere[k])
            else k !in here
    decreases |ops|
  {
    if ops != [] {
      var front, last := ops[..|ops| - 1], ops[|ops| - 1];
      WrittenProjects(hash, cfg, n, front, i, k);
      var before := Project(hash, n, i, front);
      WrittenPush(cfg, before, last);
      if last.PrefetchOp? {
        WrittenKeys(hash, n, i, last.keys, cfg, before);
      } else if ProjectOp(hash, n, i, last) == [] {
        assert before + [] == before;
      }
    }
  }

  /** Over every run of the sharded store a stored block is in the shard of its key, and it is
      the block last accepted for that key. */
  lemma ShardedFaithful(hash: Hash, cfg: Config, n: nat, ops: seq<Op>, i: nat, k: BlockKey)
    requires i < n && k in RunSharded(hash, EmptyShards(cfg, n), ops)[i].blocks
    ensures ShardOf(hash, k, n) == i
    ensures var written := Written(PerShard(cfg, n), ops);
            k in written && RunSharded(hash, EmptyShards(cfg, n), ops)[i].blocks[k].block == written[k]
  {
    RunProjects(hash, cfg, n, ops, i);
    RunFaithful(PerShard(cfg, n), Project(hash, n, i, ops));
    WrittenProjects(hash, PerShard(cfg, n), n, ops, i, k);
  }

  // ------------------------------------------------ the store object

  lemma OneMore(n: nat, each: nat)
    ensures (n + 1) * each == n * each + each
  {
  }

  class ShardedTieredStore {
    const hash: Hash
    const shards: seq<TieredStorageManager>

    ghost predicate Valid()
      reads this, shards
    {
      shards != [] &&
      (forall i, j :: 0 <= i < j < |shards| ==> shards[i] != shards[j]) &&
      forall i :: 0 <= i < |shards| ==> shards[i].Valid() && shards[i].cfg == shards[0].cfg
    }

    ghost function Views(): seq<Store>
      reads shards
    {
      seq(|shards|, i requires 0 <= i < |shards| reads shards => shards[i].View())
    }

    constructor (config: Config, count: nat, hashOf: Hash)
      ensures Valid() && fresh(shards) && |shards| == (if count == 0 then 1 else count) && hash == hashOf
      ensures Views() == EmptyShards(config, |shards|)
    {
      var n := if count == 0 then 1 else count;
      var made: seq<TieredStorageManager> := [];
      for i := 0 to n
        invariant |made| == i && fresh(made)
        invariant forall a, b :: 0 <= a < b < i ==> made[a] != made[b]
        invariant forall a :: 0 <= a < i ==> made[a].Valid() && made[a].View() == Empty(PerShard(config, n))
      {
        var shard := new TieredStorageManager(PerShard(config, n));
        made := made + [shard];
      }
      hash, shards := hashOf, made;
    }

    method Write(block: KVCacheBlock, target: Tier) returns (status: Status)
      requires Valid()
      modifies shards
      ensures Valid() && Views() == ApplySharded(hash, old(Views()), WriteOp(block, target, 0))
      ensures status == StoreModel.Write(old(Views())[ShardOf(hash, block.key, |shards|)], block, target, 0).status
    {
      var i := ShardOf(hash, block.key, |shards|);
      status := shards[i].WriteBlock(block, target, 0);
      assert Views() == old(Views())[i := shards[i].View()];
    }

    method Read(k: BlockKey) returns (result: ReadResult)
      requires Valid()
      modifies shards
      ensures Valid() && Views() == ApplySharded(hash, old(Views()), ReadOp(k))
      ensures result == StoreModel.Read(old(Views())[ShardOf(hash, k, |shards|)], k).result
    {
      var i := ShardOf(hash, k, |shards|);
      result := shards[i].ReadBlock(k);
      assert Views() == old(Views())[i := shards[i].View()];
    }

    /** Prefetch one key in its shard. */
    method PrefetchKey(k: BlockKey) returns (status: Status)
      requires Valid()
      modifies shards
      ensures var i := ShardOf(hash, k, |shards|);
              Valid() && Views() == old(Views())[i := StoreModel.Prefetch(old(Views())[i], [k]).store] &&
              status == StoreModel.Prefetch(old(Views())[i], [k]).status
      ensures status == if Fastest(shards[0].cfg).Some? then Ok else InvalidArgument
    {
      var i := ShardOf(hash, k, |shards|);
      PrefetchOneKey(shards[i].View(), k);
      status := shards[i].PrefetchKeys([k]);
      assert Views() == old(Views())[i := shards[i].View()];
    }

    method Prefetch(keys: seq<BlockKey>) returns (status: Status)
      requires Valid()
      modifies shards
      ensures Valid() && Views() == ApplySharded(hash, old(Views()), PrefetchOp(keys))
      ensures status == if keys == [] || Fastest(shards[0].cfg).Some? then Ok else InvalidArgument
    {
      for j := 0 to |keys|
        invariant j > 0 ==> Fastest(shards[0].cfg).Some?
        invariant Valid() && PrefetchKeys(hash, Views(), keys[j..]) == PrefetchKeys(hash, old(Views()), keys)
      {
        assert keys[j..][0] == keys[j] && keys[j..][1..] == keys[j + 1..];
        status := PrefetchKey(keys[j]);
        if status != Ok {
          return;
        }
      }
      return Ok;
    }

    /** Between operations there is never anything to enforce, in any shard. */
    method EnforceCapacity(t: Tier) returns (status: Status)
      requires Valid()
      modifies shards
      ensures Valid() && Views() == old(Views()) && status == Ok
    {
      for i := 0 to |shards|
        invariant Valid() && Views() == old(Views())
      {
        ghost var before := Views();
        status := shards[i].EnforceCapacity(t);
        assert Views() == before[i := shards[i].View()] == before;
      }
      return Ok;
    }

    method Occupancy(t: Tier) returns (total: TierOccupancy)
      requires Valid()
      ensures total.usedBytes == TotalUsed(Views(), t) && total.usedBytes <= total.capacityBytes
      ensures total.capacityBytes == |shards| * CapacityOf(shards[0].cfg, t)
    {
      total := TierOccupancy(0, 0);
      for i := 0 to |shards|
        invariant total.usedBytes == TotalUsed(Views()[..i], t) && total.usedBytes <= total.capacityBytes
        invariant total.capacityBytes == i * CapacityOf(shards[0].cfg, t)
      {
        OneMore(i, CapacityOf(shards[0].cfg, t));
        var one := shards[i].Occupancy(t);
        assert Views()[..i + 1][..i] == Views()[..i];
        total := TierOccupancy(total.usedBytes + one.usedBytes, total.capacityBytes + one.capacityBytes);
      }
      assert Views()[..|shards|] == Views();
    }
  }
}
