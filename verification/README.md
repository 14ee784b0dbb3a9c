# Verified model of the tiered KV-cache store

This project models the state machines of a tiered KV-cache store and proves, for every input and every
run, what they keep and what they promise. Check it with `dafny verify dfyconfig.toml`.

| component | source | modules |
|---|---|---|
| tiered storage manager | `src/storage/tiered_storage_manager.cpp` | `Tiers`, `Totals`, `VictimOrder`, `StoreModel`, `StoreInvariant`, `StoreCapacity`, `StoreContents`, `StoreRetention`, `StoreLimits`, `StoreQuota`, `QuotaLimits`, `IsolationLimits`, `StoreGuarantees`, `VictimSearch`, `StoreUse`, `Accounting`, `TieredStorage` |
| sharded store | `src/storage/sharded_tiered_store.h` | `ShardedStore` |
| prefix prefetcher | `src/storage/prefix_prefetcher.cpp` | `PrefixPrefetcher` |
| S3-FIFO offloading policy | `python/vllm_adapter/offloading_spec.py` | `OffloadPolicy`, `OffloadOrder` |
| cache policies and two-tier simulator | `python/bench/policies.py`, `python/bench/tiered.py` | `LruPolicy`, `S3FifoPolicy`, `SievePolicy`, `TieredSimulator`, `SimulatorUse`, `SimulatorLimits` |
| weighted fair share | `src/scheduler/scheduler.cpp` | `FairShare` |
| wire codec and transfer pipeline | `src/datapath/data_path.cpp` | `WireCodec`, `TransferPipeline` |

## How the model is built

**Two levels.** `StoreModel.Store` holds only what is authoritative: the block map, the logical clock, the two
S3-FIFO queues and the ghost memory. Its operations (`Pick`, `Enforce`, `Place`, `Write`, `Read`, `Prefetch`)
are total functions that recompute every byte count, index and account from the block map. The class
`TieredStorageManager` has all the redundant fields of the original (byte counters, victim indexes, per-tenant
charges and indexes, the small queue's byte count) and updates them in place. Its `Valid()` says that each of
them equals its recomputation and that the store's invariant and capacity bound hold; every public method
ensures `Valid()` and that the new state and status are those of the function. The theorems about whole runs are
proved of the functions, so they hold of the class. The policies, the simulator, the prefetcher, the codec
and the offloading policy follow the same pattern.

**What is read as what.** Integers are unbounded; the codec's 64-bit wrap-around is written out. Ratios, weights
and shares are exact reals, not negative, truncated with `Floor`. Each public call is one atomic step, as it is
under its lock; only the transfer pipeline is interleaved. The hash of a key and the transfer backend are
arbitrary fixed functions. An eviction callback is a list of evicted keys that the caller passes on. Some private
steps of the original are regrouped into helper methods (`Remove`, `Install`, `Replace`, `Refresh`, `Tick`); the
order of statements inside one locked call differs where the state at its end does not.

**Where the code differs from its own description.**

- The offloading policy's documentation says that a key remembered by the ghost queue is admitted to the main
  queue. The lookup it relies on yields nothing whether or not the key is there, so every insertion goes to the
  small queue (`OffloadPolicy.S3FIFOCachePolicy.Insert`).
- An accepted write can leave no trace, and a read of a stored block can fail and lose it. `StoreGuarantees` states
  exactly which configurations, with or without quotas, exclude this for each block size and tier.
- A read can lose another block when sizes differ, although every block fits into every tier (`MixedMayLose`).
- With quotas, a tenant within its share of the fastest tier can lose a block to other tenants. `IsolatedExactly`
  states exactly which configurations exclude this; the default high-water ratio of 0.9 is not enough by itself.
- Prefetching in the two-tier simulator can lose a block for every S3-FIFO slow tier and for no other
  (`PrefetchesKeepExactly`); `BringFacts` states exactly when a promotion loses one and `Prefetch` when a whole
  prefetch does.
- The ghost memory of the storage manager can forget a victim at once: `GhostMayForget` gives the run and
  `GhostRemembers` states exactly when it happens.
- The decoder can be driven beyond its input by a length sum that wraps around: `DecodeMayEscape` gives the string
  and `DecodeDefined` states exactly when it happens.

## Model

| member | source | states |
|---|---|---|
| `Tiers.ThresholdExact` | src/storage/tiered_storage_manager.cpp:81-88 | the eviction threshold is the largest whole number of bytes within both the capacity and the high-water mark |
| `Tiers.NextSlower` | src/storage/tiered_storage_manager.cpp:90-103 | the nearest configured slower tier: nothing configured lies between, and none exists if there is none |
| `Tiers.ResolvePrefers` | src/storage/tiered_storage_manager.cpp:50-79 | a write goes to the first configured tier among the target, the faster tiers from the nearest on, and the slower tiers from the nearest on |
| `Tiers.Fastest` | src/storage/tiered_storage_manager.cpp:33-36 | no configured tier is faster |
| `StoreModel.S3PickFrame` | src/storage/tiered_storage_manager.cpp:134-179 | a victim search moves no block, touches only S3-FIFO marks of the fastest tier, and its victim is stored there |
| `StoreModel.PickFrame` | src/storage/tiered_storage_manager.cpp:286-299 | the same for all three victim policies |
| `StoreModel.Enforce` | src/storage/tiered_storage_manager.cpp:283-329 | the cascade terminates and leaves every block of every faster tier exactly as it was |
| `StoreModel.DemoteShrinks` | src/storage/tiered_storage_manager.cpp:300-326 | each enforcement iteration takes exactly one block, the victim, out of its own tier and changes no faster tier |
| `StoreModel.EnforceStep` | src/storage/tiered_storage_manager.cpp:283-329 | one loop iteration: evict, settle the slower tier, go on with one block fewer |
| `StoreInvariant.S3PickInv` | src/storage/tiered_storage_manager.cpp:134-179 | the search keeps the invariant, up to the victim it has already unqueued |
| `StoreInvariant.S3PickGivesUp` | src/storage/tiered_storage_manager.cpp:134-179 | the search gives up only with both queues empty |
| `StoreInvariant.S3PickFinds` | src/storage/tiered_storage_manager.cpp:134-179 | if the fastest tier holds any block, the search finds one in spite of stale queue entries |
| `StoreInvariant.S3PickAges` | src/storage/tiered_storage_manager.cpp:134-179 | a search only spends uses and only moves blocks from the small to the main queue; its victim has no use left; a used block is never evicted from the small queue |
| `VictimSearch.S3PickQueue` | src/storage/tiered_storage_manager.cpp:134-179 | a victim comes from the small queue only if its blocks hold more than a tenth of the capacity or the main queue is empty, and from the main queue only if they do not or the small queue is empty |
| `VictimSearch.S3PickSmallFirst` | src/storage/tiered_storage_manager.cpp:145-160 | the small queue is served from the front: the first unused block is the victim, every used block before it is in the main queue afterwards, and no other block of the queue changes |
| `VictimSearch.SecondChances` | src/storage/tiered_storage_manager.cpp:161-177 | of the main queue the first of the least used blocks is the victim; every round costs each block exactly one use, and the queue has turned to just behind the victim |
| `VictimSearch.LruPickOldest` | src/storage/tiered_storage_manager.cpp:181-190 | in slower tiers the victim is the block whose last access is the oldest; there is none only in an empty tier |
| `StoreInvariant.PickFinds` | src/storage/tiered_storage_manager.cpp:283-299 | a tier over its threshold always has a victim: the internal error of enforcement is unreachable |
| `StoreInvariant.GhostInsertInv` | src/storage/tiered_storage_manager.cpp:264-272 | remembering a victim keeps the ghost set within its FIFO and the FIFO within 8192 |
| `StoreInvariant.GhostRemembers` | src/storage/tiered_storage_manager.cpp:264-281 | a victim is remembered if and only if it already was, there is space, or the entry about to be dropped is not a residue of the same key |
| `StoreInvariant.EnforceInv` | src/storage/tiered_storage_manager.cpp:283-329 | enforcement keeps the invariant and never fails |
| `StoreInvariant.Step` | src/storage/tiered_storage_manager.cpp:283-329 | from a valid state each iteration removes exactly the victim and recurses only into a strictly slower tier |
| `StoreInvariant.PlaceInv` | src/storage/tiered_storage_manager.cpp:331-372 | placing keeps the invariant and fails exactly when the block exceeds the threshold |
| `StoreInvariant.ReadInv` | src/storage/tiered_storage_manager.cpp:384-438 | reading keeps the invariant, whatever its result |
| `StoreInvariant.ApplyInv` | src/storage/tiered_storage_manager.cpp:331-476 | every public operation keeps the invariant |
| `StoreInvariant.RunInv` | src/storage/tiered_storage_manager.cpp:105-437 | in every reachable state timestamps are distinct and at most the clock, each fastest-tier block waits in the queue its mark names, ghosts are a bounded subset of their FIFO, and every entry matches its block |
| `StoreCapacity.EvictUsed` | src/storage/tiered_storage_manager.cpp:300-323 | an eviction moves exactly the victim's bytes from its tier to the landing tier, or drops them |
| `StoreCapacity.EnforceBounds` | src/storage/tiered_storage_manager.cpp:283-329 | enforcing a tier brings it, and leaves every slower tier, within its threshold |
| `StoreCapacity.ApplyBounded` | src/storage/tiered_storage_manager.cpp:331-476 | every operation, failed ones included, leaves all tiers within their thresholds |
| `StoreCapacity.RunBounded` | src/storage/tiered_storage_manager.cpp:449-452 | in every reachable state every tier is within threshold and capacity, so a public enforcement call changes nothing |
| `StoreContents.EnforceFewer` | src/storage/tiered_storage_manager.cpp:300-323 | eviction only demotes or drops: payload, owner, size and access count of what remains are unchanged |
| `StoreContents.WriteStatus` | src/storage/tiered_storage_manager.cpp:374-382 | a write succeeds if and only if some tier resolves the target and its threshold admits the block; a refused write changes nothing |
| `StoreContents.ReadCounts` | src/storage/tiered_storage_manager.cpp:384-407 | a hit counts exactly one access and keeps the owner, through promotion and any cascade |
| `StoreUse.ReadInPlace` | src/storage/tiered_storage_manager.cpp:384-407 | a read without promotion counts one access and, in the fastest tier, one use up to three; the block becomes the most recent of the store and nothing else changes |
| `StoreUse.ReadPromoted` | src/storage/tiered_storage_manager.cpp:408-437 | with room a read from a slower tier leaves the block in the main queue of the fastest tier, unused and the most recent of the store, and nothing else changes |
| `StoreUse.ReadSpares` | src/storage/tiered_storage_manager.cpp:145-160 | a block of the fastest tier that was read is not taken from the small queue by the next search |
| `StoreUse.ReadSparesSlower` | src/storage/tiered_storage_manager.cpp:181-190 | a block of a slower tier that was read is not the next victim of its tier, as long as it fits |
| `StoreUse.PrefetchSkips` | src/storage/tiered_storage_manager.cpp:461-467 | a key that is not stored, already in the fastest tier or too large for it is left alone |
| `StoreUse.PrefetchBrings` | src/storage/tiered_storage_manager.cpp:468-473 | with room any other key ends in the fastest tier with its owner and payload, counted once more and the most recent of the store; nothing else changes |
| `StoreUse.PrefetchRests` | src/storage/tiered_storage_manager.cpp:468-473 | without quotas and with evictions it ends in the fastest tier or in its haven |
| `StoreUse.PrefetchGathers` | src/storage/tiered_storage_manager.cpp:454-476 | with room a prefetch brings in exactly the named keys stored below the fastest tier and changes no other block |
| `StoreUse.PrefetchSingle` | src/storage/tiered_storage_manager.cpp:454-476 | a prefetch of one key is skipped, brings the key in or lets it rest as stated above; without any tier it is refused |
| `StoreUse.RunCounted` | src/storage/tiered_storage_manager.cpp:340-349 | in every reachable state every stored block has been accessed, so a prefetch counts exactly one access more |
| `StoreContents.RunFaithful` | src/storage/tiered_storage_manager.cpp:300-473 | the store refines a lossy map: over every run a stored block is the last accepted one for its key and a read that hits returns it |
| `StoreRetention.LruSparesLatest` | src/storage/tiered_storage_manager.cpp:181-190 | least-recently-used eviction never takes the latest block of a tier it fits in |
| `StoreRetention.EnforceKeepsLatest` | src/storage/tiered_storage_manager.cpp:283-329 | without quotas, enforcing a tier below the fastest keeps its most recent block in place |
| `StoreRetention.EnforceLatest` | src/storage/tiered_storage_manager.cpp:283-329 | without quotas, where the latest block of a tier comes to rest is exactly determined by the sizes of that tier and the slower ones |
| `StoreRetention.VictimRests` | src/storage/tiered_storage_manager.cpp:300-323 | without quotas, an evicted block ends exactly in its haven: the first slower tier whose threshold admits it, unless a tier too small drops it before |
| `StoreRetention.EnforceNewcomer` | src/storage/tiered_storage_manager.cpp:283-329 | without quotas, a block just brought into the fastest tier is only ever the last victim: it stays or ends in its haven |
| `StoreRetention.WriteFits` | src/storage/tiered_storage_manager.cpp:331-372 | a write with space below the threshold lands in its tier and changes no other block |
| `StoreRetention.WriteRests` | src/storage/tiered_storage_manager.cpp:331-382 | without quotas, an accepted write below the fastest tier ends in exactly its tier; one to the fastest ends there or in its haven |
| `StoreRetention.PromotionRests` | src/storage/tiered_storage_manager.cpp:408-437 | without quotas, a promoted block ends in the fastest tier or in its haven, and the read hits exactly when it is still stored |
| `StoreRetention.EnforceLossless` | src/storage/tiered_storage_manager.cpp:283-329 | with uniform sizes and one free place down the line, the cascade passes one block per tier and loses no key, whatever the victim policy |
| `StoreRetention.ReadLossless` | src/storage/tiered_storage_manager.cpp:384-438 | with uniform sizes a read changes no key set, and a stored key is always readable |
| `StoreRetention.PrefetchLossless` | src/storage/tiered_storage_manager.cpp:454-476 | with uniform sizes a prefetch changes no key set |
| `StoreRetention.MovementLossless` | src/storage/tiered_storage_manager.cpp:283-476 | over every run of reads, prefetches and enforcements on a uniform store, with or without quotas, no key is lost or added and all stay readable |
| `StoreLimits.WriteEvicted` | src/storage/tiered_storage_manager.cpp:283-382 | under every configuration without quotas and for every positive size, a run after which an accepted write is evicted at once and ends in its haven |
| `StoreLimits.WritesKeptWithoutQuotas` | src/storage/tiered_storage_manager.cpp:283-382 | without quotas, no accepted write of a given size to the fastest tier is ever lost if and only if the size is zero or has a haven; it stays within the two fastest tiers if and only if that haven is the next tier |
| `StoreLimits.ReadEvicted` | src/storage/tiered_storage_manager.cpp:408-433 | under every configuration without quotas, a run in which a read promotes a block and evicts it again; without a haven the read fails |
| `StoreLimits.ReadsSucceedWithoutQuotas` | src/storage/tiered_storage_manager.cpp:384-438 | without quotas, every stored block of a given size can always be read if and only if none can be promoted or the size is zero or has a haven |
| `StoreLimits.WriteMayVanish` | src/storage/tiered_storage_manager.cpp:305-312 | concrete instance: a write accepted by a one-tier store leaves no trace |
| `StoreLimits.ReadMayFail` | src/storage/tiered_storage_manager.cpp:429-433 | concrete instance: a read of a stored block fails and loses it |
| `StoreLimits.MixedMayLose` | src/storage/tiered_storage_manager.cpp:283-329 | concrete instance: with blocks of two sizes, each of which fits into every tier, a read loses another block |
| `StoreLimits.GhostMayForget` | src/storage/tiered_storage_manager.cpp:264-281 | a run from the empty store after which a written key is evicted from the small queue and neither stored nor remembered |
| `StoreQuota.GroupWithin` | src/storage/tiered_storage_manager.cpp:223-235 | tenants each within their share together own no more than their shares in whole bytes |
| `StoreQuota.AllWithin` | src/storage/tiered_storage_manager.cpp:223-235 | pigeonhole: if every tenant is within its share, the tier holds no more than all shares in whole bytes |
| `StoreQuota.RatioCovers` | src/storage/tiered_storage_manager.cpp:81-88 | with a high-water ratio of at least one, every threshold covers the shares of all tenants |
| `StoreQuota.QuotaDecides` | src/storage/tiered_storage_manager.cpp:237-295 | with quotas, a tier whose threshold covers all shares in whole bytes and is exceeded has an over-share tenant: the fallback is never taken and the victim belongs to the tenant furthest over |
| `StoreQuota.EnforceShields` | src/storage/tiered_storage_manager.cpp:283-329 | where the thresholds cover the shares, a whole cascade leaves every block of a within-share tenant untouched, down to the given tier |
| `StoreQuota.RunIsolated` | src/storage/tiered_storage_manager.cpp:223-476 | where the thresholds cover the shares, over every run of other tenants' operations a within-share tenant keeps exactly its blocks, in place and unmodified |
| `StoreQuota.ModestWriteStays` | src/storage/tiered_storage_manager.cpp:331-382 | where the thresholds cover the shares, an accepted write that leaves its own tenant within its share stays in its tier, whatever is evicted for it |
| `StoreQuota.ModestReadStays` | src/storage/tiered_storage_manager.cpp:408-437 | likewise a read whose promotion leaves the owner within its share hits and the block stays in the fastest tier |
| `IsolationLimits.NotIsolated` | src/storage/tiered_storage_manager.cpp:286-295 | if the shares in whole bytes exceed a positive threshold of the fastest tier, a run after which a within-share tenant loses a block to another tenant's write |
| `IsolationLimits.IsolatedExactly` | src/storage/tiered_storage_manager.cpp:223-476 | with quotas, within-share tenants are isolated in the fastest tier, in every reachable state, if and only if all shares in whole bytes fit within its threshold or that threshold is zero |
| `QuotaLimits.Sinks` | src/storage/tiered_storage_manager.cpp:237-329 | the only block of the tenant furthest over its share falls through every full tier and is lost |
| `QuotaLimits.QuotaLosesWrite` | src/storage/tiered_storage_manager.cpp:283-382 | under every configuration with quotas, for every tier and positive size, a run after which an accepted write is lost at once |
| `QuotaLimits.ByteReadable` | src/storage/tiered_storage_manager.cpp:408-437 | a stored byte that has a haven can be read under every victim policy, with or without quotas |
| `QuotaLimits.FailsWhenDropped` | src/storage/tiered_storage_manager.cpp:408-433 | with quotas, a run after which a block too large for the next tier is lost when it is read |
| `QuotaLimits.FailsWhenOvertaken` | src/storage/tiered_storage_manager.cpp:408-433 | with quotas, a run after which a block of two bytes or more is lost when it is read, because a smaller victim takes the room it has left |
| `QuotaLimits.WritesKeptWithQuotas` | src/storage/tiered_storage_manager.cpp:283-382 | with quotas, no accepted write of a given size to a tier is ever lost if and only if the size is zero |
| `QuotaLimits.ReadsSucceedWithQuotas` | src/storage/tiered_storage_manager.cpp:384-438 | with quotas, every stored block of a given size can always be read if and only if the size is zero, none can be promoted, or it is a single byte that has a haven |
| `StoreGuarantees.WritesKeptExactly` | src/storage/tiered_storage_manager.cpp:283-382 | for every configuration, tier and size: no accepted write is ever lost, in any reachable state, if and only if the size is zero, or there are no quotas and the tier is not the fastest or the size has a haven |
| `StoreGuarantees.ReadsSucceedExactly` | src/storage/tiered_storage_manager.cpp:384-438 | for every configuration and size: every stored block can always be read if and only if the size is zero, none can be promoted, or the size has a haven and there are no quotas or the block is a single byte |
| `Accounting.TenantIndexErase` | src/storage/tiered_storage_manager.cpp:202-221 | erasing an entry, and the tenant with its last one, keeps the tenant index equal to its recomputation |
| `Accounting.ChargeErase` | src/storage/tiered_storage_manager.cpp:202-221 | taking off the block's bytes keeps every tenant's charge equal to its recomputation |
| `Accounting.SameEntriesOk` | src/storage/tiered_storage_manager.cpp:134-179 | a victim search leaves counters, indexes and accounts correct |
| `Accounting.WorstFound` | src/storage/tiered_storage_manager.cpp:237-262 | the scan's running maximum ends at the tenant furthest over its share |
| `TieredStorage.TieredStorageManager.constructor` | src/storage/tiered_storage_manager.cpp:33-36 | the empty store, with every redundant structure correct |
| `TieredStorage.TieredStorageManager.IndexInsert` | src/storage/tiered_storage_manager.cpp:124-127 | adds exactly one entry to the index of its tier |
| `TieredStorage.TieredStorageManager.IndexErase` | src/storage/tiered_storage_manager.cpp:129-132 | removes exactly that entry |
| `TieredStorage.TieredStorageManager.AccountInsert` | src/storage/tiered_storage_manager.cpp:192-200 | charges and tenant indexes equal their recomputation with the block added |
| `TieredStorage.TieredStorageManager.AccountErase` | src/storage/tiered_storage_manager.cpp:202-221 | charges and tenant indexes equal their recomputation with the block removed |
| `TieredStorage.TieredStorageManager.Remove` | src/storage/tiered_storage_manager.cpp:105-122 | exactly the key leaves the map; all structures stay correct; queue entries remain |
| `TieredStorage.TieredStorageManager.GhostInsertLocked` | src/storage/tiered_storage_manager.cpp:264-272 | the ghost memory after one more victim |
| `TieredStorage.TieredStorageManager.GhostConsume` | src/storage/tiered_storage_manager.cpp:274-281 | reports and forgets the key, leaving its FIFO entry |
| `TieredStorage.TieredStorageManager.PickS3Victim` | src/storage/tiered_storage_manager.cpp:134-179 | the in-place loop yields the victim and state of the specified search and keeps all structures correct |
| `TieredStorage.TieredStorageManager.ServeSmall` | src/storage/tiered_storage_manager.cpp:145-160 | one step from the small queue: the search goes on as specified, or ends with the victim |
| `TieredStorage.TieredStorageManager.ServeMain` | src/storage/tiered_storage_manager.cpp:161-177 | one step from the main queue: the search goes on as specified with a use spent or an entry less, or ends with the victim |
| `TieredStorage.TieredStorageManager.PickVictim` | src/storage/tiered_storage_manager.cpp:181-190 | the cached index yields the least recently used block of the tier |
| `TieredStorage.TieredStorageManager.TenantShareOf` | src/storage/tiered_storage_manager.cpp:223-235 | the weighted share of a tier's capacity |
| `TieredStorage.TieredStorageManager.PickQuotaVictim` | src/storage/tiered_storage_manager.cpp:237-262 | the oldest block of the tenant furthest over its share, ties to the lower id, or none |
| `TieredStorage.TieredStorageManager.ChooseVictim` | src/storage/tiered_storage_manager.cpp:286-295 | quota victim first, then the tier's own policy |
| `TieredStorage.TieredStorageManager.DemoteVictim` | src/storage/tiered_storage_manager.cpp:300-323 | the victim leaves its tier and enters the next one as most recent, or is dropped |
| `TieredStorage.TieredStorageManager.EnforceCapacityLocked` | src/storage/tiered_storage_manager.cpp:283-329 | the recursive loop reaches the specified state and status, all structures correct |
| `TieredStorage.TieredStorageManager.EnforceCapacity` | src/storage/tiered_storage_manager.cpp:449-452 | between operations it succeeds and changes nothing |
| `TieredStorage.TieredStorageManager.AdmitBlock` | src/storage/tiered_storage_manager.cpp:338-370 | replaces any earlier placement, counts the access, consumes the ghost, queues the block |
| `TieredStorage.TieredStorageManager.PlaceLocked` | src/storage/tiered_storage_manager.cpp:331-372 | refuses an oversized block unchanged, else admits and enforces |
| `TieredStorage.TieredStorageManager.WriteBlock` | src/storage/tiered_storage_manager.cpp:374-382 | state and status of the specified write; validity kept |
| `TieredStorage.TieredStorageManager.TouchBlock` | src/storage/tiered_storage_manager.cpp:392-407 | one more access, now, and one more use up to three in the fastest tier |
| `TieredStorage.TieredStorageManager.PromoteBlock` | src/storage/tiered_storage_manager.cpp:413-425 | the block moves to the main queue of the fastest tier |
| `TieredStorage.TieredStorageManager.ReadBlock` | src/storage/tiered_storage_manager.cpp:384-438 | state and result of the specified read, all error paths included; validity kept |
| `TieredStorage.TieredStorageManager.PrefetchKeys` | src/storage/tiered_storage_manager.cpp:454-476 | state and status of the specified prefetch; validity kept |
| `TieredStorage.TieredStorageManager.Locate` | src/storage/tiered_storage_manager.cpp:440-447 | hits if and only if the key is in some tier, and names the only one |
| `TieredStorage.TieredStorageManager.Occupancy` | src/storage/tiered_storage_manager.cpp:478-483 | the cached counter is the sum of the block sizes and never exceeds the capacity |
| `ShardedStore.RunProjects` | src/storage/sharded_tiered_store.h:48-74 | over every run each shard is exactly an independent manager that ran the operations on its own keys |
| `ShardedStore.ShardsAgree` | src/storage/sharded_tiered_store.h:90-92 | two keys share a shard if and only if their hashes agree modulo the number of shards |
| `ShardedStore.PerShardCapacity` | src/storage/sharded_tiered_store.h:34-43 | every shard gets the whole part of each configured capacity |
| `ShardedStore.ShardedCapacity` | src/storage/sharded_tiered_store.h:34-46 | in every reachable state all shards together are within the global capacity of every tier |
| `ShardedStore.WrittenProjects` | src/storage/sharded_tiered_store.h:48-50 | what was last written for a key is what its shard was last given; other shards never saw it |
| `ShardedStore.ShardedFaithful` | src/storage/sharded_tiered_store.h:48-54 | a stored block is in the shard of its key and is the last one accepted for it |
| `ShardedStore.ShardedTieredStore.constructor` | src/storage/sharded_tiered_store.h:30-46 | at least one shard, each empty with its part of the capacities |
| `ShardedStore.ShardedTieredStore.Write` | src/storage/sharded_tiered_store.h:48-50 | exactly the shard of the key changes, as a manager would |
| `ShardedStore.ShardedTieredStore.Read` | src/storage/sharded_tiered_store.h:52-54 | the result is that of the key's shard, the only one to change |
| `ShardedStore.ShardedTieredStore.Prefetch` | src/storage/sharded_tiered_store.h:58-65 | each key in its own shard; fails only without any tier |
| `ShardedStore.ShardedTieredStore.EnforceCapacity` | src/storage/sharded_tiered_store.h:67-74 | between operations it succeeds and changes no shard |
| `ShardedStore.ShardedTieredStore.Occupancy` | src/storage/sharded_tiered_store.h:77-85 | the total use and the total capacity of all shards; the use never exceeds the capacity |
| `OffloadPolicy.AdvanceDecreases` | python/vllm_adapter/offloading_spec.py:103-128 | each loop step spends a use or shortens the queues: the search terminates |
| `OffloadPolicy.FinishKeeps` | python/vllm_adapter/offloading_spec.py:99-128 | no key is lost or duplicated among queues, skipped keys and victims; victims may be evicted, skipped keys may not |
| `OffloadPolicy.EvictComplete` | python/vllm_adapter/offloading_spec.py:94-146 | a batch of n succeeds if and only if n resident keys are evictable and unprotected |
| `OffloadPolicy.EvictAllOrNothing` | python/vllm_adapter/offloading_spec.py:94-154 | success removes exactly n distinct eligible keys; failure changes no residency, evictability or history; the queues stay a partition either way |
| `OffloadOrder.EvictSparesUsed` | python/vllm_adapter/offloading_spec.py:107-128 | a victim of the small queue had no use when the batch began, a victim of the main queue has none left; a used key of the small queue that was reached is in the main queue or gone from there |
| `OffloadOrder.EvictOldest` | python/vllm_adapter/offloading_spec.py:103-128 | of the unused eligible keys of each queue the victims are the oldest |
| `OffloadOrder.EvictFromDue` | python/vllm_adapter/offloading_spec.py:103-109 | every victim came from the small queue only while it was over its budget or the main queue was empty, and from the main queue only otherwise |
| `OffloadOrder.SecondChances` | python/vllm_adapter/offloading_spec.py:119-128 | of the main queue the first of the least used keys is the next victim, and every round costs each key exactly one use |
| `OffloadOrder.RememberedFromSmall` | python/vllm_adapter/offloading_spec.py:147-168 | the newest entries of the history are the victims of the small queue in order, and no victim of the main queue is remembered |
| `OffloadPolicy.InsertPartition` | python/vllm_adapter/offloading_spec.py:60-68 | after an insertion the queues partition the resident keys if and only if the key was not waiting in the main queue |
| `OffloadPolicy.RememberAllOk` | python/vllm_adapter/offloading_spec.py:164-168 | the history stays duplicate-free and bounded and gains only victims |
| `OffloadPolicy.S3FIFOCachePolicy.constructor` | python/vllm_adapter/offloading_spec.py:45-53 | an empty policy with its two budgets; nothing is resident, evictable or remembered |
| `OffloadPolicy.S3FIFOCachePolicy.Insert` | python/vllm_adapter/offloading_spec.py:60-68 | every new key joins the small queue, remembered or not; the partition is kept if and only if the key was not in the main queue |
| `OffloadPolicy.S3FIFOCachePolicy.Remove` | python/vllm_adapter/offloading_spec.py:71-76 | a resident key leaves every structure; an absent one is refused |
| `OffloadPolicy.S3FIFOCachePolicy.Touch` | python/vllm_adapter/offloading_spec.py:79-82 | each occurrence counts one use, up to three; the partition is kept |
| `OffloadPolicy.S3FIFOCachePolicy.Evict` | python/vllm_adapter/offloading_spec.py:94-154 | returns n victims with their blocks, or nothing, if and only if enough keys are eligible; the partition is kept |
| `OffloadPolicy.S3FIFOCachePolicy.SearchQueues` | python/vllm_adapter/offloading_spec.py:99-128 | the in-place loop terminates and reaches the end of the specified search |
| `OffloadPolicy.S3FIFOCachePolicy.FindVictims` | python/vllm_adapter/offloading_spec.py:99-144 | skipped keys, and on failure the victims, are put back in front of the queues they came from |
| `OffloadPolicy.S3FIFOCachePolicy.TakeVictims` | python/vllm_adapter/offloading_spec.py:147-154 | exactly the victims leave, and those of the small queue are remembered in order |
| `OffloadPolicy.S3FIFOCachePolicy.GhostInsert` | python/vllm_adapter/offloading_spec.py:164-168 | the key becomes the newest of a bounded history |
| `LruPolicy.RecencyOrder` | python/bench/policies.py:66-73 | the recency list holds exactly the keys of the trace, once each, by time of last access |
| `LruPolicy.AccessNewest` | python/bench/policies.py:66-87 | keeping only the newest keys commutes with an access |
| `LruPolicy.RunIsNewest` | python/bench/policies.py:57-87 | after every trace the store is the most recently used distinct keys, as many as fit, in order |
| `LruPolicy.Inclusion` | python/bench/policies.py:57-87 | a smaller cache is always the newest part of a larger one |
| `LruPolicy.HitsMonotone` | python/bench/policies.py:57-87 | the number of hits on any trace never decreases with capacity |
| `LruPolicy.LRUPolicy.AdmitKey` | python/bench/policies.py:82-87 | calls back for exactly the key that leaves, at most one |
| `LruPolicy.LRUPolicy.AccessKey` | python/bench/policies.py:66-73 | hit or admission, with the specified order |
| `S3FifoPolicy.DrainFacts` | python/bench/policies.py:214-221 | second chance loses no key and evicts exactly the excess |
| `S3FifoPolicy.InsertSmallFacts` | python/bench/policies.py:202-212 | every key is kept or called back, at most one is, and all queues stay within bounds |
| `S3FifoPolicy.AdmitFacts` | python/bench/policies.py:188-221 | queues and ghosts stay disjoint and bounded; the callback names exactly the key that leaves |
| `S3FifoPolicy.AdmitRoom` | python/bench/policies.py:188-221 | an admission evicts nothing if and only if the queue the key enters has room, directly or through a used key that makes way |
| `S3FifoPolicy.RemoveFacts` | python/bench/policies.py:197-200 | exactly the key leaves; disjointness and bounds are kept |
| `S3FifoPolicy.TouchFacts` | python/bench/policies.py:182-186 | a touch changes no residency |
| `S3FifoPolicy.TouchCounts` | python/bench/policies.py:182-186 | a touch counts one use up to three for its key and for no other, and moves nothing |
| `S3FifoPolicy.SecondChances` | python/bench/policies.py:214-221 | of a main queue with one key too many the first of the least used leaves, and every round costs each key exactly one use |
| `S3FifoPolicy.AdmitPlaces` | python/bench/policies.py:188-212 | a ghost enters the main queue, any other key the small queue, whose oldest key makes way: to the main queue if used, else as a ghost |
| `S3FifoPolicy.AccessAllOk` | python/bench/policies.py:156-221 | after every trace the queues are disjoint and bounded and at most `capacity` keys are resident |
| `S3FifoPolicy.ScanStep` | python/bench/policies.py:167-212 | an unknown key leaves the main queue alone while the small queue is unused |
| `S3FifoPolicy.ScanResistant` | python/bench/policies.py:148-221 | a scan of any length over distinct unknown keys leaves the main queue's keys, order and uses identical |
| `S3FifoPolicy.S3Fifo.InsertIntoMain` | python/bench/policies.py:214-221 | the loop drains the main queue as specified |
| `S3FifoPolicy.S3Fifo.InsertIntoSmall` | python/bench/policies.py:202-212 | the loop drains the small queue as specified |
| `S3FifoPolicy.S3Fifo.AdmitKey` | python/bench/policies.py:188-195 | the specified admission; soundness kept; at most one callback |
| `S3FifoPolicy.S3Fifo.AccessKey` | python/bench/policies.py:167-177 | a hit if and only if the key is resident; soundness kept |
| `SievePolicy.SweepFinds` | python/bench/policies.py:128-145 | the victim is the first key from the hand on that was not visited, or the key under the hand if all were |
| `SievePolicy.SweepClears` | python/bench/policies.py:136-141 | the hand clears the visited bit of every key it passes and of no other |
| `SievePolicy.HandMoves` | python/bench/policies.py:142-142 | after an eviction the hand points at the key behind the victim, round to the first again |
| `SievePolicy.TouchVisits` | python/bench/policies.py:114-116 | a touch sets the visited bit of its key and no other |
| `SievePolicy.EvictFacts` | python/bench/policies.py:128-145 | exactly the reported key leaves and the others keep their order |
| `SievePolicy.AdmitFacts` | python/bench/policies.py:118-123 | bounds are kept and the callback names exactly the key that leaves; there is none if and only if the key was stored or there was room |
| `SievePolicy.RemoveFacts` | python/bench/policies.py:125-126 | exactly the key leaves |
| `SievePolicy.SieveCache.EvictOne` | python/bench/policies.py:128-145 | the loop over the moving hand is the specified eviction |
| `SievePolicy.SieveCache.AdmitKey` | python/bench/policies.py:118-123 | the specified admission; soundness kept |
| `TieredSimulator.AdmitFacts` | python/bench/tiered.py:54-56 | what every policy owes the callback: the keys it reports are exactly those that leave, at most one |
| `TieredSimulator.BringFacts` | python/bench/tiered.py:67-80 | bringing a key into fast keeps the tiers exclusive and loses at most one block, none if and only if slow can take the displaced one |
| `TieredSimulator.PoolAbsorbs` | python/bench/tiered.py:71-74 | an LRU or SIEVE slow tier takes the displaced block whenever the key came from it or everything fits |
| `TieredSimulator.Prefetch` | python/bench/tiered.py:94-119 | prefetching brings in nothing new, keeps the tiers exclusive, loses at most one block per promotion, none with an LRU or SIEVE slow tier, and none if and only if on every promotion the slow tier had room for the displaced block |
| `TieredSimulator.PrefetchLossless` | python/bench/tiered.py:94-119 | with an LRU or SIEVE slow tier, prefetching leaves the set of resident blocks unchanged |
| `SimulatorLimits.PrefetchMayLose` | python/bench/tiered.py:94-119 | for an S3-FIFO slow tier of any capacity, a run of requests from empty tiers after which a prefetch loses a block |
| `SimulatorLimits.PrefetchesKeepExactly` | python/bench/tiered.py:45-119 | no prefetch ever loses a block, whatever the fast tier, the depth and the requests, if and only if the slow tier is LRU or SIEVE |
| `TieredSimulator.VisitFacts` | python/bench/tiered.py:67-80 | one access keeps the tiers exclusive, loses at most one block, and misses if and only if the block is in neither tier |
| `TieredSimulator.TouchAccesses` | python/bench/tiered.py:68-70 | a hit in the fast tier is an access of its policy: most recent, one more use, or visited |
| `SimulatorUse.BringPlaces` | python/bench/tiered.py:71-79 | a key that is brought in is in an LRU or SIEVE fast tier and no longer in the slow one |
| `SimulatorUse.WalkLearns` | python/bench/tiered.py:81-83 | a request teaches exactly its neighbours |
| `SimulatorUse.LearnedEdges` | python/bench/tiered.py:81-83 | after a request without repetitions each key leads to the next, and other edges are as before |
| `SimulatorUse.ChainPromotes` | python/bench/tiered.py:109-118 | a chain promotes something if and only if a key on it is in the slow tier, and otherwise changes nothing |
| `TieredSimulator.WalkLoses` | python/bench/tiered.py:61-83 | the accesses of a request lose at most one block per miss |
| `TieredSimulator.RequestLoses` | python/bench/tiered.py:61-119 | a whole request loses at most as many blocks as it has misses, plus its promotions if the slow tier is S3-FIFO |
| `TieredSimulator.WalkFirsts` | python/bench/tiered.py:61-83 | while everything seen fits in the slow tier, a block misses exactly at its first occurrence |
| `TieredSimulator.RunExclusive` | python/bench/tiered.py:45-119 | over every run, with any policy in either tier, the tiers are disjoint and within bounds |
| `TieredSimulator.RunRemembers` | python/bench/tiered.py:45-119 | if the distinct blocks of a run fit in an LRU or SIEVE slow tier, none is ever lost and each misses exactly at its first occurrence in the run |
| `TieredSimulator.Simulator.constructor` | python/bench/tiered.py:45-59 | the two given empty tiers, nothing learned yet |
| `TieredSimulator.Simulator.AdmitFast` | python/bench/tiered.py:56-56 | each key evicted from fast is admitted to slow, in order |
| `TieredSimulator.Simulator.FollowChain` | python/bench/tiered.py:109-118 | the walk along one successor chain and its number of promotions |
| `TieredSimulator.Simulator.FollowChains` | python/bench/tiered.py:103-118 | the loop over the resident anchors and its number of promotions |
| `TieredSimulator.Simulator.PrefetchForRequest` | python/bench/tiered.py:94-119 | the multi-anchor prefetch and its number of promotions |
| `TieredSimulator.Simulator.VisitKey` | python/bench/tiered.py:67-80 | touch, promotion or admission, and which it was |
| `TieredSimulator.Simulator.ReplayKeys` | python/bench/tiered.py:64-83 | the three counters and the hit list agree with what happened to each key |
| `TieredSimulator.Simulator.ProcessRequest` | python/bench/tiered.py:61-92 | prefetch, then replay; the tiers stay exclusive |
| `FairShare.RoundFits` | src/scheduler/scheduler.cpp:140-152 | a proportional round never hands out more than remains |
| `FairShare.IdleRound` | src/scheduler/scheduler.cpp:153-169 | if rounding leaves a round with nothing to give, fewer bytes remain than tenants are active |
| `FairShare.RoundFair` | src/scheduler/scheduler.cpp:140-152 | proportional rounds keep exact max-min fairness |
| `FairShare.BytesFair` | src/scheduler/scheduler.cpp:153-168 | the one-byte pass costs at most one byte of fairness |
| `FairShare.RoundProgress` | src/scheduler/scheduler.cpp:129-152 | a round conserves bytes, keeps fairness and gives everybody its entitlement |
| `FairShare.BytesProgress` | src/scheduler/scheduler.cpp:153-169 | the one-byte pass always exhausts the remainder, so it happens at most once |
| `FairShare.RoundProportional` | src/scheduler/scheduler.cpp:140-152 | per unit of weight a round gives nobody more than an unsatisfied tenant, but for one byte of rounding |
| `FairShare.RoundPace` | src/scheduler/scheduler.cpp:130-170 | each round satisfies a tenant, leaves fewer bytes than tenants, or uses up one of those: at most two rounds per tenant |
| `FairShare.WeighActive` | src/scheduler/scheduler.cpp:131-136 | the total weight of the tenants not yet satisfied |
| `FairShare.ProportionalRound` | src/scheduler/scheduler.cpp:140-152 | every active tenant gets its floored portion up to its demand, and bytes are conserved |
| `FairShare.OneByteEach` | src/scheduler/scheduler.cpp:153-168 | one byte to each active tenant in order while bytes last, and to nobody else |
| `FairShare.WaterFill` | src/scheduler/scheduler.cpp:129-171 | terminates; grants are within demands, sum to the smaller of capacity and total demand, are at least the weighted entitlement, max-min fair to one byte, and proportional to the weights among the unsatisfied up to two bytes of rounding per tenant |
| `FairShare.AllocateFairShare` | src/scheduler/scheduler.cpp:111-176 | all of that for distinct tenants, with zero for tenants that take no part |
| `FairShare.EqualWeights` | src/scheduler/scheduler.cpp:129-171 | two unsatisfied tenants of equal weight differ by at most one byte |
| `FairShare.SelectEligible` | src/scheduler/scheduler.cpp:116-128 | exactly the demands with bytes and positive weight take part; everybody starts at zero |
| `FairShare.RecordGrants` | src/scheduler/scheduler.cpp:172-174 | each distinct tenant's grant is recorded under its name |
| `WireCodec.FromToLE` | src/datapath/data_path.cpp:18-33 | an integer in range survives little-endian encoding |
| `WireCodec.ToFromLE` | src/datapath/data_path.cpp:18-33 | every byte string is the encoding of the integer it reads as |
| `WireCodec.UnpackPack` | src/datapath/data_path.cpp:88-103 | fields in range survive packing |
| `WireCodec.PackUnpack` | src/datapath/data_path.cpp:121-152 | every header is the packing of the fields it reads as |
| `WireCodec.DecodeEncode` | src/datapath/data_path.cpp:88-162 | every representable block of the current version survives the round trip |
| `WireCodec.EncodeDecode` | src/datapath/data_path.cpp:111-162 | every accepted string is the encoding of the block it yields |
| `WireCodec.CodecBijection` | src/datapath/data_path.cpp:88-162 | a string decodes to a block if and only if it is the encoding of that block, so encodings are unique and all else is rejected |
| `WireCodec.EncodeInjective` | src/datapath/data_path.cpp:88-109 | two representable blocks with the same encoding are equal, whatever their version |
| `WireCodec.EncodeLayout` | src/datapath/data_path.cpp:88-109 | the wire layout: every field of the block stands at its offset, digit by digit, and the payloads follow |
| `WireCodec.OtherVersionRejected` | src/datapath/data_path.cpp:132-136 | the encoding of another schema version is rejected |
| `WireCodec.DecodeDefined` | src/datapath/data_path.cpp:153-161 | the decoder leaves its input if and only if all checks pass and the length sum wraps around |
| `WireCodec.DecodeMayEscape` | src/datapath/data_path.cpp:153-161 | a string of 52 bytes that passes every check and drives the decoder beyond its end |
| `WireCodec.AppendLE` | src/datapath/data_path.cpp:18-23 | the loop appends the little-endian bytes |
| `WireCodec.ReadLE` | src/datapath/data_path.cpp:25-33 | the loop reads the little-endian integer at an offset |
| `WireCodec.Serialize` | src/datapath/data_path.cpp:88-109 | the specified encoding |
| `WireCodec.Deserialize` | src/datapath/data_path.cpp:111-162 | the specified decision on every byte string |
| `TransferPipeline.TransferKeeps` | src/datapath/data_path.cpp:189-210 | submitting keeps the pipeline invariant |
| `TransferPipeline.WorkerKeeps` | src/datapath/data_path.cpp:217-232 | every worker and shutdown step keeps the invariant |
| `TransferPipeline.RunKeeps` | src/datapath/data_path.cpp:167-232 | the invariant holds after every interleaving |
| `TransferPipeline.EveryInterleaving` | src/datapath/data_path.cpp:167-232 | the queue is bounded, requests reach the backend in the order of acceptance, and no promise is set twice or with a foreign value |
| `TransferPipeline.RefusedExactly` | src/datapath/data_path.cpp:189-210 | in every interleaving a request is refused if and only if the queue was full or shutdown had begun when it was made, and then its caller has the backpressure error for good |
| `TransferPipeline.AllAnswered` | src/datapath/data_path.cpp:189-232 | in every interleaving without shutdown and with no more requests than the queue can hold, all are accepted, and once the worker waits at an empty queue each caller holds the backend's answer to its routed request |
| `TransferPipeline.JoinedIsComplete` | src/datapath/data_path.cpp:174-187 | once the worker has returned the queue is empty, every accepted request was submitted and every promise holds exactly one value: the destructor's final loop does nothing |
| `TransferPipeline.WorkerNeverStuck` | src/datapath/data_path.cpp:217-232 | during shutdown the worker can always take a step until it returns |
| `TransferPipeline.ShutdownTerminates` | src/datapath/data_path.cpp:174-232 | the worker returns after exactly the work that was left, whatever callers do meanwhile |
| `PrefixPrefetcher.InsertEdgeValid` | src/storage/prefix_prefetcher.cpp:69-81 | the FIFO stays a duplicate-free, bounded list of the graph's sources; an edge that fits displaces none |
| `PrefixPrefetcher.InsertEdgeOrder` | src/storage/prefix_prefetcher.cpp:69-81 | a new edge goes behind all others and displaces only the oldest, an edge from a known source keeps its place, and every other edge stays |
| `PrefixPrefetcher.RecordValid` | src/storage/prefix_prefetcher.cpp:10-18 | the same for whole sequences |
| `PrefixPrefetcher.DedupKeeps` | src/storage/prefix_prefetcher.cpp:40-62 | deduplication keeps every key exactly once |
| `PrefixPrefetcher.DedupOrder` | src/storage/prefix_prefetcher.cpp:40-62 | ... in the order of first occurrence |
| `PrefixPrefetcher.RecordAll` | src/storage/prefix_prefetcher.cpp:10-18 | while the sources fit, the graph comes to follow a recorded duplicate-free sequence |
| `PrefixPrefetcher.ChainFollows` | src/storage/prefix_prefetcher.cpp:20-38 | in such a graph a chain yields the next keys of the sequence |
| `PrefixPrefetcher.ChainWalks` | src/storage/prefix_prefetcher.cpp:20-38 | a chain follows the edges one by one and ends only at its budget, at a key without a successor or where it would come back to its head |
| `PrefixPrefetcher.RecordedIsPredicted` | src/storage/prefix_prefetcher.cpp:10-38 | if old and new edges fit, prediction from the head returns the recorded sequence |
| `PrefixPrefetcher.NewSequenceIsPredicted` | src/storage/prefix_prefetcher.cpp:10-38 | a recorded sequence of new sources that fits by itself is predicted from its head, whatever the graph held before |
| `PrefixPrefetcher.Prefetcher.constructor` | src/storage/prefix_prefetcher.cpp:7-8 | an empty graph for at least one edge |
| `PrefixPrefetcher.Prefetcher.InsertEdgeLocked` | src/storage/prefix_prefetcher.cpp:69-81 | the in-place insertion with its trimming loop |
| `PrefixPrefetcher.Prefetcher.RecordSequence` | src/storage/prefix_prefetcher.cpp:10-18 | the specified recording; validity kept |
| `PrefixPrefetcher.Prefetcher.PredictChain` | src/storage/prefix_prefetcher.cpp:20-38 | the loop yields the specified chain |
| `PrefixPrefetcher.Prefetcher.PredictChainMulti` | src/storage/prefix_prefetcher.cpp:40-62 | one pass with a shared set equals the deduplicated concatenation of the single predictions |

## Left out

- IEEE rounding of thresholds, shares and portions, and overflow of the `size_t` byte counters: exact arithmetic is used.
- Mutexes, condition variables and threads outside the transfer pipeline: each public call is one step.
- The bit mixing of the key hash: any fixed function will do for the sharding theorems.
- `CrossNodeIndex`, `Route`, `PickLeastLoaded`, `ChoosePlacementNode` and failure handling of the scheduler: map edits and scans that would only add easy members.
- `ScopedRegistration` and memory registration in the data path: an ownership flag.
- The Mooncake transfer backend and its polling: the backend is an arbitrary function from request to reply.
- Bindings, the vLLM connector and the registration of the offloading specs: forwarding into code that is not part of this model.
- `PrefixAwareLRUPolicy` and `S3FifoPrefixPolicy`: small variants of the two policies that are modelled.
- Trace parsing, time-to-first-token costs, percentiles and reports of the benchmark framework.
- `get`, `clear`, `mark_evictable`, `mark_non_evictable` of the offloading policy and `Stats` of the manager: single assignments or lookups.
- The simulator holds its policies as values rather than as shared objects; the callback is the list of evicted keys.
- The codec appends to a value rather than to a shared byte vector, so reserving capacity is not captured.
- StoreRetention.WriteRests: without quotas only; with quotas the newest block of an over-share tenant may be the victim in any tier, and `ModestWriteStays` covers the tenants within their share.
- StoreRetention.PromotionRests: without quotas only, for the same reason; `ModestReadStays` covers the tenants within their share.
- StoreRetention.MovementLossless: for blocks of one size; `MixedMayLose` shows the loss with two sizes.
- StoreQuota.RunIsolated: where the thresholds cover the shares in whole bytes; `IsolatedExactly` shows that the fastest tier needs this, the slower tiers are left at the sufficient condition.
- FairShare.AllocateFairShare: the fairness clauses are for distinct tenant names; with repeated names a later grant overwrites an earlier one.
- PrefixPrefetcher.RecordedIsPredicted: needs room for old and new edges; `NewSequenceIsPredicted` covers new sources in a full graph, so only a sequence that repeats old sources in a full graph is left out.
