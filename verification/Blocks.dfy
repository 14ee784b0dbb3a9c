/** The data model shared by every component: block keys, KV-cache blocks and
    operation statuses. */
module Blocks {

  datatype Option<+T> = None | Some(value: T)

  type Byte = b: int | 0 <= b < 256

  /** The content-addressed key of a block, ordered field by field. */
  datatype BlockKey = BlockKey(hashId: nat, layer: nat, version: nat)

  datatype KVCacheBlock = KVCacheBlock(
    key: BlockKey,
    numTokens: nat,
    numHeads: nat,
    headDim: nat,
    dtype: nat,
    kPayload: seq<Byte>,
    vPayload: seq<Byte>)

  /** Only the payloads are charged against a tier's capacity. */
  function BlockSize(block: KVCacheBlock): nat {
    |block.kPayload| + |block.vPayload|
  }

  datatype Status = Ok | InvalidArgument | NotFound | OutOfCapacity | Internal

  datatype ReadResult = Hit(block: KVCacheBlock) | Failed(status: Status)

  predicate KeyLeq(a: BlockKey, b: BlockKey) {
    a.hashId < b.hashId ||
    (a.hashId == b.hashId &&
     (a.layer < b.layer || (a.layer == b.layer && a.version <= b.version)))
  }
}
