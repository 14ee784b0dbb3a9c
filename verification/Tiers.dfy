/** Storage tiers and their configuration: capacities, eviction thresholds,
    fallback between tiers and weighted tenant shares. */
module Tiers {
  import opened Blocks

  /** A smaller number is a faster tier. */
  type Tier = t: int | 0 <= t < 3 witness 0

  const HBM: Tier := 0
  const DRAM: Tier := 1
  const NVME: Tier := 2

  datatype TierConfig = TierConfig(
    hbm: Option<nat>,
    dram: Option<nat>,
    nvme: Option<nat>,
    highWaterRatio: real,
    tenantWeights: map<nat, real>)

  /** What the configuration must satisfy: ratios and weights are not negative. */
  ghost predicate ValidConfig(cfg: TierConfig) {
    cfg.highWaterRatio >= 0.0 &&
    forall id :: id in cfg.tenantWeights ==> cfg.tenantWeights[id] >= 0.0
  }

  type Config = cfg: TierConfig | ValidConfig(cfg) witness TierConfig(None, None, None, 0.9, map[])

  function SlotOf(cfg: Config, t: Tier): Option<nat> {
    if t == HBM then cfg.hbm else if t == DRAM then cfg.dram else cfg.nvme
  }

  predicate Configured(cfg: Config, t: Tier) {
    SlotOf(cfg, t).Some?
  }

  function CapacityOf(cfg: Config, t: Tier): nat {
    match SlotOf(cfg, t)
    case Some(bytes) => bytes
    case None => 0
  }

  lemma ScaleBounds(x: real, r: real)
    requires x >= 0.0 && r >= 0.0
    ensures x * r >= 0.0
    ensures r >= 1.0 ==> x * r >= x
  {
    if r >= 1.0 {
      assert x * r == x + x * (r - 1.0);
    }
  }

  /** The water level eviction brings a tier back to: never above its capacity. */
  function Threshold(cfg: Config, t: Tier): (bytes: nat)
    ensures bytes <= CapacityOf(cfg, t)
    ensures cfg.highWaterRatio >= 1.0 ==> bytes == CapacityOf(cfg, t)
  {
    var capacity := CapacityOf(cfg, t) as real;
    var mark := capacity * cfg.highWaterRatio;
    ScaleBounds(capacity, cfg.highWaterRatio);
    (if mark < capacity then mark else capacity).Floor
  }

  /** It is the largest whole number of bytes within both the capacity and the high-water mark. */
  lemma ThresholdExact(cfg: Config, t: Tier, bytes: nat)
    ensures bytes <= Threshold(cfg, t) <==>
            bytes <= CapacityOf(cfg, t) && bytes as real <= CapacityOf(cfg, t) as real * cfg.highWaterRatio
  {
    var capacity := CapacityOf(cfg, t) as real;
    ScaleBounds(capacity, cfg.highWaterRatio);
    FloorGalois(bytes, if capacity * cfg.highWaterRatio < capacity then capacity * cfg.highWaterRatio else capacity);
  }

  lemma FloorGalois(n: int, x: real)
    ensures n <= x.Floor <==> n as real <= x
  {
  }

  /** The nearest configured tier strictly faster than `t`. */
  function NextFaster(cfg: Config, t: int): (r: Option<Tier>)
    requires 0 <= t <= 3
    ensures r.Some? ==> r.value < t && Configured(cfg, r.value)
    ensures r.Some? ==> forall u: Tier :: r.value < u < t ==> !Configured(cfg, u)
    ensures r.None? ==> forall u: Tier :: u < t ==> !Configured(cfg, u)
    decreases t
  {
    if t == 0 then None
    else if Configured(cfg, t - 1) then Some(t - 1)
    else NextFaster(cfg, t - 1)
  }

  /** The nearest configured tier strictly slower than `t`. */
  function NextSlower(cfg: Config, t: int): (r: Option<Tier>)
    requires -1 <= t < 3
    ensures r.Some? ==> r.value > t && Configured(cfg, r.value)
    ensures r.Some? ==> forall u: Tier :: t < u < r.value ==> !Configured(cfg, u)
    ensures r.None? ==> forall u: Tier :: u > t ==> !Configured(cfg, u)
    decreases 3 - t
  {
    if t == 2 then None
    else if Configured(cfg, t + 1) then Some(t + 1)
    else NextSlower(cfg, t + 1)
  }

  /** A write's target tier, falling back to faster tiers first, then slower. */
  function Resolve(cfg: Config, target: Tier): (r: Option<Tier>)
    ensures r.Some? ==> Configured(cfg, r.value)
    ensures r.None? <==> forall u: Tier :: !Configured(cfg, u)
    ensures r.Some? && target == HBM ==> forall u: Tier :: u < r.value ==> !Configured(cfg, u)
  {
    if Configured(cfg, target) then Some(target)
    else if NextFaster(cfg, target).Some? then NextFaster(cfg, target)
    else NextSlower(cfg, target)
  }

  /** How far a tier is down the list of substitutes: the target, then faster tiers from the
      nearest on, then slower ones from the nearest on. */
  function Rank(target: Tier, t: Tier): nat {
    if t <= target then target - t else 3 + t
  }

  /** A write goes to the first configured tier on that list. */
  lemma ResolvePrefers(cfg: Config, target: Tier, t: Tier)
    requires Configured(cfg, t)
    ensures Resolve(cfg, target).Some? && Rank(target, Resolve(cfg, target).value) <= Rank(target, t)
  {
    var faster, slower := NextFaster(cfg, target), NextSlower(cfg, target);
    if !Configured(cfg, target) && faster.Some? && t < target {
      assert t <= faster.value;
    }
    if !Configured(cfg, target) && faster.None? {
      assert t > target && slower.Some? && slower.value <= t;
    }
  }

  function Fastest(cfg: Config): (r: Option<Tier>)
    ensures r.Some? ==> Configured(cfg, r.value) && forall u: Tier :: u < r.value ==> !Configured(cfg, u)
    ensures r.None? <==> forall u: Tier :: !Configured(cfg, u)
  {
    Resolve(cfg, HBM)
  }

  predicate QuotaEnabled(cfg: Config) {
    cfg.tenantWeights != map[]
  }
}
