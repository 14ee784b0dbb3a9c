/** Exactly which configurations, with or without quotas, never lose a block they have accepted and
    never fail to read a block they hold. */
module StoreGuarantees {
  import opened Blocks
  import opened Tiers
  import opened StoreRetention
  import opened StoreLimits
  import opened QuotaLimits

  /** No accepted write of a given size to tier `t` is ever lost, in any reachable state, if and only if
      the size is zero, or there are no quotas and the tier is not the fastest or an evicted block of
      that size has a haven. It stays within that tier and the next if and only if moreover, for the
      fastest tier, that haven is the next tier. */
  lemma WritesKeptExactly(cfg: Config, size: nat, t: Tier)
    requires Configured(cfg, t) && size <= Threshold(cfg, t)
    ensures WritesKept(cfg, size, t) <==>
            size == 0 || (!QuotaEnabled(cfg) && (Fastest(cfg) != Some(t) || Haven(cfg, size, t).Some?))
    ensures WritesNear(cfg, size, t) <==>
            size == 0 ||
            (!QuotaEnabled(cfg) && (Fastest(cfg) != Some(t) || Haven(cfg, size, t) == NextSlower(cfg, t) != None))
  {
    if QuotaEnabled(cfg) {
      WritesKeptWithQuotas(cfg, size, t);
    } else if Fastest(cfg) == Some(t) {
      WritesKeptWithoutQuotas(cfg, size, t);
    } else {
      SlowerWritesKept(cfg, size, t);
    }
  }

  /** Every stored block of a given size can always be read, in any reachable state, if and only if it
      is empty, or no block of its size can be promoted, or an evicted block of its size has a haven
      and there are no quotas or the block is a single byte. */
  lemma ReadsSucceedExactly(cfg: Config, size: nat, fast: Tier)
    requires Fastest(cfg) == Some(fast)
    ensures ReadsSucceed(cfg, size) <==>
            size == 0 || !MayPromote(cfg, size, fast) ||
            (Haven(cfg, size, fast).Some? && (!QuotaEnabled(cfg) || size == 1))
  {
    if QuotaEnabled(cfg) {
      ReadsSucceedWithQuotas(cfg, size, fast);
    } else {
      ReadsSucceedWithoutQuotas(cfg, size, fast);
    }
  }
}
