/** The scheduler's weighted max-min fair allocation: water filling with whole bytes. */
module FairShare {
  import opened Numbers

  datatype TenantDemand = TenantDemand(tenant: string, demandBytes: nat, weight: real)

  /** The demands that take part: something is wanted and the weight is positive. */
  ghost predicate Live(items: seq<TenantDemand>) {
    forall i :: 0 <= i < |items| ==> items[i].demandBytes > 0 && items[i].weight > 0.0
  }

  // ------------------------------------------------ sums

  ghost function Sum(xs: seq<nat>): nat {
    if xs == [] then 0 else Sum(xs[..|xs| - 1]) + xs[|xs| - 1]
  }

  ghost function DemandSum(items: seq<TenantDemand>): nat {
    if items == [] then 0 else DemandSum(items[..|items| - 1]) + items[|items| - 1].demandBytes
  }

  lemma {:induction false} SumPush(xs: seq<nat>, x: nat)
    ensures Sum(xs + [x]) == Sum(xs) + x
  {
    assert (xs + [x])[..|xs|] == xs;
  }

  ghost predicate Within(items: seq<TenantDemand>, granted: seq<nat>) {
    |granted| == |items| && forall i :: 0 <= i < |items| ==> granted[i] <= items[i].demandBytes
  }

  /** A tenant that has not yet got what it asked for. */
  predicate Active(items: seq<TenantDemand>, granted: seq<nat>, i: nat)
    requires i < |items| == |granted|
  {
    granted[i] < items[i].demandBytes
  }

  /** The weight of the active tenants among the first `n`. */
  ghost function ActiveWeight(items: seq<TenantDemand>, granted: seq<nat>, n: nat): real
    requires n <= |items| == |granted|
  {
    if n == 0 then 0.0
    else ActiveWeight(items, granted, n - 1) + (if Active(items, granted, n - 1) then items[n - 1].weight else 0.0)
  }

  /** How many of the first `n` tenants are active. */
  ghost function ActiveCount(items: seq<TenantDemand>, granted: seq<nat>, n: nat): nat
    requires n <= |items| == |granted|
  {
    if n == 0 then 0
    else ActiveCount(items, granted, n - 1) + (if Active(items, granted, n - 1) then 1 else 0)
  }

  lemma {:induction false} ActiveWeightPositive(items: seq<TenantDemand>, granted: seq<nat>, n: nat)
    requires Live(items) && n <= |items| == |granted|
    ensures ActiveWeight(items, granted, n) >= 0.0
    ensures ActiveWeight(items, granted, n) > 0.0 <==> exists i :: 0 <= i < n && Active(items, granted, i)
    ensures ActiveWeight(items, granted, n) > 0.0 <==> ActiveCount(items, granted, n) > 0
  {
    if n > 0 {
      ActiveWeightPositive(items, granted, n - 1);
    }
  }

  /** When no tenant is active, all demands are granted in full. */
  lemma {:induction false} AllSatisfied(items: seq<TenantDemand>, granted: seq<nat>)
    requires Within(items, granted) && forall i :: 0 <= i < |items| ==> !Active(items, granted, i)
    ensures Sum(granted) == DemandSum(items)
  {
    if items != [] {
      var last := |items| - 1;
      forall i | 0 <= i < last ensures !Active(items[..last], granted[..last], i) {
        assert !Active(items, granted, i);
      }
      assert !Active(items, granted, last);
      AllSatisfied(items[..last], granted[..last]);
    }
  }

  lemma {:induction false} SumWithin(items: seq<TenantDemand>, granted: seq<nat>)
    requires Within(items, granted)
    ensures Sum(granted) <= DemandSum(items)
  {
    if items != [] {
      SumWithin(items[..|items| - 1], granted[..|items| - 1]);
    }
  }

  // ------------------------------------------------ one proportional round

  /** A tenant's exact proportional share of what remains ... */
  function Ratio(remaining: nat, weight: real, active: real): real
    requires active > 0.0
  {
    remaining as real * weight / active
  }

  /** ... and in whole bytes. */
  function Portion(remaining: nat, weight: real, active: real): int
    requires active > 0.0
  {
    Ratio(remaining, weight, active).Floor
  }

  lemma RatioZero(remaining: nat, weight: real, active: real)
    requires active > 0.0 && Ratio(remaining, weight, active) < 1.0
    ensures remaining as real * weight < active
  {
    Scale(Ratio(remaining, weight, active), 1.0, active);
  }

  lemma PortionBounds(remaining: nat, weight: real, active: real)
    requires active > 0.0 && weight >= 0.0
    ensures 0 <= Portion(remaining, weight, active)
    ensures Portion(remaining, weight, active) as real <= Ratio(remaining, weight, active)
    ensures Portion(remaining, weight, active) == 0 ==> remaining as real * weight < active
  {
    assert remaining as real * weight >= 0.0;
    assert Ratio(remaining, weight, active) >= 0.0;
    if Portion(remaining, weight, active) == 0 {
      RatioZero(remaining, weight, active);
    }
  }

  lemma Scale(a: real, b: real, c: real)
    requires a < b && c > 0.0
    ensures a * c < b * c
  {
  }

  lemma RatioMonotone(remaining: nat, w: real, w': real, active: real)
    requires active > 0.0 && w <= w'
    ensures Ratio(remaining, w, active) <= Ratio(remaining, w', active)
  {
    var r := remaining as real;
    assert r * w' - r * w == r * (w' - w) >= 0.0;
  }

  lemma PortionMonotone(remaining: nat, w: real, w': real, active: real)
    requires active > 0.0 && w <= w'
    ensures Portion(remaining, w, active) <= Portion(remaining, w', active)
  {
    RatioMonotone(remaining, w, w', active);
    FloorMonotone(Ratio(remaining, w, active), Ratio(remaining, w', active));
  }

  lemma FloorMonotone(x: real, y: real)
    requires x <= y
    ensures x.Floor <= y.Floor
  {
  }

  lemma RatioAdds(remaining: nat, a: real, b: real, sum: real, active: real)
    requires active > 0.0 && sum == a + b
    ensures Ratio(remaining, a, active) + Ratio(remaining, b, active) == Ratio(remaining, sum, active)
  {
    var r := remaining as real;
    assert r * sum == r * (a + b) == r * a + r * b;
  }

  function Give(items: seq<TenantDemand>, granted: seq<nat>, remaining: nat, active: real, i: nat): (give: nat)
    requires Live(items) && Within(items, granted) && i < |items| && active > 0.0
  {
    PortionBounds(remaining, items[i].weight, active);
    Min(items[i].demandBytes - granted[i], Portion(remaining, items[i].weight, active))
  }

  ghost function GiveSum(items: seq<TenantDemand>, granted: seq<nat>, remaining: nat, active: real, n: nat): nat
    requires Live(items) && Within(items, granted) && n <= |items| && active > 0.0
  {
    if n == 0 then 0
    else GiveSum(items, granted, remaining, active, n - 1) + Give(items, granted, remaining, active, n - 1)
  }

  ghost function LiveWeight(items: seq<TenantDemand>, granted: seq<nat>, i: nat): real
    requires i < |items| == |granted|
  {
    if Active(items, granted, i) then items[i].weight else 0.0
  }

  lemma GiveBound(items: seq<TenantDemand>, granted: seq<nat>, remaining: nat, active: real, i: nat)
    requires Live(items) && Within(items, granted) && i < |items| && active > 0.0
    ensures Give(items, granted, remaining, active, i) as real
            <= Ratio(remaining, LiveWeight(items, granted, i), active)
  {
    PortionBounds(remaining, items[i].weight, active);
  }

  /** A round hands out no more than the active tenants' part of the remainder. */
  lemma {:induction false} GiveSumBound(items: seq<TenantDemand>, granted: seq<nat>, remaining: nat, active: real,
                                        n: nat)
    requires Live(items) && Within(items, granted) && n <= |items| && active > 0.0
    ensures GiveSum(items, granted, remaining, active, n) as real
            <= Ratio(remaining, ActiveWeight(items, granted, n), active)
  {
    if n > 0 {
      GiveSumBound(items, granted, remaining, active, n - 1);
      GiveBound(items, granted, remaining, active, n - 1);
      RatioAdds(remaining, ActiveWeight(items, granted, n - 1), LiveWeight(items, granted, n - 1),
                ActiveWeight(items, granted, n), active);
    }
  }

  lemma RoundFits(items: seq<TenantDemand>, granted: seq<nat>, remaining: nat, active: real)
    requires Live(items) && Within(items, granted) && active == ActiveWeight(items, granted, |items|) > 0.0
    ensures GiveSum(items, granted, remaining, active, |items|) <= remaining
  {
    GiveSumBound(items, granted, remaining, active, |items|);
    assert Ratio(remaining, active, active) == remaining as real;
  }

  lemma {:induction false} GiveSumZero(items: seq<TenantDemand>, granted: seq<nat>, remaining: nat, active: real,
                                       n: nat, i: nat)
    requires Live(items) && Within(items, granted) && i < n <= |items| && active > 0.0
    requires GiveSum(items, granted, remaining, active, n) == 0
    ensures Give(items, granted, remaining, active, i) == 0
  {
    if i < n - 1 {
      GiveSumZero(items, granted, remaining, active, n - 1, i);
    }
  }

  lemma Accumulate(r: real, a: real, w: real, sum: real, count: real, d: real)
    requires r * a <= count * d && r * w < d && sum == a + w
    ensures r * sum < (count + 1.0) * d
  {
    assert r * sum == r * a + r * w;
    assert (count + 1.0) * d == count * d + d;
  }

  /** If no active tenant can get a whole byte, fewer bytes remain than tenants are active. */
  lemma {:induction false} TooFewBytes(items: seq<TenantDemand>, granted: seq<nat>, remaining: nat, active: real,
                                       n: nat)
    requires Live(items) && Within(items, granted) && n <= |items| && active > 0.0
    requires forall i :: 0 <= i < n ==> Give(items, granted, remaining, active, i) == 0
    ensures remaining as real * ActiveWeight(items, granted, n) <= ActiveCount(items, granted, n) as real * active
    ensures ActiveCount(items, granted, n) > 0 ==>
              remaining as real * ActiveWeight(items, granted, n) < ActiveCount(items, granted, n) as real * active
  {
    if n > 0 {
      TooFewBytes(items, granted, remaining, active, n - 1);
      if Active(items, granted, n - 1) {
        assert Give(items, granted, remaining, active, n - 1) == 0;
        PortionBounds(remaining, items[n - 1].weight, active);
        Accumulate(remaining as real, ActiveWeight(items, granted, n - 1), items[n - 1].weight,
                   ActiveWeight(items, granted, n), ActiveCount(items, granted, n - 1) as real, active);
      }
    }
  }

  lemma Cancel(a: real, b: real, c: real)
    requires c > 0.0 && a * c < b * c
    ensures a < b
  {
    if b < a {
      Scale(b, a, c);
    }
  }

  /** A round that hands out nothing leaves fewer bytes than active tenants, so one byte
      each uses them up. */
  lemma IdleRound(items: seq<TenantDemand>, granted: seq<nat>, remaining: nat, active: real)
    requires Live(items) && Within(items, granted) && active == ActiveWeight(items, granted, |items|) > 0.0
    requires GiveSum(items, granted, remaining, active, |items|) == 0
    ensures remaining < ActiveCount(items, granted, |items|)
  {
    forall i | 0 <= i < |items| ensures Give(items, granted, remaining, active, i) == 0 {
      GiveSumZero(items, granted, remaining, active, |items|, i);
    }
    TooFewBytes(items, granted, remaining, active, |items|);
    ActiveWeightPositive(items, granted, |items|);
    Cancel(remaining as real, ActiveCount(items, granted, |items|) as real, active);
  }

  // ------------------------------------------------ fairness

  /** Among tenants of no greater weight than an unsatisfied one, none has got more than it,
      up to `slack` bytes. */
  ghost predicate Fair(items: seq<TenantDemand>, granted: seq<nat>, slack: nat)
    requires |items| == |granted|
  {
    forall i, j ::
      0 <= i < |items| && 0 <= j < |items| && Active(items, granted, i) && items[j].weight <= items[i].weight ==>
        granted[j] <= granted[i] + slack
  }

  /** Every tenant has its weighted part of the whole capacity, or all it asked for. */
  ghost predicate Guaranteed(items: seq<TenantDemand>, granted: seq<nat>, capacity: nat)
    requires |items| == |granted| && Live(items)
  {
    forall i :: 0 <= i < |items| ==> granted[i] >= Entitled(items, capacity, i)
  }

  ghost function NoGrants(items: seq<TenantDemand>): seq<nat> {
    seq(|items|, _ => 0)
  }

  ghost function TotalWeight(items: seq<TenantDemand>): real {
    ActiveWeight(items, NoGrants(items), |items|)
  }

  ghost function Entitled(items: seq<TenantDemand>, capacity: nat, i: nat): nat
    requires Live(items) && i < |items|
  {
    TotalWeightPositive(items, i);
    PortionBounds(capacity, items[i].weight, TotalWeight(items));
    Min(items[i].demandBytes, Portion(capacity, items[i].weight, TotalWeight(items)))
  }

  lemma TotalWeightPositive(items: seq<TenantDemand>, i: nat)
    requires Live(items) && i < |items|
    ensures TotalWeight(items) > 0.0
  {
    assert Active(items, NoGrants(items), i);
    ActiveWeightPositive(items, NoGrants(items), |items|);
  }

  ghost predicate IsRound(items: seq<TenantDemand>, granted: seq<nat>, after: seq<nat>, remaining: nat, active: real)
    requires Live(items) && Within(items, granted) && active > 0.0
  {
    |after| == |granted| &&
    forall i :: 0 <= i < |items| ==> after[i] == granted[i] + Give(items, granted, remaining, active, i)
  }

  /** Proportional rounds keep exact fairness: an unsatisfied tenant got its full portion,
      and nobody of smaller weight got a larger one. */
  lemma RoundFair(items: seq<TenantDemand>, granted: seq<nat>, after: seq<nat>, remaining: nat, active: real)
    requires Live(items) && Within(items, granted) && active > 0.0
    requires IsRound(items, granted, after, remaining, active) && Fair(items, granted, 0)
    ensures Fair(items, after, 0)
  {
    forall i, j | 0 <= i < |items| && 0 <= j < |items| && Active(items, after, i) && items[j].weight <= items[i].weight
      ensures after[j] <= after[i]
    {
      assert Active(items, granted, i);
      PortionMonotone(remaining, items[j].weight, items[i].weight, active);
      PortionBounds(remaining, items[i].weight, active);
      assert Give(items, granted, remaining, active, i) == Portion(remaining, items[i].weight, active);
    }
  }

  /** The first round already gives every tenant what it is entitled to. */
  lemma FirstRound(items: seq<TenantDemand>, after: seq<nat>, capacity: nat)
    requires Live(items) && items != []
    requires TotalWeight(items) > 0.0 && IsRound(items, NoGrants(items), after, capacity, TotalWeight(items))
    ensures Guaranteed(items, after, capacity)
  {
    forall i | 0 <= i < |items| ensures after[i] >= Entitled(items, capacity, i) {
      assert after[i] == NoGrants(items)[i] + Give(items, NoGrants(items), capacity, TotalWeight(items), i);
    }
  }

  // ------------------------------------------------ the allocation

  method WeighActive(items: seq<TenantDemand>, granted: seq<nat>) returns (active: real)
    requires |items| == |granted|
    ensures active == ActiveWeight(items, granted, |items|)
  {
    active := 0.0;
    for i := 0 to |items|
      invariant active == ActiveWeight(items, granted, i)
    {
      if granted[i] < items[i].demandBytes {
        active := active + items[i].weight;
      }
    }
  }

  /** Every active tenant gets its portion of what remains, up to its demand. */
  method ProportionalRound(items: seq<TenantDemand>, granted: seq<nat>, remaining: nat, active: real)
    returns (after: seq<nat>, distributed: nat)
    requires Live(items) && Within(items, granted) && active > 0.0
    ensures IsRound(items, granted, after, remaining, active) && Within(items, after)
    ensures distributed == GiveSum(items, granted, remaining, active, |items|)
    ensures Sum(after) == Sum(granted) + distributed
  {
    after, distributed := [], 0;
    for i := 0 to |items|
      invariant |after| == i
      invariant forall j :: 0 <= j < i ==> after[j] == granted[j] + Give(items, granted, remaining, active, j)
      invariant distributed == GiveSum(items, granted, remaining, active, i)
    {
      PortionBounds(remaining, items[i].weight, active);
      var unmet := items[i].demandBytes - granted[i];
      var give := 0;
      if unmet > 0 {
        give := Min(unmet, Portion(remaining, items[i].weight, active));
      }
      after := after + [granted[i] + give];
      distributed := distributed + give;
    }
    RoundSum(items, granted, after, remaining, active, |items|);
    assert after[..|items|] == after && granted[..|items|] == granted;
  }

  /** A round conserves bytes. */
  lemma {:induction false} RoundSum(items: seq<TenantDemand>, granted: seq<nat>, after: seq<nat>, remaining: nat,
                                    active: real, n: nat)
    requires Live(items) && Within(items, granted) && active > 0.0 && n <= |items|
    requires IsRound(items, granted, after, remaining, active)
    ensures Sum(after[..n]) == Sum(granted[..n]) + GiveSum(items, granted, remaining, active, n)
  {
    if n > 0 {
      RoundSum(items, granted, after, remaining, active, n - 1);
      SumPush(after[..n - 1], after[n - 1]);
      SumPush(granted[..n - 1], granted[n - 1]);
      assert after[..n] == after[..n - 1] + [after[n - 1]];
      assert granted[..n] == granted[..n - 1] + [granted[n - 1]];
    }
  }

  /** The byte a tenant gets, if it is active and bytes are left when its turn comes. */
  ghost function OneByte(items: seq<TenantDemand>, granted: seq<nat>, remaining: nat, i: nat): nat
    requires i < |items| == |granted|
  {
    if Active(items, granted, i) && ActiveCount(items, granted, i) < remaining then 1 else 0
  }

  lemma {:induction false} BytesSum(items: seq<TenantDemand>, granted: seq<nat>, after: seq<nat>, remaining: nat,
                                    n: nat)
    requires n <= |items| == |granted| == |after|
    requires forall i :: 0 <= i < |items| ==> after[i] == granted[i] + OneByte(items, granted, remaining, i)
    ensures Sum(after[..n]) == Sum(granted[..n]) + Min(remaining, ActiveCount(items, granted, n))
  {
    if n > 0 {
      BytesSum(items, granted, after, remaining, n - 1);
      SumPush(after[..n - 1], after[n - 1]);
      SumPush(granted[..n - 1], granted[n - 1]);
      assert after[..n] == after[..n - 1] + [after[n - 1]];
      assert granted[..n] == granted[..n - 1] + [granted[n - 1]];
    }
  }

  /** One byte to each active tenant in turn, while bytes remain. */
  method OneByteEach(items: seq<TenantDemand>, granted: seq<nat>, remaining: nat)
    returns (after: seq<nat>, left: nat, distributed: nat)
    requires Within(items, granted)
    ensures Within(items, after)
    ensures forall i :: 0 <= i < |items| ==> after[i] == granted[i] + OneByte(items, granted, remaining, i)
    ensures distributed == Min(remaining, ActiveCount(items, granted, |items|)) && left == remaining - distributed
    ensures Sum(after) == Sum(granted) + distributed
  {
    after, left, distributed := [], remaining, 0;
    for i := 0 to |items|
      invariant |after| == i
      invariant forall j :: 0 <= j < i ==> after[j] == granted[j] + OneByte(items, granted, remaining, j)
      invariant distributed == Min(remaining, ActiveCount(items, granted, i)) && left == remaining - distributed
    {
      var give := 0;
      if left > 0 && granted[i] < items[i].demandBytes {
        give := 1;
      }
      after := after + [granted[i] + give];
      left, distributed := left - give, distributed + give;
    }
    BytesSum(items, granted, after, remaining, |items|);
    assert after[..|items|] == after && granted[..|items|] == granted;
  }

  /** What holds between rounds: bytes are conserved, fairness is exact while bytes remain, and
      after the first round everybody has what it is entitled to. */
  ghost predicate Progress(items: seq<TenantDemand>, granted: seq<nat>, capacity: nat, remaining: nat)
    requires Live(items)
  {
    Within(items, granted) && Sum(granted) + remaining == capacity &&
    Fair(items, granted, if remaining > 0 then 0 else 1) &&
    ((granted == NoGrants(items) && remaining == capacity) || Guaranteed(items, granted, capacity))
  }

  lemma GuaranteedMonotone(items: seq<TenantDemand>, granted: seq<nat>, after: seq<nat>, capacity: nat)
    requires Live(items) && |items| == |granted| == |after| && Guaranteed(items, granted, capacity)
    requires forall i :: 0 <= i < |items| ==> granted[i] <= after[i]
    ensures Guaranteed(items, after, capacity)
  {
    forall i | 0 <= i < |items| ensures after[i] >= Entitled(items, capacity, i) {
      assert granted[i] >= Entitled(items, capacity, i);
    }
  }

  lemma RoundGuaranteed(items: seq<TenantDemand>, granted: seq<nat>, after: seq<nat>, capacity: nat, remaining: nat,
                        active: real)
    requires Live(items) && Within(items, granted) && active == ActiveWeight(items, granted, |items|) > 0.0
    requires IsRound(items, granted, after, remaining, active)
    requires (granted == NoGrants(items) && remaining == capacity) || Guaranteed(items, granted, capacity)
    ensures Guaranteed(items, after, capacity)
  {
    if Guaranteed(items, granted, capacity) {
      GuaranteedMonotone(items, granted, after, capacity);
    } else {
      FirstRound(items, after, capacity);
    }
  }

  lemma RoundProgress(items: seq<TenantDemand>, granted: seq<nat>, after: seq<nat>, capacity: nat, remaining: nat,
                      active: real)
    requires Live(items) && Progress(items, granted, capacity, remaining) && remaining > 0
    requires active == ActiveWeight(items, granted, |items|) > 0.0
    requires IsRound(items, granted, after, remaining, active) && Within(items, after)
    requires Sum(after) == Sum(granted) + GiveSum(items, granted, remaining, active, |items|)
    ensures Sum(after) <= capacity && Progress(items, after, capacity, capacity - Sum(after))
    ensures Guaranteed(items, after, capacity) && Fair(items, after, 0)
  {
    RoundFits(items, granted, remaining, active);
    RoundFair(items, granted, after, remaining, active);
    RoundGuaranteed(items, granted, after, capacity, remaining, active);
  }

  /** Handing out single bytes costs fairness at most one byte. */
  lemma BytesFair(items: seq<TenantDemand>, granted: seq<nat>, after: seq<nat>)
    requires |items| == |granted| == |after| && Fair(items, granted, 0)
    requires forall i :: 0 <= i < |items| ==> granted[i] <= after[i] <= granted[i] + 1
    ensures Fair(items, after, 1)
  {
    forall i, j | 0 <= i < |items| && 0 <= j < |items| && Active(items, after, i) && items[j].weight <= items[i].weight
      ensures after[j] <= after[i] + 1
    {
      assert Active(items, granted, i);
    }
  }

  /** The one-byte pass after an idle round uses up the remainder: it runs at most once. */
  lemma BytesProgress(items: seq<TenantDemand>, granted: seq<nat>, final: seq<nat>, capacity: nat, remaining: nat,
                      active: real)
    requires Live(items) && Progress(items, granted, capacity, remaining) && remaining > 0
    requires active == ActiveWeight(items, granted, |items|) > 0.0
    requires GiveSum(items, granted, remaining, active, |items|) == 0
    requires Within(items, final) && forall i :: 0 <= i < |items| ==> granted[i] <= final[i] <= granted[i] + 1
    requires Sum(final) == Sum(granted) + Min(remaining, ActiveCount(items, granted, |items|))
    ensures remaining < ActiveCount(items, granted, |items|)
    ensures Progress(items, final, capacity, 0)
  {
    IdleRound(items, granted, remaining, active);
    forall i | 0 <= i < |items| ensures Give(items, granted, remaining, active, i) == 0 {
      GiveSumZero(items, granted, remaining, active, |items|, i);
    }
    RoundGuaranteed(items, granted, granted, capacity, remaining, active);
    GuaranteedMonotone(items, granted, final, capacity);
    BytesFair(items, granted, final);
  }

  // ------------------------------------------------ proportionality

  /** What a tenant has got per unit of weight is no more than an unsatisfied tenant has got, but for
      one byte lost to rounding in each of so many rounds, and `slack` bytes. */
  ghost predicate Proportional(items: seq<TenantDemand>, granted: seq<nat>, rounds: nat, slack: nat)
    requires |items| == |granted|
  {
    forall i, j :: 0 <= i < |items| && 0 <= j < |items| && Active(items, granted, i) ==>
      InProportion(granted[j], items[j].weight, granted[i], items[i].weight, rounds, slack)
  }

  /** `got / weight <= (least + rounds) / per + slack / weight`, without the divisions. */
  ghost predicate InProportion(got: nat, weight: real, least: nat, per: real, rounds: nat, slack: nat) {
    got as real * per <= weight * (least + rounds) as real + slack as real * per
  }

  /** In one round nobody gets more than in proportion to a tenant that got its full portion. */
  lemma PortionsInProportion(remaining: nat, w: real, per: real, active: real, give: nat)
    requires active > 0.0 && w > 0.0 && per > 0.0 && give <= Portion(remaining, w, active)
    ensures give as real * per <= w * (Portion(remaining, per, active) + 1) as real
  {
    var mine, yours := Ratio(remaining, w, active), Ratio(remaining, per, active);
    assert give as real <= mine;
    ScaleUp(give as real, mine, per);
    RatioSwap(remaining, w, per, active);
    assert yours <= (Portion(remaining, per, active) + 1) as real;
    ScaleUp(yours, (Portion(remaining, per, active) + 1) as real, w);
  }

  lemma ScaleUp(a: real, b: real, c: real)
    requires a <= b && c > 0.0
    ensures a * c <= b * c
  {
  }

  lemma RatioSwap(remaining: nat, w: real, per: real, active: real)
    requires active > 0.0
    ensures Ratio(remaining, w, active) * per == w * Ratio(remaining, per, active)
  {
    var r := remaining as real;
    assert r * w * per == w * (r * per);
    assert r * w / active * per == r * w * per / active;
    assert w * (r * per / active) == w * (r * per) / active;
  }

  lemma ProportionAdds(a: nat, give: nat, w: real, b: nat, part: nat, per: real, rounds: nat)
    requires InProportion(a, w, b, per, rounds, 0) && give as real * per <= w * (part + 1) as real
    ensures InProportion(a + give, w, b + part, per, rounds + 1, 0)
  {
    assert (a + give) as real * per == a as real * per + give as real * per;
    assert w * (b + part + (rounds + 1)) as real == w * (b + rounds) as real + w * (part + 1) as real;
  }

  lemma RoundProportional(items: seq<TenantDemand>, granted: seq<nat>, after: seq<nat>, remaining: nat, active: real,
                          rounds: nat)
    requires Live(items) && Within(items, granted) && active > 0.0
    requires IsRound(items, granted, after, remaining, active) && Proportional(items, granted, rounds, 0)
    ensures Proportional(items, after, rounds + 1, 0)
  {
    forall i, j | 0 <= i < |items| && 0 <= j < |items| && Active(items, after, i)
      ensures InProportion(after[j], items[j].weight, after[i], items[i].weight, rounds + 1, 0)
    {
      var w, per := items[j].weight, items[i].weight;
      var give, part := Give(items, granted, remaining, active, j), Portion(remaining, per, active);
      PortionBounds(remaining, per, active);
      assert Active(items, granted, i) && Give(items, granted, remaining, active, i) == part;
      PortionsInProportion(remaining, w, per, active, give);
      ProportionAdds(granted[j], give, w, granted[i], part, per, rounds);
    }
  }

  /** A byte more against a byte more of slack, or a higher least, keep the proportion. */
  lemma ProportionRelaxed(got: nat, got': nat, w: real, least: nat, least': nat, per: real, rounds: nat, rounds': nat,
                          slack: nat, slack': nat)
    requires w > 0.0 && per > 0.0 && InProportion(got, w, least, per, rounds, slack)
    requires got' + slack <= got + slack' && least + rounds <= least' + rounds'
    ensures InProportion(got', w, least', per, rounds', slack')
  {
    Relax(got as real, got' as real, per, (least + rounds) as real, (least' + rounds') as real, w,
          slack as real, slack' as real);
  }

  lemma Relax(got: real, got': real, per: real, least: real, least': real, w: real, slack: real, slack': real)
    requires w > 0.0 && per > 0.0 && got * per <= w * least + slack * per
    requires got' <= got + (slack' - slack) && least <= least'
    ensures got' * per <= w * least' + slack' * per
  {
    var d := slack' - slack;
    ScaleUp(got', got + d, per);
    Distributes(got, d, per);
    Distributes(slack, d, per);
    assert slack + d == slack';
    ScaleUpLeft(least, least', w);
  }

  lemma Distributes(a: real, b: real, c: real)
    ensures (a + b) * c == a * c + b * c
  {
  }

  lemma ScaleUpLeft(a: real, b: real, c: real)
    requires a <= b && c > 0.0
    ensures c * a <= c * b
  {
  }

  lemma BytesProportional(items: seq<TenantDemand>, granted: seq<nat>, after: seq<nat>, rounds: nat)
    requires Live(items) && |items| == |granted| == |after| && Proportional(items, granted, rounds, 0)
    requires forall i :: 0 <= i < |items| ==> granted[i] <= after[i] <= granted[i] + 1
    ensures Proportional(items, after, rounds, 1)
  {
    forall i, j | 0 <= i < |items| && 0 <= j < |items| && Active(items, after, i)
      ensures InProportion(after[j], items[j].weight, after[i], items[i].weight, rounds, 1)
    {
      assert Active(items, granted, i);
      ProportionRelaxed(granted[j], after[j], items[j].weight, granted[i], after[i], items[i].weight,
                        rounds, rounds, 0, 1);
    }
  }

  /** More slack is never worse. */
  lemma ProportionalWeaker(items: seq<TenantDemand>, granted: seq<nat>, rounds: nat, slack: nat, rounds': nat)
    requires Live(items) && |items| == |granted| && Proportional(items, granted, rounds, slack)
    requires rounds <= rounds' && slack <= 1
    ensures Proportional(items, granted, rounds', 1)
  {
    forall i, j | 0 <= i < |items| && 0 <= j < |items| && Active(items, granted, i)
      ensures InProportion(granted[j], items[j].weight, granted[i], items[i].weight, rounds', 1)
    {
      ProportionRelaxed(granted[j], granted[j], items[j].weight, granted[i], granted[i], items[i].weight,
                        rounds, rounds', slack, 1);
    }
  }

  // ------------------------------------------------ the number of rounds

  /** Every round satisfies a tenant, or leaves fewer bytes than tenants, or uses up one of those. */
  ghost predicate Pace(items: seq<TenantDemand>, granted: seq<nat>, remaining: nat, rounds: nat)
    requires |items| == |granted|
  {
    rounds + ActiveCount(items, granted, |items|) <= |items| + (if remaining < |items| then |items| - remaining else 0)
  }

  lemma {:induction false} ActiveCountBound(items: seq<TenantDemand>, granted: seq<nat>, n: nat)
    requires n <= |items| == |granted|
    ensures ActiveCount(items, granted, n) <= n
  {
    if n > 0 {
      ActiveCountBound(items, granted, n - 1);
    }
  }

  /** Grants only grow, so active tenants only become fewer: fewer still if one is satisfied. */
  lemma {:induction false} ActiveCountFalls(items: seq<TenantDemand>, granted: seq<nat>, after: seq<nat>, n: nat)
    requires n <= |items| == |granted| == |after| && forall i :: 0 <= i < n ==> granted[i] <= after[i]
    ensures ActiveCount(items, after, n) <= ActiveCount(items, granted, n)
    ensures (exists i :: 0 <= i < n && Active(items, granted, i) && !Active(items, after, i)) ==>
              ActiveCount(items, after, n) < ActiveCount(items, granted, n)
  {
    if n > 0 {
      ActiveCountFalls(items, granted, after, n - 1);
    }
  }

  /** A round that satisfies nobody gives out everything but less than a byte per active tenant. */
  lemma {:induction false} FullRound(items: seq<TenantDemand>, granted: seq<nat>, after: seq<nat>, remaining: nat,
                                     active: real, n: nat)
    requires Live(items) && Within(items, granted) && n <= |items| && active > 0.0
    requires IsRound(items, granted, after, remaining, active)
    requires forall i :: 0 <= i < n && Active(items, granted, i) ==> Active(items, after, i)
    ensures Ratio(remaining, ActiveWeight(items, granted, n), active) <=
            (GiveSum(items, granted, remaining, active, n) + ActiveCount(items, granted, n)) as real
    ensures ActiveCount(items, granted, n) > 0 ==>
              Ratio(remaining, ActiveWeight(items, granted, n), active) <
              (GiveSum(items, granted, remaining, active, n) + ActiveCount(items, granted, n)) as real
  {
    if n > 0 {
      var i, before := n - 1, ActiveWeight(items, granted, n - 1);
      FullRound(items, granted, after, remaining, active, i);
      if Active(items, granted, i) {
        PortionBounds(remaining, items[i].weight, active);
        assert Active(items, after, i);
        assert Give(items, granted, remaining, active, i) == Portion(remaining, items[i].weight, active);
        RatioAdds(remaining, before, items[i].weight, ActiveWeight(items, granted, n), active);
      }
    } else {
      assert Ratio(remaining, 0.0, active) == 0.0;
    }
  }

  lemma FullRoundLeaves(items: seq<TenantDemand>, granted: seq<nat>, after: seq<nat>, remaining: nat, active: real)
    requires Live(items) && Within(items, granted) && active == ActiveWeight(items, granted, |items|) > 0.0
    requires IsRound(items, granted, after, remaining, active)
    requires forall i :: 0 <= i < |items| && Active(items, granted, i) ==> Active(items, after, i)
    ensures remaining < GiveSum(items, granted, remaining, active, |items|) + ActiveCount(items, granted, |items|)
  {
    FullRound(items, granted, after, remaining, active, |items|);
    ActiveWeightPositive(items, granted, |items|);
    assert Ratio(remaining, active, active) == remaining as real;
  }

  lemma RoundPace(items: seq<TenantDemand>, granted: seq<nat>, after: seq<nat>, remaining: nat, active: real,
                  rounds: nat, given: nat)
    requires Live(items) && Within(items, granted) && active == ActiveWeight(items, granted, |items|) > 0.0
    requires IsRound(items, granted, after, remaining, active) && Pace(items, granted, remaining, rounds)
    requires given == GiveSum(items, granted, remaining, active, |items|) && 0 < given <= remaining
    ensures Pace(items, after, remaining - given, rounds + 1)
  {
    var n := |items|;
    ActiveCountFalls(items, granted, after, n);
    ActiveCountBound(items, granted, n);
    if forall i :: 0 <= i < n && Active(items, granted, i) ==> Active(items, after, i) {
      FullRoundLeaves(items, granted, after, remaining, active);
    }
  }

  // ------------------------------------------------ water filling

  /** All that holds between rounds. */
  ghost predicate Underway(items: seq<TenantDemand>, granted: seq<nat>, capacity: nat, remaining: nat, rounds: nat)
    requires Live(items)
  {
    Progress(items, granted, capacity, remaining) &&
    Proportional(items, granted, rounds, if remaining > 0 then 0 else 1) &&
    Pace(items, granted, remaining, rounds)
  }

  lemma RoundUnderway(items: seq<TenantDemand>, granted: seq<nat>, after: seq<nat>, capacity: nat, remaining: nat,
                      active: real, rounds: nat, given: nat)
    requires Live(items) && Underway(items, granted, capacity, remaining, rounds) && remaining > 0
    requires active == ActiveWeight(items, granted, |items|) > 0.0
    requires IsRound(items, granted, after, remaining, active) && Within(items, after)
    requires given == GiveSum(items, granted, remaining, active, |items|) > 0 && Sum(after) == Sum(granted) + given
    ensures given <= remaining && Underway(items, after, capacity, remaining - given, rounds + 1)
  {
    RoundProgress(items, granted, after, capacity, remaining, active);
    RoundProportional(items, granted, after, remaining, active, rounds);
    RoundPace(items, granted, after, remaining, active, rounds, given);
    ProportionalWeaker(items, after, rounds + 1, 0, rounds + 1);
  }

  lemma BytesUnderway(items: seq<TenantDemand>, granted: seq<nat>, final: seq<nat>, capacity: nat, remaining: nat,
                      active: real, rounds: nat)
    requires Live(items) && Underway(items, granted, capacity, remaining, rounds) && remaining > 0
    requires active == ActiveWeight(items, granted, |items|) > 0.0
    requires GiveSum(items, granted, remaining, active, |items|) == 0
    requires Within(items, final)
    requires forall i :: 0 <= i < |items| ==> final[i] == granted[i] + OneByte(items, granted, remaining, i)
    requires Sum(final) == Sum(granted) + Min(remaining, ActiveCount(items, granted, |items|))
    ensures remaining < ActiveCount(items, granted, |items|) && Underway(items, final, capacity, 0, rounds)
  {
    BytesProgress(items, granted, final, capacity, remaining, active);
    BytesProportional(items, granted, final, rounds);
    ActiveCountFalls(items, granted, final, |items|);
  }

  /** Water filling: nobody gets more than it asked for, nothing is wasted, everybody gets its
      weighted part, the result is max-min fair to one byte and, but for two bytes per tenant lost
      to rounding, what is left over goes round in proportion to the weights. */
  method WaterFill(items: seq<TenantDemand>, capacity: nat) returns (granted: seq<nat>)
    requires Live(items)
    ensures Within(items, granted)
    ensures Sum(granted) == Min(capacity, DemandSum(items))
    ensures Fair(items, granted, 1)
    ensures Guaranteed(items, granted, capacity)
    ensures Proportional(items, granted, 2 * |items|, 1)
  {
    granted := seq(|items|, _ => 0);
    assert granted == NoGrants(items);
    var remaining := capacity;
    ghost var rounds := 0;
    Starts(items, capacity);
    while remaining > 0
      invariant Underway(items, granted, capacity, remaining, rounds)
    {
      var active := WeighActive(items, granted);
      ActiveWeightPositive(items, granted, |items|);
      if active <= 0.0 {
        break;
      }
      var after, distributed := ProportionalRound(items, granted, remaining, active);
      if distributed == 0 {
        var left;
        after, left, distributed := OneByteEach(items, granted, remaining);
        BytesUnderway(items, granted, after, capacity, remaining, active, rounds);
        assert left == 0 && distributed > 0;
        granted, remaining := after, left;
      } else {
        RoundUnderway(items, granted, after, capacity, remaining, active, rounds, distributed);
        granted, remaining, rounds := after, remaining - distributed, rounds + 1;
      }
    }
    Conclude(items, granted, capacity, remaining, rounds);
  }

  /** Before the first round nobody has got anything. */
  lemma Starts(items: seq<TenantDemand>, capacity: nat)
    requires Live(items)
    ensures Underway(items, NoGrants(items), capacity, capacity, 0)
  {
    SumZero(items);
    ActiveCountBound(items, NoGrants(items), |items|);
  }

  lemma {:induction false} SumZero(items: seq<TenantDemand>)
    ensures Sum(NoGrants(items)) == 0
  {
    if items != [] {
      var last := |items| - 1;
      SumZero(items[..last]);
      assert NoGrants(items)[..last] == NoGrants(items[..last]);
    }
  }

  lemma EntitledBounds(items: seq<TenantDemand>, capacity: nat, i: nat)
    requires Live(items) && i < |items|
    ensures Entitled(items, capacity, i) <= items[i].demandBytes
    ensures capacity == 0 ==> Entitled(items, capacity, i) == 0
  {
    TotalWeightPositive(items, i);
    assert Ratio(0, items[i].weight, TotalWeight(items)) == 0.0;
  }

  /** When the bytes or the demands run out, the result is complete. */
  lemma Conclude(items: seq<TenantDemand>, granted: seq<nat>, capacity: nat, remaining: nat, rounds: nat)
    requires Live(items) && Underway(items, granted, capacity, remaining, rounds)
    requires remaining == 0 || forall i :: 0 <= i < |items| ==> !Active(items, granted, i)
    ensures Sum(granted) == Min(capacity, DemandSum(items))
    ensures Fair(items, granted, 1)
    ensures Guaranteed(items, granted, capacity)
    ensures Proportional(items, granted, 2 * |items|, 1)
  {
    ProportionalWeaker(items, granted, rounds, if remaining > 0 then 0 else 1, 2 * |items|);
    SumWithin(items, granted);
    if remaining > 0 {
      AllSatisfied(items, granted);
    }
    forall i | 0 <= i < |items| ensures granted[i] >= Entitled(items, capacity, i) {
      EntitledBounds(items, capacity, i);
      assert remaining > 0 ==> !Active(items, granted, i);
    }
  }

  // ------------------------------------------------ from demands to grants

  predicate TakesPart(d: TenantDemand) {
    d.demandBytes > 0 && d.weight > 0.0
  }

  ghost function Eligible(demands: seq<TenantDemand>): (items: seq<TenantDemand>)
    ensures Live(items) && forall d :: d in items <==> d in demands && TakesPart(d)
  {
    if demands == [] then []
    else
      var before, last := Eligible(demands[..|demands| - 1]), demands[|demands| - 1];
      assert demands == demands[..|demands| - 1] + [last];
      if TakesPart(last) then before + [last] else before
  }

  ghost predicate DistinctTenants(demands: seq<TenantDemand>) {
    forall i, j :: 0 <= i < j < |demands| ==> demands[i].tenant != demands[j].tenant
  }

  lemma {:induction false} EligibleDistinct(demands: seq<TenantDemand>)
    requires DistinctTenants(demands)
    ensures DistinctTenants(Eligible(demands))
  {
    if demands != [] {
      var last := |demands| - 1;
      EligibleDistinct(demands[..last]);
      var items := Eligible(demands[..last]);
      forall i | 0 <= i < |items| ensures items[i].tenant != demands[last].tenant {
        assert items[i] in demands[..last];
      }
    }
  }

  ghost predicate Covers(demands: seq<TenantDemand>, grants: map<string, nat>) {
    forall i :: 0 <= i < |demands| ==> demands[i].tenant in grants
  }

  ghost function GrantSum(demands: seq<TenantDemand>, grants: map<string, nat>): nat
    requires Covers(demands, grants)
  {
    if demands == [] then 0
    else GrantSum(demands[..|demands| - 1], grants) + grants[demands[|demands| - 1].tenant]
  }

  /** The grants record `granted` for the eligible tenants and nothing for the others. */
  ghost predicate Records(demands: seq<TenantDemand>, granted: seq<nat>, grants: map<string, nat>)
    requires Covers(demands, grants)
  {
    |granted| == |Eligible(demands)| &&
    (forall i :: 0 <= i < |granted| ==>
       Eligible(demands)[i].tenant in grants && grants[Eligible(demands)[i].tenant] == granted[i]) &&
    (forall i :: 0 <= i < |demands| && !TakesPart(demands[i]) ==> grants[demands[i].tenant] == 0)
  }

  lemma {:induction false} RecordedSum(demands: seq<TenantDemand>, granted: seq<nat>, grants: map<string, nat>)
    requires Covers(demands, grants) && Records(demands, granted, grants)
    ensures GrantSum(demands, grants) == Sum(granted)
  {
    if demands != [] {
      var last := |demands| - 1;
      var n := |Eligible(demands[..last])|;
      assert Eligible(demands) ==
               Eligible(demands[..last]) + (if TakesPart(demands[last]) then [demands[last]] else []);
      assert forall i :: 0 <= i < n ==> Eligible(demands[..last])[i] == Eligible(demands)[i];
      RecordedSum(demands[..last], granted[..n], grants);
      assert !TakesPart(demands[last]) ==> granted[..n] == granted;
    }
  }

  lemma IndexOf(items: seq<TenantDemand>, d: TenantDemand) returns (i: nat)
    requires d in items
    ensures i < |items| && items[i] == d
  {
    i :| 0 <= i < |items| && items[i] == d;
  }

  ghost function Got(grants: map<string, nat>, d: TenantDemand): nat {
    if d.tenant in grants then grants[d.tenant] else 0
  }

  /** Max-min fairness to one byte: whoever is left wanting has no less than anybody of the
      same or smaller weight, give or take a byte. */
  ghost predicate MaxMinFair(demands: seq<TenantDemand>, grants: map<string, nat>) {
    forall d, e :: d in demands && e in demands && TakesPart(d) && TakesPart(e) && e.weight <= d.weight ==>
      (Got(grants, d) < d.demandBytes ==> Got(grants, e) <= Got(grants, d) + 1)
  }

  /** Weighted max-min fairness: per unit of weight nobody has more than a tenant that is left wanting,
      but for rounding. */
  ghost predicate WeightedFair(demands: seq<TenantDemand>, grants: map<string, nat>) {
    forall d, e :: d in demands && e in demands && TakesPart(d) && TakesPart(e) && Got(grants, d) < d.demandBytes ==>
      InProportion(Got(grants, e), e.weight, Got(grants, d), d.weight, 2 * |Eligible(demands)|, 1)
  }

  /** What the scheduler promises for distinct tenants. */
  ghost predicate FairAllocation(demands: seq<TenantDemand>, capacity: nat, grants: map<string, nat>) {
    Covers(demands, grants) &&
    (forall d :: d in demands ==> Got(grants, d) <= d.demandBytes) &&
    GrantSum(demands, grants) == Min(capacity, DemandSum(Eligible(demands))) &&
    (forall i :: 0 <= i < |Eligible(demands)| ==>
       Got(grants, Eligible(demands)[i]) >= Entitled(Eligible(demands), capacity, i)) &&
    MaxMinFair(demands, grants) && WeightedFair(demands, grants)
  }

  lemma RecordedFair(demands: seq<TenantDemand>, granted: seq<nat>, grants: map<string, nat>, capacity: nat)
    requires Covers(demands, grants) && Records(demands, granted, grants)
    requires var items := Eligible(demands);
             Within(items, granted) && Sum(granted) == Min(capacity, DemandSum(items)) && Fair(items, granted, 1) &&
             Guaranteed(items, granted, capacity) && Proportional(items, granted, 2 * |items|, 1)
    ensures FairAllocation(demands, capacity, grants)
  {
    var items := Eligible(demands);
    RecordedSum(demands, granted, grants);
    RecordedProportional(demands, granted, grants);
    forall d | d in demands ensures Got(grants, d) <= d.demandBytes {
      var k := IndexOf(demands, d);
      if TakesPart(d) {
        var i := IndexOf(items, d);
        assert grants[items[i].tenant] == granted[i] <= items[i].demandBytes;
      }
    }
    forall d, e | d in demands && e in demands && TakesPart(d) && TakesPart(e) && e.weight <= d.weight
      ensures Got(grants, d) < d.demandBytes ==> Got(grants, e) <= Got(grants, d) + 1
    {
      var i := IndexOf(items, d);
      var j := IndexOf(items, e);
      assert grants[items[i].tenant] == granted[i] && grants[items[j].tenant] == granted[j];
      assert Got(grants, d) < d.demandBytes ==> Active(items, granted, i);
    }
  }

  lemma RecordedProportional(demands: seq<TenantDemand>, granted: seq<nat>, grants: map<string, nat>)
    requires Covers(demands, grants) && Records(demands, granted, grants)
    requires Proportional(Eligible(demands), granted, 2 * |Eligible(demands)|, 1)
    ensures WeightedFair(demands, grants)
  {
    var items := Eligible(demands);
    forall d, e | d in demands && e in demands && TakesPart(d) && TakesPart(e) && Got(grants, d) < d.demandBytes
      ensures InProportion(Got(grants, e), e.weight, Got(grants, d), d.weight, 2 * |items|, 1)
    {
      var i := IndexOf(items, d);
      var j := IndexOf(items, e);
      assert grants[items[i].tenant] == granted[i] && grants[items[j].tenant] == granted[j];
      assert Active(items, granted, i);
    }
  }

  /** Equal weights: any two unsatisfied tenants differ by at most one byte. */
  lemma EqualWeights(demands: seq<TenantDemand>, capacity: nat, grants: map<string, nat>, d: TenantDemand,
                     e: TenantDemand)
    requires FairAllocation(demands, capacity, grants) && d in demands && e in demands
    requires TakesPart(d) && TakesPart(e) && d.weight == e.weight
    requires Got(grants, d) < d.demandBytes && Got(grants, e) < e.demandBytes
    ensures Got(grants, d) <= Got(grants, e) + 1 && Got(grants, e) <= Got(grants, d) + 1
  {
    assert MaxMinFair(demands, grants);
  }

  /** Start every tenant at zero and pick out those that take part. */
  method SelectEligible(demands: seq<TenantDemand>) returns (items: seq<TenantDemand>, grants: map<string, nat>)
    ensures items == Eligible(demands)
    ensures Covers(demands, grants) && forall i :: 0 <= i < |demands| ==> grants[demands[i].tenant] == 0
  {
    grants, items := map[], [];
    for i := 0 to |demands|
      invariant items == Eligible(demands[..i])
      invariant forall j :: 0 <= j < i ==> demands[j].tenant in grants && grants[demands[j].tenant] == 0
    {
      assert demands[..i + 1][..i] == demands[..i];
      grants := grants[demands[i].tenant := 0];
      if TakesPart(demands[i]) {
        items := items + [demands[i]];
      }
    }
    assert demands[..|demands|] == demands;
  }

  /** Write the eligible tenants' grants into the result. */
  method RecordGrants(demands: seq<TenantDemand>, items: seq<TenantDemand>, granted: seq<nat>, zero: map<string, nat>)
    returns (grants: map<string, nat>)
    requires items == Eligible(demands) && |granted| == |items|
    requires Covers(demands, zero) && forall i :: 0 <= i < |demands| ==> zero[demands[i].tenant] == 0
    ensures Covers(demands, grants)
    ensures DistinctTenants(demands) ==> Records(demands, granted, grants)
  {
    if DistinctTenants(demands) {
      EligibleDistinct(demands);
    }
    grants := zero;
    for i := 0 to |items|
      invariant Covers(demands, grants)
      invariant forall j :: 0 <= j < i ==> items[j].tenant in grants
      invariant DistinctTenants(demands) ==> forall j :: 0 <= j < i ==> grants[items[j].tenant] == granted[j]
      invariant DistinctTenants(demands) ==>
                  forall k :: 0 <= k < |demands| && !TakesPart(demands[k]) ==> grants[demands[k].tenant] == 0
    {
      assert items[i] in items;
      ghost var q := IndexOf(demands, items[i]);
      assert DistinctTenants(demands) ==> forall k :: 0 <= k < |demands| && k != q ==>
               demands[k].tenant != items[i].tenant;
      grants := grants[items[i].tenant := granted[i]];
    }
  }

  method AllocateFairShare(demands: seq<TenantDemand>, capacity: nat) returns (grants: map<string, nat>)
    ensures Covers(demands, grants)
    ensures DistinctTenants(demands) ==> FairAllocation(demands, capacity, grants)
  {
    var items, zero := SelectEligible(demands);
    var granted := WaterFill(items, capacity);
    grants := RecordGrants(demands, items, granted, zero);
    if DistinctTenants(demands) {
      RecordedFair(demands, granted, grants, capacity);
    }
  }
}
