/** Usage pricing: the encrypted circuits, the plaintext loop, and the validators that make them agree. */
module Pricing {
  import opened Base

  const MAX_SAFE_USAGE_UNITS: u64 := 1_000_000_000_000
  const MAX_SAFE_USAGE_RATE_PER_UNIT: u64 := U64_MAX / MAX_SAFE_USAGE_UNITS / 5
  const MAX_SAFE_USAGE_CHARGE: u64 := MAX_SAFE_USAGE_UNITS * MAX_SAFE_USAGE_RATE_PER_UNIT

  /** `upTo == 0` marks an unlimited tier. */
  datatype Tier = Tier(upTo: u64, rate: u64)

  const NO_TIER := Tier(0, 0)

  // ---------------------------------------------------------------- the reference price

  /** Whether unit number `unit`, counted from one, falls within tier `i` or an earlier one. */
  predicate Reaches(t: Tier, unit: int) {
    t.upTo == 0 || unit <= t.upTo
  }

  /** The rate of the first tier that holds the unit; units past the last bound are free. */
  function UnitRate(tiers: seq<Tier>, unit: int): nat {
    if tiers == [] then 0
    else if Reaches(tiers[0], unit) then tiers[0].rate
    else UnitRate(tiers[1..], unit)
  }

  /** Units `lo + 1` to `hi`, each at its own rate. */
  function PriceUnits(tiers: seq<Tier>, lo: int, hi: int): nat
    decreases hi - lo
  {
    if hi <= lo then 0 else PriceUnits(tiers, lo, hi - 1) + UnitRate(tiers, hi)
  }

  function Price(tiers: seq<Tier>, units: u64, cap: u64): u64 {
    Min(PriceUnits(tiers, 0, units), cap)
  }

  // ---------------------------------------------------------------- what the validators accept

  /** Bounds strictly increase, and only the last tier may be unlimited. */
  predicate OrderedTiers(tiers: seq<Tier>) {
    && 0 < |tiers| <= 5
    && (forall i :: 0 <= i < |tiers| - 1 ==> tiers[i].upTo != 0)
    && (forall i :: 0 < i < |tiers| && tiers[i].upTo != 0 ==> tiers[i - 1].upTo < tiers[i].upTo)
  }

  predicate BoundedTiers(tiers: seq<Tier>) {
    forall i :: 0 <= i < |tiers| ==>
      tiers[i].rate <= MAX_SAFE_USAGE_RATE_PER_UNIT && tiers[i].upTo <= MAX_SAFE_USAGE_UNITS
  }

  /** The verdict on the order of the tiers. */
  function BoundariesError(tiers: seq<Tier>): Result<()> {
    var _ :- Need(0 < |tiers| <= 5, InvalidTierCount);
    Need(OrderedTiers(tiers), InvalidTierBoundary)
  }

  /** The verdict on their size, and on the cap. */
  function BoundsError(tiers: seq<Tier>, maxCharge: u64): Result<()> {
    Need(maxCharge <= MAX_SAFE_USAGE_CHARGE && BoundedTiers(tiers), UsagePricingOverflowRisk)
  }

  /** The validators accept one to five tiers, of which only the last may be unlimited and each other ends after the one
      before it, with caps, rates and bounds in the safe envelope. */
  lemma ValidatorsAcceptIff(tiers: seq<Tier>, maxCharge: u64)
    ensures BoundariesError(tiers).Ok? <==>
              && 1 <= |tiers| <= 5 && (forall i :: 0 <= i < |tiers| && tiers[i].upTo == 0 ==> i == |tiers| - 1)
              && (forall i :: 1 <= i < |tiers| && tiers[i].upTo != 0 ==> tiers[i].upTo > tiers[i - 1].upTo)
    ensures BoundsError(tiers, maxCharge).Ok? <==>
              && maxCharge <= MAX_SAFE_USAGE_CHARGE
              && forall i :: 0 <= i < |tiers| ==>
                   tiers[i].rate <= MAX_SAFE_USAGE_RATE_PER_UNIT && tiers[i].upTo <= MAX_SAFE_USAGE_UNITS
  {
  }

  method ValidateUsageTierBoundaries(tiers: seq<Tier>) returns (r: Result<()>)
    ensures r == BoundariesError(tiers)
  {
    var _ :- Need(0 < |tiers| && |tiers| <= 5, InvalidTierCount);
    var lastIndex := |tiers| - 1;
    for index := 0 to |tiers|
      invariant forall i :: 0 <= i < index && i < lastIndex ==> tiers[i].upTo != 0
      invariant forall i :: 0 < i < index && tiers[i].upTo != 0 ==> tiers[i - 1].upTo < tiers[i].upTo
    {
      var tier := tiers[index];
      if tier.upTo == 0 {
        var _ :- Need(index == lastIndex, InvalidTierBoundary);
        continue;
      }
      if index > 0 {
        var _ :- Need(tier.upTo > tiers[index - 1].upTo, InvalidTierBoundary);
      }
    }
    return Ok(());
  }

  method ValidateUsagePricingBounds(tiers: seq<Tier>, maxCharge: u64) returns (r: Result<()>)
    ensures r == BoundsError(tiers, maxCharge)
  {
    var _ :- Need(maxCharge <= MAX_SAFE_USAGE_CHARGE, UsagePricingOverflowRisk);
    for index := 0 to |tiers|
      invariant BoundedTiers(tiers[..index])
    {
      var tier := tiers[index];
      var _ :- Need(tier.rate <= MAX_SAFE_USAGE_RATE_PER_UNIT, UsagePricingOverflowRisk);
      if tier.upTo != 0 {
        var _ :- Need(tier.upTo <= MAX_SAFE_USAGE_UNITS, UsagePricingOverflowRisk);
      }
      assert tiers[..index + 1] == tiers[..index] + [tier];
    }
    assert tiers[..|tiers|] == tiers;
    return Ok(());
  }

  // ---------------------------------------------------------------- stored plans

  /** The pricing fields of a stored usage plan: five tier slots, the first `tierCount` in use. */
  class UsagePlan {
    const merchant: Key
    var tiers: seq<Tier>
    var tierCount: u8
    var maxChargePerPeriod: u64
    var settlementFrequency: u64

    /** Shape every stored plan has, legacy ones included. */
    predicate Shaped()
      reads this
    {
      |tiers| == 5 && tierCount <= 5
    }

    function Active(): seq<Tier>
      reads this
      requires Shaped()
    {
      tiers[..tierCount]
    }

    /** A plan both validators accept, with its unused slots zeroed. */
    predicate Valid()
      reads this
    {
      && Shaped()
      && OrderedTiers(Active()) && BoundedTiers(Active())
      && 0 < maxChargePerPeriod <= MAX_SAFE_USAGE_CHARGE
      && settlementFrequency > 0
    }

    constructor (merchant: Key, tiers: seq<Tier>, tierCount: u8, maxCharge: u64, frequency: u64)
      ensures this.merchant == merchant && this.tiers == tiers && this.tierCount == tierCount
      ensures maxChargePerPeriod == maxCharge && settlementFrequency == frequency
    {
      this.merchant, this.tiers, this.tierCount := merchant, tiers, tierCount;
      maxChargePerPeriod, settlementFrequency := maxCharge, frequency;
    }

    /** The first thing wrong with an update, in the order the instruction looks. */
    function UpdateError(signer: Key, newTiers: Option<seq<Tier>>, maxCharge: Option<u64>, frequency: Option<u64>)
      : Result<()>
      reads this
      requires Shaped()
    {
      var nextMaxCharge := OrElse(maxCharge, maxChargePerPeriod);
      var _ :- Need(newTiers.Some? || maxCharge.Some? || frequency.Some?, NoUpdateProvided);
      var _ :- Need(signer == merchant, UnauthorizedCancel);
      var _ :- if newTiers.Some? then BoundariesError(newTiers.value) else Ok(());
      var _ :- if newTiers.Some? then BoundsError(newTiers.value, nextMaxCharge) else Ok(());
      var _ :- Need(maxCharge.Some? ==> maxCharge.value > 0, InvalidAmount);
      var _ :- if newTiers.None? then BoundsError(Active(), nextMaxCharge) else Ok(());
      Need(frequency.Some? ==> frequency.value > 0, InvalidFrequency)
    }

    /** An update is accepted exactly from the merchant, when it names something and the pricing it leaves is in bounds,
        with new tiers in order and neither cap nor frequency set to zero. */
    lemma UpdateAcceptedIff(signer: Key, newTiers: Option<seq<Tier>>, maxCharge: Option<u64>, frequency: Option<u64>)
      requires Shaped()
      ensures UpdateError(signer, newTiers, maxCharge, frequency).Ok? <==>
                && signer == merchant && (newTiers.Some? || maxCharge.Some? || frequency.Some?)
                && (newTiers.Some? ==> OrderedTiers(newTiers.value))
                && BoundedTiers(OrElse(newTiers, Active()))
                && OrElse(maxCharge, maxChargePerPeriod) <= MAX_SAFE_USAGE_CHARGE
                && maxCharge != Some(0) && frequency != Some(0)
    {
      hide BoundedTiers;
    }

    /** Change any of tiers, cap and frequency: a refused update changes nothing, and an accepted one leaves
        pricing within bounds. The order of the tiers is checked only when new tiers are given. */
    method UpdateUsagePlan(signer: Key, newTiers: Option<seq<Tier>>, maxCharge: Option<u64>, frequency: Option<u64>)
      returns (r: Result<()>)
      requires Shaped()
      modifies this
      ensures Shaped() && r == old(UpdateError(signer, newTiers, maxCharge, frequency))
      ensures r.Err? ==> unchanged(this)
      ensures r.Ok? ==>
                && Active() == OrElse(newTiers, old(Active()))
                && maxChargePerPeriod == OrElse(maxCharge, old(maxChargePerPeriod))
                && settlementFrequency == OrElse(frequency, old(settlementFrequency))
                && BoundedTiers(Active()) && maxChargePerPeriod <= MAX_SAFE_USAGE_CHARGE
      ensures r.Ok? && old(Valid()) ==> Valid()
      ensures r.Ok? ==> (OrderedTiers(Active()) <==> newTiers.Some? || OrderedTiers(old(Active())))
    {
      var _ :- Need(newTiers.Some? || maxCharge.Some? || frequency.Some?, NoUpdateProvided);
      var _ :- Need(signer == merchant, UnauthorizedCancel);
      var plan := new UsagePlan(merchant, tiers, tierCount, maxChargePerPeriod, settlementFrequency);
      var nextMaxCharge := if maxCharge.Some? then maxCharge.value else plan.maxChargePerPeriod;
      if newTiers.Some? {
        var _ :- ValidateUsageTierBoundaries(newTiers.value);
        var _ :- ValidateUsagePricingBounds(newTiers.value, nextMaxCharge);
        plan.tiers := PadTiers(newTiers.value);
        plan.tierCount := |newTiers.value|;
      }
      if maxCharge.Some? {
        var _ :- Need(maxCharge.value > 0, InvalidAmount);
        plan.maxChargePerPeriod := maxCharge.value;
      }
      if newTiers.None? {
        var _ :- ValidateUsagePricingBounds(plan.tiers[..plan.tierCount], plan.maxChargePerPeriod);
      }
      if frequency.Some? {
        var _ :- Need(frequency.value > 0, InvalidFrequency);
        plan.settlementFrequency := frequency.value;
      }
      tiers, tierCount := plan.tiers, plan.tierCount;
      maxChargePerPeriod, settlementFrequency := plan.maxChargePerPeriod, plan.settlementFrequency;
      return Ok(());
    }
  }

  /** The tiers copied into five slots, the unused ones zero. */
  method PadTiers(tiers: seq<Tier>) returns (slots: seq<Tier>)
    requires |tiers| <= 5
    ensures |slots| == 5 && slots[..|tiers|] == tiers
    ensures forall i :: |tiers| <= i < 5 ==> slots[i] == NO_TIER
  {
    slots := [NO_TIER, NO_TIER, NO_TIER, NO_TIER, NO_TIER];
    for i := 0 to |tiers|
      invariant |slots| == 5 && slots[..i] == tiers[..i]
      invariant forall k :: i <= k < 5 ==> slots[k] == NO_TIER
    {
      slots := slots[i := tiers[i]];
    }
  }

  /** The first thing wrong with a new plan. */
  function CreateError(tiers: seq<Tier>, maxCharge: u64, frequency: u64): Result<()> {
    var _ :- BoundariesError(tiers);
    var _ :- Need(maxCharge > 0, InvalidAmount);
    var _ :- Need(frequency > 0, InvalidFrequency);
    BoundsError(tiers, maxCharge)
  }

  /** Every plan that is created is valid, and exactly the acceptable parameters create one. */
  method CreateUsagePlan(merchant: Key, tiers: seq<Tier>, maxCharge: u64, frequency: u64) returns (r: Result<UsagePlan>)
    ensures match CreateError(tiers, maxCharge, frequency)
            case Err(e) => r == Err(e)
            case Ok(_) => r.Ok? && fresh(r.value)
    ensures r.Ok? <==> OrderedTiers(tiers) && BoundedTiers(tiers) && 0 < maxCharge <= MAX_SAFE_USAGE_CHARGE
                       && frequency > 0
    ensures r.Ok? ==> r.value.Valid() && r.value.merchant == merchant && r.value.Active() == tiers
                      && r.value.maxChargePerPeriod == maxCharge && r.value.settlementFrequency == frequency
  {
    var _ :- ValidateUsageTierBoundaries(tiers);
    var _ :- Need(maxCharge > 0, InvalidAmount);
    var _ :- Need(frequency > 0, InvalidFrequency);
    var _ :- ValidateUsagePricingBounds(tiers, maxCharge);
    var slots := PadTiers(tiers);
    var plan := new UsagePlan(merchant, slots, |tiers|, maxCharge, frequency);
    return Ok(plan);
  }

  // ---------------------------------------------------------------- machine arithmetic

  const TWO64: int := U64_MAX + 1

  /** What circuit arithmetic yields: the low 64 bits. */
  function Wrap(x: nat): u64 {
    x % TWO64
  }

  function Times(x: nat, y: nat): nat {
    x * y
  }

  function Saturate(x: nat): u64 {
    Min(x, U64_MAX)
  }

  // ---------------------------------------------------------------- the plaintext loop

  datatype Acc = Acc(total: u64, bound: u64)

  /** One pass of the loop: charge the units of this tier, and move the bound unless it is unlimited. */
  function LoopStep(acc: Acc, t: Tier, units: u64): Acc {
    var upper := if t.upTo == 0 then units else Min(units, t.upTo);
    var inTier := Max(upper - acc.bound, 0);
    Acc(Saturate(acc.total + Saturate(Times(inTier, t.rate))), if t.upTo != 0 then t.upTo else acc.bound)
  }

  function Loop(tiers: seq<Tier>, units: u64): Acc {
    if tiers == [] then Acc(0, 0) else LoopStep(Loop(tiers[..|tiers| - 1], units), tiers[|tiers| - 1], units)
  }

  /** The plaintext model: a loop over at most five tiers with saturating accumulators. */
  method TieredPricingPlaintextModel(units: u64, tiers: seq<Tier>, tierCount: u8, maxCharge: u64) returns (r: u64)
    requires |tiers| == 5
    ensures r == Min(Loop(tiers[..Min(tierCount, 5)], units).total, maxCharge)
    ensures var active := tiers[..Min(tierCount, 5)];
            OrderedTiers(active) && BoundedTiers(active) && units <= MAX_SAFE_USAGE_UNITS ==>
              r == Price(active, units, maxCharge)
  {
    hide Times, OrderedTiers, BoundedTiers, Price;
    var totalCharge: u64 := 0;
    var previousBound: u64 := 0;
    var n := Min(tierCount, 5);
    for i := 0 to n
      invariant Acc(totalCharge, previousBound) == Loop(tiers[..i], units)
    {
      var boundary := tiers[i].upTo;
      var upper := if boundary == 0 then units else Min(units, boundary);
      var unitsInTier := Max(upper - previousBound, 0);
      totalCharge := Saturate(totalCharge + Saturate(Times(unitsInTier, tiers[i].rate)));
      if boundary != 0 {
        previousBound := boundary;
      }
      assert tiers[..i + 1][..i] == tiers[..i];
    }
    r := Min(totalCharge, maxCharge);
    LoopIsPrice(tiers[..n], units, maxCharge);
  }

  lemma {:induction false} LoopIsPrice(tiers: seq<Tier>, units: u64, maxCharge: u64)
    ensures OrderedTiers(tiers) && BoundedTiers(tiers) && units <= MAX_SAFE_USAGE_UNITS ==>
              Min(Loop(tiers, units).total, maxCharge) == Price(tiers, units, maxCharge)
  {
    hide OrderedTiers, BoundedTiers, Loop, PriceUnits;
    if OrderedTiers(tiers) && BoundedTiers(tiers) && units <= MAX_SAFE_USAGE_UNITS {
      LoopPricesUnits(tiers, units);
    }
  }

  // ---------------------------------------------------------------- the circuits

  /** Single-tier circuit: it never looks at the bound of the tier. */
  function UsageCharge(units: u64, rate: u64, maxCharge: u64): u64 {
    var charge := Wrap(Times(units, rate));
    if charge > maxCharge then maxCharge else charge
  }

  /** The units the unrolled circuit charges to tier `i`; the lower bound is the neighbour's, zero or not. */
  function CircuitUnits(tiers: seq<Tier>, i: nat, units: u64): u64
    requires i < |tiers|
  {
    var upper := if tiers[i].upTo == 0 || units <= tiers[i].upTo then units else tiers[i].upTo;
    var lower := if i == 0 then 0 else tiers[i - 1].upTo;
    if upper > lower then upper - lower else 0
  }

  function CircuitCharge(tiers: seq<Tier>, i: nat, units: u64): u64
    requires i < |tiers|
  {
    Wrap(Times(CircuitUnits(tiers, i, units), tiers[i].rate))
  }

  function CircuitTotal(tiers: seq<Tier>, n: nat, units: u64): u64
    requires n <= |tiers|
  {
    if n == 0 then 0 else Wrap(CircuitTotal(tiers, n - 1, units) + CircuitCharge(tiers, n - 1, units))
  }

  /** The unrolled circuit on five slots: every tier is evaluated, the inactive ones add zero. */
  method TieredPricing(units: u64, tiers: seq<Tier>, tierCount: u8, maxCharge: u64) returns (r: u64)
    requires |tiers| == 5
    ensures r == Min(CircuitTotal(tiers, Min(tierCount, 5), units), maxCharge)
    ensures var active := tiers[..Min(tierCount, 5)];
            OrderedTiers(active) && BoundedTiers(active) && units <= MAX_SAFE_USAGE_UNITS ==>
              r == Price(active, units, maxCharge)
  {
    hide CircuitTotal, CircuitCharge, Wrap, Times, OrderedTiers, BoundedTiers, Price;
    var active0, active1, active2 := 0 < tierCount, 1 < tierCount, 2 < tierCount;
    var active3, active4 := 3 < tierCount, 4 < tierCount;
    var totalCharge: u64 := 0;
    CircuitStart(tiers, units);

    var unlimited0 := active0 && tiers[0].upTo == 0;
    var units0 := if unlimited0 then units else if units > tiers[0].upTo then tiers[0].upTo else units;
    var charge0 := if active0 then Wrap(Times(units0, tiers[0].rate)) else 0;
    CircuitNext(tiers, 0, tierCount, units, totalCharge, charge0);
    totalCharge := Wrap(totalCharge + charge0);

    var charge1 := CircuitTier(units, tiers[0].upTo, tiers[1], active1);
    CircuitNext(tiers, 1, tierCount, units, totalCharge, charge1);
    totalCharge := Wrap(totalCharge + charge1);
    var charge2 := CircuitTier(units, tiers[1].upTo, tiers[2], active2);
    CircuitNext(tiers, 2, tierCount, units, totalCharge, charge2);
    totalCharge := Wrap(totalCharge + charge2);
    var charge3 := CircuitTier(units, tiers[2].upTo, tiers[3], active3);
    CircuitNext(tiers, 3, tierCount, units, totalCharge, charge3);
    totalCharge := Wrap(totalCharge + charge3);
    var charge4 := CircuitTier(units, tiers[3].upTo, tiers[4], active4);
    CircuitNext(tiers, 4, tierCount, units, totalCharge, charge4);
    totalCharge := Wrap(totalCharge + charge4);

    r := if totalCharge > maxCharge then maxCharge else totalCharge;
    CircuitIsPrice(tiers, Min(tierCount, 5), units, maxCharge);
  }

  lemma {:induction false} CircuitIsPrice(tiers: seq<Tier>, n: nat, units: u64, maxCharge: u64)
    requires |tiers| == 5 && n <= 5
    ensures OrderedTiers(tiers[..n]) && BoundedTiers(tiers[..n]) && units <= MAX_SAFE_USAGE_UNITS ==>
              Min(CircuitTotal(tiers, n, units), maxCharge) == Price(tiers[..n], units, maxCharge)
  {
    hide CircuitTotal, PriceUnits, OrderedTiers, BoundedTiers;
    if OrderedTiers(tiers[..n]) && BoundedTiers(tiers[..n]) && units <= MAX_SAFE_USAGE_UNITS {
      CircuitIgnoresUnused(tiers, n, n, units);
      CircuitPricesUnits(tiers[..n], n, units);
    }
  }

  /** One of the later tiers of the unrolled circuit. */
  method CircuitTier(units: u64, lower: u64, tier: Tier, active: bool) returns (charge: u64)
    ensures charge == if !active then 0
                      else
                        var upper := if tier.upTo == 0 || units <= tier.upTo then units else tier.upTo;
                        Wrap(Times(if upper > lower then upper - lower else 0, tier.rate))
  {
    hide Wrap, Times;
    var unlimited := active && tier.upTo == 0;
    var upper := if unlimited then units else if units > tier.upTo then tier.upTo else units;
    var unitsInTier := if upper > lower then upper - lower else 0;
    charge := if active then Wrap(Times(unitsInTier, tier.rate)) else 0;
  }

  lemma {:induction false} CircuitStart(tiers: seq<Tier>, units: u64)
    ensures CircuitTotal(tiers, 0, units) == 0
  {
  }

  /** Adding the charge of the next slot, active or not, keeps the running total of the active tiers. */
  lemma {:induction false} CircuitNext(tiers: seq<Tier>, i: nat, tierCount: u8, units: u64, total: u64, charge: u64)
    requires i < |tiers| && total == CircuitTotal(tiers, Min(tierCount, i), units)
    requires charge == if i < tierCount then Wrap(Times(CircuitUnits(tiers, i, units), tiers[i].rate)) else 0
    ensures Wrap(total + charge) == CircuitTotal(tiers, Min(tierCount, i + 1), units)
  {
    hide Times, CircuitUnits;
  }

  // ---------------------------------------------------------------- both are the reference price

  lemma {:induction false} CircuitIgnoresUnused(tiers: seq<Tier>, n: nat, k: nat, units: u64)
    requires k <= n <= |tiers|
    ensures CircuitTotal(tiers, k, units) == CircuitTotal(tiers[..n], k, units)
  {
    hide Wrap, Times;
    if k > 0 {
      CircuitIgnoresUnused(tiers, n, k - 1, units);
      assert CircuitUnits(tiers, k - 1, units) == CircuitUnits(tiers[..n], k - 1, units);
    }
  }

  /** The bound up to which the first `n` tiers have been charged. */
  function Upper(tiers: seq<Tier>, n: nat, units: u64): u64
    requires n <= |tiers|
  {
    if n == 0 then 0
    else if tiers[n - 1].upTo == 0 || units <= tiers[n - 1].upTo then units
    else tiers[n - 1].upTo
  }

  lemma {:induction false} RateInTier(tiers: seq<Tier>, i: nat, unit: int)
    requires i < |tiers| && OrderedTiers(tiers)
    requires (i == 0 || tiers[i - 1].upTo < unit) && Reaches(tiers[i], unit)
    ensures UnitRate(tiers, unit) == tiers[i].rate
  {
    BoundsIncrease(tiers, i);
    SkipTiers(tiers, i, unit);
  }

  lemma {:induction false} BoundsIncrease(tiers: seq<Tier>, i: nat)
    requires i < |tiers| && OrderedTiers(tiers)
    ensures forall j :: 0 <= j < i ==> 0 < tiers[j].upTo && (i > 0 ==> tiers[j].upTo <= tiers[i - 1].upTo)
  {
    if i > 0 {
      BoundsIncrease(tiers, i - 1);
    }
  }

  lemma {:induction false} SkipTiers(tiers: seq<Tier>, i: nat, unit: int)
    requires i < |tiers| && Reaches(tiers[i], unit)
    requires forall j :: 0 <= j < i ==> !Reaches(tiers[j], unit)
    ensures UnitRate(tiers, unit) == tiers[i].rate
  {
    if i > 0 {
      SkipTiers(tiers[1..], i - 1, unit);
    }
  }

  /** A run of units that all lie in tier `i` costs its length times the rate of the tier. */
  lemma {:induction false} PriceOneTier(tiers: seq<Tier>, i: nat, lo: int, hi: int)
    requires i < |tiers| && OrderedTiers(tiers)
    requires 0 <= lo <= hi && (i == 0 || tiers[i - 1].upTo <= lo) && (hi == lo || Reaches(tiers[i], hi))
    ensures PriceUnits(tiers, lo, hi) == Times(hi - lo, tiers[i].rate)
    decreases hi - lo
  {
    hide Times;
    TimesStep(0, tiers[i].rate);
    if lo < hi {
      PriceOneTier(tiers, i, lo, hi - 1);
      RateInTier(tiers, i, hi);
      TimesStep(hi - 1 - lo, tiers[i].rate);
    }
  }

  lemma TimesStep(x: nat, y: nat)
    ensures Times(0, y) == 0 && Times(x + 1, y) == Times(x, y) + y
  {
  }

  lemma {:induction false} PriceSplits(tiers: seq<Tier>, lo: int, mid: int, hi: int)
    requires lo <= mid <= hi
    ensures PriceUnits(tiers, lo, hi) == PriceUnits(tiers, lo, mid) + PriceUnits(tiers, mid, hi)
    decreases hi - mid
  {
    if mid < hi {
      PriceSplits(tiers, lo, mid, hi - 1);
    }
  }

  /** One more tier: the reference price grows by the units of that tier at its rate. */
  lemma {:induction false} NextTier(tiers: seq<Tier>, n: nat, units: u64)
    requires 0 < n <= |tiers| && OrderedTiers(tiers)
    ensures Upper(tiers, n - 1, units) <= Upper(tiers, n, units) <= units
    ensures CircuitUnits(tiers, n - 1, units) == Upper(tiers, n, units) - Upper(tiers, n - 1, units)
    ensures PriceUnits(tiers, 0, Upper(tiers, n, units))
         == PriceUnits(tiers, 0, Upper(tiers, n - 1, units))
            + Times(CircuitUnits(tiers, n - 1, units), tiers[n - 1].rate)
  {
    var lo, hi := Upper(tiers, n - 1, units), Upper(tiers, n, units);
    PriceSplits(tiers, 0, lo, hi);
    if lo < hi {
      PriceOneTier(tiers, n - 1, lo, hi);
    }
  }

  /** Within the safe envelope no tier leaves 64 bits. */
  lemma {:induction false} TierFits(tiers: seq<Tier>, i: nat, units: u64)
    requires i < |tiers| && BoundedTiers(tiers) && units <= MAX_SAFE_USAGE_UNITS
    ensures CircuitUnits(tiers, i, units) <= units
    ensures Times(CircuitUnits(tiers, i, units), tiers[i].rate) <= 3_689_348_000_000_000_000
  {
    hide CircuitUnits;
    CircuitUnitsBound(tiers, i, units);
    Envelope();
    TimesMonotone(CircuitUnits(tiers, i, units), 1_000_000_000_000, tiers[i].rate, 3_689_348);
  }

  lemma {:induction false} CircuitUnitsBound(tiers: seq<Tier>, i: nat, units: u64)
    requires i < |tiers|
    ensures CircuitUnits(tiers, i, units) <= units
  {
  }

  /** The envelope in figures: five full tiers of it fit in 64 bits. */
  lemma Envelope()
    ensures MAX_SAFE_USAGE_RATE_PER_UNIT == 3_689_348
    ensures MAX_SAFE_USAGE_CHARGE == 3_689_348_000_000_000_000 && 5 * MAX_SAFE_USAGE_CHARGE <= U64_MAX
  {
  }

  lemma TimesMonotone(x: nat, x': nat, y: nat, y': nat)
    requires x <= x' && y <= y'
    ensures Times(x, y) <= Times(x', y')
  {
    assert x * y <= x' * y;
    assert x' * y <= x' * y';
  }

  lemma WrapSmall(x: nat)
    requires x <= U64_MAX
    ensures Wrap(x) == x
  {
  }

  /** Main pricing theorem for the circuit: nothing wraps, and the total is the unit-by-unit price. */
  lemma {:induction false} CircuitPricesUnits(tiers: seq<Tier>, n: nat, units: u64)
    requires n <= |tiers| && OrderedTiers(tiers) && BoundedTiers(tiers) && units <= MAX_SAFE_USAGE_UNITS
    ensures CircuitTotal(tiers, n, units) == PriceUnits(tiers, 0, Upper(tiers, n, units))
    ensures CircuitTotal(tiers, n, units) <= n * 3_689_348_000_000_000_000
    ensures n == |tiers| ==> CircuitTotal(tiers, n, units) == PriceUnits(tiers, 0, units)
  {
    hide Times, Wrap, CircuitUnits;
    if n > 0 {
      CircuitPricesUnits(tiers, n - 1, units);
      NextTier(tiers, n, units);
      TierFits(tiers, n - 1, units);
      WrapSmall(Times(CircuitUnits(tiers, n - 1, units), tiers[n - 1].rate));
      WrapSmall(PriceUnits(tiers, 0, Upper(tiers, n, units)));
    }
    if n == |tiers| {
      BeyondLastTierFree(tiers, units);
    }
  }

  /** Units past a bounded last tier cost nothing. */
  lemma {:induction false} BeyondLastTierFree(tiers: seq<Tier>, units: u64)
    requires OrderedTiers(tiers)
    ensures PriceUnits(tiers, 0, units) == PriceUnits(tiers, 0, Upper(tiers, |tiers|, units))
  {
    var last := Upper(tiers, |tiers|, units);
    PriceSplits(tiers, 0, last, units);
    if last < units {
      FreeUnits(tiers, last, units);
    }
  }

  lemma {:induction false} FreeUnits(tiers: seq<Tier>, lo: int, hi: int)
    requires OrderedTiers(tiers) && tiers[|tiers| - 1].upTo != 0 && tiers[|tiers| - 1].upTo <= lo <= hi
    ensures PriceUnits(tiers, lo, hi) == 0
    decreases hi - lo
  {
    if lo < hi {
      FreeUnits(tiers, lo, hi - 1);
      BoundsIncrease(tiers, |tiers| - 1);
      NoTierHolds(tiers, hi);
    }
  }

  lemma {:induction false} NoTierHolds(tiers: seq<Tier>, unit: int)
    requires forall j :: 0 <= j < |tiers| ==> !Reaches(tiers[j], unit)
    ensures UnitRate(tiers, unit) == 0
  {
    if tiers != [] {
      NoTierHolds(tiers[1..], unit);
    }
  }

  /** Main pricing theorem for the loop: nothing saturates, and it charges what the circuit charges. */
  lemma {:induction false} LoopIsCircuit(tiers: seq<Tier>, n: nat, units: u64)
    requires n <= |tiers| && OrderedTiers(tiers) && BoundedTiers(tiers) && units <= MAX_SAFE_USAGE_UNITS
    ensures Loop(tiers[..n], units).total == CircuitTotal(tiers, n, units)
    ensures n > 0 && tiers[n - 1].upTo != 0 ==> Loop(tiers[..n], units).bound == tiers[n - 1].upTo
  {
    hide Times, Wrap, PriceUnits;
    if n > 0 {
      LoopIsCircuit(tiers, n - 1, units);
      assert tiers[..n][..n - 1] == tiers[..n - 1];
      CircuitPricesUnits(tiers, n - 1, units);
      CircuitPricesUnits(tiers, n, units);
      TierFits(tiers, n - 1, units);
      WrapSmall(Times(CircuitUnits(tiers, n - 1, units), tiers[n - 1].rate));
      WrapSmall(CircuitTotal(tiers, n - 1, units) + Times(CircuitUnits(tiers, n - 1, units), tiers[n - 1].rate));
    }
  }

  lemma {:induction false} LoopPricesUnits(tiers: seq<Tier>, units: u64)
    requires OrderedTiers(tiers) && BoundedTiers(tiers) && units <= MAX_SAFE_USAGE_UNITS
    ensures Loop(tiers, units).total == PriceUnits(tiers, 0, units)
  {
    LoopIsCircuit(tiers, |tiers|, units);
    assert tiers[..|tiers|] == tiers;
    CircuitPricesUnits(tiers, |tiers|, units);
  }

  // ---------------------------------------------------------------- consequences

  /** More usage never costs less. */
  lemma {:induction false} PriceMonotone(tiers: seq<Tier>, fewer: u64, more: u64, cap: u64)
    requires fewer <= more
    ensures Price(tiers, fewer, cap) <= Price(tiers, more, cap) <= cap
  {
    PriceSplits(tiers, 0, fewer, more);
  }

  /** The single-tier circuit prices a one-tier plan exactly when the usage stays within the bound,
      or pricing past the bound makes no difference. */
  lemma OneTierAgreesIff(t: Tier, units: u64, maxCharge: u64)
    requires BoundedTiers([t]) && units <= MAX_SAFE_USAGE_UNITS
    ensures UsageCharge(units, t.rate, maxCharge) == Price([t], units, maxCharge)
       <==> t.upTo == 0 || units <= t.upTo || t.rate == 0 || maxCharge <= Times(t.upTo, t.rate)
  {
    hide Times, Wrap;
    var tiers := [t];
    BeyondLastTierFree(tiers, units);
    PriceOneTier(tiers, 0, 0, Upper(tiers, 1, units));
    TierFits([Tier(0, t.rate)], 0, units);
    WrapSmall(Times(units, t.rate));
    TimesOrder(t.upTo, units, t.rate);
  }

  lemma TimesOrder(x: nat, x': nat, y: nat)
    ensures y == 0 ==> Times(x, y) == Times(x', y) == 0
    ensures x < x' && 0 < y ==> Times(x, y) < Times(x', y)
  {
    if x < x' && 0 < y {
      assert x' * y == x * y + (x' - x) * y;
    }
  }

  /** The last bound before tier `i` that is not zero: where the loop, unlike the circuit, starts the tier. */
  function LastBound(tiers: seq<Tier>, i: nat): u64
    requires i <= |tiers|
  {
    if i == 0 then 0 else if tiers[i - 1].upTo != 0 then tiers[i - 1].upTo else LastBound(tiers, i - 1)
  }

  /** The units the loop charges to tier `i`. */
  function LoopUnits(tiers: seq<Tier>, i: nat, units: u64): u64
    requires i < |tiers|
  {
    var upper := if tiers[i].upTo == 0 then units else Min(units, tiers[i].upTo);
    Max(upper - LastBound(tiers, i), 0)
  }

  /** Tier `i` costs the same in both forms: it is free, or both charge it the same units. */
  predicate TierAgrees(tiers: seq<Tier>, i: nat, units: u64)
    requires i < |tiers|
  {
    tiers[i].rate == 0 || CircuitUnits(tiers, i, units) == LoopUnits(tiers, i, units)
  }

  /** For any bounded tiers, ordered or not, the loop never charges more than the circuit, and they agree exactly
      when they agree on every tier. */
  lemma {:induction false} LoopAgreesIff(tiers: seq<Tier>, units: u64)
    requires |tiers| <= 5 && BoundedTiers(tiers) && units <= MAX_SAFE_USAGE_UNITS
    ensures Loop(tiers, units).total <= CircuitTotal(tiers, |tiers|, units)
    ensures Loop(tiers, units).total == CircuitTotal(tiers, |tiers|, units)
       <==> forall i :: 0 <= i < |tiers| ==> TierAgrees(tiers, i, units)
  {
    LoopAgreesUpTo(tiers, |tiers|, units);
    assert tiers[..|tiers|] == tiers;
  }

  lemma {:induction false} LoopAgreesUpTo(tiers: seq<Tier>, n: nat, units: u64)
    requires n <= |tiers| <= 5 && BoundedTiers(tiers) && units <= MAX_SAFE_USAGE_UNITS
    ensures Loop(tiers[..n], units).bound == LastBound(tiers, n)
    ensures Loop(tiers[..n], units).total <= CircuitTotal(tiers, n, units) <= n * 3_689_348_000_000_000_000
    ensures Loop(tiers[..n], units).total == CircuitTotal(tiers, n, units)
       <==> forall i :: 0 <= i < n ==> TierAgrees(tiers, i, units)
  {
    hide Times, Wrap, Saturate, CircuitUnits, LoopUnits, TierAgrees;
    if n > 0 {
      LoopAgreesUpTo(tiers, n - 1, units);
      assert tiers[..n][..n - 1] == tiers[..n - 1];
      LoopChargesTier(tiers, n - 1, units);
      TierFits(tiers, n - 1, units);
      TierCompared(tiers, n - 1, units);
      var circuit, loop := CircuitUnits(tiers, n - 1, units), LoopUnits(tiers, n - 1, units);
      WrapSmall(Times(circuit, tiers[n - 1].rate));
      WrapSmall(CircuitTotal(tiers, n - 1, units) + Times(circuit, tiers[n - 1].rate));
      SaturateSmall(Times(loop, tiers[n - 1].rate));
      SaturateSmall(Loop(tiers[..n - 1], units).total + Times(loop, tiers[n - 1].rate));
    }
  }

  lemma {:induction false} LoopChargesTier(tiers: seq<Tier>, i: nat, units: u64)
    requires i < |tiers| && Loop(tiers[..i], units).bound == LastBound(tiers, i)
    ensures Loop(tiers[..i + 1], units)
         == Acc(Saturate(Loop(tiers[..i], units).total + Saturate(Times(LoopUnits(tiers, i, units), tiers[i].rate))),
                LastBound(tiers, i + 1))
  {
    hide Times, Saturate;
    assert tiers[..i + 1][..i] == tiers[..i];
  }

  lemma {:induction false} TierCompared(tiers: seq<Tier>, i: nat, units: u64)
    requires i < |tiers|
    ensures var circuit, loop := CircuitUnits(tiers, i, units), LoopUnits(tiers, i, units);
            && Times(loop, tiers[i].rate) <= Times(circuit, tiers[i].rate)
            && (Times(loop, tiers[i].rate) == Times(circuit, tiers[i].rate) <==> TierAgrees(tiers, i, units))
  {
    hide Times;
    LoopStartsNoEarlier(tiers, i);
    TimesOrder(LoopUnits(tiers, i, units), CircuitUnits(tiers, i, units), tiers[i].rate);
  }

  lemma {:induction false} LoopStartsNoEarlier(tiers: seq<Tier>, i: nat)
    requires i < |tiers|
    ensures LastBound(tiers, i) >= if i == 0 then 0 else tiers[i - 1].upTo
  {
  }

  lemma SaturateSmall(x: nat)
    requires x <= U64_MAX
    ensures Saturate(x) == x
  {
  }

  /** Without the validators the two forms differ: a zero bound in the middle resets the circuit's
      lower bound but not the loop's. */
  lemma UnorderedTiersDiffer()
    ensures var tiers := [Tier(100, 10), Tier(0, 5), Tier(200, 1)];
            && !OrderedTiers(tiers) && BoundedTiers(tiers)
            && CircuitTotal(tiers, 3, 150) == 1400 && Loop(tiers, 150).total == 1300
  {
    hide Loop, CircuitTotal;
    var tiers := [Tier(100, 10), Tier(0, 5), Tier(200, 1)];
    assert tiers[1].upTo == 0;
    UnorderedLoop();
    UnorderedCircuit();
  }

  lemma {:induction false} LoopOfThree(a: Tier, b: Tier, c: Tier, units: u64)
    ensures Loop([a, b, c], units) == LoopStep(LoopStep(LoopStep(Acc(0, 0), a, units), b, units), c, units)
  {
    hide LoopStep;
    var tiers := [a, b, c];
    assert tiers[..2] == [a, b] && tiers[..2][..1] == [a] && [a][..0] == [];
    assert Loop([a], units) == LoopStep(Acc(0, 0), a, units);
    assert Loop([a, b], units) == LoopStep(Loop([a], units), b, units);
  }

  lemma {:induction false} UnorderedLoop()
    ensures Loop([Tier(100, 10), Tier(0, 5), Tier(200, 1)], 150).total == 1300
  {
    hide Loop;
    LoopOfThree(Tier(100, 10), Tier(0, 5), Tier(200, 1), 150);
  }

  lemma {:induction false} UnorderedCircuit()
    ensures CircuitTotal([Tier(100, 10), Tier(0, 5), Tier(200, 1)], 3, 150) == 1400
  {
    var tiers := [Tier(100, 10), Tier(0, 5), Tier(200, 1)];
    assert CircuitCharge(tiers, 0, 150) == 1000 && CircuitCharge(tiers, 1, 150) == 250;
    assert CircuitCharge(tiers, 2, 150) == 150;
    hide CircuitCharge;
    assert CircuitTotal(tiers, 0, 150) == 0;
    assert CircuitTotal(tiers, 1, 150) == 1000;
    assert CircuitTotal(tiers, 2, 150) == 1250;
  }
}
