/**
 * The parameter-adjustment rule of one pool: a single volume threshold picks
 * between lowering the fee, growing the reserves and widening the price
 * range, or raising the fee and narrowing the range. All arithmetic is on
 * `real`, an idealisation of the floating point the rule is written in.
 */
module Adjustment {

  /** Average hourly volume at or above which a step is a high-volume step. */
  const VolumeThreshold: real := 700.0
  /** Fee bounds and fee step, in percent. */
  const FeeFloor: real := 0.05
  const FeeCeiling: real := 1.0
  const FeeStep: real := 0.1
  /** Reserve multiplier of a high-volume step. */
  const ReserveGrowth: real := 1.1
  /** Factors applied to the range bounds by a high-volume step. */
  const WidenLower: real := 0.95
  const WidenUpper: real := 1.05
  /** Amount added to the lower bound and taken from the upper bound by a low-volume step. */
  const NarrowStep: real := 0.02

  predicate IsHighVolume(avgVolume: real)
  {
    avgVolume >= VolumeThreshold
  }

  predicate InFeeBounds(fee: real)
  {
    FeeFloor <= fee <= FeeCeiling
  }

  // ---------------------------------------------------------------- fee

  /** High volume: one fee step down, but never below the floor (a max). */
  function LowerFee(fee: real): (r: real)
    ensures r >= FeeFloor && r >= fee - FeeStep
    ensures r == FeeFloor || r == fee - FeeStep
  {
    if FeeFloor >= fee - FeeStep then FeeFloor else fee - FeeStep
  }

  /** Low volume: one fee step up, but never above the ceiling (a min). */
  function RaiseFee(fee: real): (r: real)
    ensures r <= FeeCeiling && r <= fee + FeeStep
    ensures r == FeeCeiling || r == fee + FeeStep
  {
    if FeeCeiling <= fee + FeeStep then FeeCeiling else fee + FeeStep
  }

  /** The fee after one step: down on high volume, up on low volume, within bounds. */
  function NextFee(fee: real, avgVolume: real): (r: real)
    ensures InFeeBounds(fee) ==> InFeeBounds(r)
    ensures IsHighVolume(avgVolume) && fee >= FeeFloor ==> r <= fee
    ensures !IsHighVolume(avgVolume) && fee <= FeeCeiling ==> r >= fee
  {
    if IsHighVolume(avgVolume) then LowerFee(fee) else RaiseFee(fee)
  }

  /** The clamps are fixed points: the floor stays under high volume, the ceiling under low volume. */
  lemma ClampsAreFixedPoints(avgVolume: real)
    ensures IsHighVolume(avgVolume) ==> NextFee(FeeFloor, avgVolume) == FeeFloor
    ensures !IsHighVolume(avgVolume) ==> NextFee(FeeCeiling, avgVolume) == FeeCeiling
  {
  }

  // ---------------------------------------------------------------- range

  /** A price range (lower, upper); it is meant to satisfy lower < upper. */
  datatype PriceRange = PriceRange(lower: real, upper: real)
  {
    function Width(): real { upper - lower }
    predicate Ordered() { lower < upper }
  }

  /** High volume: both bounds pushed outward multiplicatively. */
  function Widen(r: PriceRange): (w: PriceRange)
    ensures 0.0 <= r.lower ==> w.lower <= r.lower
    ensures 0.0 <= r.upper ==> r.upper <= w.upper
    ensures 0.0 <= r.lower && r.Ordered() ==> w.Ordered() && w.Width() > r.Width()
  {
    PriceRange(r.lower * WidenLower, r.upper * WidenUpper)
  }

  /** Widening keeps an ordered range ordered whenever its upper bound is positive. */
  lemma WidenPreservesOrder(r: PriceRange)
    requires r.Ordered() && 0.0 < r.upper
    ensures Widen(r).Ordered()
  {
  }

  /** Low volume: both bounds pulled inward by a fixed amount, whatever the width. */
  function Narrow(r: PriceRange): (n: PriceRange)
    ensures n.Width() == r.Width() - 2.0 * NarrowStep
    ensures n.lower + n.upper == r.lower + r.upper
    ensures n.Ordered() <==> r.Width() > 2.0 * NarrowStep
  {
    PriceRange(r.lower + NarrowStep, r.upper - NarrowStep)
  }

  function NextRange(r: PriceRange, avgVolume: real): (n: PriceRange)
    ensures IsHighVolume(avgVolume) && 0.0 <= r.lower && r.Ordered() ==> n.Ordered()
    ensures !IsHighVolume(avgVolume) ==> (n.Ordered() <==> r.Width() > 2.0 * NarrowStep)
  {
    if IsHighVolume(avgVolume) then Widen(r) else Narrow(r)
  }

  // ---------------------------------------------------------------- reserves

  /** Conversion of a number to an integer by truncation toward zero. */
  function Truncate(x: real): (t: int)
    ensures 0.0 <= x ==> 0 <= t && t as real <= x < t as real + 1.0
    ensures x < 0.0 ==> t <= 0 && t as real - 1.0 < x <= t as real
  {
    if x >= 0.0 then x.Floor else -((-x).Floor)
  }

  /** High volume: a reserve multiplied by 1.1 and truncated to whole units. */
  function ScaleReserve(reserve: int): (scaled: int)
    ensures 0 <= reserve ==> reserve <= scaled
    ensures reserve <= 0 ==> scaled <= reserve
  {
    Truncate(reserve as real * ReserveGrowth)
  }

  /** On integers, scaling is exactly 11 * reserve / 10 rounded toward zero. */
  lemma ScaleReserveIsIntegerDivision(reserve: int)
    ensures ScaleReserve(reserve) == if reserve >= 0 then (11 * reserve) / 10 else -((-11 * reserve) / 10)
  {
  }

  /** Scaling is monotone: a larger reserve never ends up smaller. */
  lemma ScaleReserveMonotone(a: int, b: int)
    requires a <= b
    ensures ScaleReserve(a) <= ScaleReserve(b)
  {
  }

  // ---------------------------------------------------------------- yield

  /** Projected revenue: the fee, as a percentage, of the average volume. */
  function YieldEstimate(fee: real, avgVolume: real): (yieldEstimate: real)
    ensures InFeeBounds(fee) && 0.0 <= avgVolume ==>
      avgVolume * FeeFloor / 100.0 <= yieldEstimate <= avgVolume * FeeCeiling / 100.0
  {
    (fee / 100.0) * avgVolume
  }

  // ---------------------------------------------------------------- one step

  /** The parameters a step reads and writes. */
  datatype PoolParams = PoolParams(fee: real, range: PriceRange, reserveA: int, reserveB: int)

  /** One adjustment step as a transition on the pool's parameters. */
  function Step(p: PoolParams, avgVolume: real): (q: PoolParams)
    ensures InFeeBounds(p.fee) ==> InFeeBounds(q.fee)
    ensures IsHighVolume(avgVolume) ==> q.fee == LowerFee(p.fee) && q.range == Widen(p.range)
    ensures !IsHighVolume(avgVolume) ==> q.fee == RaiseFee(p.fee) && q.range == Narrow(p.range)
    ensures IsHighVolume(avgVolume) ==> q.reserveA == ScaleReserve(p.reserveA) && q.reserveB == ScaleReserve(p.reserveB)
    ensures !IsHighVolume(avgVolume) ==> q.reserveA == p.reserveA && q.reserveB == p.reserveB
    ensures IsHighVolume(avgVolume) && 0 <= p.reserveA ==> p.reserveA <= q.reserveA
    ensures IsHighVolume(avgVolume) && 0 <= p.reserveB ==> p.reserveB <= q.reserveB
  {
    var high := IsHighVolume(avgVolume);
    PoolParams(
      NextFee(p.fee, avgVolume),
      NextRange(p.range, avgVolume),
      if high then ScaleReserve(p.reserveA) else p.reserveA,
      if high then ScaleReserve(p.reserveB) else p.reserveB)
  }

  /** A run of steps, one per average volume, in order. */
  function Steps(p: PoolParams, avgVolumes: seq<real>): PoolParams
    decreases |avgVolumes|
  {
    if |avgVolumes| == 0 then p else Steps(Step(p, avgVolumes[0]), avgVolumes[1..])
  }

  /** The fee stays within [0.05, 1.0] over any run of steps. */
  lemma {:induction false} StepsKeepFeeInBounds(p: PoolParams, avgVolumes: seq<real>)
    requires InFeeBounds(p.fee)
    ensures InFeeBounds(Steps(p, avgVolumes).fee)
    decreases |avgVolumes|
  {
    if |avgVolumes| > 0 {
      StepsKeepFeeInBounds(Step(p, avgVolumes[0]), avgVolumes[1..]);
    }
  }

  /** From a fee at or above the floor, k high-volume steps give max(0.05, fee - 0.1 * k). */
  lemma {:induction false} HighStepsLowerFee(p: PoolParams, avgVolumes: seq<real>)
    requires forall i :: 0 <= i < |avgVolumes| ==> IsHighVolume(avgVolumes[i])
    requires FeeFloor <= p.fee
    ensures Steps(p, avgVolumes).fee == LowerFeeBy(p.fee, |avgVolumes|)
    decreases |avgVolumes|
  {
    if |avgVolumes| > 0 {
      var q := Step(p, avgVolumes[0]);
      HighStepsLowerFee(q, avgVolumes[1..]);
      var k := |avgVolumes| - 1;
      assert q.fee == LowerFee(p.fee);
      assert LowerFeeBy(q.fee, k) == LowerFeeBy(p.fee, k + 1);
    }
  }

  /** The fee k clamped steps below `fee`. */
  function LowerFeeBy(fee: real, k: nat): (r: real)
    ensures r >= FeeFloor
    ensures fee - FeeStep * (k as real) >= FeeFloor ==> r == fee - FeeStep * (k as real)
  {
    if FeeFloor >= fee - FeeStep * (k as real) then FeeFloor else fee - FeeStep * (k as real)
  }

  /** From a fee at or below the ceiling, k low-volume steps give min(1.0, fee + 0.1 * k). */
  lemma {:induction false} LowStepsRaiseFee(p: PoolParams, avgVolumes: seq<real>)
    requires forall i :: 0 <= i < |avgVolumes| ==> !IsHighVolume(avgVolumes[i])
    requires p.fee <= FeeCeiling
    ensures Steps(p, avgVolumes).fee == RaiseFeeBy(p.fee, |avgVolumes|)
    decreases |avgVolumes|
  {
    if |avgVolumes| > 0 {
      var q := Step(p, avgVolumes[0]);
      LowStepsRaiseFee(q, avgVolumes[1..]);
      var k := |avgVolumes| - 1;
      assert q.fee == RaiseFee(p.fee);
      assert RaiseFeeBy(q.fee, k) == RaiseFeeBy(p.fee, k + 1);
    }
  }

  /** The fee k clamped steps above `fee`. */
  function RaiseFeeBy(fee: real, k: nat): (r: real)
    ensures r <= FeeCeiling
    ensures fee + FeeStep * (k as real) <= FeeCeiling ==> r == fee + FeeStep * (k as real)
  {
    if FeeCeiling <= fee + FeeStep * (k as real) then FeeCeiling else fee + FeeStep * (k as real)
  }

  /**
   * After k low-volume steps the reserves are untouched, the range keeps its
   * midpoint and has lost 0.04 * k of its width; so it is still ordered
   * exactly when the original width exceeded 0.04 * k.
   */
  lemma {:induction false} LowStepsShrinkRange(p: PoolParams, avgVolumes: seq<real>)
    requires forall i :: 0 <= i < |avgVolumes| ==> !IsHighVolume(avgVolumes[i])
    ensures Steps(p, avgVolumes).reserveA == p.reserveA && Steps(p, avgVolumes).reserveB == p.reserveB
    ensures Steps(p, avgVolumes).range.Width() == p.range.Width() - 2.0 * NarrowStep * (|avgVolumes| as real)
    ensures Steps(p, avgVolumes).range.lower + Steps(p, avgVolumes).range.upper == p.range.lower + p.range.upper
    ensures Steps(p, avgVolumes).range.Ordered() <==> p.range.Width() > 2.0 * NarrowStep * (|avgVolumes| as real)
    decreases |avgVolumes|
  {
    if |avgVolumes| > 0 {
      LowStepsShrinkRange(Step(p, avgVolumes[0]), avgVolumes[1..]);
    }
  }

  /** Under high volume a range with a non-negative lower bound stays ordered and only grows. */
  lemma {:induction false} HighStepsWidenRange(p: PoolParams, avgVolumes: seq<real>)
    requires forall i :: 0 <= i < |avgVolumes| ==> IsHighVolume(avgVolumes[i])
    requires 0.0 <= p.range.lower && p.range.Ordered()
    ensures var r := Steps(p, avgVolumes).range;
      0.0 <= r.lower <= p.range.lower && p.range.upper <= r.upper && r.Ordered()
    decreases |avgVolumes|
  {
    if |avgVolumes| > 0 {
      HighStepsWidenRange(Step(p, avgVolumes[0]), avgVolumes[1..]);
    }
  }

  /** The two worked examples of the adjustment rule. */
  lemma WorkedExamples()
    ensures var p := PoolParams(0.3, PriceRange(4.75, 5.25), 0, 0);
      && Step(p, 1000.0).fee == 0.2 && Step(p, 1000.0).range == PriceRange(4.5125, 5.5125)
      && YieldEstimate(Step(p, 1000.0).fee, 1000.0) == 2.0
      && Step(p, 300.0).fee == 0.4 && Step(p, 300.0).range == PriceRange(4.77, 5.23)
      && YieldEstimate(Step(p, 300.0).fee, 300.0) == 1.2
  {
  }
}
