/**
 * The pool state and the adjustment step that updates it in place.
 */
module Agent {
  import opened Wrappers
  import opened Series
  import opened Adjustment

  /** Fee a pool starts with, in percent. */
  const DefaultFee: real := 0.3
  /** Factors that put the initial range 5% either side of the spot price. */
  const InitialLowerFactor: real := 0.95
  const InitialUpperFactor: real := 1.05

  /**
   * One record of the pool listing. Reserves and spot price arrive already
   * converted to numbers; liquidities keep their text, because the text
   * decides which entries are summed.
   */
  datatype PoolRecord = PoolRecord(
    tokenA: string,
    tokenB: string,
    reserveA: int,
    reserveB: int,
    spotPrice: real,
    liquidities: seq<string>)

  /** The initial range: centred on the spot price, one tenth of it wide. */
  function InitialRange(spotPrice: real): (r: PriceRange)
    ensures r.lower + r.upper == 2.0 * spotPrice
    ensures r.Width() == spotPrice / 10.0
    ensures 0.0 < spotPrice ==> r.lower < spotPrice < r.upper
  {
    PriceRange(spotPrice * InitialLowerFactor, spotPrice * InitialUpperFactor)
  }

  /** The pair key: token A, a dash, token B. */
  function PairId(tokenA: string, tokenB: string): (id: string)
    ensures |id| == |tokenA| + 1 + |tokenB|
    ensures id[..|tokenA|] == tokenA && id[|tokenA|] == '-' && id[|tokenA| + 1..] == tokenB
  {
    tokenA + "-" + tokenB
  }

  /** Index of the first dash in `s`, or |s| when there is none. */
  function FirstDash(s: string): (i: nat)
    ensures i <= |s|
    ensures i < |s| ==> s[i] == '-'
    ensures forall j :: 0 <= j < i ==> s[j] != '-'
  {
    if |s| == 0 then 0 else if s[0] == '-' then 0 else 1 + FirstDash(s[1..])
  }

  /** Reads a pair key back, splitting at its first dash. */
  function SplitPairId(id: string): (parts: Option<(string, string)>)
    ensures parts.None? <==> '-' !in id
    ensures parts.Some? ==> PairId(parts.value.0, parts.value.1) == id
  {
    var i := FirstDash(id);
    if i == |id| then None
    else
      assert id == id[..i] + "-" + id[i + 1..];
      Some((id[..i], id[i + 1..]))
  }

  /** A pair key whose first token has no dash determines both tokens. */
  lemma PairIdRoundTrip(tokenA: string, tokenB: string)
    requires '-' !in tokenA
    ensures SplitPairId(PairId(tokenA, tokenB)) == Some((tokenA, tokenB))
  {
  }

  /** Without that condition the key is ambiguous: two different pairs share one. */
  lemma PairIdAmbiguousWithDashes()
    ensures PairId("a-b", "c") == PairId("a", "b-c")
  {
  }

  /**
   * A pool that starts from its initial range stays ordered under k
   * low-volume steps exactly while a tenth of the spot price exceeds 0.04 * k.
   */
  lemma InitialRangeOrderedUnderLowSteps(spotPrice: real, reserveA: int, reserveB: int, avgVolumes: seq<real>)
    requires forall i :: 0 <= i < |avgVolumes| ==> !IsHighVolume(avgVolumes[i])
    ensures var p := PoolParams(DefaultFee, InitialRange(spotPrice), reserveA, reserveB);
      Steps(p, avgVolumes).range.Ordered() <==> spotPrice / 10.0 > 2.0 * NarrowStep * (|avgVolumes| as real)
  {
    LowStepsShrinkRange(PoolParams(DefaultFee, InitialRange(spotPrice), reserveA, reserveB), avgVolumes);
  }

  /** Without volume data, the fallback volume always selects the high-volume branch. */
  lemma MissingVolumeTakesHighBranch(column: Option<seq<real>>)
    requires column.None? || column.value == []
    ensures IsHighVolume(AverageVolume(column))
  {
  }

  /** One pool's economic parameters; the adjustment step updates it in place. */
  class LiquidityPool {
    var tokenA: string
    var tokenB: string
    var reserveA: int
    var reserveB: int
    var spotPrice: real
    var feeTier: real
    var priceRange: PriceRange
    var totalLiquidity: real
    var pairId: string

    /** The parameters the adjustment step works on. */
    function Params(): PoolParams
      reads this
    {
      PoolParams(feeTier, priceRange, reserveA, reserveB)
    }

    constructor (data: PoolRecord, parseAmount: string -> real)
      ensures tokenA == data.tokenA && tokenB == data.tokenB
      ensures reserveA == data.reserveA && reserveB == data.reserveB
      ensures spotPrice == data.spotPrice
      ensures feeTier == DefaultFee && InFeeBounds(feeTier)
      ensures priceRange == InitialRange(data.spotPrice)
      ensures totalLiquidity == TotalLiquidity(data.liquidities, parseAmount)
      ensures pairId == PairId(data.tokenA, data.tokenB)
    {
      tokenA := data.tokenA;
      tokenB := data.tokenB;
      reserveA := data.reserveA;
      reserveB := data.reserveB;
      spotPrice := data.spotPrice;
      feeTier := DefaultFee;
      priceRange := InitialRange(data.spotPrice);
      totalLiquidity := TotalLiquidity(data.liquidities, parseAmount);
      pairId := PairId(data.tokenA, data.tokenB);
    }
  }

  /**
   * One adjustment step. The average of the volume column (or the fallback)
   * selects the branch; the pool's fee, range and, on high volume, reserves
   * are overwritten; the new fee and range are returned, with the yield
   * estimate of the step. No other field of the pool changes.
   */
  method AiAgent(pool: LiquidityPool, volumeColumn: Option<seq<real>>)
    returns (newFee: real, newRange: PriceRange, yieldEstimate: real)
    modifies pool`reserveA, pool`reserveB, pool`feeTier, pool`priceRange
    ensures pool.Params() == Step(old(pool.Params()), AverageVolume(volumeColumn))
    ensures newFee == pool.feeTier && newRange == pool.priceRange
    ensures yieldEstimate == YieldEstimate(newFee, AverageVolume(volumeColumn))
    ensures InFeeBounds(old(pool.feeTier)) ==> InFeeBounds(pool.feeTier)
    ensures !IsHighVolume(AverageVolume(volumeColumn)) ==>
      pool.reserveA == old(pool.reserveA) && pool.reserveB == old(pool.reserveB)
  {
    var avgVolume := AverageVolume(volumeColumn);
    if IsHighVolume(avgVolume) {
      newFee := LowerFee(pool.feeTier);
      pool.reserveA := ScaleReserve(pool.reserveA);
      pool.reserveB := ScaleReserve(pool.reserveB);
    } else {
      newFee := RaiseFee(pool.feeTier);
    }

    var lower, upper := pool.priceRange.lower, pool.priceRange.upper;
    if IsHighVolume(avgVolume) {
      newRange := Widen(PriceRange(lower, upper));
    } else {
      newRange := Narrow(PriceRange(lower, upper));
    }

    yieldEstimate := YieldEstimate(newFee, avgVolume);

    pool.feeTier := newFee;
    pool.priceRange := newRange;
  }
}
