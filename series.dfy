/**
 * Aggregates over series of numbers: the average of the volume column that
 * drives one adjustment step, and the total liquidity a pool is built with.
 * Floating point is idealised as `real`.
 */
module Series {
  import opened Wrappers

  /** Volume used when the volume column is missing or holds no rows. */
  const FallbackVolume: real := 5000000.0

  /** The sum of a series, 0 for the empty one. */
  function Sum(s: seq<real>): real
  {
    if |s| == 0 then 0.0 else s[0] + Sum(s[1..])
  }

  lemma {:induction false} SumAppend(a: seq<real>, b: seq<real>)
    ensures Sum(a + b) == Sum(a) + Sum(b)
  {
    if |a| == 0 {
      assert a + b == b;
    } else {
      assert (a + b)[1..] == a[1..] + b;
      SumAppend(a[1..], b);
    }
  }

  /** A series whose every element lies in [lo, hi] sums to between n*lo and n*hi. */
  lemma {:induction false} SumBounds(s: seq<real>, lo: real, hi: real)
    requires forall i :: 0 <= i < |s| ==> lo <= s[i] <= hi
    ensures lo * (|s| as real) <= Sum(s) <= hi * (|s| as real)
  {
    if |s| > 0 {
      SumBounds(s[1..], lo, hi);
      assert lo * (|s| as real) == lo * ((|s| - 1) as real) + lo;
      assert hi * (|s| as real) == hi * ((|s| - 1) as real) + hi;
    }
  }

  /**
   * The average volume of one step: the mean of the volume column, or the
   * fallback when there is no volume column (None) or the frame is empty.
   */
  function AverageVolume(column: Option<seq<real>>): (avg: real)
    ensures column.None? || column.value == [] ==> avg == FallbackVolume
    ensures column.Some? && column.value != [] ==> avg * (|column.value| as real) == Sum(column.value)
  {
    match column
    case None => FallbackVolume
    case Some(volumes) =>
      if |volumes| == 0 then FallbackVolume else Sum(volumes) / (|volumes| as real)
  }

  /** The mean lies between the smallest and the largest volume. */
  lemma AverageVolumeWithin(volumes: seq<real>, lo: real, hi: real)
    requires volumes != []
    requires forall i :: 0 <= i < |volumes| ==> lo <= volumes[i] <= hi
    ensures lo <= AverageVolume(Some(volumes)) <= hi
  {
    var n := |volumes| as real;
    var avg := AverageVolume(Some(volumes));
    SumBounds(volumes, lo, hi);
    assert avg * n == Sum(volumes);
    assert lo * n <= avg * n <= hi * n;
  }

  /** The liquidity entries that count: every entry whose text is not "0", in order. */
  function Kept(liquidities: seq<string>): (kept: seq<string>)
    ensures |kept| <= |liquidities|
    ensures forall x :: x in kept <==> x in liquidities && x != "0"
    ensures multiset(kept) == multiset(liquidities)["0" := 0]
  {
    if |liquidities| == 0 then []
    else
      assert liquidities == [liquidities[0]] + liquidities[1..];
      if liquidities[0] != "0" then [liquidities[0]] + Kept(liquidities[1..])
      else Kept(liquidities[1..])
  }

  /** Each entry converted to a number by the caller-supplied parser. */
  function Parsed(texts: seq<string>, parseAmount: string -> real): seq<real>
  {
    seq(|texts|, i requires 0 <= i < |texts| => parseAmount(texts[i]))
  }

  /**
   * Total liquidity: the left-to-right sum over the entries, skipping every
   * entry whose text is exactly "0".
   */
  function TotalLiquidity(liquidities: seq<string>, parseAmount: string -> real): (total: real)
    ensures (forall i :: 0 <= i < |liquidities| ==> 0.0 <= parseAmount(liquidities[i])) ==> 0.0 <= total
  {
    if |liquidities| == 0 then 0.0
    else
      (if liquidities[0] != "0" then parseAmount(liquidities[0]) else 0.0)
      + TotalLiquidity(liquidities[1..], parseAmount)
  }

  /** Total liquidity is the sum of the parsed amounts of exactly the kept entries. */
  lemma {:induction false} TotalLiquidityIsSumOfKept(liquidities: seq<string>, parseAmount: string -> real)
    ensures TotalLiquidity(liquidities, parseAmount) == Sum(Parsed(Kept(liquidities), parseAmount))
  {
    if |liquidities| > 0 {
      var rest := liquidities[1..];
      TotalLiquidityIsSumOfKept(rest, parseAmount);
      if liquidities[0] != "0" {
        assert Kept(liquidities) == [liquidities[0]] + Kept(rest);
        assert Parsed(Kept(liquidities), parseAmount)
            == [parseAmount(liquidities[0])] + Parsed(Kept(rest), parseAmount);
        SumAppend([parseAmount(liquidities[0])], Parsed(Kept(rest), parseAmount));
      }
    }
  }

  /** Liquidity contributed by a concatenation is the sum of the parts. */
  lemma {:induction false} TotalLiquidityAppend(a: seq<string>, b: seq<string>, parseAmount: string -> real)
    ensures TotalLiquidity(a + b, parseAmount) == TotalLiquidity(a, parseAmount) + TotalLiquidity(b, parseAmount)
  {
    if |a| == 0 {
      assert a + b == b;
    } else {
      assert (a + b)[1..] == a[1..] + b;
      TotalLiquidityAppend(a[1..], b, parseAmount);
    }
  }

  /**
   * When "0" parses to zero the filter changes nothing: the total is the sum
   * of every parsed entry.
   */
  lemma {:induction false} ZeroEntriesContributeNothing(liquidities: seq<string>, parseAmount: string -> real)
    requires parseAmount("0") == 0.0
    ensures TotalLiquidity(liquidities, parseAmount) == Sum(Parsed(liquidities, parseAmount))
  {
    if |liquidities| > 0 {
      ZeroEntriesContributeNothing(liquidities[1..], parseAmount);
      assert Parsed(liquidities, parseAmount)[1..] == Parsed(liquidities[1..], parseAmount);
    }
  }
}
