# VeaxFlow pool adjustment, modelled in Dafny

VeaxFlow runs a liquidity provider's control loop for one token-pair pool.
It fetches the pool listing and a trading-volume series. It then recomputes
the pool's fee, concentrated price range and reserve sizing with a
threshold heuristic. This project models the part with decision logic:

- the pool state (`Agent.LiquidityPool`), built from one record of the pool
  listing: fee 0.3%, a range 5% either side of the spot price, the total of
  the liquidity entries whose text is not `"0"`, and the pair key
  `token_a-token_b`;
- the adjustment step (`Agent.AiAgent`). It averages the volume column,
  falling back to 5,000,000 when there is no column or no rows. An average of
  700 or more lowers the fee by 0.1 (floor 0.05), scales both reserves by 1.1
  truncated to integers, and widens the range by factors 0.95 and 1.05. An
  average below 700 raises the fee by 0.1 (ceiling 1.0), keeps the reserves,
  and moves both range bounds 0.02 inward. The step overwrites the pool's fee
  and range, and returns them with a yield estimate `(fee / 100) * volume`.
  The volume frame is an `Option<seq<real>>`: `None` when it has no `volume`
  column, `Some([])` when it has no rows.

Files:

- `wrappers.dfy`: `Option`.
- `series.dfy` (module `Series`): sums, the average volume with its
  fallback, and the total-liquidity sum.
- `adjustment.dfy` (module `Adjustment`): the pure rule. Fee clamps, range
  widening and narrowing, reserve scaling, the yield, one step as a
  transition `Step` on `PoolParams`, and runs of steps `Steps`.
- `agent.dfy` (module `Agent`): the pool record, the initial range, the pair
  key, the class `LiquidityPool`, and the in-place method `AiAgent`. This
  method is proved equal to `Step` on the fields it changes. Its `modifies`
  clause names the only fields it may write: reserves, fee and range.

All arithmetic is on `real`, an idealisation of Python floats (see below).

What the proofs show about the rule:

- the fee stays in [0.05, 1.0] over any run of steps;
- k high-volume steps give `max(0.05, fee - 0.1k)`;
- k low-volume steps give `min(1.0, fee + 0.1k)`;
- widening keeps an ordered range with a non-negative lower bound ordered,
  and only grows it.

Narrowing is different. Each low-volume step removes exactly 0.04 of the
width. It keeps the midpoint and the reserves. So a range stays ordered
after k low steps if and only if its width was above 0.04k. From the initial
range, the width is a tenth of the spot price: with a spot price of 5.0 the
range inverts after 13 consecutive low-volume steps. The source does not
guard against this (`Adjustment.LowStepsShrinkRange`,
`Agent.InitialRangeOrderedUnderLowSteps`).

Two details of the step:

- The reserves are truncated with `int(...)` (main.py:93-94), not rounded.
- The step computes the average volume itself, from the volume column
  (main.py:82-86).

## Model

| member | source | states |
|---|---|---|
| `Agent.LiquidityPool.constructor` | src/veaxflow_agent/main.py:12-24 | fields copied from the record; fee 0.3; range `InitialRange(spot)`; total liquidity over entries not `"0"`; pair key `a-b` |
| `Agent.InitialRange` | src/veaxflow_agent/main.py:20 | the initial range is centred on the spot price, a tenth of it wide, and strictly contains a positive spot price |
| `Agent.PairId` | src/veaxflow_agent/main.py:24 | the key is token A, one dash, then token B |
| `Agent.SplitPairId` | src/veaxflow_agent/main.py:24 | splitting a key at its first dash gives a pair whose key is that key; None exactly when there is no dash |
| `Agent.PairIdRoundTrip` | src/veaxflow_agent/main.py:24 | when token A has no dash, the key determines both tokens |
| `Agent.PairIdAmbiguousWithDashes` | src/veaxflow_agent/main.py:24 | with dashes in the tokens, two different pairs share one key |
| `Agent.InitialRangeOrderedUnderLowSteps` | src/veaxflow_agent/main.py:20 | from the initial range, k low-volume steps leave it ordered iff spot/10 > 0.04k |
| `Agent.MissingVolumeTakesHighBranch` | src/veaxflow_agent/main.py:82-90 | with no volume column or no rows, the fallback volume is at or above the threshold 700, so the high-volume branch runs |
| `Agent.AiAgent` | src/veaxflow_agent/main.py:78-119 | the new fee, range and reserves are `Step(old, average volume)`; the returned fee and range equal the stored ones; the yield is `(fee/100) * average`; the fee bounds are kept; low volume leaves the reserves; no other field is written |
| `Series.AverageVolume` | src/veaxflow_agent/main.py:82-86 | 5,000,000 when the volume column is missing or empty; otherwise average times count equals the sum |
| `Series.AverageVolumeWithin` | src/veaxflow_agent/main.py:83 | the average of a non-empty column lies between its smallest and largest values |
| `Series.Kept` | src/veaxflow_agent/main.py:22 | the kept entries are the input's entries with every `"0"` removed, each other entry as many times as in the input |
| `Series.TotalLiquidity` | src/veaxflow_agent/main.py:21-23 | the sum over the entries not `"0"`; non-negative amounts give a non-negative total |
| `Series.TotalLiquidityIsSumOfKept` | src/veaxflow_agent/main.py:21-23 | total liquidity is the sum of the parsed amounts of exactly the kept entries |
| `Series.TotalLiquidityAppend` | src/veaxflow_agent/main.py:21-23 | the total of a concatenation is the sum of the totals |
| `Series.ZeroEntriesContributeNothing` | src/veaxflow_agent/main.py:21-23 | when `"0"` parses to zero, the filter makes no difference to the total |
| `Adjustment.LowerFee` | src/veaxflow_agent/main.py:91 | the high-volume fee is the larger of 0.05 and fee - 0.1 |
| `Adjustment.RaiseFee` | src/veaxflow_agent/main.py:99 | the low-volume fee is the smaller of 1.0 and fee + 0.1 |
| `Adjustment.NextFee` | src/veaxflow_agent/main.py:90-99 | a fee in [0.05, 1.0] stays there; high volume never raises it and low volume never lowers it |
| `Adjustment.ClampsAreFixedPoints` | src/veaxflow_agent/main.py:90-99 | 0.05 stays 0.05 under high volume; 1.0 stays 1.0 under low volume |
| `Adjustment.Widen` | src/veaxflow_agent/main.py:107 | for a non-negative ordered range, the widened range contains it, is ordered and is wider |
| `Adjustment.WidenPreservesOrder` | src/veaxflow_agent/main.py:107 | an ordered range with a positive upper bound stays ordered when widened |
| `Adjustment.Narrow` | src/veaxflow_agent/main.py:110 | narrowing removes exactly 0.04 of width and keeps the midpoint; the result is ordered iff the width was above 0.04 |
| `Adjustment.NextRange` | src/veaxflow_agent/main.py:105-111 | high volume keeps a non-negative ordered range ordered; under low volume the new range is ordered iff the old width exceeds 0.04 |
| `Adjustment.Truncate` | src/veaxflow_agent/main.py:93-94 | truncation toward zero: the result has the sign of x and is less than 1 away from x, toward zero |
| `Adjustment.ScaleReserve` | src/veaxflow_agent/main.py:93-94 | scaling never shrinks a non-negative reserve |
| `Adjustment.ScaleReserveIsIntegerDivision` | src/veaxflow_agent/main.py:93-94 | the truncated `reserve * 1.1` equals `11 * reserve / 10` rounded toward zero |
| `Adjustment.ScaleReserveMonotone` | src/veaxflow_agent/main.py:93-94 | scaling preserves the order of reserves |
| `Adjustment.YieldEstimate` | src/veaxflow_agent/main.py:114 | the yield `(fee / 100) * volume`; with a fee in bounds and a non-negative volume it lies between 0.05% and 1% of the volume |
| `Adjustment.Step` | src/veaxflow_agent/main.py:89-118 | which branch applies which fee, range and reserve rule: high volume scales each reserve with `ScaleReserve`, low volume keeps them; reserves do not shrink; fee bounds are kept |
| `Adjustment.StepsKeepFeeInBounds` | src/veaxflow_agent/main.py:89-118 | the fee stays in [0.05, 1.0] over any run of steps |
| `Adjustment.LowerFeeBy` | src/veaxflow_agent/main.py:91 | k clamped fee steps down never go below 0.05 and are exact while above it |
| `Adjustment.HighStepsLowerFee` | src/veaxflow_agent/main.py:91 | k high-volume steps give `max(0.05, fee - 0.1k)` |
| `Adjustment.RaiseFeeBy` | src/veaxflow_agent/main.py:99 | k clamped fee steps up never go above 1.0 and are exact while below it |
| `Adjustment.LowStepsRaiseFee` | src/veaxflow_agent/main.py:99 | k low-volume steps give `min(1.0, fee + 0.1k)` |
| `Adjustment.LowStepsShrinkRange` | src/veaxflow_agent/main.py:98-111 | k low-volume steps keep reserves and midpoint; they remove 0.04k of width; the range stays ordered iff its width exceeded 0.04k |
| `Adjustment.HighStepsWidenRange` | src/veaxflow_agent/main.py:105-107 | under high volume a non-negative ordered range stays ordered and only grows |
| `Adjustment.WorkedExamples` | src/veaxflow_agent/main.py:89-119 | fee 0.3, range (4.75, 5.25): volume 1000 gives 0.2, (4.5125, 5.5125), and a yield of 2.0 on that fee; volume 300 gives 0.4, (4.77, 5.23), and a yield of 1.2 |

## Left out

- Fetching the pool listing and the volume chart (main.py:37-75): HTTP and JSON-RPC I/O. The volume fallback of 5,000,000 survives only inside `Series.AverageVolume`.
- The control loop `main` (main.py:122-155): network calls, the search for the NEAR/USDT record, three iterations and `time.sleep`.
- `LiquidityPool.status` and every `print`: display formatting only. The printed yield estimate is returned by `Agent.AiAgent` as a third result instead.
- Parsing the decimal strings of the record: reserves and spot price arrive as numbers. `float(liq)` is the caller-supplied function `parseAmount`.
- IEEE-754 floating point: all arithmetic is exact on `real`. So `0.3 - 0.1` is exactly `0.2` here, and `int(reserve * 1.1)` is computed exactly. In Python a reserve near 10^24 goes through a 53-bit float and loses low digits.
- Adjustment.ScaleReserve: idealised as the exact truncation of `reserve * 11/10`. The float rounding of large reserves is not modelled.
- pandas `mean()` skips NaN values. The volume column here is a sequence of reals with no NaN.
