# Pyramid position-sizing engine in Dafny

The pyramid stock tool plans a "buy more the lower it goes" position. It takes
a current price, a stop-loss below it, a capital amount and an optional target
price. It cuts the interval between the current price and the stop-loss into
twenty equal steps. Band `i` (counting from 0) buys at `current - step*(i+1)`
and gets weight `(i+1)^2` out of a total of 2870. The band buys
`round(weight/2870 * capital / price)` whole shares. Each band row records:

- the money spent;
- the running totals of money and shares;
- the average cost, which is also the break-even price;
- the percentage return if every share held were sold at the target.

A five-figure risk summary is read off the last band: the maximum investment,
the drawdown from the current price to the stop-loss, the risk/reward ratio,
the break-even price and the maximum return.

A separate helper turns a mainland-China stock code into the form the quote
service expects. It strips surrounding whitespace, then prepends `sh` for codes
starting with `6` and `sz` for codes starting with `0` or `3`.

The project has these modules:

- `Results` (results.dfy): the `Option` and `Result` types.
- `Rounding` (rounding.dfy): Python's `round`, half to even, on exact reals.
- `StockCode` (stock_code.dfy): `str.strip()` and the exchange prefix.
- `Pyramid` (pyramid.dfy): the engine. `Compute` states it with prefix sums.
  `GeneratePyramid` is the single pass with running totals that the program
  performs. Its contract is that it produces exactly what `Compute` produces.
- `PyramidLaws` (pyramid_laws.dfy): the weight law, the price ladder, share
  rounding, running totals and the cost-basis bounds.
- `SummaryLaws` (summary_laws.dfy): when a report is produced, and how the
  summary relates to the last band. It also shows that the target price moves
  only the return figures.
- `Deployment` (deployment.dfy): how close the money spent comes to the capital.

Prices and money are exact `real`s, and share counts are integers. The
program raises an exception when it divides by zero. Each such point becomes
an `EngineError` value:

- a band priced at zero (line 448);
- a current price of zero (line 505);
- a break-even of zero (line 516).

A price range that is rejected is `InvalidPriceRange`. The well-posed inputs
(`WellPosed`) are those with `0 < stop-loss < current price` and
`capital >= 0`. Most properties are stated for them.

Some behaviour of the code is worth stating plainly:

- The last band is priced exactly at the stop-loss. Line 440 gives band 20 the
  price `current - 20*step`, and `step` is a twentieth of the interval, so in exact
  arithmetic that price is the stop-loss.
- The capital is never checked. With zero capital nothing is bought, the
  break-even is 0, and the maximum return divides by zero at line 516. The
  program does not produce an all-zero report.
- A band's potential return is computed only when the money invested is
  positive (line 469).
- The risk/reward ratio is infinite only when the potential loss is not
  positive (line 510). For a well-posed input that case cannot reach the
  summary, because it needs nothing invested, and then line 516 fails first
  (`InfiniteRiskRewardUnreachable`).

## Model

| member | source | states |
|---|---|---|
| `Pyramid.Compute` | pyramid_stock_tool.py:398-412 | the input is rejected exactly when the current price is not above the stop-loss; an empty target becomes 1.2 times the current price and an entered one is kept; the warning is raised exactly when the target is not above the current price; a report has twenty bands |
| `Pyramid.GeneratePyramid` | pyramid_stock_tool.py:426-516 | the single pass with running totals of money and shares yields exactly the prefix-sum schedule and summary of `Compute`, including every divide-by-zero outcome |
| `PyramidLaws.SumOfSquares` | pyramid_stock_tool.py:420-421 | six times the total weight of the first n bands is n(n+1)(2n+1) |
| `PyramidLaws.TotalWeightOfSteps` | pyramid_stock_tool.py:420-421 | the twenty weights sum to 2870 |
| `PyramidLaws.WeightsStrictlyIncrease` | pyramid_stock_tool.py:420 | a deeper band weighs strictly more |
| `PyramidLaws.AllocationRatioBounds` | pyramid_stock_tool.py:444 | every allocation ratio lies strictly between 0 and 1 |
| `PyramidLaws.RatioPrefix` | pyramid_stock_tool.py:444 | the ratios of the first n rows sum to those bands' weight over the total weight |
| `PyramidLaws.RatiosOfWeights` | pyramid_stock_tool.py:444 | twenty rows carrying their bands' ratios have ratios in (0,1) that sum to exactly 1 |
| `PyramidLaws.ScheduleRatios` | pyramid_stock_tool.py:444 | every band of a schedule carries its weight's share of the total |
| `PyramidLaws.RatiosSumToOne` | pyramid_stock_tool.py:444-445 | the allocation ratios of a schedule sum to 1, each strictly between 0 and 1 |
| `PyramidLaws.BandPricesDecrease` | pyramid_stock_tool.py:415-416 | band prices strictly decrease with depth |
| `PyramidLaws.BandPriceInRange` | pyramid_stock_tool.py:440 | every band price lies in [stop-loss, current); only the last reaches the stop-loss, exactly |
| `PyramidLaws.SchedulePrices` | pyramid_stock_tool.py:438-441 | the schedule's first price is one step below the current price, the prices strictly decrease, and the last is the stop-loss |
| `PyramidLaws.WellPosedPricesPositive` | pyramid_stock_tool.py:440 | a positive stop-loss keeps every band price positive, so line 448 never divides by zero |
| `PyramidLaws.ZeroStopLossFails` | pyramid_stock_tool.py:448 | a zero stop-loss prices the last band at zero and the share computation fails |
| `PyramidLaws.BandRounding` | pyramid_stock_tool.py:445-451 | with non-negative capital a band buys no negative number of shares and spends within half its price of its allocation |
| `PyramidLaws.RoundedPurchase` | pyramid_stock_tool.py:448-451 | buying the rounded share count spends within half a price of the amount allocated |
| `PyramidLaws.ScheduleRunningTotals` | pyramid_stock_tool.py:455-456 | each band's running totals equal the column sums of the rows up to it, and grow by the band's own shares and money |
| `PyramidLaws.CostBasisBounds` | pyramid_stock_tool.py:455-459 | rows priced within [lo, hi] spend between lo and hi times the shares they buy |
| `PyramidLaws.AverageCostRecoversInvestment` | pyramid_stock_tool.py:459 | once shares are held, average cost times shares held is the money invested |
| `PyramidLaws.AverageWithinRows` | pyramid_stock_tool.py:459 | the average cost lies within the price range of the rows bought |
| `PyramidLaws.AverageCostWithinPricesPaid` | pyramid_stock_tool.py:459-464 | a band's average cost, which is its break-even, lies between the lowest and highest price paid so far |
| `PyramidLaws.AverageCostWithinLadder` | pyramid_stock_tool.py:459 | the average cost lies between the band's own price and the first band's price |
| `PyramidLaws.LadderRowsWithin` | pyramid_stock_tool.py:440-451 | every row of a well-posed schedule spends shares times price, buys no negative count, and is priced within [stop-loss, current] |
| `SummaryLaws.HoldingsAndSpending` | pyramid_stock_tool.py:455-456 | shares held are non-negative and bought for between the stop-loss and the current price each; money is invested exactly when shares are held |
| `SummaryLaws.SucceedsIffSharesBought` | pyramid_stock_tool.py:513-516 | a well-posed input yields a report exactly when some share is bought; otherwise it fails at the zero break-even |
| `SummaryLaws.ZeroCapitalBuysNothing` | pyramid_stock_tool.py:445-516 | with zero capital every band buys nothing and the break-even division fails |
| `SummaryLaws.ReturnIsProfitOverCost` | pyramid_stock_tool.py:468-469 | a band's potential return is the profit from selling at the target over the money invested |
| `SummaryLaws.ReturnOverBreakeven` | pyramid_stock_tool.py:464-469 | a band's potential return is the target's gain over the break-even price |
| `SummaryLaws.ReturnMatchesSummary` | pyramid_stock_tool.py:502-516 | the summary's investment and break-even are the last band's, and the last band's potential return equals the maximum return |
| `SummaryLaws.DrawdownBounds` | pyramid_stock_tool.py:505 | the drawdown of a well-posed input lies strictly between 0 and 100 percent |
| `SummaryLaws.InfiniteRiskRewardUnreachable` | pyramid_stock_tool.py:508-510 | a well-posed report has positive investment, a drawdown in (0,100) and a finite risk/reward ratio |
| `SummaryLaws.TotalsIgnoreTarget` | pyramid_stock_tool.py:455-456 | the running totals do not depend on the target price |
| `SummaryLaws.ScheduleIgnoresTarget` | pyramid_stock_tool.py:438-459 | the band schedule does not depend on the target price |
| `SummaryLaws.TargetOnlyMovesReturns` | pyramid_stock_tool.py:398-516 | the target price changes neither whether a report is produced, nor the error, nor the bands, nor the investment, drawdown and break-even |
| `Deployment.AllocatedScales` | pyramid_stock_tool.py:445 | allocations that are each a ratio of the capital sum to the ratios' sum times the capital |
| `Deployment.DriftAccumulates` | pyramid_stock_tool.py:451-455 | per-row rounding drift of at most e adds up to at most e per row |
| `Deployment.BandDrift` | pyramid_stock_tool.py:440-451 | each band spends within half the current price of its allocation |
| `Deployment.DeployedNearCapital` | pyramid_stock_tool.py:444-456 | the money a well-posed pyramid spends is within ten current prices of the capital |
| `Rounding.RoundHalfEvenNearest` | pyramid_stock_tool.py:448 | the rounded share count is within one half of the exact quotient, and even at a tie |
| `Rounding.RoundHalfEvenIsUnique` | pyramid_stock_tool.py:448 | any integer within one half that is even at a tie is the rounded value |
| `Rounding.RoundHalfEvenNonNegative` | pyramid_stock_tool.py:448 | a non-negative quotient never rounds to a negative share count |
| `Rounding.RoundHalfEvenOfInteger` | pyramid_stock_tool.py:448 | whole numbers round to themselves |
| `StockCode.Strip` | pyramid_stock_tool.py:237 | the stripped code has no whitespace at either end |
| `StockCode.StripIsSlice` | pyramid_stock_tool.py:237 | stripping removes only whitespace, and only at the ends |
| `StockCode.StripTrimmed` | pyramid_stock_tool.py:237 | a code with no whitespace at either end is left unchanged |
| `StockCode.StripIdempotent` | pyramid_stock_tool.py:237 | stripping twice equals stripping once |
| `StockCode.PrefixedCode` | pyramid_stock_tool.py:235-242 | the stripped code ends the result; `sh` precedes a leading 6, `sz` a leading 0 or 3, and nothing precedes any other code |
| `StockCode.PrefixedCodeIdempotent` | pyramid_stock_tool.py:235-242 | prefixing an already prefixed code leaves it unchanged |

## Left out

- Reading the form's text fields, `float()` parsing and the `ValueError`
  dialog are left out. The model takes the four numbers already parsed, with
  an empty target field as `None`.
- The warning dialogs are left out. The target warning is kept as a flag
  in the report.
- Writing the target default back into the form is left out.
- The table, the colour gradient, the charts, the font setup and the
  saving of the risk metrics for display are left out. They are display only.
- Fetching quotes and fundamentals over the network is left out. So are the
  mock fundamentals and the other UI handlers. Only the pure prefix helper
  from that part is modelled.
- IEEE double rounding is left out. Prices and money are exact reals, so
  float drift is not modelled. Python's `round` is modelled exactly, as
  round-half-to-even of the exact quotient.
- ZeroStopLossFails: holds in exact arithmetic only. In doubles,
  `c - (c/20)*20` can be non-zero (for example at c = 0.11), and then line
  448 does not divide by zero.
- BandPriceInRange: holds in exact arithmetic only. In doubles, the last band
  may sit slightly off the stop-loss.
- A `ZeroDivisionError` is an error value, not an exception that stops the
  program.
