/**
  The allocation and risk engine of the pyramid stock tool: it spreads a
  capital amount over twenty price bands between the current price and the
  stop-loss, buying more shares the deeper the band, and derives the running
  cost basis of the position at every band plus a five-figure risk summary.

  Prices and money are exact reals; share counts are integers obtained by
  round-half-to-even. Every `ZeroDivisionError` the computation can raise is
  an explicit error value instead of an exception.
 */
module Pyramid {
  import opened Results
  import opened Rounding

  /** Number of price bands in a pyramid. */
  const Steps: nat := 20

  /** The four numbers read from the input form; `targetPrice` is `None`
      when its field is left empty. */
  datatype Input = Input(
    currentPrice: real,
    stopLoss: real,
    capital: real,
    targetPrice: Option<real>)

  /** One row of the allocation table. `index` counts from 1 at the band
      nearest the current price; the cumulative figures cover this band and
      every band above it. The average cost, break-even and potential
      return columns are derived from the cumulative figures. */
  datatype Band = Band(
    index: nat,
    price: real,
    weight: nat,
    allocationRatio: real,
    allocatedCapital: real,
    shares: int,
    investment: real,
    cumulativeInvestment: real,
    cumulativeShares: int)
  {
    /** Average price paid per share held, 0 before any share is held. */
    function AverageCost(): real {
      if cumulativeShares > 0 then cumulativeInvestment / cumulativeShares as real else 0.0
    }

    /** The price at which selling every share held recovers the money spent. */
    function BreakevenPrice(): real {
      AverageCost()
    }

    /** Percentage return from selling every share held at `target`,
        relative to the money invested; 0 unless money has been invested. */
    function PotentialReturnPct(target: real): real {
      if cumulativeInvestment > 0.0 then
        (target - AverageCost()) * cumulativeShares as real / cumulativeInvestment * 100.0
      else 0.0
    }
  }

  /** Gain over loss, or infinity when nothing can be lost. */
  datatype RiskReward = Finite(value: real) | Infinite

  datatype RiskSummary = RiskSummary(
    maxInvestment: real,
    maxDrawdownPct: real,
    riskReward: RiskReward,
    breakevenPrice: real,
    maxReturnPct: real)

  /** `targetWarning` records the warning shown, without stopping, when the
      target does not lie above the current price. */
  datatype Report = Report(
    targetPrice: real,
    targetWarning: bool,
    bands: seq<Band>,
    summary: RiskSummary)

  /** Why no report was produced. The last three are the points where the
      computation divides by zero: a band priced at zero, a current price of
      zero, and a break-even of zero (nothing was bought). */
  datatype EngineError =
    | InvalidPriceRange
    | ZeroBandPrice
    | ZeroCurrentPrice
    | ZeroBreakeven

  /** Inputs the form's validators admit and for which no band is priced at
      zero: a positive stop-loss below the current price and non-negative
      capital. */
  predicate WellPosed(inp: Input) {
    0.0 < inp.stopLoss < inp.currentPrice && inp.capital >= 0.0
  }

  /** The target price used: the one entered, or 20% above the current price. */
  function EffectiveTarget(inp: Input): real {
    match inp.targetPrice
    case Some(t) => t
    case None => inp.currentPrice * 1.2
  }

  /** The price distance between consecutive bands. */
  function Step(inp: Input): real {
    (inp.currentPrice - inp.stopLoss) / Steps as real
  }

  /** The buy price of band `i` (counting from 0). */
  function BandPrice(inp: Input, i: nat): real {
    inp.currentPrice - Step(inp) * (i + 1) as real
  }

  /** Band `i` (counting from 0) has weight (i+1)^2. */
  function Weight(i: nat): nat {
    (i + 1) * (i + 1)
  }

  /** The total weight of the first `n` bands. */
  function TotalWeight(n: nat): (w: nat)
    ensures w >= n
  {
    if n == 0 then 0 else TotalWeight(n - 1) + Weight(n - 1)
  }

  /** The share of capital assigned to band `i`. */
  function AllocationRatio(i: nat): real {
    Weight(i) as real / TotalWeight(Steps) as real
  }

  function AllocatedCapital(inp: Input, i: nat): real {
    AllocationRatio(i) * inp.capital
  }

  /** None of the first `n` bands is priced at zero. */
  predicate PricesNonzero(inp: Input, n: nat) {
    forall j :: 0 <= j < n ==> BandPrice(inp, j) != 0.0
  }

  /** Whole shares bought in band `i`: the allocated capital over the band
      price, rounded half to even. */
  function BandShares(inp: Input, i: nat): int
    requires BandPrice(inp, i) != 0.0
  {
    RoundHalfEven(AllocatedCapital(inp, i) / BandPrice(inp, i))
  }

  /** The money actually spent in band `i`. */
  function BandInvestment(inp: Input, i: nat): real
    requires BandPrice(inp, i) != 0.0
  {
    BandShares(inp, i) as real * BandPrice(inp, i)
  }

  /** Shares bought in the first `n` bands. */
  function SharesUpTo(inp: Input, n: nat): int
    requires PricesNonzero(inp, n)
  {
    if n == 0 then 0 else SharesUpTo(inp, n - 1) + BandShares(inp, n - 1)
  }

  /** Money spent in the first `n` bands. */
  function InvestedUpTo(inp: Input, n: nat): real
    requires PricesNonzero(inp, n)
  {
    if n == 0 then 0.0 else InvestedUpTo(inp, n - 1) + BandInvestment(inp, n - 1)
  }

  /** Band `i` given the running totals through it. */
  function MakeBand(inp: Input, i: nat, invested: real, shares: int): Band
    requires BandPrice(inp, i) != 0.0
  {
    Band(
      i + 1,
      BandPrice(inp, i),
      Weight(i),
      AllocationRatio(i),
      AllocatedCapital(inp, i),
      BandShares(inp, i),
      BandInvestment(inp, i),
      invested,
      shares)
  }

  /** Band `i` of the schedule, its running totals being prefix sums. */
  function PlannedBand(inp: Input, i: nat): Band
    requires PricesNonzero(inp, i + 1)
  {
    MakeBand(inp, i, InvestedUpTo(inp, i + 1), SharesUpTo(inp, i + 1))
  }

  /** All twenty bands, nearest the current price first. */
  function Schedule(inp: Input): (bands: seq<Band>)
    requires PricesNonzero(inp, Steps)
    ensures |bands| == Steps
  {
    seq(Steps, i requires 0 <= i < Steps => PlannedBand(inp, i))
  }

  /** Percentage fall from the current price to the stop-loss. */
  function DrawdownPct(inp: Input): real
    requires inp.currentPrice != 0.0
  {
    (inp.currentPrice - inp.stopLoss) / inp.currentPrice * 100.0
  }

  /** The risk summary, read off the last band. */
  function Summarize(inp: Input, target: real, last: Band): RiskSummary
    requires inp.currentPrice != 0.0 && last.BreakevenPrice() != 0.0
  {
    var maxInvestment := last.cumulativeInvestment;
    var drawdown := DrawdownPct(inp);
    var loss := maxInvestment * drawdown / 100.0;
    var gain := (target - last.AverageCost()) * last.cumulativeShares as real;
    var riskReward := if loss > 0.0 then Finite(gain / loss) else Infinite;
    var breakeven := last.BreakevenPrice();
    RiskSummary(
      maxInvestment,
      drawdown,
      riskReward,
      breakeven,
      (target - breakeven) / breakeven * 100.0)
  }

  /** The engine, stated with prefix sums: the bands and the summary, or the
      reason there are none. */
  function Compute(inp: Input): (r: Result<Report, EngineError>)
    ensures r == Failure(InvalidPriceRange) <==> inp.currentPrice <= inp.stopLoss
    ensures r.Success? && inp.targetPrice.None? ==> r.value.targetPrice == inp.currentPrice * 1.2
    ensures r.Success? && inp.targetPrice.Some? ==> r.value.targetPrice == inp.targetPrice.value
    ensures r.Success? ==>
      && (r.value.targetWarning <==> r.value.targetPrice <= inp.currentPrice)
      && |r.value.bands| == Steps
  {
    var target := EffectiveTarget(inp);
    if inp.currentPrice <= inp.stopLoss then Failure(InvalidPriceRange)
    else if !PricesNonzero(inp, Steps) then Failure(ZeroBandPrice)
    else
      var bands := Schedule(inp);
      var last := bands[Steps - 1];
      if inp.currentPrice == 0.0 then Failure(ZeroCurrentPrice)
      else if last.BreakevenPrice() == 0.0 then Failure(ZeroBreakeven)
      else Success(Report(target, target <= inp.currentPrice, bands, Summarize(inp, target, last)))
  }

  /** The engine as a single pass over the bands that keeps running totals of
      money invested and shares held; it produces exactly the prefix-sum
      schedule of `Compute`. */
  method GeneratePyramid(inp: Input) returns (r: Result<Report, EngineError>)
    ensures r == Compute(inp)
  {
    var target := EffectiveTarget(inp);
    if inp.currentPrice <= inp.stopLoss {
      return Failure(InvalidPriceRange);
    }
    var bands: seq<Band> := [];
    var invested := 0.0;
    var held := 0;
    var i := 0;
    while i < Steps
      invariant 0 <= i <= Steps
      invariant PricesNonzero(inp, i)
      invariant invested == InvestedUpTo(inp, i)
      invariant held == SharesUpTo(inp, i)
      invariant |bands| == i
      invariant forall j :: 0 <= j < i ==> bands[j] == PlannedBand(inp, j)
    {
      var price := BandPrice(inp, i);
      if price == 0.0 {
        return Failure(ZeroBandPrice);
      }
      invested := invested + BandInvestment(inp, i);
      held := held + BandShares(inp, i);
      bands := bands + [MakeBand(inp, i, invested, held)];
      i := i + 1;
    }
    assert bands == Schedule(inp);
    if inp.currentPrice == 0.0 {
      return Failure(ZeroCurrentPrice);
    }
    var last := bands[Steps - 1];
    if last.BreakevenPrice() == 0.0 {
      return Failure(ZeroBreakeven);
    }
    r := Success(Report(target, target <= inp.currentPrice, bands, Summarize(inp, target, last)));
  }
}
