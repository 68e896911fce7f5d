/**
  Properties of the pyramid allocation engine: the weight law, the price
  ladder, share rounding, the running totals, the cost-basis bounds, and how
  the risk summary relates to the last band.
 */
module PyramidLaws {
  import opened Results
  import opened Rounding
  import opened Pyramid

  // ---------------------------------------------------------------------
  // Totals over table rows, defined independently of the engine

  /** Sum of the `shares` column. */
  function SumShares(bands: seq<Band>): int {
    if |bands| == 0 then 0 else SumShares(bands[..|bands| - 1]) + bands[|bands| - 1].shares
  }

  /** Sum of the `investment` column. */
  function SumInvestment(bands: seq<Band>): real {
    if |bands| == 0 then 0.0
    else SumInvestment(bands[..|bands| - 1]) + bands[|bands| - 1].investment
  }

  /** Sum of the `allocationRatio` column. */
  function SumRatios(bands: seq<Band>): real {
    if |bands| == 0 then 0.0
    else SumRatios(bands[..|bands| - 1]) + bands[|bands| - 1].allocationRatio
  }

  /** The prefix of a table as long as the table is the table itself. */
  lemma WholePrefix(bands: seq<Band>)
    ensures bands[..|bands|] == bands
  {
  }

  // ---------------------------------------------------------------------
  // Small facts about real arithmetic

  lemma MulLeftMono(k: real, a: real, b: real)
    requires k >= 0.0 && a <= b
    ensures k * a <= k * b
  {
  }

  lemma MulPos(a: real, b: real)
    requires a > 0.0 && b > 0.0
    ensures a * b > 0.0
  {
  }

  /** Rounding `a / p` to within one half moves `n * p` at most `p / 2` from `a`. */
  lemma RoundingError(a: real, p: real, n: int)
    requires p > 0.0
    requires a / p - 0.5 <= n as real <= a / p + 0.5
    ensures -p / 2.0 <= n as real * p - a <= p / 2.0
  {
    var x := a / p;
    var d := n as real - x;
    assert x * p == a;
    assert -0.5 <= d <= 0.5;
    assert n as real * p - a == p * d;
    MulLeftMono(p, d, 0.5);
    MulLeftMono(p, -0.5, d);
    assert p * 0.5 == p / 2.0 && p * -0.5 == -p / 2.0;
  }

  /** One more band keeps the money spent between `lo` and `hi` per share. */
  lemma CostBasisStep(s: real, k: real, p: real, spent: real, s': real, spent': real, lo: real, hi: real)
    requires k >= 0.0
    requires lo * s <= spent <= hi * s
    requires k > 0.0 ==> lo <= p <= hi
    requires s' == s + k && spent' == spent + k * p
    ensures lo * s' <= spent' <= hi * s'
  {
    if k > 0.0 {
      MulLeftMono(k, lo, p);
      MulLeftMono(k, p, hi);
    }
    assert lo * (s + k) == lo * s + k * lo;
    assert hi * (s + k) == hi * s + k * hi;
  }

  /** An average `a` with `a * s == spent` inherits bounds on `spent / s`. */
  lemma AverageBounds(spent: real, s: real, a: real, lo: real, hi: real)
    requires s > 0.0 && a * s == spent
    requires lo * s <= spent <= hi * s
    ensures lo <= a <= hi
  {
  }

  lemma DivAdd(a: real, b: real, w: real)
    requires w > 0.0
    ensures a / w + b / w == (a + b) / w
  {
    assert (a / w) * w == a;
    assert (b / w) * w == b;
    assert (a / w + b / w) * w == a + b;
  }

  // ---------------------------------------------------------------------
  // The weight law

  /** The closed form grows by the next square: m(m+1)(2m+1) plus six times
      (m+1)^2 is (m+1)(m+2)(2m+3). */
  lemma SquareSumStep(m: int)
    ensures m * (m + 1) * (2 * m + 1) + 6 * ((m + 1) * (m + 1)) == (m + 1) * (m + 2) * (2 * m + 3)
  {
    assert m * (m + 1) * (2 * m + 1) == 2 * m * m * m + 3 * m * m + m;
    assert (m + 1) * (m + 2) * (2 * m + 3) == 2 * m * m * m + 9 * m * m + 13 * m + 6;
  }

  /** The weights are the squares 1, 4, ..., n^2, whose sum is n(n+1)(2n+1)/6. */
  lemma {:induction false} SumOfSquares(n: nat)
    ensures 6 * TotalWeight(n) == n * (n + 1) * (2 * n + 1)
  {
    if n > 0 {
      SumOfSquares(n - 1);
      SquareSumStep(n - 1);
    }
  }

  /** Twenty bands weigh 2870 in total. */
  lemma TotalWeightOfSteps()
    ensures TotalWeight(Steps) == 2870
  {
    var n := Steps;
    SumOfSquares(n);
    assert n * (n + 1) * (2 * n + 1) == 17220;
  }

  /** Deeper bands weigh strictly more. */
  lemma WeightsStrictlyIncrease(i: nat, j: nat)
    requires i < j
    ensures Weight(i) < Weight(j)
  {
    assert (i + 1) * (i + 1) <= (i + 1) * (j + 1) < (j + 1) * (j + 1);
  }

  /** Appending a row adds its ratio to the ratio column's sum. */
  lemma RatioSumSnoc(bands: seq<Band>, n: nat)
    requires 0 < n <= |bands|
    ensures SumRatios(bands[..n]) == SumRatios(bands[..n - 1]) + bands[n - 1].allocationRatio
  {
    assert bands[..n][..n - 1] == bands[..n - 1];
  }

  /** In any table whose rows carry their band's weight over a positive
      total `w`, the ratios of the first `n` rows add up to those bands'
      weight over `w`. */
  lemma {:induction false} RatioPrefix(bands: seq<Band>, n: nat, w: real)
    requires n <= |bands| && w > 0.0
    requires forall j :: 0 <= j < |bands| ==> bands[j].allocationRatio == Weight(j) as real / w
    ensures SumRatios(bands[..n]) == TotalWeight(n) as real / w
  {
    if n > 0 {
      RatioPrefix(bands, n - 1, w);
      RatioSumSnoc(bands, n);
      DivAdd(TotalWeight(n - 1) as real, Weight(n - 1) as real, w);
    } else {
      assert bands[..0] == [];
    }
  }

  /** A table of twenty rows carrying the allocation ratios of their bands
      has every ratio strictly between 0 and 1, and the ratios add up to
      exactly 1. */
  lemma RatiosOfWeights(bands: seq<Band>)
    requires |bands| == Steps
    requires forall j :: 0 <= j < |bands| ==> bands[j].allocationRatio == AllocationRatio(j)
    ensures SumRatios(bands) == 1.0
    ensures forall i :: 0 <= i < |bands| ==> 0.0 < bands[i].allocationRatio < 1.0
  {
    var w := TotalWeight(Steps) as real;
    TotalWeightOfSteps();
    forall i | 0 <= i < |bands|
      ensures 0.0 < bands[i].allocationRatio < 1.0
    {
      AllocationRatioBounds(i);
    }
    RatioPrefix(bands, Steps, w);
    WholePrefix(bands);
  }

  /** Every band of a schedule carries its allocation ratio. */
  lemma ScheduleRatios(inp: Input)
    requires PricesNonzero(inp, Steps)
    ensures forall j :: 0 <= j < Steps ==> Schedule(inp)[j].allocationRatio == AllocationRatio(j)
  {
  }

  /** Every band's ratio lies strictly between 0 and 1, and the twenty ratios
      of a schedule add up to exactly 1. */
  lemma RatiosSumToOne(inp: Input)
    requires PricesNonzero(inp, Steps)
    ensures SumRatios(Schedule(inp)) == 1.0
    ensures forall i :: 0 <= i < Steps ==> 0.0 < Schedule(inp)[i].allocationRatio < 1.0
  {
    ScheduleRatios(inp);
    RatiosOfWeights(Schedule(inp));
  }

  lemma AllocationRatioBounds(i: nat)
    requires i < Steps
    ensures 0.0 < AllocationRatio(i) < 1.0
  {
    TotalWeightOfSteps();
    if i < Steps - 1 {
      WeightsStrictlyIncrease(i, Steps - 1);
    }
    assert 0 < Weight(i) <= 400;
    assert AllocationRatio(i) == Weight(i) as real / 2870.0;
  }

  // ---------------------------------------------------------------------
  // The price ladder

  /** Prices fall by one step per band, so they strictly decrease. */
  lemma BandPricesDecrease(inp: Input, i: nat, j: nat)
    requires inp.stopLoss < inp.currentPrice
    requires i < j
    ensures BandPrice(inp, j) < BandPrice(inp, i)
  {
    var s := Step(inp);
    assert s * (j + 1) as real - s * (i + 1) as real == s * (j - i) as real;
    MulPos(s, (j - i) as real);
  }

  /** Every band price lies in [stop-loss, current price); only the last
      band reaches the stop-loss. */
  lemma BandPriceInRange(inp: Input, i: nat)
    requires inp.stopLoss < inp.currentPrice
    requires i < Steps
    ensures inp.stopLoss <= BandPrice(inp, i) < inp.currentPrice
    ensures i < Steps - 1 ==> inp.stopLoss < BandPrice(inp, i)
    ensures i == Steps - 1 ==> BandPrice(inp, i) == inp.stopLoss
  {
    var s := Step(inp);
    MulPos(s, (i + 1) as real);
    if i < Steps - 1 {
      BandPricesDecrease(inp, i, Steps - 1);
    }
  }

  /** The prices of a schedule start one step below the current price, fall
      strictly from band to band, and end exactly at the stop-loss. */
  lemma SchedulePrices(inp: Input)
    requires inp.stopLoss < inp.currentPrice
    requires PricesNonzero(inp, Steps)
    ensures var bands := Schedule(inp);
      && bands[0].price == inp.currentPrice - Step(inp)
      && bands[Steps - 1].price == inp.stopLoss
      && (forall i, j :: 0 <= i < j < Steps ==> bands[j].price < bands[i].price)
  {
    var bands := Schedule(inp);
    BandPriceInRange(inp, Steps - 1);
    forall i, j | 0 <= i < j < Steps
      ensures bands[j].price < bands[i].price
    {
      BandPricesDecrease(inp, i, j);
    }
  }

  /** Well-posed inputs price every band strictly above zero. */
  lemma WellPosedPricesPositive(inp: Input)
    requires WellPosed(inp)
    ensures forall i :: 0 <= i < Steps ==> BandPrice(inp, i) >= inp.stopLoss > 0.0
    ensures PricesNonzero(inp, Steps)
  {
    forall i | 0 <= i < Steps
      ensures BandPrice(inp, i) >= inp.stopLoss
    {
      BandPriceInRange(inp, i);
    }
  }

  /** A stop-loss of zero puts the last band at price zero, so the share
      computation divides by zero there. */
  lemma ZeroStopLossFails(inp: Input)
    requires inp.stopLoss == 0.0 < inp.currentPrice
    ensures Compute(inp) == Failure(ZeroBandPrice)
  {
    BandPriceInRange(inp, Steps - 1);
    assert !PricesNonzero(inp, Steps);
  }

  // ---------------------------------------------------------------------
  // Share rounding

  /** With non-negative capital and a positive price, a band buys a
      non-negative number of shares, and the money it spends differs from
      its allocated capital by at most half the band price. */
  lemma BandRounding(inp: Input, i: nat)
    requires inp.capital >= 0.0
    requires BandPrice(inp, i) > 0.0
    ensures BandShares(inp, i) >= 0
    ensures -BandPrice(inp, i) / 2.0 <= BandInvestment(inp, i) - AllocatedCapital(inp, i)
                                     <= BandPrice(inp, i) / 2.0
  {
    var p := BandPrice(inp, i);
    var a := AllocatedCapital(inp, i);
    assert a >= 0.0 by {
      assert AllocationRatio(i) >= 0.0;
      MulLeftMono(inp.capital, 0.0, AllocationRatio(i));
    }
    RoundedPurchase(a, p, BandShares(inp, i));
  }

  /** Buying the rounded number of shares of price `p` that `a` pays for
      buys no negative number of them and spends within `p / 2` of `a`. */
  lemma RoundedPurchase(a: real, p: real, n: int)
    requires a >= 0.0 && p > 0.0
    requires n == RoundHalfEven(a / p)
    ensures n >= 0
    ensures -p / 2.0 <= n as real * p - a <= p / 2.0
  {
    assert a / p >= 0.0;
    RoundHalfEvenNonNegative(a / p);
    RoundHalfEvenNearest(a / p);
    RoundingError(a, p, n);
  }

  // ---------------------------------------------------------------------
  // Running totals

  /** Appending one row adds its figures to the column sums. */
  lemma ColumnSumsSnoc(bands: seq<Band>, i: nat)
    requires i < |bands|
    ensures SumShares(bands[..i + 1]) == SumShares(bands[..i]) + bands[i].shares
    ensures SumInvestment(bands[..i + 1]) == SumInvestment(bands[..i]) + bands[i].investment
  {
    assert bands[..i + 1][..i] == bands[..i];
  }

  /** Each band's running totals grow from the previous band's by the
      band's own shares and investment. */
  lemma PlannedBandStep(inp: Input, i: nat)
    requires 0 < i < Steps
    requires PricesNonzero(inp, Steps)
    ensures PlannedBand(inp, i).cumulativeShares == PlannedBand(inp, i - 1).cumulativeShares + PlannedBand(inp, i).shares
    ensures PlannedBand(inp, i).cumulativeInvestment
         == PlannedBand(inp, i - 1).cumulativeInvestment + PlannedBand(inp, i).investment
  {
  }

  /** The running totals of every band are the column sums of the rows up
      to and including it, and each grows from the previous band's by this
      band's own figures. */
  lemma {:induction false} ScheduleRunningTotals(inp: Input, i: nat)
    requires PricesNonzero(inp, Steps)
    requires i < Steps
    ensures var bands := Schedule(inp);
      && SumShares(bands[..i + 1]) == bands[i].cumulativeShares
      && SumInvestment(bands[..i + 1]) == bands[i].cumulativeInvestment
      && (i > 0 ==>
            && bands[i].cumulativeShares == bands[i - 1].cumulativeShares + bands[i].shares
            && bands[i].cumulativeInvestment == bands[i - 1].cumulativeInvestment + bands[i].investment)
  {
    var bands := Schedule(inp);
    ColumnSumsSnoc(bands, i);
    if i > 0 {
      ScheduleRunningTotals(inp, i - 1);
      PlannedBandStep(inp, i);
    } else {
      assert bands[..0] == [];
      assert SumShares(bands[..0]) == 0 && SumInvestment(bands[..0]) == 0.0;
      assert bands[0] == PlannedBand(inp, 0);
      assert SharesUpTo(inp, 1) == BandShares(inp, 0);
      assert InvestedUpTo(inp, 1) == BandInvestment(inp, 0);
    }
  }

  /** A table row spends its share count times its price, buys no negative
      number of shares, and is priced within [lo, hi] if it buys any. */
  predicate RowWithin(b: Band, lo: real, hi: real) {
    && b.investment == b.shares as real * b.price
    && b.shares >= 0
    && (b.shares > 0 ==> lo <= b.price <= hi)
  }

  /** Every row satisfies `RowWithin`, stated row by row from the last. */
  predicate RowsWithin(bands: seq<Band>, lo: real, hi: real) {
    |bands| == 0 ||
    (RowsWithin(bands[..|bands| - 1], lo, hi) && RowWithin(bands[|bands| - 1], lo, hi))
  }

  lemma {:induction false} RowsWithinAll(bands: seq<Band>, lo: real, hi: real)
    requires forall j :: 0 <= j < |bands| ==> RowWithin(bands[j], lo, hi)
    ensures RowsWithin(bands, lo, hi)
  {
    if |bands| > 0 {
      var rest := bands[..|bands| - 1];
      assert forall j :: 0 <= j < |rest| ==> rest[j] == bands[j];
      RowsWithinAll(rest, lo, hi);
    }
  }

  /** Weighted-average bound: for rows within [lo, hi], the investment
      column sums to between `lo` and `hi` times the share column. */
  lemma {:induction false} CostBasisBounds(bands: seq<Band>, lo: real, hi: real)
    requires RowsWithin(bands, lo, hi)
    ensures SumShares(bands) >= 0
    ensures lo * SumShares(bands) as real <= SumInvestment(bands) <= hi * SumShares(bands) as real
  {
    if |bands| > 0 {
      CostBasisBounds(bands[..|bands| - 1], lo, hi);
      CostBasisExtend(bands, lo, hi);
    } else {
      assert SumShares(bands) == 0 && SumInvestment(bands) == 0.0;
    }
  }

  /** The inductive step of `CostBasisBounds`: one more row within [lo, hi]. */
  lemma CostBasisExtend(bands: seq<Band>, lo: real, hi: real)
    requires |bands| > 0
    requires RowWithin(bands[|bands| - 1], lo, hi)
    requires var rest := bands[..|bands| - 1];
      && SumShares(rest) >= 0
      && lo * SumShares(rest) as real <= SumInvestment(rest) <= hi * SumShares(rest) as real
    ensures SumShares(bands) >= 0
    ensures lo * SumShares(bands) as real <= SumInvestment(bands) <= hi * SumShares(bands) as real
  {
    var rest := bands[..|bands| - 1];
    var last := bands[|bands| - 1];
    CostBasisStep(SumShares(rest) as real, last.shares as real, last.price, SumInvestment(rest),
                  SumShares(bands) as real, SumInvestment(bands), lo, hi);
  }

  /** Once shares are held, the average cost times the shares held gives
      back the money invested. */
  lemma AverageCostRecoversInvestment(b: Band)
    requires b.cumulativeShares > 0
    ensures b.AverageCost() * b.cumulativeShares as real == b.cumulativeInvestment
  {
  }

  /** A band spends its share count times its price, and with
      non-negative capital and a positive price it buys no negative number
      of shares. */
  lemma PlannedRow(inp: Input, j: nat)
    requires inp.capital >= 0.0
    requires PricesNonzero(inp, j + 1)
    requires BandPrice(inp, j) > 0.0
    ensures var b := PlannedBand(inp, j);
      && b.price == BandPrice(inp, j)
      && b.investment == b.shares as real * b.price
      && b.shares >= 0
  {
    BandRounding(inp, j);
  }

  /** A row of a well-posed schedule spends its share count times its price
      and buys a non-negative number of shares. */
  lemma ScheduleRow(inp: Input, j: nat, lo: real, hi: real)
    requires WellPosed(inp)
    requires j < Steps
    requires PricesNonzero(inp, Steps)
    requires Schedule(inp)[j].shares > 0 ==> lo <= Schedule(inp)[j].price <= hi
    ensures RowWithin(Schedule(inp)[j], lo, hi)
  {
    assert Schedule(inp)[j] == PlannedBand(inp, j);
    BandPriceInRange(inp, j);
    PlannedRow(inp, j);
  }

  /** For any table whose rows lie within [lo, hi] and whose last row
      carries the column sums as its running totals, the last row's average
      cost lies within [lo, hi] once shares are held. */
  lemma AverageWithinRows(paid: seq<Band>, lo: real, hi: real)
    requires |paid| > 0
    requires RowsWithin(paid, lo, hi)
    requires paid[|paid| - 1].cumulativeShares == SumShares(paid)
    requires paid[|paid| - 1].cumulativeInvestment == SumInvestment(paid)
    requires paid[|paid| - 1].cumulativeShares > 0
    ensures lo <= paid[|paid| - 1].AverageCost() <= hi
  {
    var last := paid[|paid| - 1];
    CostBasisBounds(paid, lo, hi);
    AverageCostRecoversInvestment(last);
    AverageBounds(last.cumulativeInvestment, last.cumulativeShares as real, last.AverageCost(), lo, hi);
  }

  /** Every row of a well-posed schedule lies within [stop-loss, current
      price]. */
  lemma LadderRow(inp: Input, j: nat)
    requires WellPosed(inp)
    requires j < Steps
    ensures PricesNonzero(inp, Steps)
    ensures RowWithin(Schedule(inp)[j], inp.stopLoss, inp.currentPrice)
  {
    WellPosedPricesPositive(inp);
    BandPriceInRange(inp, j);
    assert Schedule(inp)[j].price == BandPrice(inp, j);
    ScheduleRow(inp, j, inp.stopLoss, inp.currentPrice);
  }

  /** The first `i + 1` rows of a well-posed schedule lie within
      [stop-loss, current price]. */
  lemma LadderRowsWithin(inp: Input, i: nat)
    requires WellPosed(inp)
    requires i < Steps
    ensures PricesNonzero(inp, Steps)
    ensures RowsWithin(Schedule(inp)[..i + 1], inp.stopLoss, inp.currentPrice)
  {
    WellPosedPricesPositive(inp);
    var paid := Schedule(inp)[..i + 1];
    forall j | 0 <= j < |paid|
      ensures RowWithin(paid[j], inp.stopLoss, inp.currentPrice)
    {
      LadderRow(inp, j);
    }
    RowsWithinAll(paid, inp.stopLoss, inp.currentPrice);
  }

  /** Once shares are held, the average cost (and so the break-even) of a
      band lies between the lowest and the highest price paid so far. */
  lemma AverageCostWithinPricesPaid(inp: Input, i: nat, lo: real, hi: real)
    requires WellPosed(inp)
    requires i < Steps
    requires PricesNonzero(inp, Steps)
    requires Schedule(inp)[i].cumulativeShares > 0
    requires forall j :: 0 <= j <= i && Schedule(inp)[j].shares > 0 ==>
      lo <= Schedule(inp)[j].price <= hi
    ensures lo <= Schedule(inp)[i].AverageCost() <= hi
    ensures Schedule(inp)[i].BreakevenPrice() == Schedule(inp)[i].AverageCost()
  {
    var bands := Schedule(inp);
    var paid := bands[..i + 1];
    assert RowsWithin(paid, lo, hi) by {
      forall j | 0 <= j < |paid|
        ensures RowWithin(paid[j], lo, hi)
      {
        ScheduleRow(inp, j, lo, hi);
      }
      RowsWithinAll(paid, lo, hi);
    }
    ScheduleRunningTotals(inp, i);
    assert paid[|paid| - 1] == bands[i];
    AverageWithinRows(paid, lo, hi);
  }

  /** In particular the average cost lies between the band's own price and
      the first band's price. */
  lemma AverageCostWithinLadder(inp: Input, i: nat)
    requires WellPosed(inp)
    requires i < Steps
    requires PricesNonzero(inp, Steps)
    requires Schedule(inp)[i].cumulativeShares > 0
    ensures Schedule(inp)[i].price <= Schedule(inp)[i].AverageCost() <= Schedule(inp)[0].price
  {
    WellPosedPricesPositive(inp);
    var bands := Schedule(inp);
    forall j | 0 <= j <= i
      ensures bands[i].price <= bands[j].price <= bands[0].price
    {
      if j < i { BandPricesDecrease(inp, j, i); }
      if 0 < j { BandPricesDecrease(inp, 0, j); }
    }
    AverageCostWithinPricesPaid(inp, i, bands[i].price, bands[0].price);
  }
}
