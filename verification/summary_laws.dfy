/**
  Properties of the risk summary and of when the engine produces one: a
  well-posed input succeeds exactly when some share is bought, the last
  band's potential return is the summary's maximum return, the risk/reward
  ratio is finite whenever a summary exists, and the target price moves
  only the return figures.
 */
module SummaryLaws {
  import opened Results
  import opened Rounding
  import opened Pyramid
  import opened PyramidLaws

  // ---------------------------------------------------------------------
  // Arithmetic helpers

  /** Selling `s` shares at `t` after spending `spent` on them returns
      `t*s - spent`, whatever the average cost is called. */
  lemma ProfitOverCost(t: real, spent: real, s: real)
    requires s > 0.0 && spent != 0.0
    ensures (t - spent / s) * s / spent * 100.0 == (t * s - spent) / spent * 100.0
  {
    assert (t - spent / s) * s == t * s - spent;
  }

  /** Return relative to money spent equals return relative to the average
      price per share. */
  lemma ReturnOnAverage(t: real, spent: real, s: real)
    requires s > 0.0 && spent != 0.0
    ensures (t - spent / s) * s / spent * 100.0 == (t - spent / s) / (spent / s) * 100.0
  {
    var a := spent / s;
    assert a != 0.0;
    assert s / spent == 1.0 / a;
    assert (t - a) * s / spent == (t - a) * (s / spent);
    assert (t - a) / a == (t - a) * (1.0 / a);
  }

  /** A positive part of a positive whole is a fraction strictly between 0
      and 1 of it. */
  lemma ProperFraction(part: real, whole: real)
    requires 0.0 < part < whole
    ensures 0.0 < part / whole < 1.0
  {
    DivAdd(part, whole - part, whole);
    assert whole / whole == 1.0;
    assert (whole - part) / whole > 0.0;
  }

  // ---------------------------------------------------------------------
  // Holdings

  /** In a well-posed schedule every band's totals are non-negative, and the
      money spent so far lies between the stop-loss and the current price
      times the shares held; so money has been spent exactly when shares
      are held. */
  lemma HoldingsAndSpending(inp: Input, i: nat)
    requires WellPosed(inp)
    requires i < Steps
    ensures PricesNonzero(inp, Steps)
    ensures HoldsWithin(Schedule(inp)[i], inp.stopLoss, inp.currentPrice)
  {
    LadderRowsWithin(inp, i);
    var paid := Schedule(inp)[..i + 1];
    assert paid[|paid| - 1].cumulativeShares == SumShares(paid)
        && paid[|paid| - 1].cumulativeInvestment == SumInvestment(paid) by {
      ScheduleRunningTotals(inp, i);
      assert paid[|paid| - 1] == Schedule(inp)[i];
    }
    TotalsWithinRows(paid, inp.stopLoss, inp.currentPrice);
    assert paid[|paid| - 1] == Schedule(inp)[i];
  }

  /** A band holds a non-negative number of shares bought for between `lo`
      and `hi` each, so money has been spent on it exactly when shares are
      held. */
  predicate HoldsWithin(b: Band, lo: real, hi: real) {
    && b.cumulativeShares >= 0
    && lo * b.cumulativeShares as real <= b.cumulativeInvestment <= hi * b.cumulativeShares as real
    && (b.cumulativeShares == 0 <==> b.cumulativeInvestment == 0.0)
    && (b.cumulativeShares > 0 <==> b.cumulativeInvestment > 0.0)
  }

  /** For any table whose rows lie within [lo, hi], lo positive, and whose
      last row carries the column sums as its running totals, the last row
      holds its shares at between lo and hi each. */
  lemma TotalsWithinRows(paid: seq<Band>, lo: real, hi: real)
    requires |paid| > 0 && lo > 0.0
    requires RowsWithin(paid, lo, hi)
    requires paid[|paid| - 1].cumulativeShares == SumShares(paid)
    requires paid[|paid| - 1].cumulativeInvestment == SumInvestment(paid)
    ensures HoldsWithin(paid[|paid| - 1], lo, hi)
  {
    CostBasisBounds(paid, lo, hi);
    var s := paid[|paid| - 1].cumulativeShares as real;
    if s > 0.0 {
      MulPos(lo, s);
    }
  }

  // ---------------------------------------------------------------------
  // When a report is produced

  /** A well-posed input yields a report exactly when the schedule buys at
      least one share; otherwise the break-even is zero and the maximum
      return divides by it. */
  lemma SucceedsIffSharesBought(inp: Input)
    requires WellPosed(inp)
    ensures PricesNonzero(inp, Steps)
    ensures Compute(inp).Success? <==> SumShares(Schedule(inp)) > 0
    ensures !Compute(inp).Success? ==> Compute(inp) == Failure(ZeroBreakeven)
  {
    HoldingsAndSpending(inp, Steps - 1);
    var bands := Schedule(inp);
    var last := bands[Steps - 1];
    ScheduleRunningTotals(inp, Steps - 1);
    WholePrefix(bands);
    if last.cumulativeShares > 0 {
      AverageCostWithinLadder(inp, Steps - 1);
      BandPriceInRange(inp, Steps - 1);
      assert last.BreakevenPrice() >= inp.stopLoss > 0.0;
    }
  }

  /** With no capital every band buys nothing, so no report is produced:
      the break-even is zero. */
  lemma ZeroCapitalBuysNothing(inp: Input)
    requires 0.0 < inp.stopLoss < inp.currentPrice && inp.capital == 0.0
    ensures PricesNonzero(inp, Steps)
    ensures forall i :: 0 <= i < Steps ==> Schedule(inp)[i].shares == 0
    ensures Compute(inp) == Failure(ZeroBreakeven)
  {
    WellPosedPricesPositive(inp);
    var bands := Schedule(inp);
    forall i | 0 <= i < Steps
      ensures bands[i].shares == 0
    {
      assert bands[i] == PlannedBand(inp, i);
      assert AllocatedCapital(inp, i) == 0.0;
      RoundHalfEvenOfInteger(0);
    }
    ScheduleRunningTotals(inp, Steps - 1);
    WholePrefix(bands);
    NoSharesSumToZero(bands);
    SucceedsIffSharesBought(inp);
  }

  /** A column of zeros sums to zero. */
  lemma {:induction false} NoSharesSumToZero(bands: seq<Band>)
    requires forall i :: 0 <= i < |bands| ==> bands[i].shares == 0
    ensures SumShares(bands) == 0
  {
    if |bands| > 0 {
      var rest := bands[..|bands| - 1];
      assert forall i :: 0 <= i < |rest| ==> rest[i] == bands[i];
      NoSharesSumToZero(rest);
    }
  }

  // ---------------------------------------------------------------------
  // The summary

  /** A band's potential return is the profit from selling every share held
      at the target, over the money invested. */
  lemma ReturnIsProfitOverCost(b: Band, target: real)
    requires b.cumulativeShares > 0 && b.cumulativeInvestment > 0.0
    ensures b.PotentialReturnPct(target)
         == (target * b.cumulativeShares as real - b.cumulativeInvestment) / b.cumulativeInvestment * 100.0
  {
    ProfitOverCost(target, b.cumulativeInvestment, b.cumulativeShares as real);
  }

  /** Once money is invested in shares, a band's potential return is the
      target's gain over its break-even price, as a percentage. */
  lemma ReturnOverBreakeven(b: Band, target: real)
    requires b.cumulativeShares > 0 && b.cumulativeInvestment > 0.0
    ensures b.PotentialReturnPct(target) == (target - b.BreakevenPrice()) / b.BreakevenPrice() * 100.0
  {
    ReturnOnAverage(target, b.cumulativeInvestment, b.cumulativeShares as real);
  }

  /** Whenever a report is produced and money was invested, the last band's
      potential return is the summary's maximum return, and the summary's
      break-even is the last band's. */
  lemma ReturnMatchesSummary(inp: Input)
    requires Compute(inp).Success?
    ensures var rep := Compute(inp).value;
      var last := rep.bands[Steps - 1];
      && rep.summary.breakevenPrice == last.BreakevenPrice()
      && rep.summary.maxInvestment == last.cumulativeInvestment
      && (last.cumulativeInvestment > 0.0 ==>
            last.PotentialReturnPct(rep.targetPrice) == rep.summary.maxReturnPct)
  {
    var rep := Compute(inp).value;
    var last := rep.bands[Steps - 1];
    assert rep.summary.maxReturnPct
        == (rep.targetPrice - last.BreakevenPrice()) / last.BreakevenPrice() * 100.0;
    assert last.cumulativeShares > 0 by {
      assert last.BreakevenPrice() != 0.0;
    }
    if last.cumulativeInvestment > 0.0 {
      ReturnOverBreakeven(last, rep.targetPrice);
    }
  }

  /** The drawdown to the stop-loss is a proper percentage of the current
      price. */
  lemma DrawdownBounds(inp: Input)
    requires WellPosed(inp)
    ensures 0.0 < DrawdownPct(inp) < 100.0
  {
    ProperFraction(inp.currentPrice - inp.stopLoss, inp.currentPrice);
  }

  /** For a well-posed input the summary always has money at risk, so the
      risk/reward ratio is finite: the infinite ratio would need nothing
      invested, and then no report is produced. */
  lemma InfiniteRiskRewardUnreachable(inp: Input)
    requires WellPosed(inp)
    requires Compute(inp).Success?
    ensures var s := Compute(inp).value.summary;
      && s.maxInvestment > 0.0
      && 0.0 < s.maxDrawdownPct < 100.0
      && s.riskReward.Finite?
  {
    SucceedsIffSharesBought(inp);
    HoldingsAndSpending(inp, Steps - 1);
    DrawdownBounds(inp);
    var s := Compute(inp).value.summary;
    MulPos(s.maxInvestment, s.maxDrawdownPct);
  }

  // ---------------------------------------------------------------------
  // The target price

  /** A band's price does not depend on the target price. */
  lemma BandPriceIgnoresTarget(inp: Input, t: Option<real>, i: nat)
    ensures BandPrice(inp.(targetPrice := t), i) == BandPrice(inp, i)
  {
    assert Step(inp.(targetPrice := t)) == Step(inp);
  }

  /** Whether some band is priced at zero does not depend on the target price. */
  lemma PricesIgnoreTarget(inp: Input, t: Option<real>, n: nat)
    ensures PricesNonzero(inp.(targetPrice := t), n) <==> PricesNonzero(inp, n)
  {
    forall j | 0 <= j < n
      ensures BandPrice(inp.(targetPrice := t), j) == BandPrice(inp, j)
    {
      BandPriceIgnoresTarget(inp, t, j);
    }
  }

  /** A band's shares and spending do not depend on the target price. */
  lemma BandIgnoresTarget(inp: Input, t: Option<real>, i: nat)
    requires BandPrice(inp, i) != 0.0
    ensures BandPrice(inp.(targetPrice := t), i) == BandPrice(inp, i)
    ensures AllocatedCapital(inp.(targetPrice := t), i) == AllocatedCapital(inp, i)
    ensures BandShares(inp.(targetPrice := t), i) == BandShares(inp, i)
    ensures BandInvestment(inp.(targetPrice := t), i) == BandInvestment(inp, i)
  {
    var inp' := inp.(targetPrice := t);
    BandPriceIgnoresTarget(inp, t, i);
    assert inp'.capital == inp.capital;
  }

  /** The running totals do not depend on the target price. */
  lemma {:induction false} TotalsIgnoreTarget(inp: Input, t: Option<real>, n: nat)
    requires PricesNonzero(inp, n)
    ensures PricesNonzero(inp.(targetPrice := t), n)
    ensures SharesUpTo(inp.(targetPrice := t), n) == SharesUpTo(inp, n)
    ensures InvestedUpTo(inp.(targetPrice := t), n) == InvestedUpTo(inp, n)
  {
    PricesIgnoreTarget(inp, t, n);
    if n > 0 {
      TotalsIgnoreTarget(inp, t, n - 1);
      BandIgnoresTarget(inp, t, n - 1);
    }
  }

  /** A planned band does not depend on the target price. */
  lemma PlannedBandIgnoresTarget(inp: Input, t: Option<real>, i: nat)
    requires PricesNonzero(inp, i + 1)
    ensures PricesNonzero(inp.(targetPrice := t), i + 1)
    ensures PlannedBand(inp.(targetPrice := t), i) == PlannedBand(inp, i)
  {
    TotalsIgnoreTarget(inp, t, i + 1);
    BandIgnoresTarget(inp, t, i);
    var inp' := inp.(targetPrice := t);
    assert MakeBand(inp', i, InvestedUpTo(inp, i + 1), SharesUpTo(inp, i + 1))
        == MakeBand(inp, i, InvestedUpTo(inp, i + 1), SharesUpTo(inp, i + 1));
  }

  /** The band schedule does not depend on the target price. */
  lemma ScheduleIgnoresTarget(inp: Input, t: Option<real>)
    ensures PricesNonzero(inp.(targetPrice := t), Steps) <==> PricesNonzero(inp, Steps)
    ensures PricesNonzero(inp, Steps) ==> Schedule(inp.(targetPrice := t)) == Schedule(inp)
  {
    var inp' := inp.(targetPrice := t);
    PricesIgnoreTarget(inp, t, Steps);
    if PricesNonzero(inp, Steps) {
      forall i | 0 <= i < Steps
        ensures Schedule(inp')[i] == Schedule(inp)[i]
      {
        PlannedBandIgnoresTarget(inp, t, i);
      }
    }
  }

  /** The target price changes neither the outcome's kind, nor the error,
      nor the bands, nor the money and drawdown figures of the summary:
      it moves only the return figures and the warning. */
  lemma TargetOnlyMovesReturns(inp: Input, t: Option<real>)
    ensures var other := Compute(inp.(targetPrice := t));
      && (Compute(inp).Failure? ==> other == Compute(inp))
      && (Compute(inp).Success? <==> other.Success?)
      && (Compute(inp).Success? ==>
            && other.value.bands == Compute(inp).value.bands
            && other.value.summary.maxInvestment == Compute(inp).value.summary.maxInvestment
            && other.value.summary.maxDrawdownPct == Compute(inp).value.summary.maxDrawdownPct
            && other.value.summary.breakevenPrice == Compute(inp).value.summary.breakevenPrice)
  {
    ScheduleIgnoresTarget(inp, t);
  }
}
