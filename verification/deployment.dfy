/**
  How much of the capital a well-posed pyramid actually deploys: the
  allocations add up to the capital exactly, and rounding each band to
  whole shares moves the money spent by at most half a band price per
  band, so the total spent is within ten current prices of the capital.
 */
module Deployment {
  import opened Rounding
  import opened Pyramid
  import opened PyramidLaws

  /** Sum of the `allocatedCapital` column. */
  function SumAllocated(bands: seq<Band>): real {
    if |bands| == 0 then 0.0
    else SumAllocated(bands[..|bands| - 1]) + bands[|bands| - 1].allocatedCapital
  }

  /** When every row allocates its ratio of `c`, the allocations add up to
      the ratios' sum times `c`. */
  lemma {:induction false} AllocatedScales(bands: seq<Band>, c: real)
    requires forall j :: 0 <= j < |bands| ==> bands[j].allocatedCapital == bands[j].allocationRatio * c
    ensures SumAllocated(bands) == SumRatios(bands) * c
  {
    if |bands| > 0 {
      var rest := bands[..|bands| - 1];
      assert forall j :: 0 <= j < |rest| ==> rest[j] == bands[j];
      AllocatedScales(rest, c);
      var r := bands[|bands| - 1].allocationRatio;
      assert SumRatios(rest) * c + r * c == (SumRatios(rest) + r) * c;
    }
  }

  /** When every row spends within `e` of its allocation, the whole table
      spends within `|bands| * e` of the allocations' sum. */
  lemma {:induction false} DriftAccumulates(bands: seq<Band>, e: real)
    requires forall j :: 0 <= j < |bands| ==>
      -e <= bands[j].investment - bands[j].allocatedCapital <= e
    ensures -(|bands| as real) * e <= SumInvestment(bands) - SumAllocated(bands) <= |bands| as real * e
  {
    if |bands| > 0 {
      var rest := bands[..|bands| - 1];
      assert forall j :: 0 <= j < |rest| ==> rest[j] == bands[j];
      DriftAccumulates(rest, e);
      assert (|rest| as real) * e + e == |bands| as real * e;
    }
  }

  /** A row allocates its ratio of `c` and spends within `e` of that. */
  predicate RowNearAllocation(b: Band, c: real, e: real) {
    && b.allocatedCapital == b.allocationRatio * c
    && -e <= b.investment - b.allocatedCapital <= e
  }

  /** A table whose ratios sum to 1 and whose rows each spend within `e` of
      their allocation of `c` spends within `|bands| * e` of `c`. */
  lemma TableNearCapital(bands: seq<Band>, c: real, e: real)
    requires SumRatios(bands) == 1.0
    requires forall j :: 0 <= j < |bands| ==> RowNearAllocation(bands[j], c, e)
    ensures -(|bands| as real) * e <= SumInvestment(bands) - c <= |bands| as real * e
  {
    AllocatedScales(bands, c);
    DriftAccumulates(bands, e);
  }

  /** Each band, being priced below the current price, spends within half
      the current price of its allocation. */
  lemma BandDrift(inp: Input, j: nat)
    requires WellPosed(inp)
    requires j < Steps
    ensures BandPrice(inp, j) > 0.0
    ensures -inp.currentPrice / 2.0 <= BandInvestment(inp, j) - AllocatedCapital(inp, j)
         <= inp.currentPrice / 2.0
  {
    BandPriceInRange(inp, j);
    BandRounding(inp, j);
  }

  /** A band row allocates its ratio of the capital and records the band's
      spending, whatever its running totals. */
  lemma BandRowFields(inp: Input, j: nat, invested: real, held: int)
    requires BandPrice(inp, j) != 0.0
    ensures var b := MakeBand(inp, j, invested, held);
      && b.allocatedCapital == b.allocationRatio * inp.capital
      && b.allocatedCapital == AllocatedCapital(inp, j)
      && b.investment == BandInvestment(inp, j)
  {
  }

  /** Each band allocates its ratio of the capital and spends within half
      the current price of that allocation, whatever its running totals. */
  lemma BandRowDrift(inp: Input, j: nat, invested: real, held: int)
    requires WellPosed(inp)
    requires j < Steps
    ensures BandPrice(inp, j) != 0.0
    ensures RowNearAllocation(MakeBand(inp, j, invested, held), inp.capital, inp.currentPrice / 2.0)
  {
    BandDrift(inp, j);
    BandRowFields(inp, j, invested, held);
  }

  /** A well-posed pyramid spends, in total, within ten current prices of the
      capital: the allocations sum to the capital, and each of the twenty
      bands rounds its spending by less than half the current price. */
  lemma DeployedNearCapital(inp: Input)
    requires WellPosed(inp)
    ensures PricesNonzero(inp, Steps)
    ensures var spent := Schedule(inp)[Steps - 1].cumulativeInvestment;
      -10.0 * inp.currentPrice <= spent - inp.capital <= 10.0 * inp.currentPrice
  {
    WellPosedPricesPositive(inp);
    var bands := Schedule(inp);
    var e := inp.currentPrice / 2.0;
    forall j | 0 <= j < Steps
      ensures RowNearAllocation(bands[j], inp.capital, e)
    {
      assert bands[j] == MakeBand(inp, j, InvestedUpTo(inp, j + 1), SharesUpTo(inp, j + 1));
      BandRowDrift(inp, j, InvestedUpTo(inp, j + 1), SharesUpTo(inp, j + 1));
    }
    RatiosSumToOne(inp);
    TableNearCapital(bands, inp.capital, e);
    assert SumInvestment(bands) == bands[Steps - 1].cumulativeInvestment by {
      ScheduleRunningTotals(inp, Steps - 1);
      WholePrefix(bands);
    }
  }
}
