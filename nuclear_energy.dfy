/** Nuclear-energy allocation with a uranium-driven overweight
    (44e2a856-2904-48d8-8ba9-84e5eab433a0/main.py).

    Seven traded tickers start at weight 1; URA is read as an index only.
    When CCJ is processed and URA has gained more than 10% over the month,
    CCJ gains 2 and LEU gains 1. A ticker up more than 40% over the quarter
    is halved, and one more than 18% below its 63-bar peak is halved
    (again). The weights are divided by their total. */
module NuclearEnergy {
  import opened Weights
  import opened Market

  /** `self.tradtick`, the order of the loop at line 40. */
  const Traded: seq<string> := ["SMR", "BWXT", "LEU", "CEG", "VST", "OKLO", "CCJ"]
  const LEU: nat := 2
  const CCJ: nat := 6

  const Index: string := "URA"

  /** Line 26. */
  const Ones: seq<real> := Uniform(7, 1.0)

  /** Line 41: the closes of traded ticker `i` where it is listed. */
  function Prices(h: History, i: nat): seq<Price>
    requires i < 7
  {
    ClosesWhereListed(h, Traded[i])
  }

  /** Line 27: the URA closes where it is listed. */
  function IndexPrices(h: History): seq<Price> {
    ClosesWhereListed(h, Index)
  }

  /** What `run` reads without guarding: a ticker with any price has at
      least 63 (lines 48-49); URA, once it has two prices, has 21 (line 30);
      and CCJ can only have prices when URA has two, since line 60 reads
      the URA return only then defined. */
  predicate CanRun(h: History) {
    && (forall i :: 0 <= i < 7 ==> |Prices(h, i)| == 0 || |Prices(h, i)| >= 63)
    && (|IndexPrices(h)| <= 1 || |IndexPrices(h)| >= 21)
    && (|Prices(h, CCJ)| > 0 ==> |IndexPrices(h)| > 1)
  }

  /** `(current - past) / past`. */
  function Change(current: real, past: real): real
    requires past > 0.0
  {
    (current - past) / past
  }

  /** Lines 29-31: URA's return over the last 21 prices. */
  function IndexMonthReturn(h: History): real
    requires |IndexPrices(h)| >= 21
  {
    var p := IndexPrices(h);
    Change(p[|p| - 1], p[|p| - 21])
  }

  /** Line 60: URA is up more than 10% over the month. */
  predicate IndexSurged(h: History)
    requires |IndexPrices(h)| >= 21
  {
    IndexMonthReturn(h) > 0.10
  }

  /** Lines 49, 55. */
  function QuarterReturn(p: seq<Price>): real
    requires |p| >= 63
  {
    Change(p[|p| - 1], p[|p| - 63])
  }

  /** Lines 50, 57: the last price relative to the peak of the last 63. */
  function Drawdown(p: seq<Price>): (d: real)
    requires |p| >= 63
    ensures d <= 0.0
  {
    var peak := MaxOf(LastN(p, 63));
    MaxOfPrices(LastN(p, 63));
    var current: real := p[|p| - 1];
    assert current <= peak by {
      assert LastN(p, 63)[62] == current;
    }
    NonPositiveChange(current, peak);
    Change(current, peak)
  }

  lemma NonPositiveChange(current: real, peak: real)
    requires 0.0 < current <= peak
    ensures Change(current, peak) <= 0.0
  {
  }

  /** Lines 64-70 for one weight: halved for a 40% quarter, halved for an
      18% drop below the peak. */
  function Damped(x: real, p: seq<Price>): real
    requires |p| >= 63
  {
    var x1 := if QuarterReturn(p) > 0.4 then x * 0.5 else x;
    if Drawdown(p) < -0.18 then x1 * 0.5 else x1
  }

  /** Lines 40-70, one iteration: the step for traded ticker `i`. */
  function Step(h: History, w: seq<real>, i: nat): (r: seq<real>)
    requires CanRun(h) && |w| == 7 && i < 7
    ensures |r| == 7
  {
    var p := Prices(h, i);
    if |p| < 1 then w
    else
      var w1 := if i == CCJ && IndexSurged(h) then w[CCJ := w[CCJ] + 2.0][LEU := w[LEU] + 1.0] else w;
      w1[i := Damped(w1[i], p)]
  }

  /** The weights after the first `k` iterations of the loop. */
  function WeightsAfter(h: History, k: nat): (w: seq<real>)
    requires CanRun(h) && k <= 7
    ensures |w| == 7
  {
    if k == 0 then Ones else Step(h, WeightsAfter(h, k - 1), k - 1)
  }

  /** A ticker's own rules applied to a starting weight `x`; a ticker with
      no prices keeps `x`. */
  function Own(h: History, i: nat, x: real): real
    requires CanRun(h) && i < 7
  {
    if |Prices(h, i)| < 1 then x else Damped(x, Prices(h, i))
  }

  /** The uranium overweight fires: CCJ has prices and URA surged. */
  predicate Overweight(h: History)
    requires CanRun(h)
  {
    |Prices(h, CCJ)| > 0 && IndexSurged(h)
  }

  /** The weights the loop ends with, ticker by ticker: CCJ's own rules
      apply to 3 after an overweight, LEU gains 1 after its own rules
      (it is processed before CCJ), and every other ticker has its own rules
      applied to 1. */
  function FinalWeight(h: History, i: nat): real
    requires CanRun(h) && i < 7
  {
    if i == CCJ then Own(h, CCJ, if Overweight(h) then 3.0 else 1.0)
    else if i == LEU then Own(h, LEU, 1.0) + (if Overweight(h) then 1.0 else 0.0)
    else Own(h, i, 1.0)
  }

  /** Lines 73-77. */
  function Allocation(w: seq<real>): (a: seq<real>)
    requires |w| == 7
    ensures |a| == 7
  {
    var total := Sum(w);
    if total > 0.0 then Divided(w, total) else Uniform(7, 1.0 / 7.0)
  }

  /** Before CCJ (the last ticker) is processed, every visited ticker holds
      its own rules applied to 1 and the others still hold 1. */
  lemma {:induction false} WeightsBeforeCcj(h: History, k: nat)
    requires CanRun(h) && k <= 6
    ensures forall i :: 0 <= i < 7 ==> WeightsAfter(h, k)[i] == if i < k then Own(h, i, 1.0) else 1.0
  {
    if k > 0 {
      WeightsBeforeCcj(h, k - 1);
      var w := WeightsAfter(h, k - 1);
      StepBeforeCcj(h, w, k - 1);
      assert WeightsAfter(h, k) == w[k - 1 := Own(h, k - 1, 1.0)];
    }
  }

  /** Every ticker but CCJ has only its own rules applied to its own weight. */
  lemma StepBeforeCcj(h: History, w: seq<real>, i: nat)
    requires CanRun(h) && |w| == 7 && i < 7 && i != CCJ
    ensures Step(h, w, i) == w[i := Own(h, i, w[i])]
  {
  }

  /** The loop ends with `FinalWeight` for every ticker. */
  lemma LoopResult(h: History)
    requires CanRun(h)
    ensures forall i :: 0 <= i < 7 ==> WeightsAfter(h, 7)[i] == FinalWeight(h, i)
  {
    WeightsBeforeCcj(h, 6);
  }

  /** The halvings keep a positive weight positive and at least a quarter
      of itself, and never raise it. */
  lemma DampedBounds(x: real, p: seq<Price>)
    requires x > 0.0 && |p| >= 63
    ensures x * 0.25 <= Damped(x, p) <= x
  {
  }

  /** Every final weight is positive: 1 or 3 quartered at worst. */
  lemma FinalWeightsPositive(h: History)
    requires CanRun(h)
    ensures AllPositive(WeightsAfter(h, 7))
    ensures forall i :: 0 <= i < 7 ==> WeightsAfter(h, 7)[i] >= 0.25
  {
    LoopResult(h);
    forall i | 0 <= i < 7
      ensures FinalWeight(h, i) >= 0.25
    {
      if |Prices(h, i)| > 0 {
        DampedBounds(if i == CCJ && Overweight(h) then 3.0 else 1.0, Prices(h, i));
      }
    }
  }

  /** The weights stay positive, so the equal-weight fallback is never
      taken: the allocation is each weight over the total, every share is
      positive, and the shares sum to 1. */
  lemma AllocationIsPositiveDistribution(h: History)
    requires CanRun(h)
    ensures var w := WeightsAfter(h, 7);
      Sum(w) > 0.0 && Allocation(w) == Divided(w, Sum(w))
      && AllPositive(Allocation(w)) && IsDistribution(Allocation(w))
  {
    var w := WeightsAfter(h, 7);
    FinalWeightsPositive(h);
    SumPositive(w);
    DividedByTotal(w);
    forall i | 0 <= i < 7
      ensures w[i] / Sum(w) > 0.0
    {
      QuotientSign(w[i], Sum(w));
    }
  }

  /** A ticker without prices keeps weight 1, except LEU, which still takes
      the uranium overweight. */
  lemma UnlistedKeepsOne(h: History, i: nat)
    requires CanRun(h) && i < 7 && |Prices(h, i)| == 0
    ensures WeightsAfter(h, 7)[i] == if i == LEU && Overweight(h) then 2.0 else 1.0
  {
    LoopResult(h);
  }

  /** A 40% quarter halves a ticker's own weight when it stays within 18%
      of its peak. */
  lemma QuarterGainHalves(x: real, p: seq<Price>)
    requires |p| >= 63 && QuarterReturn(p) > 0.4 && !(Drawdown(p) < -0.18)
    ensures Damped(x, p) == x * 0.5
  {
  }

  /** An 18% drop below the peak halves a ticker's own weight when the
      quarter is not up 40%. */
  lemma DrawdownHalves(x: real, p: seq<Price>)
    requires |p| >= 63 && !(QuarterReturn(p) > 0.4) && Drawdown(p) < -0.18
    ensures Damped(x, p) == x * 0.5
  {
  }

  /** Lines 47-57: the quarterly return and the drawdown of one ticker. */
  method Measure(prices: seq<Price>) returns (quarterReturn: real, drawdown: real)
    requires |prices| >= 63
    ensures quarterReturn == QuarterReturn(prices) && drawdown == Drawdown(prices)
  {
    var current: real := prices[|prices| - 1];
    var quarterAgo: real := prices[|prices| - 63];
    var lastQuarter := LastN(prices, 63);
    var peak := MaxOf(lastQuarter);
    MaxOfPrices(lastQuarter);
    quarterReturn := (current - quarterAgo) / quarterAgo;
    drawdown := (current - peak) / peak;
  }

  /** Lines 47-70 for one ticker: the loop body on the current weights. */
  method ProcessTicker(h: History, weights: seq<real>, i: nat, inmonthReturn: real) returns (w: seq<real>)
    requires CanRun(h) && |weights| == 7 && i < 7
    requires i == CCJ && |Prices(h, i)| > 0 ==> inmonthReturn == IndexMonthReturn(h)
    ensures w == Step(h, weights, i)
  {
    w := weights;
    var prices := Prices(h, i);
    if |prices| < 1 {
      return;
    }
    var quarterReturn, drawdown := Measure(prices);
    if i == CCJ && inmonthReturn > 0.10 {
      w := w[CCJ := w[CCJ] + 2.0];
      w := w[LEU := w[LEU] + 1.0];
    }
    ghost var w1 := w;
    if quarterReturn > 0.4 {
      w := w[i := w[i] * 0.5];
    }
    if drawdown < -0.18 {
      w := w[i := w[i] * 0.5];
    }
    assert w == w1[i := Damped(w1[i], prices)];
  }

  /** Lines 73-77. */
  method Normalise(weights: seq<real>) returns (allocations: seq<real>)
    requires |weights| == 7
    ensures allocations == Allocation(weights)
  {
    var totalWeight := Sum(weights);
    if totalWeight > 0.0 {
      allocations := seq(7, i requires 0 <= i < 7 => weights[i] / totalWeight);
    } else {
      allocations := Uniform(7, 1.0 / 7.0);
    }
  }

  /** `run`. */
  method Run(h: History) returns (allocations: seq<real>)
    requires CanRun(h)
    ensures allocations == Allocation(WeightsAfter(h, 7))
    ensures AllPositive(allocations) && IsDistribution(allocations)
  {
    var weights := Ones;
    var index := IndexPrices(h);
    var inmonthReturn := 0.0;
    if |index| > 1 {
      var incurrent: real := index[|index| - 1];
      var inmonthAgo: real := index[|index| - 21];
      inmonthReturn := (incurrent - inmonthAgo) / inmonthAgo;
    }
    var k := 0;
    while k < 7
      invariant 0 <= k <= 7 && weights == WeightsAfter(h, k)
    {
      weights := ProcessTicker(h, weights, k, inmonthReturn);
      k := k + 1;
    }
    allocations := Normalise(weights);
    AllocationIsPositiveDistribution(h);
  }
}
