/** Real-asset allocation tilted by inflation expectations, a gold
    profit-take and an oil stop-loss
    (a69c9681-3dc5-4b51-b83b-50a0a8f70e7e/main.py).

    Every ticker starts at 1/6. Breakeven inflation above 2% adds 0.20 to
    GLD and to XOM, a 15% quarterly gold rally takes 0.10 off GLD, and a 10%
    monthly fall takes 0.05 off XOM or COP. The tilted weights are divided
    by their total. */
module RealAssets {
  import opened Weights
  import opened Market

  const Tickers: seq<string> := ["GLD", "BAM", "PLD", "XOM", "COP", "ET"]
  const GLD: nat := 0
  const XOM: nat := 3
  const COP: nat := 4

  /** Line 39: `1 / len(self.assets)` for every ticker. */
  const Base: seq<real> := Uniform(6, 1.0 / 6.0)

  /** What a call with a non-empty history reads without guarding: the
      latest inflation value (line 47), 63 GLD bars (line 58) and 21 XOM and
      COP bars (line 66). */
  predicate CanRun(h: History, inflation: seq<real>) {
    |inflation| > 0 && ListedInLast(h, "GLD", 63) && ListedInLast(h, "XOM", 21) && ListedInLast(h, "COP", 21)
  }

  /** `(p[-1] - p[0]) / p[0]`: the change over the window relative to its first close. */
  function Gain(p: seq<Price>): real
    requires |p| > 0
  {
    var first: real := p[0];
    (p[|p| - 1] - first) / first
  }

  /** Lines 51-53. */
  predicate HighInflation(inflation: seq<real>)
    requires |inflation| > 0
  {
    inflation[|inflation| - 1] > 2.0
  }

  /** Lines 58-59. */
  predicate GoldRallied(h: History)
    requires ListedInLast(h, "GLD", 63)
  {
    Gain(LastCloses(h, "GLD", 63)) > 0.15
  }

  /** Lines 66-67. */
  predicate OilFell(h: History, t: string)
    requires ListedInLast(h, t, 21)
  {
    Gain(LastCloses(h, t, 21)) < -0.10
  }

  /** `a[k] += d`. */
  function Add(a: seq<real>, k: nat, d: real): (r: seq<real>)
    requires k < |a|
    ensures |r| == |a| && r[k] == a[k] + d && forall i :: 0 <= i < |a| && i != k ==> r[i] == a[i]
    ensures Sum(r) == Sum(a) + d
  {
    SumUpdate(a, k, a[k] + d);
    a[k := a[k] + d]
  }

  /** Lines 39-68: the weights before normalisation. */
  function Tilted(h: History, inflation: seq<real>): (a: seq<real>)
    requires CanRun(h, inflation)
    ensures |a| == 6
  {
    var a1 := if HighInflation(inflation) then Add(Add(Base, GLD, 0.20), XOM, 0.20) else Base;
    var a2 := if GoldRallied(h) then Add(a1, GLD, -0.10) else a1;
    var a3 := if OilFell(h, "XOM") then Add(a2, XOM, -0.05) else a2;
    if OilFell(h, "COP") then Add(a3, COP, -0.05) else a3
  }

  /** The allocation `run` returns. */
  function Allocation(h: History, inflation: seq<real>): seq<real>
    requires |h| > 0 ==> CanRun(h, inflation)
  {
    if |h| < 1 then Base
    else
      var a := Tilted(h, inflation);
      TiltedBounds(h, inflation);
      Divided(a, Sum(a))
  }

  function Indicator(b: bool): real {
    if b then 1.0 else 0.0
  }

  /** The total before normalisation is 1 plus the tilts that fired, so it
      lies in [0.8, 1.4]; GLD stays at or above 1/6 - 0.10 and every other
      ticker at or above 1/6 - 0.05, so every weight is positive. */
  lemma TiltedBounds(h: History, inflation: seq<real>)
    requires CanRun(h, inflation)
    ensures var a := Tilted(h, inflation);
      && Sum(a) == 1.0 + 0.40 * Indicator(HighInflation(inflation)) - 0.10 * Indicator(GoldRallied(h))
                    - 0.05 * Indicator(OilFell(h, "XOM")) - 0.05 * Indicator(OilFell(h, "COP"))
      && 0.8 <= Sum(a) <= 1.4
      && a[GLD] >= 1.0 / 6.0 - 0.10
      && (forall i :: 0 <= i < 6 && i != GLD ==> a[i] >= 1.0 / 6.0 - 0.05)
      && AllPositive(a)
  {
    SumUniform(6, 1.0 / 6.0);
  }

  /** The returned allocation is a positive distribution. */
  lemma AllocationIsPositiveDistribution(h: History, inflation: seq<real>)
    requires |h| > 0 ==> CanRun(h, inflation)
    ensures |Allocation(h, inflation)| == 6
    ensures AllPositive(Allocation(h, inflation)) && IsDistribution(Allocation(h, inflation))
  {
    if |h| < 1 {
      SumUniform(6, 1.0 / 6.0);
    } else {
      var a := Tilted(h, inflation);
      TiltedBounds(h, inflation);
      DividedByTotal(a);
      forall i | 0 <= i < 6 ensures Divided(a, Sum(a))[i] > 0.0 {
        QuotientSign(a[i], Sum(a));
      }
    }
  }

  /** Without any tilt the equal weights come back unchanged. */
  lemma NoSignalKeepsEqualWeights(h: History, inflation: seq<real>)
    requires |h| > 0 && CanRun(h, inflation)
    requires !HighInflation(inflation) && !GoldRallied(h) && !OilFell(h, "XOM") && !OilFell(h, "COP")
    ensures Allocation(h, inflation) == Base
  {
    SumUniform(6, 1.0 / 6.0);
    assert Divided(Base, 1.0) == Base;
  }

  /** High inflation lifts GLD and XOM above the untilted tickers (BAM, PLD
      and ET keep equal shares below them). */
  lemma InflationFavoursGoldAndOil(h: History, inflation: seq<real>)
    requires |h| > 0 && CanRun(h, inflation) && HighInflation(inflation)
    ensures var r := Allocation(h, inflation);
      r[1] == r[2] == r[5] && r[GLD] > r[1] && r[XOM] > r[1]
  {
    var a := Tilted(h, inflation);
    TiltedBounds(h, inflation);
    var t := Sum(a);
    QuotientMonotone(a[1], a[GLD], t);
    QuotientMonotone(a[1], a[XOM], t);
  }

  /** Line 60, lines 65-68: trims in place. */
  method Trim(a: seq<real>, k: nat, d: real) returns (r: seq<real>)
    requires k < |a|
    ensures r == Add(a, k, -d)
  {
    r := a[k := a[k] - d];
  }

  /** Lines 65-68: the stop-loss loop over XOM and COP. */
  method OilStops(h: History, a: seq<real>) returns (r: seq<real>)
    requires |a| == 6 && ListedInLast(h, "XOM", 21) && ListedInLast(h, "COP", 21)
    ensures r == (var a3 := if OilFell(h, "XOM") then Add(a, XOM, -0.05) else a;
                  if OilFell(h, "COP") then Add(a3, COP, -0.05) else a3)
  {
    var oil := [XOM, COP];
    r := a;
    var k := 0;
    while k < 2
      invariant 0 <= k <= 2 && |r| == 6
      invariant k == 0 ==> r == a
      invariant k == 1 ==> r == if OilFell(h, "XOM") then Add(a, XOM, -0.05) else a
      invariant k == 2 ==> r == (var a3 := if OilFell(h, "XOM") then Add(a, XOM, -0.05) else a;
                                 if OilFell(h, "COP") then Add(a3, COP, -0.05) else a3)
    {
      var ticker := Tickers[oil[k]];
      var stockPrices := LastCloses(h, ticker, 21);
      var first: real := stockPrices[0];
      if (stockPrices[20] - first) / first < -0.10 {
        r := Trim(r, oil[k], 0.05);
      }
      k := k + 1;
    }
  }

  /** Lines 47-53. */
  method InflationTilt(inflation: seq<real>) returns (allocations: seq<real>)
    requires |inflation| > 0
    ensures allocations == if HighInflation(inflation) then Add(Add(Base, GLD, 0.20), XOM, 0.20) else Base
  {
    allocations := Base;
    var currentCpi := inflation[|inflation| - 1];
    if currentCpi > 2.0 {
      allocations := allocations[GLD := allocations[GLD] + 0.20];
      allocations := allocations[XOM := allocations[XOM] + 0.20];
    }
  }

  /** Lines 58-60. */
  method GoldProfitTake(h: History, a: seq<real>) returns (allocations: seq<real>)
    requires |a| == 6 && ListedInLast(h, "GLD", 63)
    ensures allocations == if GoldRallied(h) then Add(a, GLD, -0.10) else a
  {
    allocations := a;
    var gldPrices := LastCloses(h, "GLD", 63);
    var first: real := gldPrices[0];
    if (gldPrices[62] - first) / first > 0.15 {
      allocations := Trim(allocations, GLD, 0.10);
    }
  }

  /** Lines 72-73. */
  method NormaliseByTotal(a: seq<real>) returns (allocation: seq<real>)
    requires Sum(a) > 0.0
    ensures allocation == Divided(a, Sum(a))
  {
    var totalAllocation := Sum(a);
    allocation := seq(|a|, i requires 0 <= i < |a| => a[i] / totalAllocation);
  }

  /** `run`: `inflation` holds the breakeven inflation values, oldest first. */
  method Run(h: History, inflation: seq<real>) returns (allocation: seq<real>)
    requires |h| > 0 ==> CanRun(h, inflation)
    ensures allocation == Allocation(h, inflation)
  {
    if |h| < 1 {
      return Base;
    }
    var allocations := InflationTilt(inflation);
    allocations := GoldProfitTake(h, allocations);
    allocations := OilStops(h, allocations);
    TiltedBounds(h, inflation);
    allocation := NormaliseByTotal(allocations);
  }
}
