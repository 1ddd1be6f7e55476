/** Bitcoin-proxy allocation with weights that persist between calls
    (698078a4-d21a-4172-921b-ee5cb3128b0e/main.py).

    The strategy keeps one weight per proxy (COIN, MSTR, NVDA, AMD, BITO),
    starting at 0.1. A Bitcoin close above its 200-bar VWAP sets COIN, MSTR,
    BITO and NVDA to 0.2; otherwise a close below the 50-bar VWAP zeroes COIN,
    BITO and MSTR and sets NVDA to 0.2. Every ticker is then stopped out (its
    weight zeroed) more than 5% below its all-history peak, and trimmed by
    0.05 after a 50% monthly gain. The stored weights are not normalised;
    the returned allocation divides them by their total. */
module BitcoinProxies {
  import opened Weights
  import opened Market

  /** The keys of `self.weights`, in its insertion order (line 10). */
  const Names: seq<string> := ["COIN", "MSTR", "NVDA", "AMD", "BITO"]
  const COIN: nat := 0
  const MSTR: nat := 1
  const NVDA: nat := 2
  const AMD: nat := 3
  const BITO: nat := 4

  /** The positions of `self.tickers` (line 7) among `Names`: the order in
      which the risk loop at line 56 visits the tickers. */
  const LoopOrder: seq<nat> := [COIN, NVDA, MSTR, AMD, BITO]

  const Benchmark: string := "BTC-USD"

  /** Line 10. */
  const InitialWeights: seq<real> := Uniform(5, 0.1)

  /** Line 26: the allocation returned for a short history. */
  const Zeros: seq<real> := Uniform(5, 0.0)

  /** What a call with at least 200 bars reads without guarding: every
      snapshot lists Bitcoin and every proxy (lines 32 and 57). */
  predicate CanRun(h: History) {
    ListedThroughout(h, Benchmark) && forall i :: 0 <= i < 5 ==> ListedThroughout(h, Names[i])
  }

  /** Line 36: the last Bitcoin close is above its 200-bar VWAP. */
  predicate IsBull(h: History, vwap200: real)
    requires |h| > 0 && ListedThroughout(h, Benchmark)
  {
    h[|h| - 1][Benchmark].close > vwap200
  }

  /** Line 37: the last Bitcoin close is below its 50-bar VWAP. */
  predicate IsBear(h: History, vwap50: real)
    requires |h| > 0 && ListedThroughout(h, Benchmark)
  {
    h[|h| - 1][Benchmark].close < vwap50
  }

  /** Lines 41-54: the regime settings; AMD is never set. */
  function Regime(w: seq<real>, bull: bool, bear: bool): (r: seq<real>)
    requires |w| == 5
    ensures |r| == 5 && r[AMD] == w[AMD]
    ensures bull ==> r[COIN] == r[MSTR] == r[BITO] == r[NVDA] == 0.2
    ensures !bull && bear ==> r[COIN] == r[MSTR] == r[BITO] == 0.0 && r[NVDA] == 0.2
    ensures !bull && !bear ==> r == w
  {
    if bull then w[COIN := 0.2][MSTR := 0.2][BITO := 0.2][NVDA := 0.2]
    else if bear then w[COIN := 0.0][BITO := 0.0][MSTR := 0.0][NVDA := 0.2]
    else w
  }

  /** Lines 57-59: the drop of the last close below the all-history peak. */
  function Drawdown(h: History, t: string): real
    requires |h| > 0 && ListedThroughout(h, t)
  {
    DropFromPeak(ClosesOf(h, t))
  }

  /** Line 60: the 21-bar return, or 0 with 21 closes or fewer. */
  function MonthlyReturn(h: History, t: string): (r: real)
    requires ListedThroughout(h, t)
    ensures |h| <= 21 ==> r == 0.0
    ensures |h| > 21 ==> (r + 1.0) * h[|h| - 21][t].close == h[|h| - 1][t].close
  {
    var c := ClosesOf(h, t);
    if |c| > 21 then
      HorizonReturnRecoversClose(c, 21);
      HorizonReturn(c, 21)
    else 0.0
  }

  /** Lines 63-70 for one weight: the stop-loss, then the trim. */
  function Adjusted(x: real, drawdown: real, monthly: real): real {
    var x1 := if drawdown > 0.05 && x > 0.0 then 0.0 else x;
    if monthly > 0.50 && x1 > 0.05 then x1 - 0.05 else x1
  }

  /** Lines 56-70: every weight after the risk loop. The loop updates each
      ticker's own weight only, so the order it visits them in does not
      matter. */
  function RiskAdjusted(h: History, w: seq<real>): (r: seq<real>)
    requires |w| == 5 && |h| > 0 && CanRun(h)
    ensures |r| == 5
  {
    seq(5, i requires 0 <= i < 5 => Adjusted(w[i], Drawdown(h, Names[i]), MonthlyReturn(h, Names[i])))
  }

  /** The stored weights after a call with at least 200 bars. */
  function NextWeights(h: History, w: seq<real>, vwap50: real, vwap200: real): (r: seq<real>)
    requires |w| == 5 && |h| > 0 && CanRun(h)
    ensures |r| == 5
  {
    RiskAdjusted(h, Regime(w, IsBull(h, vwap200), IsBear(h, vwap50)))
  }

  /** Lines 73-75: `max(0, weight / total)` for every weight when the total
      is positive, else the zero allocation. */
  function Allocation(w: seq<real>): (a: seq<real>)
    requires |w| == 5
    ensures |a| == 5
  {
    var total := Sum(w);
    if total > 0.0 then seq(5, i requires 0 <= i < 5 => Max(0.0, w[i] / total)) else Zeros
  }

  /** The bounds the stored weights keep across calls: each in [0, 0.2],
      AMD at or below 0.1. */
  predicate Bounded(w: seq<real>) {
    |w| == 5 && (forall i :: 0 <= i < 5 ==> 0.0 <= w[i] <= 0.2) && w[AMD] <= 0.1
  }

  /** The stop and the trim never raise a weight and never make a
      non-negative weight negative. */
  lemma AdjustedBounds(x: real, drawdown: real, monthly: real)
    ensures Adjusted(x, drawdown, monthly) <= x || x < 0.0
    ensures x >= 0.0 ==> 0.0 <= Adjusted(x, drawdown, monthly) <= x
  {
  }

  /** The stop zeroes a positive weight whatever the monthly return. */
  lemma StopLossZeroes(x: real, drawdown: real, monthly: real)
    requires drawdown > 0.05 && x > 0.0
    ensures Adjusted(x, drawdown, monthly) == 0.0
  {
  }

  /** Without a stop, the trim takes exactly 0.05 off a weight above 0.05. */
  lemma ProfitTrimTakesFivePoints(x: real, drawdown: real, monthly: real)
    requires !(drawdown > 0.05) && monthly > 0.50 && x > 0.05
    ensures Adjusted(x, drawdown, monthly) == x - 0.05
  {
  }

  /** The stored weights stay within their bounds from one call to the next. */
  lemma NextWeightsBounded(h: History, w: seq<real>, vwap50: real, vwap200: real)
    requires Bounded(w) && |h| > 0 && CanRun(h)
    ensures Bounded(NextWeights(h, w, vwap50, vwap200))
  {
    var r := Regime(w, IsBull(h, vwap200), IsBear(h, vwap50));
    assert Bounded(r);
    forall i | 0 <= i < 5
      ensures 0.0 <= NextWeights(h, w, vwap50, vwap200)[i] <= r[i]
    {
      AdjustedBounds(r[i], Drawdown(h, Names[i]), MonthlyReturn(h, Names[i]));
    }
  }

  /** AMD's weight never increases: no regime sets it, and the risk rules
      only lower it. */
  lemma AmdNeverIncreases(h: History, w: seq<real>, vwap50: real, vwap200: real)
    requires |w| == 5 && w[AMD] >= 0.0 && |h| > 0 && CanRun(h)
    ensures 0.0 <= NextWeights(h, w, vwap50, vwap200)[AMD] <= w[AMD]
  {
    AdjustedBounds(w[AMD], Drawdown(h, Names[AMD]), MonthlyReturn(h, Names[AMD]));
  }

  /** In the bear regime (and not the bull one) COIN, MSTR and BITO end the
      call at 0: the risk rules cannot raise a zero weight. */
  lemma BearLeavesOnlyNvdaAndAmd(h: History, w: seq<real>, vwap50: real, vwap200: real)
    requires |w| == 5 && |h| > 0 && CanRun(h)
    requires !IsBull(h, vwap200) && IsBear(h, vwap50)
    ensures var r := NextWeights(h, w, vwap50, vwap200);
      r[COIN] == 0.0 && r[MSTR] == 0.0 && r[BITO] == 0.0
  {
  }

  /** Outside both regimes no weight can rise, so a ticker stopped out in
      an earlier call stays at 0 until a bull or bear call sets it again. */
  lemma NeutralNeverRaises(h: History, w: seq<real>, vwap50: real, vwap200: real)
    requires |w| == 5 && NonNegative(w) && |h| > 0 && CanRun(h)
    requires !IsBull(h, vwap200) && !IsBear(h, vwap50)
    ensures forall i :: 0 <= i < 5 ==> NextWeights(h, w, vwap50, vwap200)[i] <= w[i]
  {
    forall i | 0 <= i < 5
      ensures NextWeights(h, w, vwap50, vwap200)[i] <= w[i]
    {
      AdjustedBounds(w[i], Drawdown(h, Names[i]), MonthlyReturn(h, Names[i]));
    }
  }

  /** With non-negative weights the allocation is each weight over the total
      and sums to 1 when the total is positive, and is all zeros otherwise. */
  lemma AllocationShares(w: seq<real>)
    requires |w| == 5 && NonNegative(w)
    ensures Sum(w) > 0.0 ==> Allocation(w) == Divided(w, Sum(w)) && IsDistribution(Allocation(w))
    ensures Sum(w) <= 0.0 ==> AllZero(Allocation(w))
  {
    if Sum(w) > 0.0 {
      forall i | 0 <= i < 5
        ensures w[i] / Sum(w) >= 0.0
      {
        QuotientSign(w[i], Sum(w));
      }
      assert Allocation(w) == Divided(w, Sum(w));
      DividedByTotal(w);
    }
  }

  /** Lines 57-70 for one ticker: the risk step on its weight. */
  method RiskStep(h: History, weight: real, i: nat) returns (x: real)
    requires i < 5 && |h| > 0 && CanRun(h)
    ensures x == Adjusted(weight, Drawdown(h, Names[i]), MonthlyReturn(h, Names[i]))
  {
    var tickerPrices := ClosesOf(h, Names[i]);
    var peakPrice := MaxOf(tickerPrices);
    MaxOfPrices(tickerPrices);
    var now: real := tickerPrices[|tickerPrices| - 1];
    var drawdown := (peakPrice - now) / peakPrice;
    var monthlyReturn := 0.0;
    if |tickerPrices| > 21 {
      var past: real := tickerPrices[|tickerPrices| - 21];
      monthlyReturn := now / past - 1.0;
    }
    x := weight;
    if drawdown > 0.05 && x > 0.0 {
      x := 0.0;
    }
    if monthlyReturn > 0.50 && x > 0.05 {
      x := x - 0.05;
    }
  }

  /** Lines 41-54. */
  method ApplyRegime(w: seq<real>, isBtcBull: bool, isBtcBear: bool) returns (r: seq<real>)
    requires |w| == 5
    ensures r == Regime(w, isBtcBull, isBtcBear)
  {
    r := w;
    if isBtcBull {
      r := r[COIN := 0.2];
      r := r[MSTR := 0.2];
      r := r[BITO := 0.2];
      r := r[NVDA := 0.2];
    } else if isBtcBear {
      r := r[COIN := 0.0];
      r := r[BITO := 0.0];
      r := r[MSTR := 0.0];
      r := r[NVDA := 0.2];
    }
  }

  /** The step of the risk loop at which each weight is visited: the
      inverse of `LoopOrder`. */
  const VisitStep: seq<nat> := [0, 2, 1, 3, 4]

  /** The weights after the first `k` steps of the risk loop: `done` where
      visited, `w` elsewhere. */
  function Partial(w: seq<real>, done: seq<real>, k: nat): (r: seq<real>)
    requires |w| == 5 && |done| == 5
    ensures |r| == 5
  {
    seq(5, i requires 0 <= i < 5 => if VisitStep[i] < k then done[i] else w[i])
  }

  /** Step `k` of the loop visits `LoopOrder[k]` and nothing else. */
  lemma PartialStep(w: seq<real>, done: seq<real>, k: nat)
    requires |w| == 5 && |done| == 5 && k < 5
    ensures Partial(w, done, k)[LoopOrder[k]] == w[LoopOrder[k]]
    ensures Partial(w, done, k + 1) == Partial(w, done, k)[LoopOrder[k] := done[LoopOrder[k]]]
  {
  }

  /** After all five steps every weight has been visited. */
  lemma PartialDone(w: seq<real>, done: seq<real>)
    requires |w| == 5 && |done| == 5
    ensures Partial(w, done, 5) == done
  {
  }

  /** Lines 56-70: the risk loop, visiting the tickers in `LoopOrder`. */
  method RiskLoop(h: History, w: seq<real>) returns (r: seq<real>)
    requires |w| == 5 && |h| > 0 && CanRun(h)
    ensures r == RiskAdjusted(h, w)
  {
    ghost var target := RiskAdjusted(h, w);
    r := w;
    assert r == Partial(w, target, 0);
    var k := 0;
    while k < 5
      invariant 0 <= k <= 5 && r == Partial(w, target, k)
    {
      PartialStep(w, target, k);
      var ticker := LoopOrder[k];
      var x := RiskStep(h, r[ticker], ticker);
      assert x == target[ticker];
      r := r[ticker := x];
      k := k + 1;
    }
    PartialDone(w, target);
  }

  /** Lines 73-75. */
  method NormaliseWeights(w: seq<real>) returns (allocation: seq<real>)
    requires |w| == 5
    ensures allocation == Allocation(w)
  {
    var totalWeight := Sum(w);
    allocation := Zeros;
    if totalWeight > 0.0 {
      allocation := seq(5, i requires 0 <= i < 5 => Max(0.0, w[i] / totalWeight));
    }
  }

  class TradingStrategy {
    var weights: seq<real>

    ghost predicate Valid()
      reads this
    {
      Bounded(weights)
    }

    constructor ()
      ensures Valid() && weights == InitialWeights
    {
      weights := InitialWeights;
    }

    /** `run`: `vwap50` and `vwap200` are the last values of the 50- and
        200-bar VWAP of Bitcoin (lines 33-34). */
    method Run(h: History, vwap50: real, vwap200: real) returns (allocation: seq<real>)
      requires Valid()
      requires |h| >= 200 ==> CanRun(h)
      modifies this
      ensures Valid()
      ensures |allocation| == 5
      ensures |h| < 200 ==> allocation == Zeros && weights == old(weights)
      ensures |h| >= 200 ==> weights == NextWeights(h, old(weights), vwap50, vwap200)
      ensures |h| >= 200 ==> allocation == Allocation(weights)
      ensures weights[AMD] <= old(weights)[AMD]
    {
      if |h| < 200 {
        return Zeros;
      }
      var isBtcBull := h[|h| - 1][Benchmark].close > vwap200;
      var isBtcBear := h[|h| - 1][Benchmark].close < vwap50;
      var regime := ApplyRegime(weights, isBtcBull, isBtcBear);
      weights := RiskLoop(h, regime);
      NextWeightsBounded(h, old(weights), vwap50, vwap200);
      AmdNeverIncreases(h, old(weights), vwap50, vwap200);
      allocation := NormaliseWeights(weights);
    }
  }
}
