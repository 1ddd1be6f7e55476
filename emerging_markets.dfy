/** Emerging-market tiers with profit and stop resets and an even excess
    cut (daf3f13f-bf6a-4547-b08e-ea00d7a8e378/main.py).

    With 200 bars of history a ticker with both SMAs defined gets 0.2 above
    both its 50- and 200-bar SMA and 0.1 otherwise; a 50% gain over 60 bars
    or a close at or below 80% of the all-history peak resets it to 0.1.
    When the weights total more than 1, the excess is divided evenly over
    all seven tickers and subtracted from each, including tickers that were
    skipped and so held 0. */
module EmergingMarkets {
  import opened Weights
  import opened Market

  const Tickers: seq<string> := ["TSM", "BABA", "TCEHY", "SE", "MELI", "AMX", "PBR"]

  /** Line 19. */
  const Zeros: seq<real> := Uniform(7, 0.0)

  /** What `run` reads without guarding: line 21 takes the maximum of every
      ticker's closes over the whole history, so the history is non-empty
      and lists every ticker in every snapshot. `sma50[i]` and `sma200[i]`
      are `SMA(Tickers[i], ohlcv, 50)` and `SMA(Tickers[i], ohlcv, 200)`. */
  predicate CanRun(h: History, sma50: seq<seq<real>>, sma200: seq<seq<real>>) {
    |h| > 0 && |sma50| == 7 && |sma200| == 7 && forall i :: 0 <= i < 7 ==> ListedThroughout(h, Tickers[i])
  }

  /** Lines 36-39. */
  function Tier(current: real, s50: real, s200: real): real {
    if current > s50 && current > s200 then 0.2 else 0.1
  }

  /** Lines 42-47: the close is at least 1.5 times the close 60 bars back. */
  predicate TakesProfit(h: History, t: string)
    requires |h| >= 60 && ListedThroughout(h, t)
  {
    h[|h| - 1][t].close >= 1.5 * h[|h| - 60][t].close
  }

  /** Lines 21, 50: the close is at or below 80% of the highest close. */
  predicate StopsOut(h: History, t: string)
    requires |h| > 0 && ListedThroughout(h, t)
  {
    h[|h| - 1][t].close <= 0.8 * MaxOf(ClosesOf(h, t))
  }

  /** Lines 23-52: the weight assigned to ticker `i`, or none when it is
      skipped (a short history or an undefined SMA). */
  function TickerWeight(h: History, sma50: seq<seq<real>>, sma200: seq<seq<real>>, i: nat): Option<real>
    requires CanRun(h, sma50, sma200) && i < 7
  {
    if |h| < 200 || |sma50[i]| == 0 || |sma200[i]| == 0 then None
    else
      var t := Tickers[i];
      if TakesProfit(h, t) || StopsOut(h, t) then Some(0.1)
      else Some(Tier(h[|h| - 1][t].close, sma50[i][|sma50[i]| - 1], sma200[i][|sma200[i]| - 1]))
  }

  /** The allocation after the loop: the assigned weight, 0 where skipped. */
  function Assigned(h: History, sma50: seq<seq<real>>, sma200: seq<seq<real>>): (a: seq<real>)
    requires CanRun(h, sma50, sma200)
    ensures |a| == 7
  {
    seq(7, i requires 0 <= i < 7 =>
      match TickerWeight(h, sma50, sma200, i) case Some(w) => w case None => 0.0)
  }

  /** Lines 58-61: an even cut of the excess over 1. */
  function Normalised(a: seq<real>): (r: seq<real>)
    requires |a| == 7
    ensures |r| == 7
  {
    var totalWeight := Sum(a);
    if totalWeight > 1.0 then LessEach(a, (totalWeight - 1.0) / 7.0) else a
  }

  /** What `run` returns. */
  function Allocation(h: History, sma50: seq<seq<real>>, sma200: seq<seq<real>>): (r: seq<real>)
    requires CanRun(h, sma50, sma200)
    ensures |r| == 7
  {
    Normalised(Assigned(h, sma50, sma200))
  }

  /** Every assigned weight is 0.1 or 0.2, and it is 0.2 exactly when the
      close is above both SMAs and neither the profit nor the stop rule
      fires. */
  lemma AssignedTiers(h: History, sma50: seq<seq<real>>, sma200: seq<seq<real>>, i: nat)
    requires CanRun(h, sma50, sma200) && i < 7 && TickerWeight(h, sma50, sma200, i).Some?
    ensures var w := TickerWeight(h, sma50, sma200, i).value;
      var t := Tickers[i];
      && (w == 0.1 || w == 0.2)
      && (w == 0.2 <==>
            && h[|h| - 1][t].close > sma50[i][|sma50[i]| - 1]
            && h[|h| - 1][t].close > sma200[i][|sma200[i]| - 1]
            && !TakesProfit(h, t) && !StopsOut(h, t))
  {
  }

  /** With fewer than 200 bars every weight is 0. */
  lemma ShortHistoryAllZero(h: History, sma50: seq<seq<real>>, sma200: seq<seq<real>>)
    requires CanRun(h, sma50, sma200) && |h| < 200
    ensures AllZero(Allocation(h, sma50, sma200))
  {
    SumAllZero(Assigned(h, sma50, sma200));
  }

  /** Above a total of 1 the cut leaves exactly 1; at or below it the
      weights are returned unchanged. */
  lemma NormalisedTotal(a: seq<real>)
    requires |a| == 7
    ensures Sum(a) > 1.0 ==> Sum(Normalised(a)) == 1.0
    ensures Sum(a) <= 1.0 ==> Normalised(a) == a
  {
    SumLessEach(a, (Sum(a) - 1.0) / 7.0);
  }

  /** The assigned weights total at most 1.4. */
  lemma AssignedBounds(h: History, sma50: seq<seq<real>>, sma200: seq<seq<real>>)
    requires CanRun(h, sma50, sma200)
    ensures var a := Assigned(h, sma50, sma200);
      NonNegative(a) && Sum(a) <= 1.4 && forall i :: 0 <= i < 7 ==> a[i] <= 0.2
  {
    var a := Assigned(h, sma50, sma200);
    SumMonotone(a, Uniform(7, 0.2));
    SumUniform(7, 0.2);
  }

  /** When all seven tickers are assigned, the excess is at most 0.4/7,
      below the smallest tier, so every weight stays positive. */
  lemma AllAssignedStayPositive(h: History, sma50: seq<seq<real>>, sma200: seq<seq<real>>)
    requires CanRun(h, sma50, sma200)
    requires forall i :: 0 <= i < 7 ==> TickerWeight(h, sma50, sma200, i).Some?
    ensures AllPositive(Allocation(h, sma50, sma200))
  {
    var a := Assigned(h, sma50, sma200);
    AssignedBounds(h, sma50, sma200);
    forall i | 0 <= i < 7
      ensures a[i] >= 0.1
    {
      AssignedTiers(h, sma50, sma200, i);
    }
  }

  /** A skipped ticker holds 0 after the loop, so a cut leaves it with a
      negative weight. */
  lemma SkippedGoesNegative(h: History, sma50: seq<seq<real>>, sma200: seq<seq<real>>, i: nat)
    requires CanRun(h, sma50, sma200) && i < 7 && TickerWeight(h, sma50, sma200, i).None?
    requires Sum(Assigned(h, sma50, sma200)) > 1.0
    ensures Allocation(h, sma50, sma200)[i] < 0.0
  {
  }

  /** Lines 27-52 for one ticker. */
  method WeighTicker(h: History, sma50: seq<seq<real>>, sma200: seq<seq<real>>, i: nat) returns (w: Option<real>)
    requires CanRun(h, sma50, sma200) && i < 7 && |h| >= 200
    ensures w == TickerWeight(h, sma50, sma200, i)
  {
    var ticker := Tickers[i];
    if |sma50[i]| == 0 || |sma200[i]| == 0 {
      return None;
    }
    var currentPrice := h[|h| - 1][ticker].close;
    var maxPrice := MaxOf(ClosesOf(h, ticker));
    var weight := 0.1;
    if currentPrice > sma50[i][|sma50[i]| - 1] && currentPrice > sma200[i][|sma200[i]| - 1] {
      weight := 0.2;
    }
    var pastPrice := h[|h| - 60][ticker].close;
    if currentPrice >= 1.5 * pastPrice {
      weight := 0.1;
    }
    if currentPrice <= 0.8 * maxPrice {
      weight := 0.1;
    }
    w := Some(weight);
  }

  /** Lines 19-55: the assigning loop; `total_weight` is kept equal to the
      sum of the allocation. */
  method AssignWeights(h: History, sma50: seq<seq<real>>, sma200: seq<seq<real>>)
    returns (allocation: seq<real>, totalWeight: real)
    requires CanRun(h, sma50, sma200)
    ensures allocation == Assigned(h, sma50, sma200)
    ensures totalWeight == Sum(allocation)
  {
    ghost var target := Assigned(h, sma50, sma200);
    allocation := Zeros;
    totalWeight := 0.0;
    SumUniform(7, 0.0);
    var i := 0;
    while i < 7
      invariant 0 <= i <= 7 && |allocation| == 7
      invariant forall j :: 0 <= j < i ==> allocation[j] == target[j]
      invariant forall j :: i <= j < 7 ==> allocation[j] == 0.0
      invariant totalWeight == Sum(allocation)
    {
      if |h| >= 200 {
        var w := WeighTicker(h, sma50, sma200, i);
        if w.Some? {
          SumUpdate(allocation, i, w.value);
          allocation := allocation[i := w.value];
          totalWeight := totalWeight + w.value;
        }
      }
      i := i + 1;
    }
  }

  /** `run`. */
  method Run(h: History, sma50: seq<seq<real>>, sma200: seq<seq<real>>) returns (allocation: seq<real>)
    requires CanRun(h, sma50, sma200)
    ensures allocation == Allocation(h, sma50, sma200)
  {
    var totalWeight;
    allocation, totalWeight := AssignWeights(h, sma50, sma200);
    if totalWeight > 1.0 {
      var excess := (totalWeight - 1.0) / 7.0;
      allocation := seq(7, i requires 0 <= i < 7 => allocation[i] - excess);
    }
  }
}
