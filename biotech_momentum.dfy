/** Biotech momentum with a stop-loss and a defensive rotation into UNH
    (317b0910-a8f3-4dad-8788-1b1ff0ade127/main.py).

    With six months (126 bars) of history every ticker scores its 126-bar
    return over its volatility; the positive scores are normalised into
    weights. A ticker closing more than 18% below its 30-bar high is
    dropped. When the five biotech scores together trail UNH's, the biotech
    weights are halved and UNH gains 0.5, so the total may exceed 1. */
module BiotechMomentum {
  import opened Weights
  import opened Market

  const Tickers: seq<string> := ["MRNA", "BNTX", "ISRG", "TDOC", "VRTX", "UNH"]
  /** The five biotech tickers are the first five. */
  const Biotech: nat := 5
  const UNH: nat := 5

  /** Line 19. */
  const Zeros: seq<real> := Uniform(6, 0.0)

  /** Line 28: the latest STDEV value, or 1 while it is undefined. */
  function Volatility(stdev: seq<real>): real {
    LatestOr(stdev, 1.0)
  }

  /** What a call with at least 126 bars reads without guarding: every
      ticker in the last 126 snapshots (lines 26, 51, 52), and a non-zero
      volatility to divide by (line 30). `stdev[i]` is
      `STDEV(Tickers[i], ohlcv, 126)`. */
  predicate CanRun(h: History, stdev: seq<seq<real>>) {
    |stdev| == 6 && forall i :: 0 <= i < 6 ==> ListedInLast(h, Tickers[i], 126) && Volatility(stdev[i]) != 0.0
  }

  /** Lines 26-30: the 126-bar return over the volatility. */
  function MomentumScore(h: History, t: string, volatility: real): real
    requires ListedInLast(h, t, 126) && volatility != 0.0
  {
    HorizonReturn(LastCloses(h, t, 126), 126) / volatility
  }

  /** Lines 22-30: `momentum_scores`, in ticker order. */
  function Scores(h: History, stdev: seq<seq<real>>): (s: seq<real>)
    requires CanRun(h, stdev)
    ensures |s| == 6
  {
    seq(6, i requires 0 <= i < 6 => MomentumScore(h, Tickers[i], Volatility(stdev[i])))
  }

  /** Lines 36-39: each positive score over the total of the positive
      scores; all zeros when that total is not positive. */
  function Weighted(s: seq<real>): (a: seq<real>)
    requires |s| == 6
    ensures |a| == 6
  {
    var total := Sum(PositivePart(s));
    if total > 0.0 then Divided(PositivePart(s), total) else Zeros
  }

  /** `ohlcv[-30:]`'s highs for `t`. */
  function RecentHighs(h: History, t: string): (r: seq<real>)
    requires ListedInLast(h, t, 30)
    ensures |r| == 30
  {
    var w := h[|h| - 30..];
    seq(30, j requires 0 <= j < 30 => w[j][t].high)
  }

  /** Lines 51-52: the last close is below 82% of the 30-bar high. */
  predicate Stopped(h: History, t: string)
    requires ListedInLast(h, t, 30)
  {
    h[|h| - 1][t].close < MaxOf(RecentHighs(h, t)) * 0.82
  }

  /** Lines 50-53. */
  function AfterStops(h: History, a: seq<real>): (r: seq<real>)
    requires |a| == 6 && forall i :: 0 <= i < 6 ==> ListedInLast(h, Tickers[i], 30)
    ensures |r| == 6
  {
    seq(6, i requires 0 <= i < 6 => if Stopped(h, Tickers[i]) then 0.0 else a[i])
  }

  /** Lines 56-60: the biotech scores together trail UNH's. */
  predicate Rotates(s: seq<real>)
    requires |s| == 6
  {
    Sum(s[..Biotech]) < s[UNH]
  }

  /** Lines 63-65. */
  function Rotated(a: seq<real>): (r: seq<real>)
    requires |a| == 6
    ensures |r| == 6
  {
    seq(6, i requires 0 <= i < 6 => if i < Biotech then a[i] * 0.5 else a[i] + 0.5)
  }

  /** What `run` returns. */
  function Allocation(h: History, stdev: seq<seq<real>>): (r: seq<real>)
    requires |h| >= 126 ==> CanRun(h, stdev)
    ensures |r| == 6
  {
    if |h| < 126 then Zeros
    else
      var s := Scores(h, stdev);
      var a := AfterStops(h, Weighted(s));
      if Rotates(s) && Sum(a) > 0.0 then Rotated(a) else a
  }

  /** With a positive total of positive scores the weights form a
      distribution in which a ticker is weighted exactly when its score is
      positive; otherwise every weight is 0. */
  lemma WeightedShares(s: seq<real>)
    requires |s| == 6
    ensures var a := Weighted(s);
      && NonNegative(a)
      && (Sum(PositivePart(s)) > 0.0 ==>
            IsDistribution(a) && forall i :: 0 <= i < 6 ==> (a[i] > 0.0 <==> s[i] > 0.0))
      && (Sum(PositivePart(s)) <= 0.0 ==> AllZero(a))
  {
    var p := PositivePart(s);
    var total := Sum(p);
    if total > 0.0 {
      DividedByTotal(p);
      forall i | 0 <= i < 6
        ensures Divided(p, total)[i] > 0.0 <==> s[i] > 0.0
      {
        QuotientSign(p[i], total);
      }
    }
  }

  /** The stop-loss only removes weights: a stopped ticker gets 0, every
      other keeps its weight, and the total does not grow. */
  lemma StopsOnlyRemove(h: History, a: seq<real>)
    requires |a| == 6 && NonNegative(a) && forall i :: 0 <= i < 6 ==> ListedInLast(h, Tickers[i], 30)
    ensures var r := AfterStops(h, a);
      && NonNegative(r)
      && (forall i :: 0 <= i < 6 ==> r[i] == (if Stopped(h, Tickers[i]) then 0.0 else a[i]))
      && Sum(r) <= Sum(a)
  {
    SumMonotone(AfterStops(h, a), a);
  }

  /** The rotation halves the biotech weights and adds 0.5 to UNH, so the
      total becomes half the old total plus half UNH's old weight plus 0.5. */
  lemma RotatedTotal(a: seq<real>)
    requires |a| == 6
    ensures Sum(Rotated(a)) == 0.5 * Sum(a) + 0.5 * a[UNH] + 0.5
  {
    var r := Rotated(a);
    assert r[..Biotech] == Divided(a[..Biotech], 2.0);
    SumDivided(a[..Biotech], 2.0);
    assert Sum(r) == Sum(r[..Biotech]) + r[UNH];
    assert Sum(a) == Sum(a[..Biotech]) + a[UNH];
  }

  /** A rotation of a distribution holding any UNH sums to more than 1. */
  lemma RotationExceedsOne(a: seq<real>)
    requires |a| == 6 && IsDistribution(a) && a[UNH] > 0.0
    ensures Sum(Rotated(a)) > 1.0
  {
    RotatedTotal(a);
  }

  /** The returned weights are non-negative and total at most 1.5; without
      a rotation they total at most 1, and a rotation gives UNH at least
      0.5. */
  lemma AllocationBounds(h: History, stdev: seq<seq<real>>)
    requires |h| >= 126 && CanRun(h, stdev)
    ensures var r := Allocation(h, stdev);
      var s := Scores(h, stdev);
      var a := AfterStops(h, Weighted(s));
      && NonNegative(r) && Sum(r) <= 1.5
      && (!(Rotates(s) && Sum(a) > 0.0) ==> Sum(r) <= 1.0)
      && (Rotates(s) && Sum(a) > 0.0 ==> r[UNH] >= 0.5)
  {
    var s := Scores(h, stdev);
    var a := AfterStops(h, Weighted(s));
    StoppedWeights(h, s);
    if Rotates(s) && Sum(a) > 0.0 {
      RotatedBounds(a);
    }
  }

  /** The weights after the stop-loss are non-negative and total at most 1. */
  lemma StoppedWeights(h: History, s: seq<real>)
    requires |s| == 6 && forall i :: 0 <= i < 6 ==> ListedInLast(h, Tickers[i], 30)
    ensures NonNegative(AfterStops(h, Weighted(s))) && Sum(AfterStops(h, Weighted(s))) <= 1.0
  {
    var w := Weighted(s);
    WeightedShares(s);
    WeightedAtMostOne(s);
    StopsOnlyRemove(h, w);
  }

  /** Rotating non-negative weights totalling at most 1 keeps them
      non-negative, gives UNH at least 0.5 and totals at most 1.5. */
  lemma RotatedBounds(a: seq<real>)
    requires |a| == 6 && NonNegative(a) && Sum(a) <= 1.0
    ensures NonNegative(Rotated(a)) && Rotated(a)[UNH] >= 0.5 && Sum(Rotated(a)) <= 1.5
  {
    ElementAtMostSum(a, UNH);
    RotatedTotal(a);
  }

  lemma WeightedAtMostOne(s: seq<real>)
    requires |s| == 6
    ensures Sum(Weighted(s)) <= 1.0
  {
    WeightedShares(s);
    if Sum(PositivePart(s)) <= 0.0 {
      SumAllZero(Weighted(s));
    }
  }

  /** A stopped biotech ticker ends the call at 0, rotation or not. */
  lemma StoppedBiotechGetsNothing(h: History, stdev: seq<seq<real>>, i: nat)
    requires |h| >= 126 && CanRun(h, stdev) && i < Biotech && Stopped(h, Tickers[i])
    ensures Allocation(h, stdev)[i] == 0.0
  {
    var s := Scores(h, stdev);
    var a := AfterStops(h, Weighted(s));
    assert a[i] == 0.0;
    assert Rotated(a)[i] == 0.0;
  }

  /** Lines 22-30: the scoring loop. */
  method ComputeScores(h: History, stdev: seq<seq<real>>) returns (scores: seq<real>)
    requires CanRun(h, stdev)
    ensures scores == Scores(h, stdev)
  {
    ghost var target := Scores(h, stdev);
    scores := [];
    var i := 0;
    while i < 6
      invariant 0 <= i <= 6 && scores == target[..i]
    {
      var ticker := Tickers[i];
      var closePrices := LastCloses(h, ticker, 126);
      var first: real, last: real := closePrices[0], closePrices[125];
      var gain := last / first - 1.0;
      var volatility := if |stdev[i]| > 0 then stdev[i][|stdev[i]| - 1] else 1.0;
      PrefixStep(target, i);
      scores := scores + [gain / volatility];
      i := i + 1;
    }
    assert target[..6] == target;
  }

  /** Lines 36-39. */
  method Normalise(scores: seq<real>) returns (allocation: seq<real>)
    requires |scores| == 6
    ensures allocation == Weighted(scores)
  {
    var totalScore := Sum(PositivePart(scores));
    allocation := Zeros;
    if totalScore > 0.0 {
      var i := 0;
      while i < 6
        invariant 0 <= i <= 6 && |allocation| == 6
        invariant forall j :: 0 <= j < i ==> allocation[j] == Max(scores[j], 0.0) / totalScore
        invariant forall j :: i <= j < 6 ==> allocation[j] == 0.0
      {
        allocation := allocation[i := Max(scores[i], 0.0) / totalScore];
        i := i + 1;
      }
    }
  }

  /** Lines 50-53. */
  method ApplyStops(h: History, a: seq<real>) returns (allocation: seq<real>)
    requires |a| == 6 && forall i :: 0 <= i < 6 ==> ListedInLast(h, Tickers[i], 30)
    ensures allocation == AfterStops(h, a)
  {
    allocation := a;
    var i := 0;
    while i < 6
      invariant 0 <= i <= 6 && |allocation| == 6
      invariant forall j :: 0 <= j < i ==> allocation[j] == AfterStops(h, a)[j]
      invariant forall j :: i <= j < 6 ==> allocation[j] == a[j]
    {
      var recentHigh := MaxOf(RecentHighs(h, Tickers[i]));
      if h[|h| - 1][Tickers[i]].close < recentHigh * 0.82 {
        allocation := allocation[i := 0.0];
      }
      i := i + 1;
    }
  }

  /** Lines 56-65. */
  method Rotate(scores: seq<real>, a: seq<real>) returns (allocation: seq<real>)
    requires |scores| == 6 && |a| == 6
    ensures allocation == if Rotates(scores) && Sum(a) > 0.0 then Rotated(a) else a
  {
    allocation := a;
    var biotechMomentum := Sum(scores[..Biotech]);
    var unhMomentum := scores[UNH];
    if biotechMomentum < unhMomentum {
      var totalAllocation := Sum(a);
      if totalAllocation > 0.0 {
        var i := 0;
        while i < Biotech
          invariant 0 <= i <= Biotech && |allocation| == 6
          invariant forall j :: 0 <= j < i ==> allocation[j] == a[j] * 0.5
          invariant forall j :: i <= j < 6 ==> allocation[j] == a[j]
        {
          allocation := allocation[i := allocation[i] * 0.5];
          i := i + 1;
        }
        allocation := allocation[UNH := allocation[UNH] + 0.5];
      }
    }
  }

  /** `run`. The profit-taking block at lines 42-47 is not modelled: it
      never changes the allocation. */
  method Run(h: History, stdev: seq<seq<real>>) returns (allocation: seq<real>)
    requires |h| >= 126 ==> CanRun(h, stdev)
    ensures allocation == Allocation(h, stdev)
    ensures |h| < 126 ==> allocation == Zeros
  {
    if |h| < 126 {
      return Zeros;
    }
    var scores := ComputeScores(h, stdev);
    allocation := Normalise(scores);
    allocation := ApplyStops(h, allocation);
    allocation := Rotate(scores, allocation);
  }
}
