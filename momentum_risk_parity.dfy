/** Momentum and risk-parity allocation over ten large technology stocks
    (0f7e84e3-899a-46e5-9142-2c582ec0df95/main.py).

    Each ticker gets a momentum score, the sum of its 3- and 6-month returns
    over its floored volatility. The score is trimmed after a strong month or
    an overbought RSI, zeroed by a stop-loss, and halved when negative. The
    tickers with a positive score share the portfolio in proportion to
    inverse volatility times momentum. */
module MomentumRiskParity {
  import opened Weights
  import opened Market

  const Tickers: seq<string> := ["NVDA", "PLTR", "INTC", "TSLA", "AAPL", "AMD", "AMZN", "MSFT", "GOOGL", "TSM"]
  const N: nat := 10

  /** The per-ticker values the strategy takes from outside its own
      arithmetic: `volatility` is the annualised standard deviation of the
      last 20 log returns, the others are indicator series. */
  datatype Signals = Signals(volatility: real, rsi: seq<real>, vwap10: seq<real>, vwap200: seq<real>)

  /** Every snapshot carries every ticker (line 37 indexes them all). */
  predicate AllListed(h: History) {
    forall i :: 0 <= i < |Tickers| ==> ListedThroughout(h, Tickers[i])
  }

  /** Line 51: (3-month + 6-month return) / max(volatility, 0.01). */
  function MomentumScore(c: seq<Price>, volatility: real): (r: real)
    ensures r > 0.0 <==> HorizonReturn(c, 63) + HorizonReturn(c, 126) > 0.0
    ensures r < 0.0 <==> HorizonReturn(c, 63) + HorizonReturn(c, 126) < 0.0
  {
    var floor := Max(volatility, 0.01);
    QuotientSign(HorizonReturn(c, 63) + HorizonReturn(c, 126), floor);
    (HorizonReturn(c, 63) + HorizonReturn(c, 126)) / floor
  }

  /** Lines 55-57: a one-month gain above 30% or an RSI above 80 (50 when undefined). */
  predicate ProfitTrim(c: seq<Price>, s: Signals) {
    HorizonReturn(c, 21) > 0.30 || LatestOr(s.rsi, 50.0) > 80.0
  }

  /** Lines 61-65: more than 5% below the 63-bar peak, or the 10-bar VWAP
      under the 200-bar VWAP (each the last close when undefined). */
  predicate StopLoss(c: seq<Price>, s: Signals)
    requires |c| > 0
  {
    var last := c[|c| - 1];
    DropFromPeak(LastN(c, 63)) > 0.05 || LatestOr(s.vwap10, last) < LatestOr(s.vwap200, last)
  }

  /** The score after the profit trim and the stop-loss (lines 51-66). */
  function TickerScore(c: seq<Price>, s: Signals): real
    requires |c| > 0
  {
    var ms := MomentumScore(c, s.volatility);
    var trimmed := if ProfitTrim(c, s) then ms * 0.85 else ms;
    if StopLoss(c, s) then 0.0 else trimmed
  }

  /** Lines 69-72: a negative score is halved. */
  function HalvedIfNegative(x: real): (r: real)
    ensures r < 0.0 <==> x < 0.0
    ensures r > 0.0 <==> x > 0.0
    ensures x >= 0.0 ==> r == x
  {
    if x < 0.0 then x * 0.5 else x
  }

  /** Every ticker's score after the trim and the stop-loss. */
  function StoppedScores(h: History, sig: seq<Signals>): (r: seq<real>)
    requires AllListed(h) && |h| > 0 && |sig| == N
    ensures |r| == N
  {
    seq(N, i requires 0 <= i < N => TickerScore(ClosesOf(h, Tickers[i]), sig[i]))
  }

  /** The final momentum score of every ticker. */
  function Scores(h: History, sig: seq<Signals>): (r: seq<real>)
    requires AllListed(h) && |h| > 0 && |sig| == N
    ensures |r| == N
  {
    var stopped := StoppedScores(h, sig);
    seq(N, i requires 0 <= i < N => HalvedIfNegative(stopped[i]))
  }

  /** Line 75: the inverse volatility of each ticker with a positive score, 0 for the others. */
  function RiskWeights(scores: seq<real>, sig: seq<Signals>): (r: seq<real>)
    requires |scores| == N && |sig| == N
    ensures |r| == N && NonNegative(r)
    ensures forall i :: 0 <= i < N ==> (r[i] > 0.0 <==> scores[i] > 0.0)
  {
    seq(N, i requires 0 <= i < N => if scores[i] > 0.0 then InverseVolatility(sig[i].volatility) else 0.0)
  }

  /** Lines 80-85: inverse-volatility share scaled by `min(1, ms / max score)`. */
  function ScaledWeights(scores: seq<real>, sig: seq<Signals>, total: real, top: real): (r: seq<real>)
    requires |scores| == N && |sig| == N && total != 0.0 && top != 0.0
    ensures |r| == N
  {
    seq(N, i requires 0 <= i < N =>
      if scores[i] > 0.0 then InverseVolatility(sig[i].volatility) / total * Min(1.0, scores[i] / top) else 0.0)
  }

  /** Lines 88-95: each weight over the total, clipped to [0,1]. */
  function ClippedShares(raw: seq<real>): (r: seq<real>)
    requires Sum(raw) > 0.0
    ensures |r| == |raw|
  {
    seq(|raw|, i requires 0 <= i < |raw| => Clip01(raw[i] / Sum(raw)))
  }

  /** A non-zero total risk weight means some ticker has a positive score. */
  lemma PositiveScoreExists(scores: seq<real>, sig: seq<Signals>)
    requires |scores| == N && |sig| == N
    requires Sum(RiskWeights(scores, sig)) != 0.0
    ensures exists i :: 0 <= i < N && scores[i] > 0.0
  {
    if forall i :: 0 <= i < N ==> scores[i] <= 0.0 {
      SumAllZero(RiskWeights(scores, sig));
    }
  }

  /** Lines 75-95: the weights given the final scores. */
  function Shares(scores: seq<real>, sig: seq<Signals>): (r: seq<real>)
    requires |scores| == N && |sig| == N
    ensures |r| == N
  {
    var totalInverseVol := Sum(RiskWeights(scores, sig));
    if totalInverseVol == 0.0 then Uniform(N, 0.0)
    else
      PositiveScoreExists(scores, sig);
      var top := MaxOf(scores);
      var raw := ScaledWeights(scores, sig, totalInverseVol, top);
      if Sum(raw) > 0.0 then ClippedShares(raw) else Uniform(N, 0.0)
  }

  /** The allocation `run` returns. */
  function Allocation(h: History, sig: seq<Signals>): seq<real>
    requires AllListed(h) && |sig| == N
  {
    if |h| == 0 then Uniform(N, 0.1) else Shares(Scores(h, sig), sig)
  }

  /** The stop-loss overrides the profit trim: a stopped ticker scores 0. */
  lemma StopLossOverridesTrim(h: History, sig: seq<Signals>, i: nat)
    requires AllListed(h) && |h| > 0 && |sig| == N && i < N
    requires StopLoss(ClosesOf(h, Tickers[i]), sig[i])
    ensures Scores(h, sig)[i] == 0.0
  {
  }

  /** A ticker scores positive exactly when it is not stopped and its
      3- plus 6-month return is positive; halving never changes the sign. */
  lemma PositiveScoreMeansRisingAndNotStopped(h: History, sig: seq<Signals>, i: nat)
    requires AllListed(h) && |h| > 0 && |sig| == N && i < N
    ensures var c := ClosesOf(h, Tickers[i]);
      Scores(h, sig)[i] > 0.0 <==> !StopLoss(c, sig[i]) && HorizonReturn(c, 63) + HorizonReturn(c, 126) > 0.0
  {
    var c := ClosesOf(h, Tickers[i]);
    var ms := MomentumScore(c, sig[i].volatility);
    assert ms * 0.85 > 0.0 <==> ms > 0.0;
  }

  /** Without any positive score every weight is 0. */
  lemma NoPositiveScoreGivesNothing(scores: seq<real>, sig: seq<Signals>)
    requires |scores| == N && |sig| == N
    requires forall i :: 0 <= i < N ==> scores[i] <= 0.0
    ensures Shares(scores, sig) == Uniform(N, 0.0)
  {
    SumAllZero(RiskWeights(scores, sig));
  }

  /** With some positive score the weights form a distribution and exactly
      the positively scored tickers are held. */
  lemma PositiveScoresGiveDistribution(scores: seq<real>, sig: seq<Signals>)
    requires |scores| == N && |sig| == N
    requires exists i :: 0 <= i < N && scores[i] > 0.0
    ensures |Shares(scores, sig)| == N && IsDistribution(Shares(scores, sig))
    ensures forall i :: 0 <= i < N ==> (Shares(scores, sig)[i] > 0.0 <==> scores[i] > 0.0)
  {
    RawSharesSigns(scores, sig);
    var raw := ScaledWeights(scores, sig, Sum(RiskWeights(scores, sig)), MaxOf(scores));
    SharesDivideRaw(scores, sig);
    DividedByTotal(raw);
    var z := Sum(raw);
    forall i | 0 <= i < N ensures Divided(raw, z)[i] > 0.0 <==> scores[i] > 0.0 {
      QuotientSign(raw[i], z);
    }
  }

  /** For some positive score, the scaled weights before normalisation are
      non-negative, and positive exactly where the score is. */
  lemma RawSharesSigns(scores: seq<real>, sig: seq<Signals>)
    requires |scores| == N && |sig| == N
    requires exists i :: 0 <= i < N && scores[i] > 0.0
    ensures Sum(RiskWeights(scores, sig)) > 0.0 && MaxOf(scores) > 0.0
    ensures var raw := ScaledWeights(scores, sig, Sum(RiskWeights(scores, sig)), MaxOf(scores));
      NonNegative(raw) && forall i :: 0 <= i < N ==> (raw[i] > 0.0 <==> scores[i] > 0.0)
  {
    var risk := RiskWeights(scores, sig);
    var k :| 0 <= k < N && scores[k] > 0.0;
    ElementAtMostSum(risk, k);
    var total := Sum(risk);
    var top := MaxOf(scores);
    assert total > 0.0 && top > 0.0;
    forall i | 0 <= i < N
      ensures var raw := ScaledWeights(scores, sig, total, top); 0.0 <= raw[i] && (raw[i] > 0.0 <==> scores[i] > 0.0)
    {
      ScaledWeightAt(scores, sig, total, top, i);
    }
  }

  lemma ScaledWeightAt(scores: seq<real>, sig: seq<Signals>, total: real, top: real, i: nat)
    requires |scores| == N && |sig| == N && i < N && total > 0.0 && scores[i] <= top && top > 0.0
    ensures var raw := ScaledWeights(scores, sig, total, top); 0.0 <= raw[i] && (raw[i] > 0.0 <==> scores[i] > 0.0)
  {
    if scores[i] > 0.0 {
      ScaledWeightPositive(InverseVolatility(sig[i].volatility), total, scores[i], top);
    }
  }

  lemma ScaledWeightPositive(inv: real, total: real, score: real, top: real)
    requires inv > 0.0 && total > 0.0 && 0.0 < score <= top
    ensures inv / total * Min(1.0, score / top) > 0.0
    ensures Min(1.0, score / top) == score / top
  {
    assert score / top <= top / top;
    SelfShare(top);
  }

  /** The `min(1, ms / max score)` cap never binds: a held ticker's weight
      before normalisation is its inverse-volatility share times its score
      relative to the top score. */
  lemma HeldWeightIsRiskTimesMomentum(scores: seq<real>, sig: seq<Signals>, total: real, top: real, i: nat)
    requires |scores| == N && |sig| == N && i < N && total > 0.0 && 0.0 < scores[i] <= top
    ensures ScaledWeights(scores, sig, total, top)[i]
         == InverseVolatility(sig[i].volatility) / total * (scores[i] / top)
  {
    ScaledWeightPositive(InverseVolatility(sig[i].volatility), total, scores[i], top);
  }

  /** With some positive score, the final weights are the scaled weights
      divided by their (positive) total; the clip changes nothing. */
  lemma SharesDivideRaw(scores: seq<real>, sig: seq<Signals>)
    requires |scores| == N && |sig| == N
    requires exists i :: 0 <= i < N && scores[i] > 0.0
    ensures Sum(RiskWeights(scores, sig)) > 0.0 && MaxOf(scores) > 0.0
    ensures var raw := ScaledWeights(scores, sig, Sum(RiskWeights(scores, sig)), MaxOf(scores));
      Sum(raw) > 0.0 && Shares(scores, sig) == Divided(raw, Sum(raw))
  {
    RawSharesSigns(scores, sig);
    var total, top := Sum(RiskWeights(scores, sig)), MaxOf(scores);
    var raw := ScaledWeights(scores, sig, total, top);
    var k :| 0 <= k < N && scores[k] > 0.0;
    assert raw[k] > 0.0;
    ElementAtMostSum(raw, k);
    assert Shares(scores, sig) == ClippedShares(raw);
    ClippedIsDivided(raw);
  }

  /** Shares of non-negative weights over their positive total already lie
      in [0,1], so clipping them changes nothing. */
  lemma ClippedIsDivided(raw: seq<real>)
    requires NonNegative(raw) && Sum(raw) > 0.0
    ensures ClippedShares(raw) == Divided(raw, Sum(raw))
  {
    DividedByTotal(raw);
    var d := Divided(raw, Sum(raw));
    forall i | 0 <= i < |raw|
      ensures ClippedShares(raw)[i] == d[i]
    {
      assert 0.0 <= d[i] <= 1.0;
    }
  }

  /** Lines 37-66: one ticker's score, trimmed and then possibly stopped. */
  method ScoreTicker(h: History, sig: seq<Signals>, i: nat) returns (ms: real)
    requires AllListed(h) && |h| > 0 && |sig| == N && i < N
    ensures ms == StoppedScores(h, sig)[i]
  {
    var closes := ClosesOf(h, Tickers[i]);
    var s := sig[i];
    ms := MomentumScore(closes, s.volatility);
    if ProfitTrim(closes, s) {
      ms := ms * 0.85;
    }
    if StopLoss(closes, s) {
      ms := 0.0;
    }
  }

  /** Lines 36-66: the scoring loop over the tickers. */
  method ComputeStoppedScores(h: History, sig: seq<Signals>) returns (scores: seq<real>)
    requires AllListed(h) && |h| > 0 && |sig| == N
    ensures scores == StoppedScores(h, sig)
  {
    ghost var target := StoppedScores(h, sig);
    scores := [];
    var i := 0;
    while i < N
      invariant 0 <= i <= N && scores == target[..i]
    {
      var ms := ScoreTicker(h, sig, i);
      PrefixStep(target, i);
      scores := scores + [ms];
      i := i + 1;
    }
    assert target[..N] == target;
  }

  /** Lines 69-72: the loop halving each negative score in place. */
  method HalveNegatives(stopped: seq<real>) returns (scores: seq<real>)
    requires |stopped| == N
    ensures |scores| == N && forall i :: 0 <= i < N ==> scores[i] == HalvedIfNegative(stopped[i])
  {
    scores := stopped;
    var i := 0;
    while i < N
      invariant 0 <= i <= N && |scores| == N
      invariant forall j :: 0 <= j < i ==> scores[j] == HalvedIfNegative(stopped[j])
      invariant forall j :: i <= j < N ==> scores[j] == stopped[j]
    {
      if scores[i] < 0.0 {
        scores := scores[i := scores[i] * 0.5];
      }
      i := i + 1;
    }
  }

  /** Lines 80-85: the weighting loop. */
  method ComputeScaledWeights(scores: seq<real>, sig: seq<Signals>, totalInverseVol: real, top: real)
    returns (allocation: seq<real>)
    requires |scores| == N && |sig| == N && totalInverseVol != 0.0 && top != 0.0
    ensures allocation == ScaledWeights(scores, sig, totalInverseVol, top)
  {
    ghost var target := ScaledWeights(scores, sig, totalInverseVol, top);
    allocation := [];
    var i := 0;
    while i < N
      invariant 0 <= i <= N && |allocation| == i
      invariant forall j :: 0 <= j < i ==> allocation[j] == target[j]
    {
      var weight := 0.0;
      if scores[i] > 0.0 {
        weight := InverseVolatility(sig[i].volatility) / totalInverseVol * Min(1.0, scores[i] / top);
      }
      allocation := allocation + [weight];
      i := i + 1;
    }
  }

  /** Lines 88-95: the normalising loop, dividing and clipping in place. */
  method NormaliseClipped(raw: seq<real>) returns (allocation: seq<real>)
    requires |raw| == N
    ensures Sum(raw) > 0.0 ==> allocation == ClippedShares(raw)
    ensures Sum(raw) <= 0.0 ==> allocation == Uniform(N, 0.0)
  {
    allocation := raw;
    var total := Sum(allocation);
    if total > 0.0 {
      var i := 0;
      while i < N
        invariant 0 <= i <= N && |allocation| == N
        invariant forall j :: 0 <= j < i ==> allocation[j] == ClippedShares(raw)[j]
        invariant forall j :: i <= j < N ==> allocation[j] == raw[j]
      {
        allocation := allocation[i := allocation[i] / total];
        allocation := allocation[i := Clip01(allocation[i])];
        i := i + 1;
      }
    } else {
      allocation := Uniform(N, 0.0);
    }
  }

  /** `run`. */
  method Run(h: History, sig: seq<Signals>) returns (allocation: seq<real>)
    requires AllListed(h) && |sig| == N
    ensures allocation == Allocation(h, sig)
  {
    if |h| < 1 {
      return Uniform(N, 0.1);
    }
    var stopped := ComputeStoppedScores(h, sig);
    var scores := HalveNegatives(stopped);
    assert scores == Scores(h, sig);
    var totalInverseVol := Sum(RiskWeights(scores, sig));
    if totalInverseVol == 0.0 {
      return Uniform(N, 0.0);
    }
    PositiveScoreExists(scores, sig);
    var top := MaxOf(scores);
    allocation := ComputeScaledWeights(scores, sig, totalInverseVol, top);
    allocation := NormaliseClipped(allocation);
  }
}
