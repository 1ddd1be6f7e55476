/** Quarterly inverse-volatility allocation over MSFT, ARM, NVDA and AMD
    (f54b1352-697b-429c-94cb-10455a7b48a4/main.py).

    On the last day of a calendar quarter the strategy weights each ticker by
    its inverse volatility, then applies three rules in order: an equal-weight
    reset when NVDA or ARM gained 40% over the quarter, halving AMD after a
    15% monthly fall, and an equal-weight override when MSFT's volatility
    spikes. Between quarter ends it repeats the stored allocation. */
module QuarterlyInverseVolatility {
  import opened Calendar
  import opened Weights
  import opened Market

  const Tickers: seq<string> := ["MSFT", "ARM", "NVDA", "AMD"]
  const MSFT: nat := 0
  const ARM: nat := 1
  const NVDA: nat := 2
  const AMD: nat := 3

  /** `{ticker: 0.25 for ticker in self.tickers}`. */
  const Equal: seq<real> := Uniform(4, 0.25)

  /** `(month - 1) // 3 + 1`. */
  function Quarter(month: int): int {
    (month - 1) / 3 + 1
  }

  /** `is_quarter_end`: the next calendar day lies in another quarter. */
  predicate IsQuarterEnd(d: CalendarDate) {
    Quarter(d.month) != Quarter(NextDay(d).month)
  }

  /** A date ends its quarter exactly when it is the last day of March,
      June, September or December. */
  lemma QuarterEndIsLastDayOfQuarter(d: CalendarDate)
    ensures IsQuarterEnd(d) <==> d.month % 3 == 0 && d.day == DaysInMonth(d.year, d.month)
  {
    if d.day == DaysInMonth(d.year, d.month) && d.month < 12 {
      assert NextDay(d).month == d.month + 1;
    }
  }

  lemma EqualIsDistribution()
    ensures |Equal| == 4 && IsDistribution(Equal) && AllPositive(Equal)
  {
    SumUniform(4, 0.25);
  }

  /** `vol[-1] if vol else 0.1`. */
  function Volatility(stdev: seq<real>): real {
    LatestOr(stdev, 0.1)
  }

  function InverseVolatilities(vols: seq<real>): (r: seq<real>)
    ensures |r| == |vols| && AllPositive(r)
  {
    seq(|vols|, i requires 0 <= i < |vols| => InverseVolatility(vols[i]))
  }

  /** Lines 74-76: each inverse volatility divided by their sum. */
  function InverseVolatilityWeights(vols: seq<real>): seq<real>
    requires |vols| > 0
  {
    var inv := InverseVolatilities(vols);
    SumPositive(inv);
    Divided(inv, Sum(inv))
  }

  /** The inverse-volatility weights are positive, sum to 1, and are inversely
      proportional to the floored volatilities: weight times floored
      volatility is the same for every ticker. */
  lemma InverseVolatilityWeightsSplit(vols: seq<real>)
    requires |vols| > 0
    ensures |InverseVolatilityWeights(vols)| == |vols|
    ensures IsDistribution(InverseVolatilityWeights(vols))
    ensures AllPositive(InverseVolatilityWeights(vols))
    ensures forall i, j :: 0 <= i < |vols| && 0 <= j < |vols| ==>
      InverseVolatilityWeights(vols)[i] * Max(vols[i], 0.01)
        == InverseVolatilityWeights(vols)[j] * Max(vols[j], 0.01)
  {
    var inv := InverseVolatilities(vols);
    SumPositive(inv);
    DividedByTotal(inv);
    forall i | 0 <= i < |vols|
      ensures InverseVolatilityWeights(vols)[i] * Max(vols[i], 0.01) == 1.0 / Sum(inv)
      ensures InverseVolatilityWeights(vols)[i] > 0.0
    {
      ShareTimesFloor(Max(vols[i], 0.01), Sum(inv));
    }
  }

  lemma ShareTimesFloor(m: real, s: real)
    requires m > 0.0 && s > 0.0
    ensures (1.0 / m) / s * m == 1.0 / s
    ensures (1.0 / m) / s > 0.0
  {
    var q := (1.0 / m) / s;
    assert q * s == 1.0 / m;
    assert q * s * m == 1.0;
    assert (q * m) * s == 1.0;
  }

  /** Lines 79-83: NVDA, then ARM, up 40% over the quarter resets to equal weights. */
  function AfterProfitReset(a: seq<real>, quarterly: seq<real>): seq<real>
    requires |quarterly| == 4
  {
    if quarterly[NVDA] >= 0.4 || quarterly[ARM] >= 0.4 then Equal else a
  }

  /** Lines 90-94: halve AMD, then rescale the other three so that they fill
      what AMD no longer takes (`remaining` is their total). */
  function AmdHalved(a: seq<real>): seq<real>
    requires |a| == 4 && AllPositive(a)
  {
    var amd := a[AMD] * 0.5;
    var remaining := a[MSFT] + a[ARM] + a[NVDA];
    [Rescale(a[MSFT], remaining, amd), Rescale(a[ARM], remaining, amd), Rescale(a[NVDA], remaining, amd), amd]
  }

  /** Line 94: `allocation[t] / remaining * (1 - allocation["AMD"])`. */
  function Rescale(x: real, remaining: real, amd: real): real
    requires remaining > 0.0
  {
    x / remaining * (1.0 - amd)
  }

  /** Halving AMD keeps a positive distribution: AMD gets half its share and
      the other three keep their proportions to one another. */
  lemma AmdHalvedRescales(a: seq<real>)
    requires |a| == 4 && AllPositive(a) && Sum(a) == 1.0
    ensures |AmdHalved(a)| == 4
    ensures AmdHalved(a)[AMD] == a[AMD] * 0.5
    ensures AllPositive(AmdHalved(a)) && IsDistribution(AmdHalved(a))
  {
    SumOfFour(a);
    AmdHalvedEntries(a);
    FourPositiveShares(AmdHalved(a));
  }

  lemma AmdHalvedEntries(a: seq<real>)
    requires |a| == 4 && AllPositive(a) && a[0] + a[1] + a[2] + a[3] == 1.0
    ensures var r := AmdHalved(a);
      && r[0] > 0.0 && r[1] > 0.0 && r[2] > 0.0 && r[3] > 0.0 && r[0] + r[1] + r[2] + r[3] == 1.0
  {
    HalvingScalars(a[0], a[1], a[2], a[3]);
  }

  /** The three rescaled tickers are all scaled by one common factor, so
      they keep their proportions to one another. */
  lemma AmdHalvedKeepsProportions(a: seq<real>, i: nat)
    requires |a| == 4 && AllPositive(a) && i < AMD
    ensures AmdHalved(a)[i] == a[i] * ((1.0 - a[AMD] * 0.5) / (a[MSFT] + a[ARM] + a[NVDA]))
  {
    var rem, amd := a[MSFT] + a[ARM] + a[NVDA], a[AMD] * 0.5;
    assert AmdHalved(a)[i] == Rescale(a[i], rem, amd);
    CommonFactor(a[i], rem, amd);
  }

  lemma CommonFactor(x: real, rem: real, amd: real)
    requires rem > 0.0
    ensures Rescale(x, rem, amd) == x * ((1.0 - amd) / rem)
  {
  }

  lemma HalvingScalars(x0: real, x1: real, x2: real, x3: real)
    requires x0 > 0.0 && x1 > 0.0 && x2 > 0.0 && x3 > 0.0 && x0 + x1 + x2 + x3 == 1.0
    ensures var rem, amd := x0 + x1 + x2, x3 * 0.5;
      && Rescale(x0, rem, amd) > 0.0 && Rescale(x1, rem, amd) > 0.0 && Rescale(x2, rem, amd) > 0.0
      && Rescale(x0, rem, amd) + Rescale(x1, rem, amd) + Rescale(x2, rem, amd) + amd == 1.0
  {
    var rem, amd := x0 + x1 + x2, x3 * 0.5;
    var f := (1.0 - amd) / rem;
    RescaleFactor(x0, rem, amd);
    RescaleFactor(x1, rem, amd);
    RescaleFactor(x2, rem, amd);
    assert x0 * f + x1 * f + x2 * f == rem * f;
    assert rem * f == 1.0 - amd;
  }

  lemma RescaleFactor(x: real, rem: real, amd: real)
    requires rem > 0.0 && x > 0.0 && amd < 1.0
    ensures Rescale(x, rem, amd) == x * ((1.0 - amd) / rem)
    ensures x * ((1.0 - amd) / rem) > 0.0
  {
    CommonFactor(x, rem, amd);
  }

  lemma PositiveSharesAtMostOne(r: seq<real>)
    requires AllPositive(r) && Sum(r) == 1.0
    ensures IsDistribution(r)
  {
    forall k | 0 <= k < |r| ensures r[k] <= 1.0 {
      ElementAtMostSum(r, k);
    }
  }

  lemma FourPositiveShares(r: seq<real>)
    requires |r| == 4 && r[0] > 0.0 && r[1] > 0.0 && r[2] > 0.0 && r[3] > 0.0
    requires r[0] + r[1] + r[2] + r[3] == 1.0
    ensures AllPositive(r) && IsDistribution(r)
  {
    SumOfFour(r);
    PositiveSharesAtMostOne(r);
  }

  lemma SumOfFour(a: seq<real>)
    requires |a| == 4
    ensures Sum(a) == a[0] + a[1] + a[2] + a[3]
  {
    assert Sum(a[..1]) == a[0] by { assert a[..1][..0] == []; }
    assert Sum(a[..2]) == a[0] + a[1] by { assert a[..2][..1] == a[..1]; }
    assert Sum(a[..3]) == a[0] + a[1] + a[2] by { assert a[..3][..2] == a[..2]; }
  }

  /** Lines 86-94: the AMD stop-loss fires on a 21-bar return of -15% or worse. */
  function AfterAmdStop(a: seq<real>, amd: seq<Price>): seq<real>
    requires |a| == 4 && AllPositive(a)
  {
    if |amd| >= 21 && HorizonReturn(amd, 21) <= -0.15 then AmdHalved(a) else a
  }

  /** Lines 97-102: MSFT volatility above 1.5 times its whole-history volatility. */
  function AfterSpike(a: seq<real>, msftVol: real, histVol: real): seq<real> {
    if msftVol > histVol * 1.5 then Equal else a
  }

  /** Lines 105-107. */
  function Normalised(a: seq<real>): seq<real> {
    if Sum(a) > 0.0 then Divided(a, Sum(a)) else a
  }

  function TickerCloses(h: History): (p: seq<seq<Price>>)
    ensures |p| == 4
  {
    seq(4, i requires 0 <= i < 4 => ClosesWhereListed(h, Tickers[i]))
  }

  function Volatilities(stdev63: seq<seq<real>>): (v: seq<real>)
    requires |stdev63| == 4
    ensures |v| == 4
  {
    seq(4, i requires 0 <= i < 4 => Volatility(stdev63[i]))
  }

  function QuarterlyReturns(h: History): (q: seq<real>)
    ensures |q| == 4
  {
    seq(4, i requires 0 <= i < 4 => HorizonReturn(TickerCloses(h)[i], 63))
  }

  /** The allocation before normalisation on a quarter-end rebalance. */
  function RuleAllocation(h: History, stdev63: seq<seq<real>>, stdevAll: seq<real>): (a: seq<real>)
    requires |stdev63| == 4
    ensures |a| == 4 && AllPositive(a) && Sum(a) == 1.0
  {
    var vols := Volatilities(stdev63);
    InverseVolatilityWeightsSplit(vols);
    EqualIsDistribution();
    var a2 := AfterProfitReset(InverseVolatilityWeights(vols), QuarterlyReturns(h));
    var a3 := AfterAmdStop(a2, TickerCloses(h)[AMD]);
    AmdHalvedRescales(a2);
    AfterSpike(a3, vols[MSFT], LatestOr(stdevAll, vols[MSFT]))
  }

  /** The allocation a quarter-end rebalance with at least 63 bars returns and stores. */
  function Rebalanced(h: History, stdev63: seq<seq<real>>, stdevAll: seq<real>): seq<real>
    requires |stdev63| == 4
  {
    Normalised(RuleAllocation(h, stdev63, stdevAll))
  }

  /** Normalising an allocation that already sums to 1 leaves it unchanged. */
  lemma NormalisedUnit(a: seq<real>)
    requires Sum(a) == 1.0
    ensures Normalised(a) == a
  {
    assert Divided(a, 1.0) == a;
  }

  /** A rebalance always yields a positive allocation that sums to 1. */
  lemma RebalancedIsDistribution(h: History, stdev63: seq<seq<real>>, stdevAll: seq<real>)
    requires |stdev63| == 4
    ensures |Rebalanced(h, stdev63, stdevAll)| == 4
    ensures IsDistribution(Rebalanced(h, stdev63, stdevAll))
    ensures AllPositive(Rebalanced(h, stdev63, stdevAll))
  {
    var a := RuleAllocation(h, stdev63, stdevAll);
    NormalisedUnit(a);
    forall k | 0 <= k < 4 ensures a[k] <= 1.0 {
      ElementAtMostSum(a, k);
    }
  }

  /** The MSFT volatility spike overrides every earlier rule. */
  lemma SpikeOverridesEveryRule(h: History, stdev63: seq<seq<real>>, stdevAll: seq<real>)
    requires |stdev63| == 4
    requires Volatility(stdev63[MSFT]) > LatestOr(stdevAll, Volatility(stdev63[MSFT])) * 1.5
    ensures Rebalanced(h, stdev63, stdevAll) == Equal
  {
    EqualIsDistribution();
    NormalisedUnit(Equal);
  }

  /** Without a spike and without an AMD fall, a 40% quarter for NVDA or ARM
      leaves the allocation at equal weights. */
  lemma ProfitResetGivesEqualWeights(h: History, stdev63: seq<seq<real>>, stdevAll: seq<real>)
    requires |stdev63| == 4
    requires QuarterlyReturns(h)[NVDA] >= 0.4 || QuarterlyReturns(h)[ARM] >= 0.4
    requires !(|TickerCloses(h)[AMD]| >= 21 && HorizonReturn(TickerCloses(h)[AMD], 21) <= -0.15)
    requires !(Volatility(stdev63[MSFT]) > LatestOr(stdevAll, Volatility(stdev63[MSFT])) * 1.5)
    ensures Rebalanced(h, stdev63, stdevAll) == Equal
  {
    EqualIsDistribution();
    NormalisedUnit(Equal);
  }

  /** Without a spike, the AMD rule leaves AMD at half the share the earlier
      rules gave it. */
  lemma AmdStopHalvesAmd(h: History, stdev63: seq<seq<real>>, stdevAll: seq<real>)
    requires |stdev63| == 4
    requires |TickerCloses(h)[AMD]| >= 21 && HorizonReturn(TickerCloses(h)[AMD], 21) <= -0.15
    requires !(Volatility(stdev63[MSFT]) > LatestOr(stdevAll, Volatility(stdev63[MSFT])) * 1.5)
    ensures Rebalanced(h, stdev63, stdevAll)[AMD]
         == AfterProfitReset(InverseVolatilityWeights(Volatilities(stdev63)), QuarterlyReturns(h))[AMD] * 0.5
  {
    var vols := Volatilities(stdev63);
    InverseVolatilityWeightsSplit(vols);
    EqualIsDistribution();
    var a2 := AfterProfitReset(InverseVolatilityWeights(vols), QuarterlyReturns(h));
    AmdHalvedRescales(a2);
    NormalisedUnit(RuleAllocation(h, stdev63, stdevAll));
  }

  /** `self.last_allocation or allocation_dict`. */
  function OrElse(o: Option<seq<real>>, d: seq<real>): seq<real> {
    match o
    case Some(a) => a
    case None => d
  }

  function Today(h: History): CalendarDate
    requires |h| > 0 && "MSFT" in h[|h| - 1]
  {
    h[|h| - 1]["MSFT"].date
  }

  /** Lines 68-71: the latest 63-bar volatility of each ticker, 0.1 when undefined. */
  method ReadVolatilities(stdev63: seq<seq<real>>) returns (volatilities: seq<real>)
    requires |stdev63| == 4
    ensures volatilities == Volatilities(stdev63)
  {
    volatilities := [];
    var i := 0;
    while i < 4
      invariant 0 <= i <= 4 && |volatilities| == i
      invariant forall j :: 0 <= j < i ==> volatilities[j] == Volatility(stdev63[j])
    {
      volatilities := volatilities + [if |stdev63[i]| > 0 then stdev63[i][|stdev63[i]| - 1] else 0.1];
      i := i + 1;
    }
  }

  /** Lines 79-83: the loop over NVDA then ARM that resets to equal weights
      at the first 40% quarter. */
  method ProfitReset(weighted: seq<real>, quarterly: seq<real>) returns (allocation: seq<real>)
    requires |quarterly| == 4
    ensures allocation == AfterProfitReset(weighted, quarterly)
  {
    allocation := weighted;
    var profitTickers := [NVDA, ARM];
    var k := 0;
    while k < 2
      invariant 0 <= k <= 2
      invariant allocation == weighted
      invariant k >= 1 ==> quarterly[NVDA] < 0.4
      invariant k >= 2 ==> quarterly[ARM] < 0.4
    {
      if quarterly[profitTickers[k]] >= 0.4 {
        allocation := Equal;
        break;
      }
      k := k + 1;
    }
  }

  /** Lines 90-94: AMD's weight is halved in place, then each other ticker is
      rescaled in turn by the remaining total. */
  method HalveAmd(a: seq<real>) returns (allocation: seq<real>)
    requires |a| == 4 && AllPositive(a)
    ensures allocation == AmdHalved(a)
  {
    allocation := a[AMD := a[AMD] * 0.5];
    var remaining := allocation[MSFT] + allocation[ARM] + allocation[NVDA];
    ghost var target := AmdHalved(a);
    var t := 0;
    while t < 4
      invariant 0 <= t <= 4 && |allocation| == 4
      invariant allocation[AMD] == target[AMD]
      invariant forall j :: 0 <= j < t && j != AMD ==> allocation[j] == target[j]
      invariant forall j :: t <= j < AMD ==> allocation[j] == a[j]
    {
      if t != AMD {
        allocation := allocation[t := Rescale(allocation[t], remaining, allocation[AMD])];
      }
      t := t + 1;
    }
  }

  /** Lines 64-107: the allocation a quarter-end rebalance computes. */
  method ComputeRebalance(h: History, stdev63: seq<seq<real>>, stdevAll: seq<real>)
    returns (allocation: seq<real>)
    requires |stdev63| == 4
    ensures allocation == Rebalanced(h, stdev63, stdevAll)
  {
    var prices := TickerCloses(h);
    var quarterly := seq(4, i requires 0 <= i < 4 => HorizonReturn(prices[i], 63));
    assert quarterly == QuarterlyReturns(h);
    var volatilities := ReadVolatilities(stdev63);
    InverseVolatilityWeightsSplit(volatilities);
    EqualIsDistribution();
    allocation := ProfitReset(InverseVolatilityWeights(volatilities), quarterly);
    ghost var reset := allocation;
    if |prices[AMD]| >= 21 {
      var monthly := HorizonReturn(prices[AMD], 21);
      if monthly <= -0.15 {
        allocation := HalveAmd(allocation);
      }
    }
    assert allocation == AfterAmdStop(reset, prices[AMD]);
    AmdHalvedRescales(reset);
    var msftVol := volatilities[MSFT];
    var msftHistVol := LatestOr(stdevAll, msftVol);
    if msftVol > msftHistVol * 1.5 {
      allocation := Equal;
    }
    assert allocation == RuleAllocation(h, stdev63, stdevAll);
    var total := Sum(allocation);
    if total > 0.0 {
      allocation := Divided(allocation, total);
    }
  }

  class TradingStrategy {
    var lastAllocation: Option<seq<real>>
    var lastRebalanceDate: Option<CalendarDate>

    /** A stored allocation is always a full four-ticker distribution. */
    ghost predicate Valid()
      reads this
    {
      lastAllocation.Some? ==> |lastAllocation.value| == 4 && IsDistribution(lastAllocation.value)
    }

    constructor ()
      ensures Valid() && lastAllocation == None && lastRebalanceDate == None
    {
      lastAllocation := None;
      lastRebalanceDate := None;
    }

    /** `run`: `stdev63[i]` is `STDEV(Tickers[i], ohlcv[-63:], 63)` and
        `stdevAll` is `STDEV("MSFT", ohlcv, len(ohlcv))`. */
    method Run(h: History, stdev63: seq<seq<real>>, stdevAll: seq<real>) returns (allocation: seq<real>)
      requires Valid()
      requires ListedThroughout(h, "MSFT")
      requires |stdev63| == 4
      modifies this
      ensures Valid()
      ensures |allocation| == 4 && IsDistribution(allocation)
      // empty history: equal weights, nothing stored
      ensures |h| == 0 ==>
        allocation == Equal && lastAllocation == old(lastAllocation) && lastRebalanceDate == old(lastRebalanceDate)
      // holding: the stored allocation is repeated and nothing changes
      ensures |h| > 0 && old(lastAllocation).Some? && !IsQuarterEnd(Today(h)) ==>
        allocation == old(lastAllocation).value
        && lastAllocation == old(lastAllocation) && lastRebalanceDate == old(lastRebalanceDate)
      // short history: equal weights, stored with today's date
      ensures 0 < |h| < 63 && (old(lastAllocation).None? || IsQuarterEnd(Today(h))) ==>
        allocation == Equal && lastAllocation == Some(Equal) && lastRebalanceDate == Some(Today(h))
      // nothing stored yet and not a quarter end: equal weights, nothing stored
      ensures |h| >= 63 && old(lastAllocation).None? && !IsQuarterEnd(Today(h)) ==>
        allocation == Equal && lastAllocation == None && lastRebalanceDate == old(lastRebalanceDate)
      // quarter-end rebalance
      ensures |h| >= 63 && IsQuarterEnd(Today(h)) ==>
        allocation == Rebalanced(h, stdev63, stdevAll)
        && lastAllocation == Some(allocation) && lastRebalanceDate == Some(Today(h))
    {
      EqualIsDistribution();
      var closes := ClosesOf(h, "MSFT");
      if |closes| < 1 {
        return Equal;
      }
      var today := h[|h| - 1]["MSFT"].date;
      var prices := TickerCloses(h);

      if lastAllocation.Some? && !IsQuarterEnd(today) {
        return lastAllocation.value;
      }

      allocation := Equal;
      if |h| < 63 {
        lastAllocation := Some(allocation);
        lastRebalanceDate := Some(today);
        return;
      }

      if !IsQuarterEnd(today) {
        return OrElse(lastAllocation, allocation);
      }

      allocation := ComputeRebalance(h, stdev63, stdevAll);
      RebalancedIsDistribution(h, stdev63, stdevAll);
      lastAllocation := Some(allocation);
      lastRebalanceDate := Some(today);
    }
  }

  /** Two calls inside one quarter repeat the first call's allocation. */
  method HoldingRepeatsAllocation(s: TradingStrategy, h1: History, h2: History,
                                  stdev63: seq<seq<real>>, stdevAll: seq<real>)
    returns (a1: seq<real>, a2: seq<real>)
    requires s.Valid() && s.lastAllocation.Some?
    requires ListedThroughout(h1, "MSFT") && ListedThroughout(h2, "MSFT") && |stdev63| == 4
    requires |h1| > 0 && |h2| > 0 && !IsQuarterEnd(Today(h1)) && !IsQuarterEnd(Today(h2))
    modifies s
    ensures a1 == a2 == old(s.lastAllocation).value
  {
    a1 := s.Run(h1, stdev63, stdevAll);
    a2 := s.Run(h2, stdev63, stdevAll);
  }
}
