/** Sector rotation with a cash regime switch
    (8fb6908a-e9be-4ac4-9938-cbce92fb19fc/main.py).

    Every tenth call the strategy compares SPY with BIL on a "relative
    return": the return since the bar 82 snapshots back less the return since
    the last bar at least 15 days old. When SPY leads, the two best sectors
    by the same measure get half the portfolio each; otherwise the portfolio
    goes 30% GLD and 70% BIL. Between rebalances, and whenever SPY or BIL
    data is missing, the stored allocation is repeated. */
module SectorRotation {
  import opened Calendar
  import opened Weights
  import opened Market

  /** `assets_list`; allocations are aligned with it. */
  const Assets: seq<string> :=
    ["QQQ", "XLK", "XLE", "IWD", "XLV", "XLU", "XLP", "IJT", "GLD", "UUP", "SPY", "BIL", "NVDA", "AAPL", "MSFT"]
  const A: nat := 15
  const GLD: nat := 8
  const BIL: nat := 11

  /** The bull-case candidates, in the order the loop at line 83 visits them. */
  const Sectors: seq<string> := ["QQQ", "XLK", "NVDA", "MSFT", "AAPL", "XLE", "XLV", "IJT"]
  const S: nat := 8

  /** Where each sector sits in `Assets`. */
  const SectorAsset: seq<nat> := [0, 1, 12, 14, 13, 2, 4, 7]

  lemma SectorAssetNamesSector(k: nat)
    requires k < S
    ensures SectorAsset[k] < A && Assets[SectorAsset[k]] == Sectors[k]
  {
  }

  /** `{asset: 0 for asset in self.assets_list}`. */
  const Zeros: seq<real> := Uniform(A, 0.0)

  /** Lines 43-45: the day ordinal 15 days before SPY's latest bar. */
  function PastDay(h: History): int
    requires |h| > 0 && "SPY" in h[|h| - 1]
  {
    DayNumber(h[|h| - 1]["SPY"].date) - 15
  }

  /** Lines 49-56: the backward search over the first `k` snapshots for the
      latest one whose SPY bar is on or before `pastDay`, falling back to 0.
      `None` when the search reaches a snapshot without SPY (a `KeyError`
      the strategy does not catch). */
  function PastIndex(h: History, pastDay: int, k: nat): (r: Option<nat>)
    requires k <= |h|
    ensures r.Some? && k > 0 ==> r.value < k
    decreases k
  {
    if k == 0 then Some(0)
    else if "SPY" !in h[k - 1] then None
    else if DayNumber(h[k - 1]["SPY"].date) <= pastDay then Some(k - 1)
    else PastIndex(h, pastDay, k - 1)
  }

  /** The SPY day ordinal of snapshot `i`. */
  function SpyDay(h: History, i: nat): int
    requires i < |h| && "SPY" in h[i]
  {
    DayNumber(h[i]["SPY"].date)
  }

  /** The search finds the latest snapshot on or before `pastDay`, and every
      snapshot after it is later than `pastDay`; when there is none, it
      falls back to 0. */
  lemma {:induction false} PastIndexIsLatestOnOrBefore(h: History, pastDay: int, k: nat)
    requires k <= |h| && PastIndex(h, pastDay, k).Some?
    ensures var p := PastIndex(h, pastDay, k).value;
      && (forall j :: p < j < k ==> "SPY" in h[j] && SpyDay(h, j) > pastDay)
      && (k > 0 ==> "SPY" in h[p])
      && (k > 0 && SpyDay(h, p) > pastDay ==> p == 0)
    decreases k
  {
    if k > 0 {
      assert "SPY" in h[k - 1];
      if SpyDay(h, k - 1) > pastDay {
        assert PastIndex(h, pastDay, k) == PastIndex(h, pastDay, k - 1);
        PastIndexIsLatestOnOrBefore(h, pastDay, k - 1);
      }
    }
  }

  /** The search fails exactly when, walking back from snapshot `k - 1`, it
      meets a snapshot without SPY before any snapshot on or before
      `pastDay`. */
  lemma {:induction false} PastIndexFailsExactlyWhenBlocked(h: History, pastDay: int, k: nat)
    requires k <= |h|
    ensures PastIndex(h, pastDay, k).None? <==>
      exists j :: 0 <= j < k && "SPY" !in h[j] && forall m :: j < m < k ==> "SPY" in h[m] && SpyDay(h, m) > pastDay
    decreases k
  {
    if k > 0 {
      PastIndexFailsExactlyWhenBlocked(h, pastDay, k - 1);
      if "SPY" in h[k - 1] && SpyDay(h, k - 1) > pastDay {
        assert PastIndex(h, pastDay, k) == PastIndex(h, pastDay, k - 1);
      }
    }
  }

  /** Lines 64-66 and 88-90: `(today/lpast - 1) - (today/past - 1)`. */
  function RelativeReturn(today: real, past: real, lpast: real): real
    requires past != 0.0 && lpast != 0.0
  {
    (today / lpast - 1.0) - (today / past - 1.0)
  }

  /** One ticker's relative return, or `None` when one of the three bars is
      missing (the `KeyError` the strategy catches). */
  function TickerReturn(h: History, p: nat, t: string): (r: Option<real>)
    requires |h| >= 82 && p < |h|
    ensures r.Some? <==> t in h[|h| - 1] && t in h[p] && t in h[|h| - 82]
  {
    if t in h[|h| - 1] && t in h[p] && t in h[|h| - 82] then
      Some(RelativeReturn(h[|h| - 1][t].close, h[p][t].close, h[|h| - 82][t].close))
    else None
  }

  /** A present relative return is the close today over the close 82
      snapshots back, less the close today over the close at the past index;
      it is positive exactly when the ticker rose between those two
      snapshots. */
  lemma TickerReturnValue(h: History, p: nat, t: string)
    requires |h| >= 82 && p < |h| && TickerReturn(h, p, t).Some?
    ensures var now, past, lpast := h[|h| - 1][t].close, h[p][t].close, h[|h| - 82][t].close;
      && TickerReturn(h, p, t).value == now / lpast - now / past
      && (TickerReturn(h, p, t).value > 0.0 <==> past > lpast)
  {
    var now: real, past: real, lpast: real := h[|h| - 1][t].close, h[p][t].close, h[|h| - 82][t].close;
    assert now / lpast - now / past == now * (past - lpast) / (lpast * past);
    QuotientSign(now * (past - lpast), lpast * past);
  }

  /** Lines 81-93: `sector_returns`, one entry per sector in visiting order. */
  function SectorReturns(h: History, p: nat): (rs: seq<Option<real>>)
    requires |h| >= 82 && p < |h|
    ensures |rs| == S
  {
    seq(S, k requires 0 <= k < S => TickerReturn(h, p, Sectors[k]))
  }

  /** How many entries are present, other than the one at `skip`. */
  function CountPresent(rs: seq<Option<real>>, skip: int): nat
    decreases |rs|
  {
    if |rs| == 0 then 0
    else CountPresent(rs[..|rs| - 1], skip) + (if rs[|rs| - 1].Some? && |rs| - 1 != skip then 1 else 0)
  }

  /** No entry other than `skip` is present when none is counted. */
  lemma {:induction false} NothingPresent(rs: seq<Option<real>>, skip: int)
    requires CountPresent(rs, skip) == 0
    ensures forall j :: 0 <= j < |rs| && j != skip ==> rs[j].None?
    decreases |rs|
  {
    if |rs| > 0 {
      var init := rs[..|rs| - 1];
      NothingPresent(init, skip);
      assert forall j :: 0 <= j < |rs| - 1 ==> init[j] == rs[j];
    }
  }

  /** The first entry holding the largest present value other than `skip`:
      the head of `sorted(..., reverse=True)`, which keeps ties in order. */
  function Best(rs: seq<Option<real>>, skip: int): (b: Option<nat>)
    ensures b.None? <==> CountPresent(rs, skip) == 0
    ensures b.Some? ==> b.value < |rs| && b.value != skip && rs[b.value].Some?
    ensures b.Some? ==> forall j :: 0 <= j < |rs| && j != skip && rs[j].Some? ==> rs[j].value <= rs[b.value].value
    ensures b.Some? ==> forall j :: 0 <= j < b.value && j != skip && rs[j].Some? ==> rs[j].value < rs[b.value].value
    decreases |rs|
  {
    if |rs| == 0 then None
    else
      var init := rs[..|rs| - 1];
      var k := |rs| - 1;
      var b := Best(init, skip);
      assert forall j :: 0 <= j < k ==> init[j] == rs[j];
      if k == skip || rs[k].None? then b
      else if b.None? then
        NothingPresent(init, skip);
        Some(k)
      else if rs[k].value > rs[b.value].value then Some(k)
      else b
  }

  /** Lines 96-100 and 107-109: the bull-case allocation over `Assets`.
      Without any sector return the comprehension at line 100 is empty, so
      every asset is stored at 0. */
  function BullWeights(rs: seq<Option<real>>): (w: seq<real>)
    requires |rs| == S
    ensures |w| == A
  {
    match Best(rs, -1)
    case None => Zeros
    case Some(first) =>
      SectorAssetNamesSector(first);
      match Best(rs, first)
      case None => Zeros[SectorAsset[first] := 1.0]
      case Some(second) =>
        SectorAssetNamesSector(second);
        Zeros[SectorAsset[first] := 0.5][SectorAsset[second] := 0.5]
  }

  /** Lines 101-104. */
  const BearWeights: seq<real> := Zeros[GLD := 0.3][BIL := 0.7]

  datatype Decision = KeepCurrent | Replace(weights: seq<real>)

  /** What a rebalancing call decides, once `past_index` is known. */
  function DecideAt(h: History, p: nat): Decision
    requires |h| >= 82 && p < |h|
  {
    var spy, bil := TickerReturn(h, p, "SPY"), TickerReturn(h, p, "BIL");
    if spy.None? || bil.None? then KeepCurrent
    else if spy.value > bil.value then Replace(BullWeights(SectorReturns(h, p)))
    else Replace(BearWeights)
  }

  /** Line 79: SPY's relative return beats BIL's. */
  predicate IsBull(h: History, p: nat)
    requires |h| >= 82 && p < |h|
  {
    var spy, bil := TickerReturn(h, p, "SPY"), TickerReturn(h, p, "BIL");
    spy.Some? && bil.Some? && spy.value > bil.value
  }

  /** What a rebalancing call needs: SPY in the last snapshot (line 43) and
      in every snapshot the backward search reads (line 50), and 82
      snapshots for `ohlcv[-82]` (line 63, whose `IndexError` the `except
      KeyError` does not catch). */
  predicate CanRebalance(h: History) {
    && |h| >= 82 && "SPY" in h[|h| - 1]
    && PastIndex(h, PastDay(h), |h|).Some?
  }

  function Decide(h: History): Decision
    requires CanRebalance(h)
  {
    DecideAt(h, PastIndex(h, PastDay(h), |h|).value)
  }

  /** The stored allocation after a rebalancing call. */
  function Rebalanced(current: seq<real>, h: History): seq<real>
    requires CanRebalance(h)
  {
    match Decide(h)
    case KeepCurrent => current
    case Replace(w) => w
  }

  /** An allocation the strategy can store: all zero initially, afterwards
      non-negative weights summing to 1. */
  predicate Feasible(w: seq<real>) {
    |w| == A && NonNegative(w) && (AllZero(w) || Sum(w) == 1.0)
  }

  lemma OneHot(k: nat)
    requires k < A
    ensures IsDistribution(Zeros[k := 1.0])
  {
    SumUniform(A, 0.0);
    SumUpdate(Zeros, k, 1.0);
  }

  lemma TwoHalves(a: nat, b: nat)
    requires a < A && b < A && a != b
    ensures IsDistribution(Zeros[a := 0.5][b := 0.5])
  {
    SumUniform(A, 0.0);
    SumUpdate(Zeros, a, 0.5);
    SumUpdate(Zeros[a := 0.5], b, 0.5);
  }

  /** SectorAsset is one to one. */
  lemma SectorAssetDistinct(i: nat, j: nat)
    requires i < S && j < S && i != j
    ensures SectorAsset[i] != SectorAsset[j]
  {
  }

  /** In the bull case with two or more sector returns, the two best sectors
      (ties broken in visiting order) get 0.5 each, every other asset 0, and
      each chosen return is at least each unchosen one. */
  lemma BullPicksTopTwo(rs: seq<Option<real>>)
    requires |rs| == S && CountPresent(rs, -1) > 0
    requires Best(rs, Best(rs, -1).value).Some?
    ensures var first, second := Best(rs, -1).value, Best(rs, Best(rs, -1).value).value;
      && first != second && rs[first].Some? && rs[second].Some?
      && BullWeights(rs)[SectorAsset[first]] == 0.5 && BullWeights(rs)[SectorAsset[second]] == 0.5
      && (forall k :: 0 <= k < A && k != SectorAsset[first] && k != SectorAsset[second] ==> BullWeights(rs)[k] == 0.0)
      && rs[second].value <= rs[first].value
      && (forall j :: 0 <= j < S && j != first && j != second && rs[j].Some? ==> rs[j].value <= rs[second].value)
  {
    var first := Best(rs, -1).value;
    var second := Best(rs, first).value;
    SectorAssetNamesSector(first);
    SectorAssetNamesSector(second);
    SectorAssetDistinct(first, second);
  }

  /** With a single sector return, that sector gets everything. */
  lemma BullSingleSectorTakesAll(rs: seq<Option<real>>)
    requires |rs| == S && CountPresent(rs, -1) > 0
    requires Best(rs, Best(rs, -1).value).None?
    ensures var first := Best(rs, -1).value;
      && (forall j :: 0 <= j < S && j != first ==> rs[j].None?)
      && BullWeights(rs) == Zeros[SectorAsset[first] := 1.0]
  {
    NothingPresent(rs, Best(rs, -1).value);
  }

  lemma BullWeightsDistribution(rs: seq<Option<real>>)
    requires |rs| == S && CountPresent(rs, -1) > 0
    ensures IsDistribution(BullWeights(rs))
  {
    var first := Best(rs, -1).value;
    SectorAssetNamesSector(first);
    match Best(rs, first)
    case None => OneHot(SectorAsset[first]);
    case Some(second) =>
      SectorAssetNamesSector(second);
      SectorAssetDistinct(first, second);
      TwoHalves(SectorAsset[first], SectorAsset[second]);
  }

  /** The bear case holds 30% GLD and 70% BIL and nothing else. */
  lemma BearHoldsGoldAndBills()
    ensures |BearWeights| == A && BearWeights[GLD] == 0.3 && BearWeights[BIL] == 0.7
    ensures forall k :: 0 <= k < A && k != GLD && k != BIL ==> BearWeights[k] == 0.0
    ensures IsDistribution(BearWeights)
  {
    SumUniform(A, 0.0);
    SumUpdate(Zeros, GLD, 0.3);
    SumUpdate(Zeros[GLD := 0.3], BIL, 0.7);
  }

  /** A rebalance keeps the stored allocation feasible. */
  lemma RebalancedFeasible(current: seq<real>, h: History)
    requires CanRebalance(h) && Feasible(current)
    ensures Feasible(Rebalanced(current, h))
  {
    var p := PastIndex(h, PastDay(h), |h|).value;
    if IsBull(h, p) {
      if CountPresent(SectorReturns(h, p), -1) > 0 {
        BullWeightsDistribution(SectorReturns(h, p));
      }
    } else {
      BearHoldsGoldAndBills();
    }
  }

  /** A bullish call in which no sector has a return stores all zeros: the
      allocation built at line 100 is empty and lines 107-109 reset every
      asset to 0. */
  lemma BullWithoutSectorsStoresZeros(current: seq<real>, h: History)
    requires CanRebalance(h)
    requires var p := PastIndex(h, PastDay(h), |h|).value;
      IsBull(h, p) && forall j :: 0 <= j < S ==> SectorReturns(h, p)[j].None?
    ensures Rebalanced(current, h) == Zeros
  {
    BullWithoutSectorsIsZeros(h, PastIndex(h, PastDay(h), |h|).value);
  }

  lemma BullWithoutSectorsIsZeros(h: History, p: nat)
    requires |h| >= 82 && p < |h|
    requires IsBull(h, p) && forall j :: 0 <= j < S ==> SectorReturns(h, p)[j].None?
    ensures DecideAt(h, p) == Replace(Zeros)
  {
    assert Best(SectorReturns(h, p), -1).None?;
  }

  /** Lines 76-77: a missing SPY or BIL bar keeps the stored allocation. */
  lemma MissingBenchmarkKeeps(current: seq<real>, h: History)
    requires CanRebalance(h)
    requires var p := PastIndex(h, PastDay(h), |h|).value;
      TickerReturn(h, p, "SPY").None? || TickerReturn(h, p, "BIL").None?
    ensures Rebalanced(current, h) == current
  {
  }

  /** Lines 49-56: the backward search for `past_index`. */
  method FindPastIndex(h: History, pastDay: int) returns (pastIndex: nat)
    requires PastIndex(h, pastDay, |h|).Some?
    ensures pastIndex == PastIndex(h, pastDay, |h|).value
  {
    var i: int := |h| - 1;
    while i >= 0
      invariant -1 <= i < |h|
      invariant PastIndex(h, pastDay, i + 1) == PastIndex(h, pastDay, |h|)
    {
      var date := h[i]["SPY"].date;
      if DayNumber(date) <= pastDay {
        return i;
      }
      i := i - 1;
    }
    pastIndex := 0;
  }

  /** Lines 83-93: the loop filling `sector_returns`. */
  method ComputeSectorReturns(h: History, p: nat) returns (rs: seq<Option<real>>)
    requires |h| >= 82 && p < |h|
    ensures rs == SectorReturns(h, p)
  {
    ghost var target := SectorReturns(h, p);
    rs := [];
    var k := 0;
    while k < S
      invariant 0 <= k <= S && rs == target[..k]
    {
      var sector := Sectors[k];
      var ret: Option<real> := None;
      if sector in h[|h| - 1] && sector in h[p] && sector in h[|h| - 82] {
        var closeToday, closePast, closeLpast := h[|h| - 1][sector].close, h[p][sector].close, h[|h| - 82][sector].close;
        ret := Some(RelativeReturn(closeToday, closePast, closeLpast));
      }
      PrefixStep(target, k);
      rs := rs + [ret];
      k := k + 1;
    }
    assert target[..S] == target;
  }

  /** Lines 42-104: the allocation a rebalancing call decides on. */
  method ComputeDecision(h: History) returns (d: Decision)
    requires CanRebalance(h)
    ensures d == Decide(h)
  {
    var today := h[|h| - 1]["SPY"].date;
    var pastDay := DayNumber(today) - 15;
    var p := FindPastIndex(h, pastDay);
    var spy := TickerReturn(h, p, "SPY");
    var bil := TickerReturn(h, p, "BIL");
    if spy.None? || bil.None? {
      return KeepCurrent;
    }
    if spy.value > bil.value {
      var rs := ComputeSectorReturns(h, p);
      d := Replace(BullWeights(rs));
    } else {
      d := Replace(BearWeights);
    }
  }

  class TradingStrategy {
    var count: int
    var currentAllocation: seq<real>

    ghost predicate Valid()
      reads this
    {
      0 <= count < 10 && Feasible(currentAllocation)
    }

    constructor ()
      ensures Valid() && count == 0 && currentAllocation == Zeros
    {
      count := 0;
      currentAllocation := Zeros;
    }

    /** `run`: rebalances on every tenth call, otherwise repeats the stored allocation. */
    method Run(h: History) returns (allocation: seq<real>)
      requires Valid()
      requires (count + 1) % 10 == 0 && |h| > 0 ==> CanRebalance(h)
      modifies this
      ensures Valid()
      ensures count == (old(count) + 1) % 10
      ensures |h| == 0 || count != 0 ==> currentAllocation == old(currentAllocation)
      ensures |h| > 0 && count == 0 ==> currentAllocation == Rebalanced(old(currentAllocation), h)
      ensures allocation == currentAllocation
    {
      count := (count + 1) % 10;
      if |h| < 1 || count != 0 {
        return currentAllocation;
      }
      var d := ComputeDecision(h);
      RebalancedFeasible(currentAllocation, h);
      if d.Replace? {
        currentAllocation := d.weights;
      }
      allocation := currentAllocation;
    }
  }
}
