/** Clean-energy allocation with a trend filter, tiered weights and a TSLA
    RSI signal (322c4f98-d768-446d-ada2-5d07242fe8b6/main.py).

    A ticker trading below its 200-day SMA gets no weight. The others get a
    tier: 1.5 for PLUG or ENPH after a 20% fall over 60 bars, 1.25 when ICLN
    rose 10% over the last 21 bars or the ticker's price-to-book ratio is
    under the median of the others', 1.0 otherwise. The tiers are divided by
    their total. TSLA's RSI can set TSLA to 0 or 1 when TSLA has no tier.

    An allocation is a sequence aligned with `Tickers`; `None` means the
    ticker has no key in the returned dictionary. */
module CleanEnergy {
  import opened Weights
  import opened Market

  const Tickers: seq<string> := ["ICLN", "NEE", "FSLR", "PLUG", "ENPH", "ALB", "TSLA"]
  const T: nat := 7
  const ICLN: nat := 0
  const PLUG: nat := 3
  const ENPH: nat := 4
  const TSLA: nat := 6

  /** Line 29: every ticker's closes, from the snapshots that list it. */
  function Closes(h: History): (c: seq<seq<Price>>)
    ensures |c| == T
  {
    seq(T, i requires 0 <= i < T => ClosesWhereListed(h, Tickers[i]))
  }

  /** What the strategy reads without guarding: the last close of a ticker
      with a defined SMA (line 37) and of PLUG and ENPH (line 63). */
  predicate CanRun(closes: seq<seq<Price>>, sma200: seq<seq<real>>) {
    |closes| == T && |sma200| == T &&
    forall i :: 0 <= i < T && (|sma200[i]| > 0 || i == PLUG || i == ENPH) ==> |closes[i]| > 0
  }

  /** Lines 35-39: the last close under the last 200-day SMA; false when the
      SMA is undefined. */
  predicate Below(c: seq<Price>, sma: seq<real>)
    requires |sma| > 0 ==> |c| > 0
  {
    |sma| > 0 && c[|c| - 1] < sma[|sma| - 1]
  }

  function BelowFlags(closes: seq<seq<Price>>, sma200: seq<seq<real>>): (b: seq<bool>)
    requires CanRun(closes, sma200)
    ensures |b| == T
  {
    seq(T, i requires 0 <= i < T => Below(closes[i], sma200[i]))
  }

  /** Lines 47-49: a ratios record is modelled by its "priceToBook" field,
      `None` when the key is absent. The P/B is taken from the last record. */
  function PriceToBook(records: seq<Option<real>>): (pb: Option<real>)
    ensures pb.Some? ==> |records| > 0 && records[|records| - 1] == pb
    ensures |records| > 0 && records[|records| - 1].Some? ==> pb == records[|records| - 1]
  {
    if |records| > 0 && records[|records| - 1].Some? then records[|records| - 1] else None
  }

  function PriceToBooks(ratios: seq<seq<Option<real>>>): (pb: seq<Option<real>>)
    requires |ratios| == T
    ensures |pb| == T
  {
    seq(T, i requires 0 <= i < T => PriceToBook(ratios[i]))
  }

  /** Line 52: the P/B values of the tickers other than ICLN that have one,
      in ticker order (the first `k` tickers). */
  function PbValues(pb: seq<Option<real>>, k: nat): (v: seq<real>)
    requires k <= |pb|
    ensures |v| <= k
    decreases k
  {
    if k == 0 then []
    else
      var v := PbValues(pb, k - 1);
      if k - 1 != ICLN && pb[k - 1].Some? then v + [pb[k - 1].value] else v
  }

  /** The collected values are exactly the P/B ratios of the tickers other
      than ICLN that have one. */
  lemma {:induction false} PbValuesAreOtherRatios(pb: seq<Option<real>>, k: nat)
    requires k <= |pb|
    ensures forall x :: x in PbValues(pb, k) <==> exists i :: 0 <= i < k && i != ICLN && pb[i] == Some(x)
    decreases k
  {
    if k > 0 {
      PbValuesAreOtherRatios(pb, k - 1);
    }
  }

  /** The tickers among the first `k`, other than ICLN, that have a P/B
      ratio, in ticker order. */
  function OtherHolders(pb: seq<Option<real>>, k: nat): (r: seq<nat>)
    requires k <= |pb|
    ensures |r| <= k
    decreases k
  {
    if k == 0 then []
    else
      var r := OtherHolders(pb, k - 1);
      if k - 1 != ICLN && pb[k - 1].Some? then r + [k - 1] else r
  }

  /** `OtherHolders` lists every ticker other than ICLN that has a ratio,
      each once, in increasing order, and nothing else. */
  lemma {:induction false} OtherHoldersAreTheHolders(pb: seq<Option<real>>, k: nat)
    requires k <= |pb|
    ensures var r := OtherHolders(pb, k);
      (forall j, l :: 0 <= j < l < |r| ==> r[j] < r[l]) &&
      (forall j :: 0 <= j < |r| ==> r[j] < k && r[j] != ICLN && pb[r[j]].Some?) &&
      (forall i :: 0 <= i < k && i != ICLN && pb[i].Some? ==> i in r)
    decreases k
  {
    if k > 0 {
      OtherHoldersAreTheHolders(pb, k - 1);
    }
  }

  /** The collected values are the ratios of `OtherHolders`, one value per
      ticker and in ticker order, so equal ratios of two tickers are both
      kept (the median depends on how often a value occurs). */
  lemma {:induction false} PbValuesFollowHolders(pb: seq<Option<real>>, k: nat)
    requires k <= |pb|
    ensures var v, r := PbValues(pb, k), OtherHolders(pb, k);
      |v| == |r| && forall j :: 0 <= j < |r| ==> r[j] < k && pb[r[j]].Some? && v[j] == pb[r[j]].value
    decreases k
  {
    if k > 0 {
      PbValuesFollowHolders(pb, k - 1);
      var v0, r0 := PbValues(pb, k - 1), OtherHolders(pb, k - 1);
      if k - 1 != ICLN && pb[k - 1].Some? {
        var v, r := v0 + [pb[k - 1].value], r0 + [k - 1];
        assert PbValues(pb, k) == v;
        assert OtherHolders(pb, k) == r;
        forall j | 0 <= j < |r|
          ensures r[j] < k && pb[r[j]].Some? && v[j] == pb[r[j]].value
        {
          if j < |r0| {
            assert r[j] == r0[j] && v[j] == v0[j];
          }
        }
      } else {
        assert PbValues(pb, k) == v0 && OtherHolders(pb, k) == r0;
      }
    }
  }

  predicate Sorted(s: seq<real>) {
    forall i, j :: 0 <= i < j < |s| ==> s[i] <= s[j]
  }

  /** Inserting into a sorted sequence keeps it sorted and adds exactly `x`. */
  function Insert(x: real, s: seq<real>): (r: seq<real>)
    requires Sorted(s)
    ensures Sorted(r) && multiset(r) == multiset(s) + multiset{x}
    ensures forall i :: 0 <= i < |r| ==> r[i] == x || r[i] in s
    decreases |s|
  {
    if |s| == 0 then [x]
    else if x <= s[0] then [x] + s
    else
      var rest := Insert(x, s[1..]);
      assert s == [s[0]] + s[1..];
      assert forall i :: 0 <= i < |rest| ==> s[0] <= rest[i];
      [s[0]] + rest
  }

  /** `sorted(values)`: an ascending permutation of `values`. */
  function SortedOf(s: seq<real>): (r: seq<real>)
    ensures Sorted(r) && multiset(r) == multiset(s)
    decreases |s|
  {
    if |s| == 0 then []
    else
      assert s == s[..|s| - 1] + [s[|s| - 1]];
      Insert(s[|s| - 1], SortedOf(s[..|s| - 1]))
  }

  /** Line 53: the upper median `sorted(values)[n // 2]`, or 1 without values. */
  function Median(values: seq<real>): (m: real)
    ensures |values| == 0 ==> m == 1.0
    ensures |values| > 0 ==> m in values
  {
    if |values| == 0 then 1.0
    else
      var sorted := SortedOf(values);
      assert |sorted| == |values| by { assert |multiset(sorted)| == |multiset(values)|; }
      assert sorted[|values| / 2] in multiset(values);
      sorted[|values| / 2]
  }

  /** The median is the middle of the sorted values: the values at sorted
      positions before it are at most it and the ones after at least it. */
  lemma MedianSplitsSorted(values: seq<real>)
    requires |values| > 0
    ensures var sorted := SortedOf(values);
      && |sorted| == |values| && sorted[|values| / 2] == Median(values)
      && (forall i :: 0 <= i < |values| / 2 ==> sorted[i] <= Median(values))
      && (forall i :: |values| / 2 < i < |values| ==> Median(values) <= sorted[i])
  {
    var sorted := SortedOf(values);
    assert |sorted| == |values| by { assert |multiset(sorted)| == |multiset(values)|; }
  }

  /** Lines 61-81: the weight tier of ticker `i`, checked in order. */
  function Tier(i: nat, c: seq<Price>, icln: seq<Price>, pb: Option<real>, median: real): (r: real)
    requires i < T && ((i == PLUG || i == ENPH) ==> |c| > 0)
    ensures 1.0 <= r <= 1.5
  {
    if (i == PLUG || i == ENPH) && |c| > 60 && c[|c| - 1] < c[|c| - 61] * 0.8 then 1.5
    else if i != ICLN && |icln| > 21 && icln[|icln| - 1] / icln[|icln| - 22] >= 1.1 then 1.25
    else if i != ICLN && pb.Some? && pb.value < median then 1.25
    else 1.0
  }

  /** ICLN itself is never overweighted: it is not PLUG or ENPH and the
      sector-trend and valuation tiers exclude it. */
  lemma IclnHasBaseTier(c: seq<Price>, icln: seq<Price>, pb: Option<real>, median: real)
    ensures Tier(ICLN, c, icln, pb, median) == 1.0
  {
  }

  /** The mean-reversion tier takes precedence over the other two. */
  lemma MeanReversionTakesPrecedence(i: nat, c: seq<Price>, icln: seq<Price>, pb: Option<real>, median: real)
    requires (i == PLUG || i == ENPH) && |c| > 60 && c[|c| - 1] < c[|c| - 61] * 0.8
    ensures Tier(i, c, icln, pb, median) == 1.5
  {
  }

  /** Only PLUG and ENPH can reach 1.5; the others are at 1.0 or 1.25. */
  lemma OnlyReboundCandidatesReachTopTier(i: nat, c: seq<Price>, icln: seq<Price>, pb: Option<real>, median: real)
    requires i < T && i != PLUG && i != ENPH
    ensures Tier(i, c, icln, pb, median) == 1.0 || Tier(i, c, icln, pb, median) == 1.25
  {
  }

  /** Lines 59-81: tickers below their SMA have no weight, the others their tier. */
  function TierWeights(closes: seq<seq<Price>>, below: seq<bool>, pb: seq<Option<real>>, median: real)
    : (w: seq<Option<real>>)
    requires |closes| == T && |below| == T && |pb| == T
    requires |closes[PLUG]| > 0 && |closes[ENPH]| > 0
    ensures |w| == T
  {
    seq(T, i requires 0 <= i < T =>
      if below[i] then None else Some(Tier(i, closes[i], closes[ICLN], pb[i], median)))
  }

  /** Lines 84-88: RSI above 85 sells TSLA, RSI below 30 buys it. */
  function TslaSignal(rsi: seq<real>): (r: Option<real>)
    ensures r == Some(0.0) <==> |rsi| > 0 && rsi[|rsi| - 1] > 85.0
    ensures r == Some(1.0) <==> |rsi| > 0 && rsi[|rsi| - 1] < 30.0
    ensures r.None? <==> |rsi| == 0 || 30.0 <= rsi[|rsi| - 1] <= 85.0
  {
    if |rsi| > 0 && rsi[|rsi| - 1] > 85.0 then Some(0.0)
    else if |rsi| > 0 && rsi[|rsi| - 1] < 30.0 then Some(1.0)
    else None
  }

  /** A present entry's weight, 0 for an absent one. */
  function Values(w: seq<Option<real>>): (v: seq<real>)
    ensures |v| == |w| && forall i :: 0 <= i < |w| ==> v[i] == (if w[i].Some? then w[i].value else 0.0)
  {
    seq(|w|, i requires 0 <= i < |w| => if w[i].Some? then w[i].value else 0.0)
  }

  /** Lines 90-93: each weighted ticker's tier over the total tier; the other
      entries are the TSLA signal or absent. */
  function Normalised(w: seq<Option<real>>, signal: Option<real>): (a: seq<Option<real>>)
    requires |w| == T
    ensures |a| == T
  {
    var total := Sum(Values(w));
    seq(T, i requires 0 <= i < T =>
      if w[i].Some? then Some(if total > 0.0 then w[i].value / total else 0.0)
      else if i == TSLA then signal
      else None)
  }

  /** The allocation `run` returns. */
  function Allocation(h: History, sma200: seq<seq<real>>, ratios: seq<seq<Option<real>>>, rsi: seq<real>)
    : seq<Option<real>>
    requires CanRun(Closes(h), sma200) && |ratios| == T
  {
    var closes := Closes(h);
    var pb := PriceToBooks(ratios);
    var w := TierWeights(closes, BelowFlags(closes, sma200), pb, Median(PbValues(pb, T)));
    Normalised(w, TslaSignal(rsi))
  }

  /** Tiers are at least 1, so the weighted entries have a positive total. */
  lemma {:induction false} TierTotalPositive(w: seq<Option<real>>, k: nat)
    requires k < |w| && w[k].Some?
    requires forall i :: 0 <= i < |w| && w[i].Some? ==> w[i].value >= 1.0
    ensures Sum(Values(w)) >= 1.0
  {
    var v := Values(w);
    ElementAtMostSum(v, k);
  }

  /** After normalisation the weighted tickers' shares are positive, at most
      1 and sum to 1; the absent ones carry no share in the sum. */
  lemma NormalisedWeightsFormDistribution(w: seq<Option<real>>, signal: Option<real>)
    requires |w| == T && (exists k :: 0 <= k < T && w[k].Some?)
    requires forall i :: 0 <= i < T && w[i].Some? ==> w[i].value >= 1.0
    ensures var a := Normalised(w, signal);
      && (forall i :: 0 <= i < T && w[i].Some? ==> a[i].Some? && 0.0 < a[i].value <= 1.0)
      && Sum(Values(seq(T, i requires 0 <= i < T => if w[i].Some? then a[i] else None))) == 1.0
  {
    var k :| 0 <= k < T && w[k].Some?;
    TierTotalPositive(w, k);
    var v := Values(w);
    var total := Sum(v);
    var a := Normalised(w, signal);
    var shares := Values(seq(T, i requires 0 <= i < T => if w[i].Some? then a[i] else None));
    assert shares == Divided(v, total);
    DividedByTotal(v);
    forall i | 0 <= i < T && w[i].Some? ensures 0.0 < a[i].value {
      PositiveShare(w[i].value, total);
    }
  }

  /** The whole returned allocation sums to 1 plus the TSLA signal when
      TSLA has no tier: a buy signal on top of the normalised tiers makes
      the weights sum to 2. */
  lemma AllocationTotal(w: seq<Option<real>>, signal: Option<real>)
    requires |w| == T && (exists k :: 0 <= k < T && w[k].Some?)
    requires forall i :: 0 <= i < T && w[i].Some? ==> w[i].value >= 1.0
    ensures Sum(Values(Normalised(w, signal)))
         == 1.0 + (if w[TSLA].None? && signal.Some? then signal.value else 0.0)
  {
    NormalisedWeightsFormDistribution(w, signal);
    var a := Normalised(w, signal);
    var masked := seq(T, i requires 0 <= i < T => if w[i].Some? then a[i] else None);
    if w[TSLA].None? && signal.Some? {
      assert Values(a) == Values(masked)[TSLA := signal.value];
      SumUpdate(Values(masked), TSLA, signal.value);
    } else {
      assert Values(a) == Values(masked);
    }
  }

  /** When some ticker is above its trend filter, the returned weights sum
      to 1, plus 1 on a TSLA buy signal that TSLA's own tier does not override. */
  lemma RunTotal(h: History, sma200: seq<seq<real>>, ratios: seq<seq<Option<real>>>, rsi: seq<real>)
    requires CanRun(Closes(h), sma200) && |ratios| == T
    requires exists k :: 0 <= k < T && !Below(Closes(h)[k], sma200[k])
    ensures var below := BelowFlags(Closes(h), sma200);
      Sum(Values(Allocation(h, sma200, ratios, rsi)))
        == 1.0 + (if below[TSLA] && TslaSignal(rsi) == Some(1.0) then 1.0 else 0.0)
  {
    var closes := Closes(h);
    var pb := PriceToBooks(ratios);
    var w := TierWeights(closes, BelowFlags(closes, sma200), pb, Median(PbValues(pb, T)));
    var k :| 0 <= k < T && !Below(closes[k], sma200[k]);
    assert w[k].Some?;
    AllocationTotal(w, TslaSignal(rsi));
  }

  lemma PositiveShare(x: real, t: real)
    requires x > 0.0 && t > 0.0
    ensures x / t > 0.0
  {
  }

  /** A ticker below its 200-day SMA gets no entry, except that TSLA may get
      its RSI signal. */
  lemma BelowGetsNoWeight(h: History, sma200: seq<seq<real>>, ratios: seq<seq<Option<real>>>, rsi: seq<real>, i: nat)
    requires CanRun(Closes(h), sma200) && |ratios| == T && i < T
    requires Below(Closes(h)[i], sma200[i])
    ensures Allocation(h, sma200, ratios, rsi)[i] == if i == TSLA then TslaSignal(rsi) else None
  {
  }

  /** The TSLA signal is overwritten whenever TSLA has a tier of its own. */
  lemma TslaSignalOnlyWhenUnweighted(w: seq<Option<real>>, signal: Option<real>)
    requires |w| == T
    ensures w[TSLA].None? ==> Normalised(w, signal)[TSLA] == signal
    ensures w[TSLA].Some? ==> Normalised(w, signal)[TSLA] == Normalised(w, None)[TSLA]
  {
  }

  /** Lines 34-39: the trend-filter loop. */
  method ComputeBelow(closes: seq<seq<Price>>, sma200: seq<seq<real>>) returns (below: seq<bool>)
    requires CanRun(closes, sma200)
    ensures below == BelowFlags(closes, sma200)
  {
    ghost var target := BelowFlags(closes, sma200);
    below := [];
    var i := 0;
    while i < T
      invariant 0 <= i <= T && below == target[..i]
    {
      var sma := sma200[i];
      var flag := false;
      if |sma| > 0 {
        flag := closes[i][|closes[i]| - 1] < sma[|sma| - 1];
      }
      PrefixStep(target, i);
      below := below + [flag];
      i := i + 1;
    }
    assert target[..T] == target;
  }

  /** Lines 44-49: the loop reading each ticker's last P/B ratio. */
  method ReadPriceToBooks(ratios: seq<seq<Option<real>>>) returns (pb: seq<Option<real>>)
    requires |ratios| == T
    ensures pb == PriceToBooks(ratios)
  {
    pb := seq(T, i => None);
    var i := 0;
    while i < T
      invariant 0 <= i <= T && |pb| == T
      invariant forall j :: 0 <= j < i ==> pb[j] == PriceToBook(ratios[j])
      invariant forall j :: i <= j < T ==> pb[j].None?
    {
      var vals := ratios[i];
      if |vals| > 0 && vals[|vals| - 1].Some? {
        pb := pb[i := vals[|vals| - 1]];
      }
      i := i + 1;
    }
  }

  /** Line 52: the comprehension collecting the P/B values other than ICLN's. */
  method CollectPbValues(pb: seq<Option<real>>) returns (values: seq<real>)
    requires |pb| == T
    ensures values == PbValues(pb, T)
  {
    values := [];
    var i := 0;
    while i < T
      invariant 0 <= i <= T && values == PbValues(pb, i)
    {
      if i != ICLN && pb[i].Some? {
        values := values + [pb[i].value];
      }
      i := i + 1;
    }
  }

  /** Lines 59-81: the tier loop. */
  method ComputeTiers(closes: seq<seq<Price>>, below: seq<bool>, pb: seq<Option<real>>, median: real)
    returns (weights: seq<Option<real>>)
    requires |closes| == T && |below| == T && |pb| == T
    requires |closes[PLUG]| > 0 && |closes[ENPH]| > 0
    ensures weights == TierWeights(closes, below, pb, median)
  {
    ghost var target := TierWeights(closes, below, pb, median);
    weights := [];
    var i := 0;
    while i < T
      invariant 0 <= i <= T && weights == target[..i]
    {
      var entry: Option<real> := None;
      if !below[i] {
        var tier := ScoreTier(i, closes[i], closes[ICLN], pb[i], median);
        entry := Some(tier);
      }
      PrefixStep(target, i);
      weights := weights + [entry];
      i := i + 1;
    }
    assert target[..T] == target;
  }

  /** Lines 61-81: one ticker's tier, with the early `continue`s. */
  method ScoreTier(i: nat, c: seq<Price>, icln: seq<Price>, pb: Option<real>, median: real) returns (weight: real)
    requires i < T && ((i == PLUG || i == ENPH) ==> |c| > 0)
    ensures weight == Tier(i, c, icln, pb, median)
  {
    var baseWeight := 1.0;
    if i == PLUG || i == ENPH {
      var priceNow := c[|c| - 1];
      if |c| > 60 {
        var price60 := c[|c| - 61];
        if priceNow < price60 * 0.8 {
          return baseWeight * 1.5;
        }
      }
    }
    if i != ICLN && |icln| > 21 {
      var growth := icln[|icln| - 1] / icln[|icln| - 22];
      if growth >= 1.1 {
        return baseWeight * 1.25;
      }
    }
    if i != ICLN && pb.Some? && pb.value < median {
      weight := baseWeight * 1.25;
    } else {
      weight := baseWeight;
    }
  }

  /** Lines 84-93: the TSLA signal, then the normalising loop over the weighted tickers. */
  method NormaliseWeights(weights: seq<Option<real>>, rsi: seq<real>) returns (allocation: seq<Option<real>>)
    requires |weights| == T
    ensures allocation == Normalised(weights, TslaSignal(rsi))
  {
    allocation := seq(T, i => None);
    if |rsi| > 0 && rsi[|rsi| - 1] > 85.0 {
      allocation := allocation[TSLA := Some(0.0)];
    } else if |rsi| > 0 && rsi[|rsi| - 1] < 30.0 {
      allocation := allocation[TSLA := Some(1.0)];
    }
    var total := Sum(Values(weights));
    ghost var target := Normalised(weights, TslaSignal(rsi));
    var i := 0;
    while i < T
      invariant 0 <= i <= T && |allocation| == T
      invariant forall j :: 0 <= j < i ==> allocation[j] == target[j]
      invariant forall j :: i <= j < T ==> allocation[j] == (if j == TSLA then TslaSignal(rsi) else None)
    {
      if weights[i].Some? {
        allocation := allocation[i := Some(if total > 0.0 then weights[i].value / total else 0.0)];
      }
      i := i + 1;
    }
  }

  /** `run`: `sma200[i]` is `SMA(Tickers[i], ohlcv, 200)`, `ratios[i]` the
      ratios records of `Tickers[i]` and `rsi` is `RSI("TSLA", ohlcv, 14)`. */
  method Run(h: History, sma200: seq<seq<real>>, ratios: seq<seq<Option<real>>>, rsi: seq<real>)
    returns (allocation: seq<Option<real>>)
    requires CanRun(Closes(h), sma200) && |ratios| == T
    ensures allocation == Allocation(h, sma200, ratios, rsi)
  {
    var closes := Closes(h);
    var below := ComputeBelow(closes, sma200);
    var pb := ReadPriceToBooks(ratios);
    var values := CollectPbValues(pb);
    var median := Median(values);
    var weights := ComputeTiers(closes, below, pb, median);
    allocation := NormaliseWeights(weights, rsi);
  }
}
