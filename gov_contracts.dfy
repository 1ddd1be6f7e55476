/** Government-contract and lobbying allocation with a first-award price
    cache (8511c513-3328-4be1-8c08-f14a422fbf06/main.py).

    A ticker scores 0.5 for a contract award listed in the latest snapshot
    plus half its share of the total lobbying spend. The first time a ticker
    is seen winning a contract its price and date are cached; a ticker 50% or
    more above its cached award price is left out. The remaining scores are
    divided by their total. Allocations are maps from ticker to weight: the
    universe changes from call to call. */
module GovContracts {
  import opened Calendar
  import opened Weights
  import opened Market

  /** One record of the lobbying feed. */
  datatype Lobbying = Lobbying(ticker: string, amount: real)

  /** A cached first award. */
  datatype Award = Award(price: Price, date: CalendarDate)

  /** Lines 35-38: `lobbying_spend`, where a later entry for a ticker
      replaces an earlier one. */
  function LobbyingSpend(entries: seq<Lobbying>): (spend: map<string, real>)
    ensures forall t :: t in spend <==> exists i :: 0 <= i < |entries| && entries[i].ticker == t
    decreases |entries|
  {
    if |entries| == 0 then map[]
    else
      var last := entries[|entries| - 1];
      var spend := LobbyingSpend(entries[..|entries| - 1]);
      assert forall i :: 0 <= i < |entries| - 1 ==> entries[..|entries| - 1][i] == entries[i];
      spend[last.ticker := last.amount]
  }

  /** Line 39: `total_lobbying` adds every entry, repeated tickers included. */
  function TotalLobbying(entries: seq<Lobbying>): real
    decreases |entries|
  {
    if |entries| == 0 then 0.0
    else TotalLobbying(entries[..|entries| - 1]) + entries[|entries| - 1].amount
  }

  /** The latest snapshot, or none for an empty history. */
  function Latest(h: History): Snapshot {
    if |h| > 0 then h[|h| - 1] else map[]
  }

  /** Lines 42-47: the contract tickers listed in the latest snapshot. */
  function Awards(last: Snapshot, contracts: seq<string>): (awards: set<string>)
    ensures forall t :: t in awards <==> t in last && t in contracts
  {
    set t | t in contracts && t in last
  }

  /** Lines 48-52: the cache after the contract loop over `contracts`: a
      listed ticker is recorded at its current close and date unless it is
      already cached. */
  function UpdatedCache(cache: map<string, Award>, last: Snapshot, contracts: seq<string>): (c: map<string, Award>)
    decreases |contracts|
  {
    if |contracts| == 0 then cache
    else
      var c := UpdatedCache(cache, last, contracts[..|contracts| - 1]);
      var t := contracts[|contracts| - 1];
      if t in last && t !in c then c[t := Award(last[t].close, last[t].date)] else c
  }

  /** The cache is only ever extended: a cached award is never overwritten,
      and the new entries are the listed contract tickers, each at its
      current close and date. */
  lemma {:induction false} CacheOnlyGrows(cache: map<string, Award>, last: Snapshot, contracts: seq<string>)
    ensures var c := UpdatedCache(cache, last, contracts);
      && (forall t :: t in cache ==> t in c && c[t] == cache[t])
      && (forall t :: t in c <==> t in cache || (t in last && t in contracts))
      && (forall t :: t in c && t !in cache ==> c[t] == Award(last[t].close, last[t].date))
    decreases |contracts|
  {
    if |contracts| > 0 {
      var init := contracts[..|contracts| - 1];
      CacheOnlyGrows(cache, last, init);
      assert contracts == init + [contracts[|contracts| - 1]];
    }
  }

  /** Lines 59-69: half a point for an award plus half the lobbying share. */
  function Score(t: string, awards: set<string>, spend: map<string, real>, totalLobbying: real): real {
    (if t in awards then 0.5 else 0.0)
    + (if t in spend && totalLobbying > 0.0 then 0.5 * (spend[t] / totalLobbying) else 0.0)
  }

  /** Lines 72-78: the price is at least 50% above the cached award price. */
  predicate TakesProfit(t: string, cache: map<string, Award>, last: Snapshot) {
    t in cache && t in last && (var award: real := cache[t].price; (last[t].close - award) / award >= 0.5)
  }

  /** Lines 57-81: `raw_scores`, the scores of the tickers not taking profit. */
  function RawScores(order: seq<string>, awards: set<string>, spend: map<string, real>, totalLobbying: real,
                     cache: map<string, Award>, last: Snapshot): (raw: map<string, real>)
    ensures forall t :: t in raw <==> t in order && !TakesProfit(t, cache, last)
  {
    map t | t in order && !TakesProfit(t, cache, last) :: Score(t, awards, spend, totalLobbying)
  }

  /** Each ticker's contribution to `total_score`, in loop order: its score,
      or 0 when it takes profit. */
  function ScoreRow(order: seq<string>, awards: set<string>, spend: map<string, real>, totalLobbying: real,
                    cache: map<string, Award>, last: Snapshot): (row: seq<real>)
    ensures |row| == |order|
  {
    seq(|order|, i requires 0 <= i < |order| =>
      if TakesProfit(order[i], cache, last) then 0.0 else Score(order[i], awards, spend, totalLobbying))
  }

  /** Lines 84-86: each raw score over the total, or nothing when the total is not positive. */
  function Normalised(raw: map<string, real>, totalScore: real): (a: map<string, real>)
    ensures totalScore > 0.0 ==> a.Keys == raw.Keys
    ensures totalScore <= 0.0 ==> a == map[]
  {
    if totalScore > 0.0 then map t | t in raw :: raw[t] / totalScore else map[]
  }

  /** `list(set(...))` in some order: every ticker of `keys` exactly once. */
  ghost predicate IsEnumeration(order: seq<string>, keys: set<string>) {
    (forall t :: t in order <==> t in keys) && forall i, j :: 0 <= i < j < |order| ==> order[i] != order[j]
  }

  /** A map's values along `order`, 0 where it has no key. */
  function Along(m: map<string, real>, order: seq<string>): (v: seq<real>)
    ensures |v| == |order| && forall i :: 0 <= i < |order| ==> v[i] == (if order[i] in m then m[order[i]] else 0.0)
  {
    seq(|order|, i requires 0 <= i < |order| => if order[i] in m then m[order[i]] else 0.0)
  }

  /** What `run` computes from its inputs and the cache it starts from. */
  function Allocation(h: History, contracts: seq<string>, lobbying: seq<Lobbying>, order: seq<string>,
                      cache: map<string, Award>): map<string, real>
  {
    var last := Latest(h);
    var spend, total := LobbyingSpend(lobbying), TotalLobbying(lobbying);
    var awards := Awards(last, contracts);
    var cache' := UpdatedCache(cache, last, contracts);
    Normalised(RawScores(order, awards, spend, total, cache', last),
               Sum(ScoreRow(order, awards, spend, total, cache', last)))
  }

  /** A ticker taking profit gets no entry in the allocation. */
  lemma ProfitTakerExcluded(raw: map<string, real>, totalScore: real, order: seq<string>, awards: set<string>,
                            spend: map<string, real>, totalLobbying: real, cache: map<string, Award>,
                            last: Snapshot, t: string)
    requires raw == RawScores(order, awards, spend, totalLobbying, cache, last)
    requires TakesProfit(t, cache, last)
    ensures t !in Normalised(raw, totalScore)
  {
  }

  /** The scores along the loop order total `total_score`. */
  lemma RawAlongOrder(order: seq<string>, awards: set<string>, spend: map<string, real>, totalLobbying: real,
                      cache: map<string, Award>, last: Snapshot)
    ensures Along(RawScores(order, awards, spend, totalLobbying, cache, last), order)
         == ScoreRow(order, awards, spend, totalLobbying, cache, last)
  {
  }

  /** With a positive total score the allocation, read along the loop
      order, sums to 1; each weight is the ticker's score over the total. */
  lemma AllocationSumsToOne(order: seq<string>, awards: set<string>, spend: map<string, real>, totalLobbying: real,
                            cache: map<string, Award>, last: Snapshot)
    requires Sum(ScoreRow(order, awards, spend, totalLobbying, cache, last)) > 0.0
    ensures var raw := RawScores(order, awards, spend, totalLobbying, cache, last);
      var total := Sum(ScoreRow(order, awards, spend, totalLobbying, cache, last));
      && Sum(Along(Normalised(raw, total), order)) == 1.0
      && forall t :: t in raw ==> Normalised(raw, total)[t] == Score(t, awards, spend, totalLobbying) / total
  {
    var raw := RawScores(order, awards, spend, totalLobbying, cache, last);
    var row := ScoreRow(order, awards, spend, totalLobbying, cache, last);
    var total := Sum(row);
    RawAlongOrder(order, awards, spend, totalLobbying, cache, last);
    assert Along(Normalised(raw, total), order) == Divided(row, total);
    SumDivided(row, total);
    SelfShare(total);
  }

  /** A positive-scoring ticker is held exactly when it does not take profit. */
  lemma HeldUnlessTakingProfit(order: seq<string>, awards: set<string>, spend: map<string, real>,
                               totalLobbying: real, cache: map<string, Award>, last: Snapshot, t: string)
    requires Sum(ScoreRow(order, awards, spend, totalLobbying, cache, last)) > 0.0 && t in order
    ensures var a := Normalised(RawScores(order, awards, spend, totalLobbying, cache, last),
                                Sum(ScoreRow(order, awards, spend, totalLobbying, cache, last)));
      t in a <==> !TakesProfit(t, cache, last)
  {
  }

  /** Lobbying amounts that are all non-negative. */
  predicate NonNegativeAmounts(entries: seq<Lobbying>) {
    forall i :: 0 <= i < |entries| ==> entries[i].amount >= 0.0
  }

  lemma {:induction false} SpendNonNegative(entries: seq<Lobbying>)
    requires NonNegativeAmounts(entries)
    ensures forall t :: t in LobbyingSpend(entries) ==> LobbyingSpend(entries)[t] >= 0.0
    decreases |entries|
  {
    if |entries| > 0 {
      SpendNonNegative(entries[..|entries| - 1]);
    }
  }

  /** Replacing one key's value changes the values along a duplicate-free
      order at that key's position only. */
  lemma AlongUpdate(m: map<string, real>, order: seq<string>, t: string, a: real)
    requires forall i, j :: 0 <= i < j < |order| ==> order[i] != order[j]
    ensures t !in order ==> Along(m[t := a], order) == Along(m, order)
    ensures forall j :: 0 <= j < |order| && order[j] == t ==> Along(m[t := a], order) == Along(m, order)[j := a]
  {
  }

  /** With repeated tickers only the last amount counts towards a ticker's
      spend while every amount counts towards the total, so the lobbying
      spends of distinct tickers never exceed the total: the lobbying shares
      sum to at most 1. */
  lemma {:induction false} LobbyingSharesAtMostTotal(entries: seq<Lobbying>, order: seq<string>)
    requires NonNegativeAmounts(entries)
    requires forall i, j :: 0 <= i < j < |order| ==> order[i] != order[j]
    ensures Sum(Along(LobbyingSpend(entries), order)) <= TotalLobbying(entries)
    decreases |entries|
  {
    if |entries| > 0 {
      var init := entries[..|entries| - 1];
      var last := entries[|entries| - 1];
      var spend := LobbyingSpend(init);
      assert NonNegativeAmounts(init) by {
        assert forall i :: 0 <= i < |init| ==> init[i] == entries[i];
      }
      LobbyingSharesAtMostTotal(init, order);
      SpendNonNegative(init);
      assert LobbyingSpend(entries) == spend[last.ticker := last.amount];
      assert TotalLobbying(entries) == TotalLobbying(init) + last.amount;
      assert last.amount >= 0.0;
      var before := Along(spend, order);
      var after := Along(spend[last.ticker := last.amount], order);
      AlongUpdate(spend, order, last.ticker, last.amount);
      if last.ticker in order {
        var j :| 0 <= j < |order| && order[j] == last.ticker;
        assert after == before[j := last.amount];
        SumUpdate(before, j, last.amount);
        assert before[j] >= 0.0;
        assert Sum(after) <= Sum(before) + last.amount;
      } else {
        assert after == before;
      }
    } else {
      SumAllZero(Along(LobbyingSpend(entries), order));
    }
  }

  /** When some lobbying is recorded, the lobbying shares along the order sum to at most 1. */
  lemma LobbyingShareSumAtMostOne(entries: seq<Lobbying>, order: seq<string>)
    requires NonNegativeAmounts(entries) && TotalLobbying(entries) > 0.0
    requires forall i, j :: 0 <= i < j < |order| ==> order[i] != order[j]
    ensures Sum(Divided(Along(LobbyingSpend(entries), order), TotalLobbying(entries))) <= 1.0
  {
    var total := TotalLobbying(entries);
    LobbyingSharesAtMostTotal(entries, order);
    SumDivided(Along(LobbyingSpend(entries), order), total);
    ShareAtMostOne(Sum(Along(LobbyingSpend(entries), order)), total);
  }

  /** Entry `i` is the last one naming ticker `t`. */
  predicate IsLastEntry(entries: seq<Lobbying>, i: int, t: string) {
    0 <= i < |entries| && entries[i].ticker == t && forall j :: i < j < |entries| ==> entries[j].ticker != t
  }

  /** Each ticker's spend is the amount of the last entry naming it. */
  lemma {:induction false} LastEntryWins(entries: seq<Lobbying>)
    ensures forall t :: t in LobbyingSpend(entries) ==>
      exists i :: IsLastEntry(entries, i, t) && LobbyingSpend(entries)[t] == entries[i].amount
    decreases |entries|
  {
    if |entries| > 0 {
      var n := |entries| - 1;
      var init := entries[..n];
      LastEntryWins(init);
      var spend := LobbyingSpend(entries);
      assert spend == LobbyingSpend(init)[entries[n].ticker := entries[n].amount];
      forall t | t in spend
        ensures exists i :: IsLastEntry(entries, i, t) && spend[t] == entries[i].amount
      {
        if t == entries[n].ticker {
          assert IsLastEntry(entries, n, t) && spend[t] == entries[n].amount;
        } else {
          assert t in LobbyingSpend(init);
          var i :| IsLastEntry(init, i, t) && LobbyingSpend(init)[t] == init[i].amount;
          forall j | i < j < |entries|
            ensures entries[j].ticker != t
          {
            if j < n {
              assert entries[j] == init[j];
            }
          }
          assert entries[i] == init[i];
          assert IsLastEntry(entries, i, t) && spend[t] == entries[i].amount;
        }
      }
    }
  }

  /** Two entries for one ticker: the ticker keeps the second amount while
      the total counts both. */
  lemma RepeatedTickerCountsLastAmount()
    ensures var e := [Lobbying("LMT", 100.0), Lobbying("LMT", 300.0)];
      LobbyingSpend(e)["LMT"] == 300.0 && TotalLobbying(e) == 400.0
  {
    var e := [Lobbying("LMT", 100.0), Lobbying("LMT", 300.0)];
    assert e[..1] == [Lobbying("LMT", 100.0)];
    assert e[..1][..0] == [];
  }

  /** Lines 35-39: the lobbying loop. */
  method ParseLobbying(entries: seq<Lobbying>) returns (spend: map<string, real>, total: real)
    ensures spend == LobbyingSpend(entries) && total == TotalLobbying(entries)
  {
    spend := map[];
    total := 0.0;
    var i := 0;
    while i < |entries|
      invariant 0 <= i <= |entries|
      invariant spend == LobbyingSpend(entries[..i]) && total == TotalLobbying(entries[..i])
    {
      assert entries[..i + 1][..i] == entries[..i];
      spend := spend[entries[i].ticker := entries[i].amount];
      total := total + entries[i].amount;
      i := i + 1;
    }
    assert entries[..i] == entries;
  }

  /** Lines 60-69: one ticker's score. */
  method ScoreTicker(ticker: string, awards: set<string>, spend: map<string, real>, totalLobbying: real)
    returns (score: real)
    ensures score == Score(ticker, awards, spend, totalLobbying)
  {
    score := 0.0;
    if ticker in awards {
      score := score + 0.5;
    }
    if ticker in spend && totalLobbying > 0.0 {
      var lobbyingWeight := spend[ticker] / totalLobbying;
      score := score + 0.5 * lobbyingWeight;
    }
  }

  /** Lines 72-78: the profit-taking check. */
  method CheckProfit(ticker: string, cache: map<string, Award>, last: Snapshot) returns (skip: bool)
    ensures skip == TakesProfit(ticker, cache, last)
  {
    skip := false;
    if ticker in cache && ticker in last {
      var awardPrice: real := cache[ticker].price;
      var currentPrice := last[ticker].close;
      var priceChange := (currentPrice - awardPrice) / awardPrice;
      skip := priceChange >= 0.5;
    }
  }

  /** One more ticker of the loop order adds its score unless it takes profit. */
  lemma RawScoresStep(order: seq<string>, i: nat, awards: set<string>, spend: map<string, real>,
                      totalLobbying: real, cache: map<string, Award>, last: Snapshot)
    requires i < |order|
    ensures var before := RawScores(order[..i], awards, spend, totalLobbying, cache, last);
      RawScores(order[..i + 1], awards, spend, totalLobbying, cache, last)
      == if TakesProfit(order[i], cache, last) then before
         else before[order[i] := Score(order[i], awards, spend, totalLobbying)]
  {
    assert order[..i + 1] == order[..i] + [order[i]];
  }

  /** Lines 57-81: the scoring loop. */
  method ComputeScores(order: seq<string>, awards: set<string>, spend: map<string, real>, totalLobbying: real,
                       cache: map<string, Award>, last: Snapshot)
    returns (raw: map<string, real>, totalScore: real)
    ensures raw == RawScores(order, awards, spend, totalLobbying, cache, last)
    ensures totalScore == Sum(ScoreRow(order, awards, spend, totalLobbying, cache, last))
  {
    ghost var row := ScoreRow(order, awards, spend, totalLobbying, cache, last);
    raw := map[];
    totalScore := 0.0;
    var i := 0;
    while i < |order|
      invariant 0 <= i <= |order|
      invariant raw == RawScores(order[..i], awards, spend, totalLobbying, cache, last)
      invariant totalScore == Sum(row[..i])
    {
      var ticker := order[i];
      var score := ScoreTicker(ticker, awards, spend, totalLobbying);
      SumPrefixStep(row, i);
      RawScoresStep(order, i, awards, spend, totalLobbying, cache, last);
      var skip := CheckProfit(ticker, cache, last);
      if !skip {
        raw := raw[ticker := score];
        totalScore := totalScore + score;
      }
      i := i + 1;
    }
    assert order[..i] == order;
    SumWhole(row);
  }

  /** Lines 84-86: the normalising loop over `raw_scores`, visited along the order. */
  method NormaliseScores(raw: map<string, real>, totalScore: real, order: seq<string>)
    returns (allocation: map<string, real>)
    requires forall t :: t in raw ==> t in order
    ensures allocation == Normalised(raw, totalScore)
  {
    allocation := map[];
    if totalScore > 0.0 {
      var i := 0;
      while i < |order|
        invariant 0 <= i <= |order|
        invariant allocation == map t | t in raw && t in order[..i] :: raw[t] / totalScore
      {
        assert order[..i + 1] == order[..i] + [order[i]];
        if order[i] in raw {
          allocation := allocation[order[i] := raw[order[i]] / totalScore];
        }
        i := i + 1;
      }
      assert order[..i] == order;
    }
  }

  /** Lines 42-52: the contract loop, recording first awards in the cache. */
  method RecordAwards(cache: map<string, Award>, last: Snapshot, contracts: seq<string>)
    returns (contractCache: map<string, Award>, awards: set<string>)
    ensures contractCache == UpdatedCache(cache, last, contracts)
    ensures awards == Awards(last, contracts)
  {
    contractCache := cache;
    awards := {};
    var k := 0;
    while k < |contracts|
      invariant 0 <= k <= |contracts|
      invariant contractCache == UpdatedCache(cache, last, contracts[..k])
      invariant awards == Awards(last, contracts[..k])
    {
      assert contracts[..k + 1][..k] == contracts[..k];
      assert contracts[..k + 1] == contracts[..k] + [contracts[k]];
      var ticker := contracts[k];
      if ticker in last {
        var price := last[ticker].close;
        awards := awards + {ticker};
        if ticker !in contractCache {
          contractCache := contractCache[ticker := Award(price, last[ticker].date)];
        }
      }
      k := k + 1;
    }
    assert contracts[..k] == contracts;
  }

  class TradingStrategy {
    var contractCache: map<string, Award>
    var tickers: seq<string>

    constructor ()
      ensures contractCache == map[] && tickers == []
    {
      contractCache := map[];
      tickers := [];
    }

    /** `run`: `contracts` are the tickers of the contract feed, `lobbying`
        the lobbying feed, and `order` the iteration order of the ticker set
        built at line 54. Line 44 and line 72 read the latest snapshot, so an
        empty history can only come with no contracts and no cached lobbying
        ticker. */
    method Run(h: History, contracts: seq<string>, lobbying: seq<Lobbying>, order: seq<string>)
      returns (allocation: map<string, real>)
      requires |h| == 0 ==> |contracts| == 0 && forall t :: t in LobbyingSpend(lobbying) ==> t !in contractCache
      requires IsEnumeration(order, LobbyingSpend(lobbying).Keys + Awards(Latest(h), contracts))
      modifies this
      ensures contractCache == UpdatedCache(old(contractCache), Latest(h), contracts)
      ensures tickers == order
      ensures allocation == Allocation(h, contracts, lobbying, order, old(contractCache))
    {
      var spend, totalLobbying := ParseLobbying(lobbying);
      var last := Latest(h);
      var awards;
      contractCache, awards := RecordAwards(contractCache, last, contracts);
      tickers := order;
      var raw, totalScore := ComputeScores(order, awards, spend, totalLobbying, contractCache, last);
      allocation := NormaliseScores(raw, totalScore, order);
    }
  }
}
