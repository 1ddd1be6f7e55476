/** The price history the host passes to every `run` call: an oldest-first
    sequence of snapshots, each mapping a ticker to that day's bar, plus the
    close-series helpers and signal formulas the strategies share. */
module Market {
  import opened Calendar
  import opened Weights

  datatype Option<T> = None | Some(value: T)

  /** Closes and highs delivered by the feed are strictly positive. */
  type Price = x: real | x > 0.0 witness 1.0

  /** The fields of an OHLCV bar the strategies read (open, low and volume
      are only read by the indicator library). */
  datatype Bar = Bar(date: CalendarDate, high: Price, close: Price)

  type Snapshot = map<string, Bar>
  type History = seq<Snapshot>

  /** `entry[t]` does not raise for any snapshot. */
  predicate ListedThroughout(h: History, t: string) {
    forall i :: 0 <= i < |h| ==> t in h[i]
  }

  /** `entry[t]` does not raise for the last `k` snapshots. */
  predicate ListedInLast(h: History, t: string, k: nat) {
    k <= |h| && forall i :: |h| - k <= i < |h| ==> t in h[i]
  }

  /** `[entry[t]["close"] for entry in ohlcv]`. */
  function ClosesOf(h: History, t: string): (c: seq<Price>)
    requires ListedThroughout(h, t)
    ensures |c| == |h| && forall i :: 0 <= i < |h| ==> c[i] == h[i][t].close
  {
    seq(|h|, i requires 0 <= i < |h| => h[i][t].close)
  }

  /** `[ohlcv[i][t]["close"] for i in range(-k, 0)]`. */
  function LastCloses(h: History, t: string, k: nat): (c: seq<Price>)
    requires ListedInLast(h, t, k)
    ensures |c| == k && forall j :: 0 <= j < k ==> c[j] == h[|h| - k + j][t].close
  {
    ClosesOf(h[|h| - k..], t)
  }

  /** `[entry[t]["close"] for entry in ohlcv if t in entry]`. */
  function ClosesWhereListed(h: History, t: string): (c: seq<Price>)
    ensures |c| <= |h|
    ensures ListedThroughout(h, t) ==> c == ClosesOf(h, t)
    decreases |h|
  {
    if |h| == 0 then []
    else
      var init := h[..|h| - 1];
      assert ListedThroughout(h, t) ==> ListedThroughout(init, t);
      assert ListedThroughout(h, t) ==> ClosesOf(h, t)[..|h| - 1] == ClosesOf(init, t);
      ClosesWhereListed(init, t) + (if t in h[|h| - 1] then [h[|h| - 1][t].close] else [])
  }

  /** The positions of the snapshots that list `t`, oldest first. */
  function ListingIndices(h: History, t: string): (r: seq<nat>)
    ensures |r| <= |h|
    decreases |h|
  {
    if |h| == 0 then []
    else
      var r := ListingIndices(h[..|h| - 1], t);
      if t in h[|h| - 1] then r + [|h| - 1] else r
  }

  /** `ListingIndices` holds every snapshot that lists `t`, each once, in
      increasing order, and nothing else. */
  lemma {:induction false} ListingIndicesAreTheListings(h: History, t: string)
    ensures var r := ListingIndices(h, t);
      (forall j, l :: 0 <= j < l < |r| ==> r[j] < r[l]) &&
      (forall j :: 0 <= j < |r| ==> r[j] < |h| && t in h[r[j]]) &&
      (forall i :: 0 <= i < |h| && t in h[i] ==> i in r)
    decreases |h|
  {
    if |h| > 0 {
      var init := h[..|h| - 1];
      ListingIndicesAreTheListings(init, t);
      assert forall i :: 0 <= i < |init| ==> init[i] == h[i];
    }
  }

  /** The j-th close is the close of the j-th snapshot that lists `t`: one
      close per listing snapshot, in history order. */
  lemma {:induction false} ClosesFollowListings(h: History, t: string)
    ensures var c, r := ClosesWhereListed(h, t), ListingIndices(h, t);
      |c| == |r| && forall j :: 0 <= j < |r| ==> r[j] < |h| && t in h[r[j]] && c[j] == h[r[j]][t].close
    decreases |h|
  {
    if |h| > 0 {
      var init := h[..|h| - 1];
      ClosesFollowListings(init, t);
      var c0, r0 := ClosesWhereListed(init, t), ListingIndices(init, t);
      var c, r := ClosesWhereListed(h, t), ListingIndices(h, t);
      forall j | 0 <= j < |r0|
        ensures r0[j] < |h| && t in h[r0[j]] && c0[j] == h[r0[j]][t].close
      {
        assert init[r0[j]] == h[r0[j]];
      }
      if t in h[|h| - 1] {
        assert c == c0 + [h[|h| - 1][t].close] && r == r0 + [|h| - 1];
        forall j | 0 <= j < |r|
          ensures r[j] < |h| && t in h[r[j]] && c[j] == h[r[j]][t].close
        {
          if j < |r0| {
            assert r[j] == r0[j] && c[j] == c0[j];
          }
        }
      } else {
        assert c == c0 && r == r0;
      }
    }
  }

  /** Python's `s[-k:]`: the last `k` elements, or all of them when there are fewer. */
  function LastN<T>(s: seq<T>, k: nat): (r: seq<T>)
    ensures |r| == if k <= |s| then k else |s|
    ensures forall i :: 0 <= i < |r| ==> r[i] == s[|s| - |r| + i]
  {
    if k <= |s| then s[|s| - k..] else s
  }

  /** `ind[-1] if ind else default`: the latest indicator value, or the
      default when the indicator is undefined (empty). */
  function LatestOr(ind: seq<real>, default: real): (r: real)
    ensures |ind| == 0 ==> r == default
    ensures |ind| > 0 ==> r == ind[|ind| - 1]
  {
    if |ind| > 0 then ind[|ind| - 1] else default
  }

  /** `max(s)`. */
  function MaxOf(s: seq<real>): (m: real)
    requires |s| > 0
    ensures forall i :: 0 <= i < |s| ==> s[i] <= m
    ensures exists i :: 0 <= i < |s| && s[i] == m
    decreases |s|
  {
    if |s| == 1 then s[0]
    else
      var m' := MaxOf(s[..|s| - 1]);
      assert forall i :: 0 <= i < |s| - 1 ==> s[..|s| - 1][i] == s[i];
      Max(m', s[|s| - 1])
  }

  /** The maximum of positive prices is a positive price. */
  lemma MaxOfPrices(s: seq<Price>)
    requires |s| > 0
    ensures MaxOf(s) > 0.0
  {
    var i :| 0 <= i < |s| && s[i] == MaxOf(s);
  }

  /** `1 / max(v, 0.01)`: the inverse of a volatility floored at 0.01. */
  function InverseVolatility(v: real): (r: real)
    ensures r > 0.0
  {
    1.0 / Max(v, 0.01)
  }

  /** The k-bar return `c[-1] / c[-k] - 1`, or 0 when fewer than k closes exist. */
  function HorizonReturn(c: seq<Price>, k: nat): (r: real)
    requires k > 0
    ensures |c| < k ==> r == 0.0
    ensures |c| >= k ==> (r > 0.0 <==> c[|c| - 1] > c[|c| - k])
  {
    if |c| >= k then
      var now: real, past: real := c[|c| - 1], c[|c| - k];
      RatioAboveOne(now, past);
      now / past - 1.0
    else 0.0
  }

  /** The k-bar return is the relative change: applying it to the close
      k bars back gives the last close. */
  lemma HorizonReturnRecoversClose(c: seq<Price>, k: nat)
    requires 0 < k <= |c|
    ensures (HorizonReturn(c, k) + 1.0) * c[|c| - k] == c[|c| - 1]
  {
    RatioAboveOne(c[|c| - 1], c[|c| - k]);
  }

  /** Relative drop `(peak - current) / peak` of the last close below the
      highest close `peak`. */
  function DropFromPeak(c: seq<Price>): (d: real)
    requires |c| > 0
    ensures 0.0 <= d < 1.0
    ensures d == 0.0 <==> c[|c| - 1] == MaxOf(c)
  {
    var peak, now: real := MaxOf(c), c[|c| - 1];
    MaxOfPrices(c);
    DropBounds(peak, now);
    (peak - now) / peak
  }

  lemma RatioAboveOne(now: real, past: real)
    requires past > 0.0
    ensures now / past - 1.0 > 0.0 <==> now > past
    ensures (now / past - 1.0 + 1.0) * past == now
  {
  }

  lemma DropBounds(peak: real, now: real)
    requires 0.0 < now <= peak
    ensures 0.0 <= (peak - now) / peak < 1.0
    ensures (peak - now) / peak == 0.0 <==> now == peak
  {
    assert 1.0 == peak / peak;
    assert (peak - now) / peak < peak / peak;
  }
}
