/** Weight vectors as sequences of reals, their totals and the normalisation
    schemes the strategies use: divide by the total, clip to [0,1], take the
    positive part, subtract the excess evenly. */
module Weights {

  function Max(a: real, b: real): real { if a >= b then a else b }
  function Min(a: real, b: real): real { if a <= b then a else b }

  /** The sum of a sequence, accumulated left to right as `sum()` does. */
  function Sum(s: seq<real>): real
    decreases |s|
  {
    if |s| == 0 then 0.0 else Sum(s[..|s| - 1]) + s[|s| - 1]
  }

  predicate NonNegative(s: seq<real>) {
    forall i :: 0 <= i < |s| ==> 0.0 <= s[i]
  }

  predicate AllPositive(s: seq<real>) {
    forall i :: 0 <= i < |s| ==> 0.0 < s[i]
  }

  /** Every weight in [0,1] and the weights summing to exactly 1. */
  predicate IsDistribution(s: seq<real>) {
    NonNegative(s) && (forall i :: 0 <= i < |s| ==> s[i] <= 1.0) && Sum(s) == 1.0
  }

  predicate AllZero(s: seq<real>) {
    forall i :: 0 <= i < |s| ==> s[i] == 0.0
  }

  /** `n` copies of `v`: the dict comprehension `{t: v for t in tickers}`. */
  function Uniform(n: nat, v: real): (r: seq<real>)
    ensures |r| == n && forall i :: 0 <= i < n ==> r[i] == v
  {
    seq(n, i => v)
  }

  function Divided(s: seq<real>, t: real): (r: seq<real>)
    requires t != 0.0
    ensures |r| == |s| && forall i :: 0 <= i < |s| ==> r[i] == s[i] / t
  {
    seq(|s|, i requires 0 <= i < |s| => s[i] / t)
  }

  /** The positive part `max(x, 0)` of every weight. */
  function PositivePart(s: seq<real>): (r: seq<real>)
    ensures |r| == |s| && forall i :: 0 <= i < |s| ==> r[i] == Max(s[i], 0.0)
  {
    seq(|s|, i requires 0 <= i < |s| => Max(s[i], 0.0))
  }

  /** Every weight less the same amount `e`. */
  function LessEach(s: seq<real>, e: real): (r: seq<real>)
    ensures |r| == |s| && forall i :: 0 <= i < |s| ==> r[i] == s[i] - e
  {
    seq(|s|, i requires 0 <= i < |s| => s[i] - e)
  }

  /** `min(max(x, 0), 1)`. */
  function Clip01(x: real): (r: real)
    ensures 0.0 <= r <= 1.0
    ensures 0.0 <= x <= 1.0 ==> r == x
  {
    Min(Max(x, 0.0), 1.0)
  }

  /** Extending a prefix by the next element gives the next prefix. */
  lemma PrefixStep<T>(s: seq<T>, i: nat)
    requires i < |s|
    ensures s[..i + 1] == s[..i] + [s[i]]
  {
  }

  lemma SumPrefixStep(s: seq<real>, i: nat)
    requires i < |s|
    ensures Sum(s[..i + 1]) == Sum(s[..i]) + s[i]
  {
    assert s[..i + 1][..i] == s[..i];
  }

  lemma SumWhole(s: seq<real>)
    ensures Sum(s[..|s|]) == Sum(s)
  {
    assert s[..|s|] == s;
  }

  lemma {:induction false} SumAppend(a: seq<real>, b: seq<real>)
    ensures Sum(a + b) == Sum(a) + Sum(b)
  {
    if |b| == 0 {
      assert a + b == a;
    } else {
      assert (a + b)[..|a + b| - 1] == a + b[..|b| - 1];
      SumAppend(a, b[..|b| - 1]);
    }
  }

  /** Replacing one weight changes the total by the difference. */
  lemma SumUpdate(s: seq<real>, k: nat, v: real)
    requires k < |s|
    ensures Sum(s[k := v]) == Sum(s) - s[k] + v
  {
    assert s == s[..k] + [s[k]] + s[k + 1..];
    assert s[k := v] == s[..k] + [v] + s[k + 1..];
    SumAppend(s[..k] + [s[k]], s[k + 1..]);
    SumAppend(s[..k], [s[k]]);
    SumAppend(s[..k] + [v], s[k + 1..]);
    SumAppend(s[..k], [v]);
    assert Sum([s[k]]) == s[k] by { assert [s[k]][..0] == []; }
    assert Sum([v]) == v by { assert [v][..0] == []; }
  }

  lemma {:induction false} SumNonNegative(s: seq<real>)
    requires NonNegative(s)
    ensures Sum(s) >= 0.0
  {
    if |s| > 0 {
      SumNonNegative(s[..|s| - 1]);
    }
  }

  lemma {:induction false} SumPositive(s: seq<real>)
    requires AllPositive(s) && |s| > 0
    ensures Sum(s) > 0.0
  {
    if |s| > 1 {
      SumPositive(s[..|s| - 1]);
    }
  }

  /** A non-negative weight never exceeds the total. */
  lemma ElementAtMostSum(s: seq<real>, k: nat)
    requires NonNegative(s) && k < |s|
    ensures s[k] <= Sum(s)
  {
    SumUpdate(s, k, 0.0);
    SumNonNegative(s[k := 0.0]);
  }

  /** Lowering weights one by one never raises the total. */
  lemma {:induction false} SumMonotone(a: seq<real>, b: seq<real>)
    requires |a| == |b| && forall i :: 0 <= i < |a| ==> a[i] <= b[i]
    ensures Sum(a) <= Sum(b)
  {
    if |a| > 0 {
      SumMonotone(a[..|a| - 1], b[..|b| - 1]);
    }
  }

  lemma {:induction false} SumAllZero(s: seq<real>)
    requires AllZero(s)
    ensures Sum(s) == 0.0
  {
    if |s| > 0 {
      SumAllZero(s[..|s| - 1]);
    }
  }

  /** When all weights are non-negative, the total is zero only if each weight is. */
  lemma ZeroSumMeansAllZero(s: seq<real>)
    requires NonNegative(s) && Sum(s) == 0.0
    ensures AllZero(s)
  {
    forall k | 0 <= k < |s| ensures s[k] == 0.0 {
      ElementAtMostSum(s, k);
    }
  }

  lemma {:induction false} SumDivided(s: seq<real>, t: real)
    requires t != 0.0
    ensures Sum(Divided(s, t)) == Sum(s) / t
  {
    if |s| > 0 {
      var n := |s| - 1;
      assert Divided(s, t)[..n] == Divided(s[..n], t);
      SumDivided(s[..n], t);
      assert Sum(s[..n]) / t + s[n] / t == (Sum(s[..n]) + s[n]) / t;
    }
  }

  lemma {:induction false} SumUniform(n: nat, v: real)
    ensures Sum(Uniform(n, v)) == n as real * v
  {
    if n > 0 {
      assert Uniform(n, v)[..n - 1] == Uniform(n - 1, v);
      SumUniform(n - 1, v);
    }
  }

  lemma {:induction false} SumLessEach(s: seq<real>, e: real)
    ensures Sum(LessEach(s, e)) == Sum(s) - |s| as real * e
  {
    if |s| > 0 {
      var n := |s| - 1;
      assert LessEach(s, e)[..n] == LessEach(s[..n], e);
      SumLessEach(s[..n], e);
    }
  }

  /** Dividing non-negative weights by their positive total gives a
      distribution: each share in [0,1], the shares summing to 1. */
  lemma DividedByTotal(s: seq<real>)
    requires NonNegative(s) && Sum(s) > 0.0
    ensures IsDistribution(Divided(s, Sum(s)))
  {
    var t := Sum(s);
    SumDivided(s, t);
    assert t / t == 1.0 by { SelfShare(t); }
    forall k | 0 <= k < |s| ensures 0.0 <= Divided(s, t)[k] <= 1.0 {
      ElementAtMostSum(s, k);
      ShareAtMostOne(s[k], t);
    }
  }

  lemma SelfShare(t: real)
    requires t != 0.0
    ensures t / t == 1.0
  {
  }

  /** A share of a positive total is at most 1, and non-negative when the
      part is. */
  lemma ShareAtMostOne(a: real, t: real)
    requires a <= t && t > 0.0
    ensures a / t <= 1.0 && (0.0 <= a ==> 0.0 <= a / t)
  {
  }

  /** Dividing by a positive number keeps the sign. */
  lemma QuotientSign(x: real, t: real)
    requires t > 0.0
    ensures x / t > 0.0 <==> x > 0.0
    ensures x / t >= 0.0 <==> x >= 0.0
    ensures x / t < 0.0 <==> x < 0.0
  {
  }

  /** Dividing by a positive number keeps the order. */
  lemma QuotientMonotone(x: real, y: real, t: real)
    requires x < y && t > 0.0
    ensures x / t < y / t
  {
  }
}
