/** Summary statistics over a list of measurements: basic statistics, outliers beyond a number
    of standard deviations, a trailing moving average, and the rate of change between consecutive
    measurements. Values are exact reals. */
module Statistics {
  import opened Wrappers
  import Settings

  // ---------------------------------------------------------------------------------------
  // Sums, extremes and means

  function Sum(s: seq<real>): real
    decreases |s|
  {
    if |s| == 0 then 0.0 else Sum(s[..|s| - 1]) + s[|s| - 1]
  }

  function Mean(s: seq<real>): real
    requires |s| > 0
  {
    Sum(s) / (|s| as real)
  }

  function Minimum(s: seq<real>): (m: real)
    requires |s| > 0
    ensures m in s && forall x :: x in s ==> m <= x
    decreases |s|
  {
    if |s| == 1 then s[0]
    else
      var rest := Minimum(s[1..]);
      assert forall x :: x in s ==> x == s[0] || x in s[1..];
      if s[0] <= rest then s[0] else rest
  }

  function Maximum(s: seq<real>): (m: real)
    requires |s| > 0
    ensures m in s && forall x :: x in s ==> x <= m
    decreases |s|
  {
    if |s| == 1 then s[0]
    else
      var rest := Maximum(s[1..]);
      assert forall x :: x in s ==> x == s[0] || x in s[1..];
      if rest <= s[0] then s[0] else rest
  }

  /** `k` copies of `b` added up. */
  function Times(k: nat, b: real): real {
    if k == 0 then 0.0 else Times(k - 1, b) + b
  }

  lemma {:induction false} TimesIsProduct(k: nat, b: real)
    ensures Times(k, b) == (k as real) * b
  {
    if k > 0 {
      TimesIsProduct(k - 1, b);
      assert ((k - 1) as real) * b + b == (k as real) * b;
    }
  }

  /** A sum lies between the count times the least and the count times the greatest value. */
  lemma {:induction false} SumBounds(s: seq<real>, lo: real, hi: real)
    requires forall x :: x in s ==> lo <= x <= hi
    ensures Times(|s|, lo) <= Sum(s) <= Times(|s|, hi)
    decreases |s|
  {
    if |s| > 0 {
      var front := s[..|s| - 1];
      assert forall x :: x in front ==> x in s;
      SumBounds(front, lo, hi);
      assert s[|s| - 1] in s;
    }
  }

  /** A mean lies between any bounds of the values. */
  lemma MeanBounds(s: seq<real>, lo: real, hi: real)
    requires |s| > 0 && forall x :: x in s ==> lo <= x <= hi
    ensures lo <= Mean(s) <= hi
  {
    SumBounds(s, lo, hi);
    TimesIsProduct(|s|, lo);
    TimesIsProduct(|s|, hi);
    DivideBetween(Sum(s), |s| as real, lo, hi);
  }

  /** A mean lies between the least and the greatest value. */
  lemma MeanBetween(s: seq<real>)
    requires |s| > 0
    ensures Minimum(s) <= Mean(s) <= Maximum(s)
  {
    MeanBounds(s, Minimum(s), Maximum(s));
  }

  lemma DivideBetween(a: real, n: real, lo: real, hi: real)
    requires n > 0.0 && n * lo <= a <= n * hi
    ensures lo <= a / n <= hi
  {
    var q := a / n;
    assert (q - lo) * n == a - n * lo;
    assert (hi - q) * n == n * hi - a;
    NonNegativeFactor(q - lo, n);
    NonNegativeFactor(hi - q, n);
  }

  lemma SquareNonNegative(x: real)
    ensures x * x >= 0.0
  {
  }

  lemma NonNegativeFactor(x: real, n: real)
    requires n > 0.0 && x * n >= 0.0
    ensures x >= 0.0
  {
  }

  // ---------------------------------------------------------------------------------------
  // Basic statistics

  /** The count, least, greatest and mean value; all but the count absent for no input. */
  datatype Stats = Stats(count: nat, min: Option<real>, max: Option<real>, mean: Option<real>)

  function BasicStats(s: seq<real>): (r: Stats)
    ensures r.count == |s|
    ensures |s| == 0 <==> r.min.None? && r.max.None? && r.mean.None?
  {
    if |s| == 0 then Stats(0, None, None, None)
    else Stats(|s|, Some(Minimum(s)), Some(Maximum(s)), Some(Mean(s)))
  }

  /** For any input the statistics are ordered: least, then mean, then greatest. */
  lemma BasicStatsOrdered(s: seq<real>)
    requires |s| > 0
    ensures var r := BasicStats(s);
      r.min.Some? && r.max.Some? && r.mean.Some? && r.min.value <= r.mean.value <= r.max.value
      && r.min.value in s && r.max.value in s
  {
    MeanBetween(s);
  }

  // ---------------------------------------------------------------------------------------
  // Outliers

  function Abs(x: real): real { if x < 0.0 then -x else x }

  function Square(x: real): real { x * x }

  /** A value further from the centre than `t >= 0` has a square above `t`'s, and above zero. */
  lemma SquareBeyond(d: real, t: real)
    requires t >= 0.0 && Abs(d) > t
    ensures Square(d) >= Square(t) && Square(d) > 0.0
  {
    var a := Abs(d);
    assert Square(d) == a * a;
    assert a * a >= a * t >= t * t;
  }

  /** The sum of squared deviations from `mu`. */
  function SquaredDeviation(s: seq<real>, mu: real): real
    decreases |s|
  {
    if |s| == 0 then 0.0
    else SquaredDeviation(s[..|s| - 1], mu) + Square(s[|s| - 1] - mu)
  }

  /** The population variance, whose square root is the standard deviation the library returns. */
  function Variance(s: seq<real>): real
    requires |s| > 0
  {
    SquaredDeviation(s, Mean(s)) / (|s| as real)
  }

  /** The values more than `t` away from `mu`, in order. */
  function Far(s: seq<real>, mu: real, t: real): seq<real>
    decreases |s|
  {
    if |s| == 0 then []
    else Far(s[..|s| - 1], mu, t) + (if Abs(s[|s| - 1] - mu) > t then [s[|s| - 1]] else [])
  }

  /** The values at most `t` away from `mu`, in order. */
  function Near(s: seq<real>, mu: real, t: real): seq<real>
    decreases |s|
  {
    if |s| == 0 then []
    else Near(s[..|s| - 1], mu, t) + (if Abs(s[|s| - 1] - mu) > t then [] else [s[|s| - 1]])
  }

  /** `detect_outliers`: fewer than three values are returned unchanged with no outliers;
      otherwise the values further than `outlier_threshold` standard deviations from the mean are
      outliers and the rest are kept. `stdDev` is the library's population standard deviation. */
  function DetectOutliers(s: seq<real>, stdDev: real): (r: (seq<real>, seq<real>))
    requires |s| >= 3 ==> stdDev >= 0.0 && stdDev * stdDev == Variance(s)
  {
    if |s| < 3 then ([], s)
    else
      var t := Settings.OutlierThreshold * stdDev;
      (Far(s, Mean(s), t), Near(s, Mean(s), t))
  }

  /** The outliers and the kept values split the input between them. */
  lemma {:induction false} FarNearPartition(s: seq<real>, mu: real, t: real)
    ensures multiset(Far(s, mu, t)) + multiset(Near(s, mu, t)) == multiset(s)
    decreases |s|
  {
    if |s| > 0 {
      var front, x := s[..|s| - 1], s[|s| - 1];
      var f, n := Far(front, mu, t), Near(front, mu, t);
      FarNearPartition(front, mu, t);
      PartitionStep(f, n, s);
      if Abs(x - mu) > t {
        FarStep(s, mu, t);
      } else {
        NearStep(s, mu, t);
      }
    }
  }

  /** Adding the last value of `s` to either part of a split of the rest splits all of `s`. */
  lemma PartitionStep(f: seq<real>, n: seq<real>, s: seq<real>)
    requires |s| > 0 && multiset(f) + multiset(n) == multiset(s[..|s| - 1])
    ensures multiset(f + [s[|s| - 1]]) + multiset(n) == multiset(s)
    ensures multiset(f) + multiset(n + [s[|s| - 1]]) == multiset(s)
  {
    assert s == s[..|s| - 1] + [s[|s| - 1]];
  }

  /** A value beyond the threshold joins the outliers. */
  lemma FarStep(s: seq<real>, mu: real, t: real)
    requires |s| > 0 && Abs(s[|s| - 1] - mu) > t
    ensures Far(s, mu, t) == Far(s[..|s| - 1], mu, t) + [s[|s| - 1]]
    ensures Near(s, mu, t) == Near(s[..|s| - 1], mu, t)
  {
  }

  /** A value within the threshold joins the kept values. */
  lemma NearStep(s: seq<real>, mu: real, t: real)
    requires |s| > 0 && !(Abs(s[|s| - 1] - mu) > t)
    ensures Near(s, mu, t) == Near(s[..|s| - 1], mu, t) + [s[|s| - 1]]
    ensures Far(s, mu, t) == Far(s[..|s| - 1], mu, t)
  {
  }

  /** Each outlier lies beyond the threshold and each kept value within it. */
  lemma {:induction false} FarNearSides(s: seq<real>, mu: real, t: real)
    ensures forall x :: x in Far(s, mu, t) ==> Abs(x - mu) > t
    ensures forall x :: x in Near(s, mu, t) ==> Abs(x - mu) <= t
    decreases |s|
  {
    if |s| > 0 {
      FarNearSides(s[..|s| - 1], mu, t);
    }
  }

  lemma AppendOne(s: seq<real>, x: real, mu: real)
    ensures SquaredDeviation(s + [x], mu) == SquaredDeviation(s, mu) + Square(x - mu)
  {
    assert (s + [x])[..|s|] == s;
  }

  /** The squared deviation of the whole is that of the outliers plus that of the kept values. */
  lemma {:induction false} FarNearDeviation(s: seq<real>, mu: real, t: real)
    ensures SquaredDeviation(Far(s, mu, t), mu) + SquaredDeviation(Near(s, mu, t), mu) == SquaredDeviation(s, mu)
    decreases |s|
  {
    if |s| > 0 {
      var front := s[..|s| - 1];
      var x := s[|s| - 1];
      FarNearDeviation(front, mu, t);
      var f, n := Far(front, mu, t), Near(front, mu, t);
      var df, dn := SquaredDeviation(f, mu), SquaredDeviation(n, mu);
      var q := Square(x - mu);
      assert SquaredDeviation(s, mu) == SquaredDeviation(front, mu) + q;
      if Abs(x - mu) > t {
        FarStep(s, mu, t);
        AppendOne(f, x, mu);
      } else {
        NearStep(s, mu, t);
        AppendOne(n, x, mu);
      }
    }
  }

  lemma {:induction false} SquaredDeviationNonNegative(s: seq<real>, mu: real)
    ensures SquaredDeviation(s, mu) >= 0.0
    decreases |s|
  {
    if |s| > 0 {
      SquaredDeviationNonNegative(s[..|s| - 1], mu);
      var d := s[|s| - 1] - mu;
      assert Square(d) == d * d >= 0.0;
    }
  }

  /** Each value further than `t` from `mu` adds at least `t * t`, and more than zero, to the
      squared deviation. */
  lemma {:induction false} FarDeviation(s: seq<real>, mu: real, t: real)
    requires t >= 0.0
    ensures SquaredDeviation(Far(s, mu, t), mu) >= Times(|Far(s, mu, t)|, Square(t))
    ensures |Far(s, mu, t)| > 0 ==> SquaredDeviation(Far(s, mu, t), mu) > 0.0
    decreases |s|
  {
    if |s| > 0 {
      var front := s[..|s| - 1];
      var x := s[|s| - 1];
      var f := Far(front, mu, t);
      FarDeviation(front, mu, t);
      SquaredDeviationNonNegative(f, mu);
      if Abs(x - mu) > t {
        FarStep(s, mu, t);
        FarDeviationStep(f, x, mu, t);
      } else {
        NearStep(s, mu, t);
      }
    }
  }

  /** One more outlier keeps the bound of `FarDeviation`. */
  lemma FarDeviationStep(f: seq<real>, x: real, mu: real, t: real)
    requires t >= 0.0 && Abs(x - mu) > t
    requires SquaredDeviation(f, mu) >= Times(|f|, Square(t)) && SquaredDeviation(f, mu) >= 0.0
    ensures SquaredDeviation(f + [x], mu) >= Times(|f + [x]|, Square(t))
    ensures SquaredDeviation(f + [x], mu) > 0.0
  {
    var bound := Square(t);
    AppendOne(f, x, mu);
    SquareBeyond(x - mu, t);
    assert Times(|f| + 1, bound) == Times(|f|, bound) + bound;
  }

  lemma ScaledVariance(s: seq<real>)
    requires |s| > 0
    ensures SquaredDeviation(s, Mean(s)) == (|s| as real) * Variance(s)
  {
  }

  lemma ThresholdSquare(stdDev: real)
    ensures Square(Settings.OutlierThreshold * stdDev) == 4.0 * (stdDev * stdDev)
  {
  }

  /** The counting step of Chebyshev's inequality, on the sums alone. */
  lemma QuarterCount(k: real, n: real, v: real, farDev: real, nearDev: real, bound: real)
    requires v > 0.0 && bound == 4.0 * v
    requires farDev >= k * bound && nearDev >= 0.0 && farDev + nearDev == n * v
    ensures 4.0 * k <= n
  {
    assert k * bound == (4.0 * k) * v;
    assert (n - 4.0 * k) * v == n * v - k * bound;
    NonNegativeFactor(n - 4.0 * k, v);
  }

  /** The sums Chebyshev's inequality is built from, for the outliers `detect_outliers` returns. */
  lemma OutlierSums(s: seq<real>, stdDev: real)
    requires |s| >= 3 && stdDev >= 0.0 && stdDev * stdDev == Variance(s)
    ensures var mu, t := Mean(s), Settings.OutlierThreshold * stdDev;
      var far := DetectOutliers(s, stdDev).0;
      var farDev, nearDev := SquaredDeviation(far, mu), SquaredDeviation(Near(s, mu, t), mu);
      far == Far(s, mu, t) && t >= 0.0
      && farDev >= Times(|far|, Square(t)) && (|far| > 0 ==> farDev > 0.0) && nearDev >= 0.0
      && farDev + nearDev == (|s| as real) * Variance(s)
  {
    var mu := Mean(s);
    var t := Settings.OutlierThreshold * stdDev;
    FarNearDeviation(s, mu, t);
    FarDeviation(s, mu, t);
    SquaredDeviationNonNegative(Near(s, mu, t), mu);
    ScaledVariance(s);
  }

  /** At most a quarter of the values can lie more than two standard deviations from the mean
      (Chebyshev's inequality), and none do when every value is the same. */
  lemma FewOutliers(s: seq<real>, stdDev: real)
    requires |s| >= 3 && stdDev >= 0.0 && stdDev * stdDev == Variance(s)
    ensures 4 * |DetectOutliers(s, stdDev).0| <= |s|
    ensures stdDev == 0.0 ==> DetectOutliers(s, stdDev).0 == []
  {
    var mu, t := Mean(s), Settings.OutlierThreshold * stdDev;
    var far := DetectOutliers(s, stdDev).0;
    var farDev, nearDev := SquaredDeviation(far, mu), SquaredDeviation(Near(s, mu, t), mu);
    var v, bound := Variance(s), Square(t);
    OutlierSums(s, stdDev);
    ThresholdSquare(stdDev);
    SquareNonNegative(stdDev);
    if v > 0.0 {
      TimesIsProduct(|far|, bound);
      QuarterCount(|far| as real, |s| as real, v, farDev, nearDev, bound);
    } else {
      assert farDev + nearDev == 0.0;
    }
  }

  // ---------------------------------------------------------------------------------------
  // Moving average

  /** Where the trailing window of width `w` ending at `i` begins. */
  function WindowStart(i: nat, w: int): (k: nat)
    requires w >= 1
    ensures k <= i
  {
    if i + 1 <= w then 0 else i + 1 - w
  }

  /** `moving_average`: no input gives no output whatever the window; otherwise the mean of each
      trailing window of `window` values (the configured width when none is given), shorter at
      the start, and `None` for a width below one, which the rolling mean refuses. */
  function MovingAverage(s: seq<real>, window: Option<int>): (r: Option<seq<real>>)
    ensures |s| == 0 ==> r == Some([])
    ensures r.Some? ==> |r.value| == |s|
  {
    if |s| == 0 then Some([])
    else
      var w := if window.None? then Settings.MovingAverageWindow as int else window.value;
      if w < 1 then None
      else Some(seq(|s|, i requires 0 <= i < |s| => Mean(s[WindowStart(i, w)..i + 1])))
  }

  /** Each average lies between the least and greatest value of its window. */
  lemma MovingAverageWithinWindow(s: seq<real>, w: int, i: nat)
    requires w >= 1 && i < |s|
    ensures var r := MovingAverage(s, Some(w));
      var win := s[WindowStart(i, w)..i + 1];
      r.Some? && Minimum(win) <= r.value[i] <= Maximum(win)
  {
    MeanBetween(s[WindowStart(i, w)..i + 1]);
  }

  /** A window of one leaves the values as they are. */
  lemma MovingAverageOfOne(s: seq<real>)
    ensures MovingAverage(s, Some(1)) == Some(s)
  {
    if |s| > 0 {
      var r := MovingAverage(s, Some(1)).value;
      forall i | 0 <= i < |s|
        ensures r[i] == s[i]
      {
        assert s[WindowStart(i, 1)..i + 1] == [s[i]];
        assert [s[i]][..0] == [];
        assert Sum([s[i]]) == s[i];
        assert r[i] == Mean([s[i]]);
      }
      assert r == s;
    }
  }

  // ---------------------------------------------------------------------------------------
  // Rate of change

  /** The rate of one change over one interval, 0 for an interval that is not positive. */
  function Rate(delta: real, dt: real): real {
    if dt > 0.0 then delta / dt else 0.0
  }

  /** The rates of the first `n` consecutive pairs. */
  function RatesUpTo(m: seq<real>, t: seq<real>, n: nat): (r: seq<real>)
    requires n < |m| && n <= |t|
    ensures |r| == n
  {
    if n == 0 then [] else RatesUpTo(m, t, n - 1) + [Rate(m[n] - m[n - 1], t[n - 1])]
  }

  /** `rate_of_change`: the rates between consecutive measurements, where `t` holds the
      interval before each measurement after the first; nothing unless there are at least two
      measurements and exactly one interval per consecutive pair. */
  function Rates(m: seq<real>, t: seq<real>): (r: seq<real>)
    ensures |r| == (if |m| < 2 || |m| != |t| + 1 then 0 else |m| - 1)
  {
    if |m| < 2 || |m| != |t| + 1 then [] else RatesUpTo(m, t, |m| - 1)
  }

  method RateOfChange(m: seq<real>, t: seq<real>) returns (rates: seq<real>)
    ensures rates == Rates(m, t)
  {
    if |m| < 2 || |m| != |t| + 1 {
      return [];
    }
    rates := [];
    var i := 1;
    while i < |m|
      invariant 1 <= i <= |m|
      invariant rates == RatesUpTo(m, t, i - 1)
    {
      var delta := m[i] - m[i - 1];
      var dt := t[i - 1];
      if dt > 0.0 {
        rates := rates + [delta / dt];
      } else {
        rates := rates + [0.0];
      }
      i := i + 1;
    }
  }

  /** Entry `i` of the rates is the rate of pair `i`. */
  lemma {:induction false} RatesUpToAt(m: seq<real>, t: seq<real>, n: nat, i: nat)
    requires n < |m| && n <= |t| && i < n
    ensures RatesUpTo(m, t, n)[i] == Rate(m[i + 1] - m[i], t[i])
  {
    if i < n - 1 {
      RatesUpToAt(m, t, n - 1, i);
    }
  }

  lemma RateTimesInterval(delta: real, dt: real)
    requires dt > 0.0
    ensures Rate(delta, dt) * dt == delta
  {
  }

  /** Over a positive interval the rate times the interval gives back the change; over any
      other interval the rate is 0. */
  lemma RateRecoversChange(m: seq<real>, t: seq<real>, i: nat)
    requires |m| >= 2 && |m| == |t| + 1 && i < |t|
    ensures t[i] > 0.0 ==> Rates(m, t)[i] * t[i] == m[i + 1] - m[i]
    ensures t[i] <= 0.0 ==> Rates(m, t)[i] == 0.0
  {
    RatesUpToAt(m, t, |t|, i);
    if t[i] > 0.0 {
      RateTimesInterval(m[i + 1] - m[i], t[i]);
    }
  }

  /** The rate-times-interval terms of the first `n` intervals. */
  function Travel(r: seq<real>, t: seq<real>, n: nat): real
    requires n <= |r| && n <= |t|
  {
    if n == 0 then 0.0 else Travel(r, t, n - 1) + r[n - 1] * t[n - 1]
  }

  /** Terms that each undo one step of a sequence add up to its total change. */
  lemma {:induction false} TravelTelescope(r: seq<real>, m: seq<real>, t: seq<real>, n: nat)
    requires n <= |r| && n <= |t| && n < |m|
    requires forall i :: 0 <= i < n ==> r[i] * t[i] == m[i + 1] - m[i]
    ensures Travel(r, t, n) == m[n] - m[0]
  {
    if n > 0 {
      TravelTelescope(r, m, t, n - 1);
    }
  }

  /** When every interval is positive, the rates integrate back to the total change. */
  lemma RatesTelescope(m: seq<real>, t: seq<real>)
    requires |m| >= 2 && |m| == |t| + 1
    requires forall i :: 0 <= i < |t| ==> t[i] > 0.0
    ensures Travel(Rates(m, t), t, |t|) == m[|m| - 1] - m[0]
  {
    var r := Rates(m, t);
    forall i | 0 <= i < |t|
      ensures r[i] * t[i] == m[i + 1] - m[i]
    {
      RateRecoversChange(m, t, i);
    }
    TravelTelescope(r, m, t, |t|);
    assert Travel(r, t, |t|) == m[|t|] - m[0];
  }
}
