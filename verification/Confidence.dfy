/**
  The paired-seed confidence verdict: is the lower end of the two-sided 95% Student-t interval
  over the per-seed deltas above zero?  Exact reals stand for the floats, and no square root is
  taken: `LowerBoundMeaning` relates the root-free test to the interval itself.
  */
module Confidence {
  import opened Reals

  /** Two-sided 95% critical value by degrees of freedom, with 1.96 beyond the table. */
  function Critical(freedom: nat): (t: real)
    ensures t > 0.0
  {
    match freedom
    case 1 => 12.706
    case 2 => 4.303
    case 3 => 3.182
    case 4 => 2.776
    case 5 => 2.571
    case _ => 1.96
  }

  function Sum(xs: seq<real>): real {
    if xs == [] then 0.0 else xs[0] + Sum(xs[1..])
  }

  function SquaredDistance(x: real, m: real): (r: real)
    ensures r >= 0.0
  {
    (x - m) * (x - m)
  }

  function SquaredDistances(xs: seq<real>, m: real): (r: seq<real>)
    ensures |r| == |xs|
    ensures forall i :: 0 <= i < |xs| ==> r[i] == SquaredDistance(xs[i], m)
  {
    seq(|xs|, i requires 0 <= i < |xs| => SquaredDistance(xs[i], m))
  }

  lemma {:induction false} SumNonNegative(xs: seq<real>)
    requires forall i :: 0 <= i < |xs| ==> xs[i] >= 0.0
    ensures Sum(xs) >= 0.0
  {
    if xs != [] {
      SumNonNegative(xs[1..]);
    }
  }

  /** Sum of squared distances from m. */
  function Spread(xs: seq<real>, m: real): (r: real)
    ensures r >= 0.0
  {
    SumNonNegative(SquaredDistances(xs, m));
    Sum(SquaredDistances(xs, m))
  }

  function Mean(xs: seq<real>): real
    requires xs != []
  {
    Sum(xs) / |xs| as real
  }

  /** The sample variance, the square of `statistics.stdev`. */
  function Variance(xs: seq<real>): (v: real)
    requires |xs| >= 2
    ensures v >= 0.0
  {
    var s := Spread(xs, Mean(xs));
    assert s / (|xs| - 1) as real >= 0.0 by { NonNegativeQuotient(s, (|xs| - 1) as real); }
    s / (|xs| - 1) as real
  }

  /** mean > 0 and n * mean^2 > critical^2 * variance. */
  predicate Test(n: real, mean: real, critical: real, variance: real) {
    mean > 0.0 && n * (mean * mean) > (critical * critical) * variance
  }

  /** The interval exists and its lower end is positive. */
  predicate LowerBoundPositive(xs: seq<real>) {
    |xs| >= 2 && Test(|xs| as real, Mean(xs), Critical(|xs| - 1), Variance(xs))
  }

  lemma ScaleOrder(a: real, b: real, n: real)
    requires n > 0.0
    ensures a < b <==> a * n < b * n
  {
  }

  lemma SquareOrder(a: real, b: real)
    requires a >= 0.0 && b > 0.0
    ensures a < b <==> a * a < b * b
  {
    if a == 0.0 {
      var w := PositiveSquare(b);
    } else if a < b {
      ScaleOrder(a, b, b);
      ScaleOrder(a, b, a);
    } else if b < a {
      ScaleOrder(b, a, b);
      ScaleOrder(b, a, a);
    }
  }

  lemma PositiveProduct(a: real, b: real) returns (w: real)
    requires a > 0.0 && b > 0.0
    ensures w == a * b && w > 0.0
  {
    w := a * b;
  }

  lemma PositiveSquare(c: real) returns (w: real)
    requires c > 0.0
    ensures w == c * c && w > 0.0
  {
    w := PositiveProduct(c, c);
  }

  /**
    Whenever `margin` is the half-width critical * stdev / sqrt(n) of the interval, the test
    above says exactly that mean - margin is positive.
    */
  lemma LowerBoundMeaning(xs: seq<real>, margin: real)
    requires |xs| >= 2
    requires margin >= 0.0
    requires margin * margin * |xs| as real == (Critical(|xs| - 1) * Critical(|xs| - 1)) * Variance(xs)
    ensures Mean(xs) - margin > 0.0 <==> LowerBoundPositive(xs)
  {
    MarginTest(|xs| as real, Mean(xs), margin, Critical(|xs| - 1), Variance(xs));
  }

  lemma MarginTest(n: real, mean: real, margin: real, critical: real, variance: real)
    requires n > 0.0 && margin >= 0.0
    requires margin * margin * n == (critical * critical) * variance
    ensures mean - margin > 0.0 <==> Test(n, mean, critical, variance)
  {
    if mean > 0.0 {
      SquareOrder(margin, mean);
      ScaleOrder(margin * margin, mean * mean, n);
    }
  }

  // Reordering the seeds

  lemma {:induction false} SumRemove(xs: seq<real>, i: nat)
    requires i < |xs|
    ensures Sum(xs) == xs[i] + Sum(xs[..i] + xs[i+1..])
  {
    var rest := xs[..i] + xs[i+1..];
    if i == 0 {
      assert rest == xs[1..];
    } else {
      SumRemove(xs[1..], i - 1);
      assert rest[1..] == xs[1..][..i-1] + xs[1..][i..];
    }
  }

  lemma RemoveOccurrence<T>(xs: seq<T>, ys: seq<T>) returns (i: nat)
    requires xs != [] && multiset(xs) == multiset(ys)
    ensures i < |ys| && ys[i] == xs[0]
    ensures multiset(xs[1..]) == multiset(ys[..i] + ys[i+1..])
  {
    assert xs[0] in multiset(ys);
    i :| 0 <= i < |ys| && ys[i] == xs[0];
    assert xs == [xs[0]] + xs[1..];
    assert ys == ys[..i] + [ys[i]] + ys[i+1..];
    assert multiset(xs) == multiset{xs[0]} + multiset(xs[1..]);
    assert multiset(ys) == multiset{ys[i]} + multiset(ys[..i] + ys[i+1..]);
    assert multiset(xs[1..]) == multiset(xs) - multiset{xs[0]};
    assert multiset(ys[..i] + ys[i+1..]) == multiset(ys) - multiset{xs[0]};
  }

  lemma {:induction false} SumPermuted(xs: seq<real>, ys: seq<real>)
    requires multiset(xs) == multiset(ys)
    ensures Sum(xs) == Sum(ys)
  {
    assert |multiset(xs)| == |xs| && |multiset(ys)| == |ys|;
    if xs != [] {
      var i := RemoveOccurrence(xs, ys);
      SumRemove(ys, i);
      SumPermuted(xs[1..], ys[..i] + ys[i+1..]);
    }
  }

  function Map<A, B>(f: A -> B, xs: seq<A>): (r: seq<B>)
    ensures |r| == |xs|
    ensures forall i :: 0 <= i < |xs| ==> r[i] == f(xs[i])
  {
    seq(|xs|, i requires 0 <= i < |xs| => f(xs[i]))
  }

  lemma {:induction false} MapPermuted<A, B>(f: A -> B, xs: seq<A>, ys: seq<A>)
    requires multiset(xs) == multiset(ys)
    ensures multiset(Map(f, xs)) == multiset(Map(f, ys))
  {
    assert |multiset(xs)| == |xs| && |multiset(ys)| == |ys|;
    if xs == [] {
      assert Map(f, xs) == Map(f, ys);
    } else {
      var i := RemoveOccurrence(xs, ys);
      var rest := ys[..i] + ys[i+1..];
      MapPermuted(f, xs[1..], rest);
      assert Map(f, xs) == [f(xs[0])] + Map(f, xs[1..]);
      var my := Map(f, ys);
      assert Map(f, rest) == my[..i] + my[i+1..];
      assert my == my[..i] + [my[i]] + my[i+1..];
    }
  }

  lemma SquaredDistancesPermuted(xs: seq<real>, ys: seq<real>, m: real)
    requires multiset(xs) == multiset(ys)
    ensures multiset(SquaredDistances(xs, m)) == multiset(SquaredDistances(ys, m))
  {
    var f := x => SquaredDistance(x, m);
    MapPermuted(f, xs, ys);
    assert SquaredDistances(xs, m) == Map(f, xs);
    assert SquaredDistances(ys, m) == Map(f, ys);
  }

  lemma SpreadPermuted(xs: seq<real>, ys: seq<real>, m: real)
    requires multiset(xs) == multiset(ys)
    ensures Spread(xs, m) == Spread(ys, m)
  {
    SquaredDistancesPermuted(xs, ys, m);
    SumPermuted(SquaredDistances(xs, m), SquaredDistances(ys, m));
  }

  lemma StatisticsPermuted(xs: seq<real>, ys: seq<real>)
    requires multiset(xs) == multiset(ys) && |xs| >= 2
    ensures |xs| == |ys| && Mean(xs) == Mean(ys) && Variance(xs) == Variance(ys)
  {
    assert |multiset(xs)| == |xs| && |multiset(ys)| == |ys|;
    SumPermuted(xs, ys);
    SpreadPermuted(xs, ys, Mean(xs));
  }

  /** The verdict does not depend on the order of the seeds. */
  lemma VerdictIgnoresSeedOrder(xs: seq<real>, ys: seq<real>)
    requires multiset(xs) == multiset(ys)
    ensures LowerBoundPositive(xs) <==> LowerBoundPositive(ys)
  {
    assert |multiset(xs)| == |xs| && |multiset(ys)| == |ys|;
    if |xs| >= 2 {
      StatisticsPermuted(xs, ys);
    }
  }

  // Rescaling and shifting the deltas

  /** Every delta y is c * x + d for the delta x in the same place. */
  ghost predicate Affine(c: real, d: real, xs: seq<real>, ys: seq<real>) {
    |ys| == |xs| && forall i :: 0 <= i < |xs| ==> ys[i] == c * xs[i] + d
  }

  lemma Distribute(a: real, x: real, y: real)
    ensures a * (x + y) == a * x + a * y
  {
  }

  lemma MulAssociates(a: real, x: real, y: real)
    ensures (a * x) * y == a * (x * y)
  {
  }

  lemma AffineStep(c: real, d: real, n: real, x: real, y: real, s: real, t: real, s': real, t': real)
    requires y == c * x + d && t == c * s + n * d && s' == x + s && t' == y + t
    ensures t' == c * s' + (n + 1.0) * d
  {
    Distribute(c, x, s);
    Distribute(d, n, 1.0);
  }

  lemma AffineTail(c: real, d: real, xs: seq<real>, ys: seq<real>)
    requires Affine(c, d, xs, ys) && xs != []
    ensures Affine(c, d, xs[1..], ys[1..])
  {
  }

  lemma AffineCons(c: real, d: real, x: real, y: real, xs: seq<real>, ys: seq<real>)
    requires y == c * x + d && Affine(c, d, xs, ys)
    ensures Affine(c, d, [x] + xs, [y] + ys)
  {
  }

  lemma {:induction false} SumAffine(c: real, d: real, xs: seq<real>, ys: seq<real>)
    requires Affine(c, d, xs, ys)
    ensures Sum(ys) == c * Sum(xs) + |xs| as real * d
  {
    if xs != [] {
      AffineTail(c, d, xs, ys);
      SumAffine(c, d, xs[1..], ys[1..]);
      AffineStep(c, d, |xs[1..]| as real, xs[0], ys[0], Sum(xs[1..]), Sum(ys[1..]), Sum(xs), Sum(ys));
    }
  }

  lemma SquareProduct(c: real, e: real, w: real)
    requires w == c * c
    ensures (c * e) * (c * e) == w * (e * e)
  {
    MulAssociates(c, e, c * e);
    MulAssociates(c, c, e * e);
    MulAssociates(e, e, c);
  }

  lemma SquareAffine(c: real, d: real, x: real, m: real, y: real, k: real, w: real)
    requires w == c * c && y == c * x + d && k == c * m + d
    ensures SquaredDistance(y, k) == w * SquaredDistance(x, m)
  {
    Distribute(c, x, -m);
    assert y - k == c * (x - m);
    SquareProduct(c, x - m, w);
  }

  lemma SquaredDistanceAt(c: real, d: real, xs: seq<real>, ys: seq<real>, m: real, k: real, w: real, i: nat)
    requires Affine(c, d, xs, ys) && w == c * c && k == c * m + d && i < |xs|
    ensures SquaredDistances(ys, k)[i] == w * SquaredDistances(xs, m)[i] + 0.0
  {
    SquareAffine(c, d, xs[i], m, ys[i], k, w);
  }

  lemma SpreadAffine(c: real, d: real, xs: seq<real>, ys: seq<real>, m: real, k: real, w: real)
    requires Affine(c, d, xs, ys) && w == c * c && k == c * m + d
    ensures Spread(ys, k) == w * Spread(xs, m)
  {
    var dx, dy := SquaredDistances(xs, m), SquaredDistances(ys, k);
    forall i | 0 <= i < |xs| ensures dy[i] == w * dx[i] + 0.0 {
      SquaredDistanceAt(c, d, xs, ys, m, k, w, i);
    }
    SumScaled(w, dx, dy);
  }

  lemma SumScaled(w: real, xs: seq<real>, ys: seq<real>)
    requires Affine(w, 0.0, xs, ys)
    ensures Sum(ys) == w * Sum(xs)
  {
    SumAffine(w, 0.0, xs, ys);
  }

  lemma ScaledQuotient(c: real, d: real, n: real, s: real, mean: real, t: real)
    requires n > 0.0 && s == n * mean && t == c * s + n * d
    ensures t / n == c * mean + d
  {
    MulAssociates(c, n, mean);
    MulAssociates(n, c, mean);
    Distribute(n, c * mean, d);
    assert t == n * (c * mean + d);
  }

  lemma QuotientIs(n: real, s: real, mean: real)
    requires n > 0.0 && mean == s / n
    ensures s == n * mean
  {
  }

  lemma MeanAffine(c: real, d: real, xs: seq<real>, ys: seq<real>)
    requires Affine(c, d, xs, ys) && xs != []
    ensures Mean(ys) == c * Mean(xs) + d
  {
    SumAffine(c, d, xs, ys);
    QuotientIs(|xs| as real, Sum(xs), Mean(xs));
    ScaledQuotient(c, d, |xs| as real, Sum(xs), Mean(xs), Sum(ys));
  }

  lemma VarianceAffine(c: real, d: real, xs: seq<real>, ys: seq<real>, w: real)
    requires Affine(c, d, xs, ys) && |xs| >= 2 && w == c * c
    ensures Variance(ys) == w * Variance(xs)
  {
    var n := (|xs| - 1) as real;
    MeanAffine(c, d, xs, ys);
    SpreadAffine(c, d, xs, ys, Mean(xs), Mean(ys), w);
    QuotientIs(n, Spread(xs, Mean(xs)), Variance(xs));
    ScaledQuotient(w, 0.0, n, Spread(xs, Mean(xs)), Variance(xs), Spread(ys, Mean(ys)));
  }

  lemma SignOfProduct(c: real, m: real)
    requires c > 0.0
    ensures c * m > 0.0 <==> m > 0.0
  {
    if m > 0.0 {
      ScaleOrder(0.0, m, c);
    } else if m < 0.0 {
      ScaleOrder(m, 0.0, c);
    }
  }

  /** n * (w * a) > q * (w * b) is n * a > q * b when w is positive. */
  lemma CommonFactor(n: real, a: real, q: real, b: real, w: real)
    requires w > 0.0
    ensures n * (w * a) > q * (w * b) <==> n * a > q * b
  {
    MulAssociates(n, a, w);
    MulAssociates(q, b, w);
    ScaleOrder(q * b, n * a, w);
  }

  /** The test is unchanged when the mean is scaled by c and the variance by c^2. */
  lemma ScaledTest(n: real, mean: real, critical: real, variance: real,
                   c: real, w: real, mean': real, variance': real)
    requires c > 0.0 && w == c * c && w > 0.0
    requires mean' == c * mean && variance' == w * variance
    ensures Test(n, mean', critical, variance') <==> Test(n, mean, critical, variance)
  {
    SignOfProduct(c, mean);
    SquareProduct(c, mean, w);
    CommonFactor(n, mean * mean, critical * critical, variance, w);
  }

  /** Measuring the deltas in another unit does not change the verdict. */
  lemma VerdictIgnoresScale(xs: seq<real>, ys: seq<real>, c: real)
    requires c > 0.0 && Affine(c, 0.0, xs, ys)
    ensures LowerBoundPositive(ys) <==> LowerBoundPositive(xs)
  {
    if |xs| >= 2 {
      var w := PositiveSquare(c);
      MeanAffine(c, 0.0, xs, ys);
      VarianceAffine(c, 0.0, xs, ys, w);
      ScaledTest(|xs| as real, Mean(xs), Critical(|xs| - 1), Variance(xs), c, w, Mean(ys), Variance(ys));
    }
  }

  lemma GainedTest(n: real, mean: real, critical: real, variance: real, d: real)
    requires n > 0.0 && d >= 0.0 && Test(n, mean, critical, variance)
    ensures Test(n, mean + d, critical, variance)
  {
    if d > 0.0 {
      SquareOrder(mean, mean + d);
      ScaleOrder(mean * mean, (mean + d) * (mean + d), n);
    }
  }

  /** Raising every delta by the same amount never turns a positive verdict negative. */
  lemma VerdictKeptByGain(xs: seq<real>, ys: seq<real>, d: real)
    requires d >= 0.0 && Affine(1.0, d, xs, ys)
    requires LowerBoundPositive(xs)
    ensures LowerBoundPositive(ys)
  {
    MeanAffine(1.0, d, xs, ys);
    VarianceAffine(1.0, d, xs, ys, 1.0);
    GainedTest(|xs| as real, Mean(xs), Critical(|xs| - 1), Variance(xs), d);
  }

  // The test in words

  function SumOf(xs: seq<real>): real {
    if xs == [] then 0.0 else SumOf(xs[..|xs| - 1]) + xs[|xs| - 1]
  }

  /** The values squared about m. */
  function SquaresAbout(xs: seq<real>, m: real): seq<real> {
    seq(|xs|, i requires 0 <= i < |xs| => (xs[i] - m) * (xs[i] - m))
  }

  lemma {:induction false} SumsAgree(xs: seq<real>)
    ensures Sum(xs) == SumOf(xs)
  {
    if xs != [] {
      var n := |xs| - 1;
      SumLast(xs[..n], xs[n]);
      assert xs == xs[..n] + [xs[n]];
      SumsAgree(xs[..n]);
    }
  }

  lemma {:induction false} SumLast(xs: seq<real>, x: real)
    ensures Sum(xs + [x]) == Sum(xs) + x
  {
    if xs == [] {
      assert [] + [x] == [x] && [x][1..] == [];
    } else {
      assert (xs + [x])[1..] == xs[1..] + [x];
      SumLast(xs[1..], x);
    }
  }

  /** The two-sided 95% Student-t values, by the number of seeds. */
  predicate StudentT(seeds: nat, t: real) {
    && (seeds == 2 ==> t == 12.706) && (seeds == 3 ==> t == 4.303) && (seeds == 4 ==> t == 3.182)
    && (seeds == 5 ==> t == 2.776) && (seeds == 6 ==> t == 2.571) && (seeds > 6 ==> t == 1.96)
  }

  lemma TimesBack(x: real, n: real)
    requires n > 0.0
    ensures x / n * n == x
  {
  }

  lemma OneTest(n: real, mean: real, critical: real, variance: real, spread: real)
    requires n > 1.0 && variance * (n - 1.0) == spread
    ensures Test(n, mean, critical, variance) <==>
      mean > 0.0 && n * (n - 1.0) * (mean * mean) > critical * critical * spread
  {
    var a, b := n * (mean * mean), (critical * critical) * variance;
    ScaleOrder(b, a, n - 1.0);
    assert a * (n - 1.0) == n * (n - 1.0) * (mean * mean);
    assert b * (n - 1.0) == critical * critical * spread by {
      var c := critical * critical;
      assert (c * variance) * (n - 1.0) == c * (variance * (n - 1.0));
    }
  }

  /**
    The verdict without a quotient: with the mean m, the sum of the squares about it, and the Student-t
    value of n values, it is that m is positive and n (n - 1) m^2 exceeds t^2 times that sum.
    */
  lemma VerdictInWords(xs: seq<real>, m: real, t: real)
    requires |xs| >= 2 && m * |xs| as real == SumOf(xs) && StudentT(|xs|, t)
    ensures LowerBoundPositive(xs) <==>
      m > 0.0 && |xs| as real * (|xs| as real - 1.0) * (m * m) > t * t * SumOf(SquaresAbout(xs, m))
  {
    hide *;
    var n, spread := |xs| as real, SumOf(SquaresAbout(xs, m));
    SumsAgree(xs);
    MeanIs(xs, m);
    VarianceIs(xs, m);
    TestIs(xs, m, t);
    OneTest(n, m, t, Variance(xs), spread);
  }

  lemma TestIs(xs: seq<real>, m: real, t: real)
    requires |xs| >= 2 && Mean(xs) == m && StudentT(|xs|, t)
    ensures LowerBoundPositive(xs) <==> Test(|xs| as real, m, t, Variance(xs))
  {
    hide Test, Variance, Mean;
  }

  lemma VarianceIs(xs: seq<real>, m: real)
    requires |xs| >= 2 && Mean(xs) == m
    ensures Variance(xs) * (|xs| as real - 1.0) == SumOf(SquaresAbout(xs, m))
  {
    hide *;
    SquaresAre(xs, m);
    SumsAgree(SquaresAbout(xs, m));
    VarianceQuotient(xs);
    var spread, d := SumOf(SquaresAbout(xs, m)), |xs| as real - 1.0;
    TimesBack(spread, d);
    assert Variance(xs) == spread / d;
  }

  lemma VarianceQuotient(xs: seq<real>)
    requires |xs| >= 2
    ensures Variance(xs) == Sum(SquaredDistances(xs, Mean(xs))) / (|xs| as real - 1.0)
  {
    hide Sum, SquaredDistances, Mean;
  }

  lemma SquaresAre(xs: seq<real>, m: real)
    ensures SquaredDistances(xs, m) == SquaresAbout(xs, m)
  {
    forall i | 0 <= i < |xs| ensures SquaredDistances(xs, m)[i] == SquaresAbout(xs, m)[i] {
      assert SquaredDistances(xs, m)[i] == SquaredDistance(xs[i], m);
    }
  }

  lemma MeanIs(xs: seq<real>, m: real)
    requires xs != [] && m * |xs| as real == Sum(xs)
    ensures Mean(xs) == m
  {
    hide Sum;
    var n := |xs| as real;
    TimesBack(Sum(xs), n);
    SameFactor(Mean(xs), m, n);
  }

  lemma SameFactor(a: real, b: real, n: real)
    requires n > 0.0 && a * n == b * n
    ensures a == b
  {
  }

  /** Without two values there is no interval and no confirmation. */
  lemma TooFewValues(xs: seq<real>)
    requires |xs| < 2
    ensures !LowerBoundPositive(xs)
  {
  }
}
