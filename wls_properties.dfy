/** Properties of the estimator: the fit solves the weighted normal equations
    and is their only solution, degenerate inputs have no unique line, the
    weights matter only up to a common factor, and the fixtures of the
    repository come out exactly. */
module WlsProperties {

  import opened Wrappers
  import Points
  import opened Asserts
  import opened WeightedLeastSquares

  /** A line `(a, b)` solves the weighted normal equations of the sums `s`:
      it zeroes the derivatives of the weighted squared residuals in the
      intercept and in the slope. */
  predicate SolvesNormalEquations(s: Sums, a: real, b: real)
  {
    a * s.sw + b * s.swx == s.swy && a * s.swx + b * s.swxx == s.swxy
  }

  /** The line `FitFromSums` returns solves both normal equations. */
  lemma NormalEquations(s: Sums)
    requires s.InterceptDefined() && FitFromSums(s).Some?
    ensures SolvesNormalEquations(s, FitFromSums(s).value.intercept, FitFromSums(s).value.slope)
  {
    var a, b := FitFromSums(s).value.intercept, FitFromSums(s).value.slope;
    assert s.sw != 0.0;
    assert b * s.Divisor() == s.Dividend();
    assert a * s.sw == s.swy - b * s.swx;
    calc {
      s.sw * (a * s.swx + b * s.swxx);
      (a * s.sw) * s.swx + b * (s.sw * s.swxx);
      (s.swy - b * s.swx) * s.swx + b * (s.sw * s.swxx);
      s.swy * s.swx + b * s.Divisor();
      s.swy * s.swx + s.Dividend();
      s.sw * s.swxy;
    }
    MultiplicationCancels(s.sw, a * s.swx + b * s.swxx, s.swxy);
  }

  /** A nonzero factor can be cancelled from both sides of an equation. */
  lemma MultiplicationCancels(c: real, u: real, v: real)
    requires c != 0.0 && c * u == c * v
    ensures u == v
  {
    assert c * (u - v) == 0.0;
  }

  /** When the divisor is nonzero, the fitted line is the only solution of the
      normal equations. */
  lemma FitIsUniqueSolution(s: Sums, a: real, b: real)
    requires s.InterceptDefined() && s.Divisor() != 0.0
    requires SolvesNormalEquations(s, a, b)
    ensures FitFromSums(s) == Some(Points.Point(a, b))
  {
    assert s.sw != 0.0;
    calc {
      b * s.Divisor();
      s.sw * (b * s.swxx) - s.swx * (b * s.swx);
      s.sw * (s.swxy - a * s.swx) - s.swx * (s.swy - a * s.sw);
      s.Dividend();
    }
    var p := FitFromSums(s).value;
    MultiplicationCancels(s.Divisor(), p.slope, b);
    MultiplicationCancels(s.sw, p.intercept, a);
  }

  /** With a zero divisor, every solution `(a, b)` of the normal equations
      lies on a line of solutions `(a - t * swx, b + t * sw)`. */
  lemma DegenerateSolutionFamily(s: Sums, a: real, b: real, t: real)
    requires s.Divisor() == 0.0
    requires SolvesNormalEquations(s, a, b)
    ensures SolvesNormalEquations(s, a - t * s.swx, b + t * s.sw)
  {
    calc {
      (a - t * s.swx) * s.swx + (b + t * s.sw) * s.swxx;
      a * s.swx + b * s.swxx + t * s.Divisor();
      s.swxy;
    }
  }

  /** With a zero divisor the normal equations never have exactly one solution:
      beside any solution there is another. When `sw` and `swx` are both zero
      the family above collapses to one point, and the intercept is free instead. */
  lemma DegenerateHasManySolutions(s: Sums, a: real, b: real)
    requires s.Divisor() == 0.0
    requires SolvesNormalEquations(s, a, b)
    ensures exists a2: real, b2: real :: (a2, b2) != (a, b) && SolvesNormalEquations(s, a2, b2)
  {
    if s.sw == 0.0 && s.swx == 0.0 {
      ZeroTimes(s.sw, a);
      ZeroTimes(s.sw, a + 1.0);
      ZeroTimes(s.swx, a);
      ZeroTimes(s.swx, a + 1.0);
      assert SolvesNormalEquations(s, a + 1.0, b);
      assert (a + 1.0, b) != (a, b);
    } else {
      DegenerateSolutionFamily(s, a, b, 1.0);
      assert (a - 1.0 * s.swx, b + 1.0 * s.sw) != (a, b);
    }
  }

  /** Sums whose x sums are `c` times their weight sum, as when every x is `c`. */
  predicate ConstantX(s: Sums, c: real)
  {
    s.swx == c * s.sw && s.swxx == (c * c) * s.sw
  }

  /** Adding a sample at x = `c` keeps the sums of constant x. */
  lemma AddConstantX(s: Sums, c: real, y: real, w: real)
    requires ConstantX(s, c)
    ensures ConstantX(s.Add(c, y, w), c)
  {
    ScaleStep(c, s.sw, w, w * c);
    ScaleStep(c * c, s.sw, w, w * (c * c));
  }

  /** When every x equals `c`, the x sums are `c` times the weight sum. */
  lemma {:induction false} ConstantXSums(xs: seq<real>, ys: seq<real>, ws: seq<real>, k: nat, c: real)
    requires k <= |xs| && k <= |ys| && k <= |ws|
    requires forall i | 0 <= i < k :: xs[i] == c
    ensures ConstantX(Accumulate(xs, ys, ws, k), c)
  {
    if k > 0 {
      ConstantXSums(xs, ys, ws, k - 1, c);
      AddConstantX(Accumulate(xs, ys, ws, k - 1), c, ys[k - 1], ws[k - 1]);
    }
  }

  /** Identical x values leave no line to fit: the divisor is zero and the fit
      returns `None`, whatever the weights and y values. */
  lemma ConstantXHasNoFit(wls: Wls, c: real)
    requires wls.InBounds()
    requires forall i | 0 <= i < |wls.xPoints| :: wls.xPoints[i] == c
    ensures wls.Totals().Divisor() == 0.0
    ensures wls.CanFit() && wls.Fit() == None
  {
    ConstantXSums(wls.xPoints, wls.yPoints, wls.weights, |wls.xPoints|, c);
    var s := wls.Totals();
    assert s.Divisor() == s.sw * (c * c * s.sw) - (c * s.sw) * (c * s.sw);
  }

  /** Every weight multiplied by `c`. */
  function Scale(ws: seq<real>, c: real): (r: seq<real>)
    ensures |r| == |ws|
    ensures forall i | 0 <= i < |ws| :: r[i] == ws[i] * c
  {
    seq(|ws|, i requires 0 <= i < |ws| => ws[i] * c)
  }

  /** Scaling the weights by `c` scales every accumulated sum by `c`. */
  lemma {:induction false} AccumulateScaled(xs: seq<real>, ys: seq<real>, ws: seq<real>, k: nat, c: real)
    requires k <= |xs| && k <= |ys| && k <= |ws|
    ensures Accumulate(xs, ys, Scale(ws, c), k) == Accumulate(xs, ys, ws, k).Scaled(c)
  {
    if k > 0 {
      var s := Accumulate(xs, ys, ws, k - 1);
      var x, y, w := xs[k - 1], ys[k - 1], ws[k - 1];
      calc {
        Accumulate(xs, ys, Scale(ws, c), k);
        Accumulate(xs, ys, Scale(ws, c), k - 1).Add(x, y, w * c);
        { AccumulateScaled(xs, ys, ws, k - 1, c); }
        s.Scaled(c).Add(x, y, w * c);
        { AddScaled(s, x, y, w, c); }
        s.Add(x, y, w).Scaled(c);
      }
    }
  }

  /** Adding a sample with weight `w * c` to sums scaled by `c` gives the
      scaled sums with the sample added with weight `w`. */
  lemma AddScaled(s: Sums, x: real, y: real, w: real, c: real)
    ensures s.Scaled(c).Add(x, y, w * c) == s.Add(x, y, w).Scaled(c)
  {
    var wc := w * c;
    AddToScaled(s, x, y, wc, c);
    ScaleStep(c, s.sw, w, wc);
    ScaleStep(c, s.swx, x * w, x * wc);
    ScaleStep(c, s.swxy, (x * w) * y, (x * wc) * y);
    ScaleStep(c, s.swy, y * w, y * wc);
    ScaleStep(c, s.swxx, (x * w) * x, (x * wc) * x);
    ScaleAdded(s, x, y, w, c);
  }

  /** The sums scaled by `c`, then a sample added with weight `wc`, field by field. */
  lemma AddToScaled(s: Sums, x: real, y: real, wc: real, c: real)
    ensures s.Scaled(c).Add(x, y, wc)
         == Sums(c * s.sw + wc, c * s.swx + x * wc, c * s.swxy + (x * wc) * y,
                 c * s.swy + y * wc, c * s.swxx + (x * wc) * x)
  {
  }

  /** A sample added with weight `w`, then the sums scaled by `c`, field by field. */
  lemma ScaleAdded(s: Sums, x: real, y: real, w: real, c: real)
    ensures s.Add(x, y, w).Scaled(c)
         == Sums(c * (s.sw + w), c * (s.swx + x * w), c * (s.swxy + (x * w) * y),
                 c * (s.swy + y * w), c * (s.swxx + (x * w) * x))
  {
  }

  /** Scaling a running total and the term added to it by `c` scales the new
      total by `c`. */
  lemma ScaleStep(c: real, total: real, term: real, scaledTerm: real)
    requires scaledTerm == term * c
    ensures c * total + scaledTerm == c * (total + term)
  {
  }

  /** Scaling every sum by `c` scales the divisor by `c * c`. */
  lemma DivisorScaled(s: Sums, c: real)
    ensures s.Scaled(c).Divisor() == (c * c) * s.Divisor()
  {
  }

  /** Scaling every sum by `c` scales the dividend by `c * c`. */
  lemma DividendScaled(s: Sums, c: real)
    ensures s.Scaled(c).Dividend() == (c * c) * s.Dividend()
  {
  }

  /** A solution of the normal equations solves them for the scaled sums too. */
  lemma NormalEquationsScaled(s: Sums, c: real, a: real, b: real)
    requires SolvesNormalEquations(s, a, b)
    ensures SolvesNormalEquations(s.Scaled(c), a, b)
  {
    calc {
      a * (c * s.sw) + b * (c * s.swx);
      c * (a * s.sw + b * s.swx);
      c * s.swy;
    }
    calc {
      a * (c * s.swx) + b * (c * s.swxx);
      c * (a * s.swx + b * s.swxx);
      c * s.swxy;
    }
  }

  /** The closed form is unchanged when every sum is scaled by a nonzero `c`:
      dividend and divisor both scale by `c * c`, the weight sum by `c`. */
  lemma FitFromSumsScaled(s: Sums, c: real)
    requires c != 0.0 && s.InterceptDefined()
    ensures s.Scaled(c).InterceptDefined()
    ensures FitFromSums(s.Scaled(c)) == FitFromSums(s)
  {
    var t := s.Scaled(c);
    DivisorScaled(s, c);
    if s.Divisor() == 0.0 {
      ZeroTimes(s.Divisor(), c * c);
    } else {
      NonzeroProduct(c, c);
      NonzeroProduct(c * c, s.Divisor());
      NonzeroProduct(c, s.sw);
      var p := FitFromSums(s).value;
      NormalEquations(s);
      NormalEquationsScaled(s, c, p.intercept, p.slope);
      FitIsUniqueSolution(t, p.intercept, p.slope);
    }
  }

  /** Weight-scale invariance: multiplying every weight by the same nonzero
      constant changes neither the slope nor the intercept, nor whether a line
      is found. */
  lemma WeightScaleInvariance(wls: Wls, c: real)
    requires c != 0.0 && wls.CanFit()
    ensures Wls(wls.xPoints, wls.yPoints, Scale(wls.weights, c)).CanFit()
    ensures Wls(wls.xPoints, wls.yPoints, Scale(wls.weights, c)).Fit() == wls.Fit()
  {
    AccumulateScaled(wls.xPoints, wls.yPoints, wls.weights, |wls.xPoints|, c);
    FitFromSumsScaled(wls.Totals(), c);
  }

  /** Positive weights have a positive sum. */
  lemma {:induction false} PositiveWeightSum(xs: seq<real>, ys: seq<real>, ws: seq<real>, k: nat)
    requires k <= |xs| && k <= |ys| && k <= |ws|
    requires forall i | 0 <= i < k :: ws[i] > 0.0
    ensures k > 0 ==> Accumulate(xs, ys, ws, k).sw > 0.0
    ensures k == 0 ==> Accumulate(xs, ys, ws, k).sw == 0.0
  {
    if k > 0 {
      PositiveWeightSum(xs, ys, ws, k - 1);
    }
  }

  /** With positive weights on at least one sample the division by the
      weight sum is always defined. */
  lemma PositiveWeightsCanFit(wls: Wls)
    requires wls.InBounds()
    requires forall i | 0 <= i < |wls.xPoints| :: wls.weights[i] > 0.0
    ensures wls.CanFit()
  {
    PositiveWeightSum(wls.xPoints, wls.yPoints, wls.weights, |wls.xPoints|);
  }

  /** A valid estimator, as `New` builds it, with positive weights can be fitted. */
  lemma ValidPositiveWeightsCanFit(wls: Wls)
    requires wls.Valid()
    requires forall i | 0 <= i < |wls.weights| :: wls.weights[i] > 0.0
    ensures wls.CanFit()
  {
    PositiveWeightsCanFit(wls);
  }

  /** Omitting the weights is the same as passing `|xPoints|` ones, and the
      resulting estimator can always be fitted. */
  lemma DefaultWeights(xPoints: seq<real>, yPoints: seq<real>)
    ensures New(xPoints, yPoints, None) == New(xPoints, yPoints, Some(PopulateWeights(|xPoints|, 1.0)))
    ensures New(xPoints, yPoints, None).Ok? ==> New(xPoints, yPoints, None).value.CanFit()
  {
    var r := New(xPoints, yPoints, None);
    if r.Ok? {
      assert r.value.weights == PopulateWeights(|xPoints|, 1.0);
      PositiveWeightsCanFit(r.value);
    }
  }

  /** Weights summing to zero with a nonzero weighted x sum give a nonzero
      divisor, so the fit goes on to divide by the zero weight sum. */
  lemma ZeroWeightSumBreaksIntercept(s: Sums)
    requires s.sw == 0.0 && s.swx != 0.0
    ensures s.Divisor() == -(s.swx * s.swx) && s.Divisor() < 0.0
    ensures !s.InterceptDefined()
  {
    calc {
      s.Divisor();
      s.sw * s.swxx - s.swx * s.swx;
      { ZeroTimes(s.sw, s.swxx); }
      -(s.swx * s.swx);
      < { SquarePositive(s.swx); }
      0.0;
    }
  }

  /** The intercept is defined exactly when a nonzero divisor comes with a
      nonzero weight sum, that is, when the fit never divides by a zero weight sum. */
  lemma InterceptDefinedMeans(s: Sums)
    ensures s.InterceptDefined() <==> (s.Divisor() != 0.0 ==> s.sw != 0.0)
  {
    if s.InterceptDefined() && s.Divisor() != 0.0 {
      WeightSumNonzero(s);
    }
    if s.sw == 0.0 && s.swx != 0.0 {
      ZeroWeightSumBreaksIntercept(s);
    }
  }

  /** The square of a nonzero number is positive. */
  lemma SquarePositive(u: real)
    requires u != 0.0
    ensures u * u > 0.0
  {
    if u < 0.0 {
      var v := -u;
      assert v * v > 0.0;
      assert v * v == u * u;
    }
  }

  /** A product of nonzero factors is nonzero. */
  lemma NonzeroProduct(u: real, v: real)
    requires u != 0.0 && v != 0.0
    ensures u * v != 0.0
  {
  }

  /** Construction does not check the sign of the weights: weights 1, -1 and 0
      pass it and sum to zero while the weighted x sum is -1. */
  lemma NegativeWeightsPassConstruction()
    ensures New([1.0, 2.0, 3.0], [0.0, 0.0, 0.0], Some([1.0, -1.0, 0.0]))
         == Ok(Wls([1.0, 2.0, 3.0], [0.0, 0.0, 0.0], [1.0, -1.0, 0.0]))
  {
  }

  /** The sums of the estimator built above: the weights sum to zero while the
      weighted x sum is -1. */
  lemma ZeroWeightSumExample()
    ensures Wls([1.0, 2.0, 3.0], [0.0, 0.0, 0.0], [1.0, -1.0, 0.0]).Totals()
         == Sums(0.0, -1.0, 0.0, 0.0, -3.0)
  {
    var xs, ys, ws := [1.0, 2.0, 3.0], [0.0, 0.0, 0.0], [1.0, -1.0, 0.0];
    AccumulateNext(xs, ys, ws, 0, 1.0, 0.0, 1.0, Sums(0.0, 0.0, 0.0, 0.0, 0.0));
    AccumulateNext(xs, ys, ws, 1, 2.0, 0.0, -1.0, Sums(1.0, 1.0, 0.0, 0.0, 1.0));
    AccumulateNext(xs, ys, ws, 2, 3.0, 0.0, 0.0, Sums(0.0, -1.0, 0.0, 0.0, -3.0));
  }

  /** That estimator has a nonzero divisor and a zero weight sum: the fit's
      division by the weight sum is unguarded, so it lies outside `CanFit`. */
  lemma UnguardedInterceptDivision()
    ensures Wls([1.0, 2.0, 3.0], [0.0, 0.0, 0.0], [1.0, -1.0, 0.0]).Totals().Divisor() == -1.0
    ensures !Wls([1.0, 2.0, 3.0], [0.0, 0.0, 0.0], [1.0, -1.0, 0.0]).CanFit()
  {
    ZeroWeightSumExample();
    ZeroWeightSumBreaksIntercept(Sums(0.0, -1.0, 0.0, 0.0, -3.0));
  }

  /** Weights 1, -2 and 1 on x = 1, 2, 3 and y = 1, 0, 0 pass construction
      and give sums with a zero divisor whose first normal equation reads
      `0 = 1`. */
  lemma NoSolutionSums()
    ensures New([1.0, 2.0, 3.0], [1.0, 0.0, 0.0], Some([1.0, -2.0, 1.0]))
         == Ok(Wls([1.0, 2.0, 3.0], [1.0, 0.0, 0.0], [1.0, -2.0, 1.0]))
    ensures Wls([1.0, 2.0, 3.0], [1.0, 0.0, 0.0], [1.0, -2.0, 1.0]).Totals()
         == Sums(0.0, 0.0, 1.0, 1.0, 2.0)
  {
    var xs, ys, ws := [1.0, 2.0, 3.0], [1.0, 0.0, 0.0], [1.0, -2.0, 1.0];
    AccumulateNext(xs, ys, ws, 0, 1.0, 1.0, 1.0, Sums(0.0, 0.0, 0.0, 0.0, 0.0));
    AccumulateNext(xs, ys, ws, 1, 2.0, 0.0, -2.0, Sums(1.0, 1.0, 1.0, 1.0, 1.0));
    AccumulateNext(xs, ys, ws, 2, 3.0, 0.0, 1.0, Sums(-1.0, -3.0, 1.0, 1.0, -7.0));
  }

  /** A zero divisor need not come with any solution: for that estimator the
      fit returns no line and no line solves the normal equations. */
  lemma DegenerateMayHaveNoSolution()
    ensures Wls([1.0, 2.0, 3.0], [1.0, 0.0, 0.0], [1.0, -2.0, 1.0]).CanFit()
    ensures Wls([1.0, 2.0, 3.0], [1.0, 0.0, 0.0], [1.0, -2.0, 1.0]).Fit() == None
    ensures forall a: real, b: real :: !SolvesNormalEquations(Sums(0.0, 0.0, 1.0, 1.0, 2.0), a, b)
  {
    NoSolutionSums();
    NoSolutionDivisor(Sums(0.0, 0.0, 1.0, 1.0, 2.0));
  }

  /** Sums with zero weight sum and zero weighted x sum but a nonzero weighted
      y sum have a zero divisor and no solution: the first normal equation
      reads `0 = swy`. */
  lemma NoSolutionDivisor(s: Sums)
    requires s.sw == 0.0 && s.swx == 0.0 && s.swy != 0.0
    ensures s.InterceptDefined() && s.Divisor() == 0.0 && FitFromSums(s) == None
    ensures forall a: real, b: real :: !SolvesNormalEquations(s, a, b)
  {
    ZeroTimes(s.sw, s.swxx);
    ZeroTimes(s.swx, s.swx);
    forall a: real, b: real
      ensures !SolvesNormalEquations(s, a, b)
    {
      ZeroTimes(s.sw, a);
      ZeroTimes(s.swx, b);
      assert a * s.sw + b * s.swx == 0.0;
    }
  }

  /** The y length check as written never fails: three x values with no y
      values pass construction, and the fit would read past the end of the
      y values. The corrected check rejects them. */
  lemma AsWrittenAcceptsShortY()
    ensures NewAsWritten([1.0, 2.0, 3.0], [], None).Ok?
    ensures !NewAsWritten([1.0, 2.0, 3.0], [], None).value.InBounds()
    ensures New([1.0, 2.0, 3.0], [], None) == Err(XYSizeMismatch)
  {
  }

  /** The shared size helper admits two items, the estimator's own helper and
      therefore construction reject them. */
  lemma SharedSizeCheckAcceptsTwo()
    ensures AssertHaveSizeGreaterThanTwo([0.0, 1.0])
    ensures !HaveSizeGreaterThanTwo(2)
    ensures New([0.0, 1.0], [0.0, 1.0], None) == Err(TooFewPoints)
  {
  }

  /** The samples of the repository's test and example program. */
  const SampleX: seq<real> := [1.0, 2.0, 3.0, 4.0, 5.0, 6.0, 7.0]
  const SampleY: seq<real> := [1.0, 3.0, 4.0, 5.0, 2.0, 3.0, 4.0]
  const Ones: seq<real> := [1.0, 1.0, 1.0, 1.0, 1.0, 1.0, 1.0]
  const ExampleWeights: seq<real> := [10.0, 1.0, 3.0, 8.0, 14.0, 21.0, 13.0]

  /** The unweighted sums of the samples, one sample at a time. */
  lemma StableWeightsSums()
    ensures Wls(SampleX, SampleY, Ones).Totals() == Sums(7.0, 28.0, 95.0, 22.0, 140.0)
  {
    var xs, ys, ws := SampleX, SampleY, Ones;
    AccumulateNext(xs, ys, ws, 0, 1.0, 1.0, 1.0, Sums(0.0, 0.0, 0.0, 0.0, 0.0));
    AccumulateNext(xs, ys, ws, 1, 2.0, 3.0, 1.0, Sums(1.0, 1.0, 1.0, 1.0, 1.0));
    AccumulateNext(xs, ys, ws, 2, 3.0, 4.0, 1.0, Sums(2.0, 3.0, 7.0, 4.0, 5.0));
    AccumulateNext(xs, ys, ws, 3, 4.0, 5.0, 1.0, Sums(3.0, 6.0, 19.0, 8.0, 14.0));
    AccumulateNext(xs, ys, ws, 4, 5.0, 2.0, 1.0, Sums(4.0, 10.0, 39.0, 13.0, 30.0));
    AccumulateNext(xs, ys, ws, 5, 6.0, 3.0, 1.0, Sums(5.0, 15.0, 49.0, 15.0, 55.0));
    AccumulateNext(xs, ys, ws, 6, 7.0, 4.0, 1.0, Sums(6.0, 21.0, 67.0, 18.0, 91.0));
  }

  /** The in-file test builds its estimator with no weights: they become ones. */
  lemma StableWeightsConstruction()
    ensures New(SampleX, SampleY, None) == Ok(Wls(SampleX, SampleY, Ones))
  {
    assert PopulateWeights(7, 1.0) == Ones;
  }

  /** The closed form on the unweighted sums: intercept 15/7, slope 1/4. */
  lemma StableWeightsLine()
    ensures FitFromSums(Sums(7.0, 28.0, 95.0, 22.0, 140.0)) == Some(Points.New(15.0 / 7.0, 0.25))
  {
    FitIsUniqueSolution(Sums(7.0, 28.0, 95.0, 22.0, 140.0), 15.0 / 7.0, 0.25);
  }

  /** The in-file test: with no weights, the samples give slope exactly 1/4 and
      intercept 15/7, and both assertions of the test pass. */
  lemma StableWeightsTest()
    ensures Wls(SampleX, SampleY, Ones).CanFit()
    ensures Wls(SampleX, SampleY, Ones).Fit() == Some(Points.New(15.0 / 7.0, 0.25))
    ensures AssertAlmostEqual(2.14285714, 15.0 / 7.0, 0.000001)
    ensures AssertAlmostEqualSymmetric(2.14285714, 15.0 / 7.0, 0.000001)
  {
    StableWeightsSums();
    StableWeightsLine();
  }

  /** The example program's weighted sums, one sample at a time. */
  lemma ExampleProgramSums()
    ensures Wls(SampleX, SampleY, ExampleWeights).Totals() == Sums(70.0, 340.0, 1094.0, 208.0, 1912.0)
  {
    var xs, ys, ws := SampleX, SampleY, ExampleWeights;
    AccumulateNext(xs, ys, ws, 0, 1.0, 1.0, 10.0, Sums(0.0, 0.0, 0.0, 0.0, 0.0));
    AccumulateNext(xs, ys, ws, 1, 2.0, 3.0, 1.0, Sums(10.0, 10.0, 10.0, 10.0, 10.0));
    AccumulateNext(xs, ys, ws, 2, 3.0, 4.0, 3.0, Sums(11.0, 12.0, 16.0, 13.0, 14.0));
    AccumulateNext(xs, ys, ws, 3, 4.0, 5.0, 8.0, Sums(14.0, 21.0, 52.0, 25.0, 41.0));
    AccumulateNext(xs, ys, ws, 4, 5.0, 2.0, 14.0, Sums(22.0, 53.0, 212.0, 65.0, 169.0));
    AccumulateNext(xs, ys, ws, 5, 6.0, 3.0, 21.0, Sums(36.0, 123.0, 352.0, 93.0, 519.0));
    AccumulateNext(xs, ys, ws, 6, 7.0, 4.0, 13.0, Sums(57.0, 249.0, 730.0, 156.0, 1275.0));
  }

  /** The example program's weights pass construction unchanged. */
  lemma ExampleProgramConstruction()
    ensures New(SampleX, SampleY, Some(ExampleWeights)) == Ok(Wls(SampleX, SampleY, ExampleWeights))
  {
  }

  /** The closed form on the weighted sums: intercept 3217/2280, slope 293/912. */
  lemma ExampleProgramLine()
    ensures FitFromSums(Sums(70.0, 340.0, 1094.0, 208.0, 1912.0))
         == Some(Points.New(3217.0 / 2280.0, 293.0 / 912.0))
  {
    FitIsUniqueSolution(Sums(70.0, 340.0, 1094.0, 208.0, 1912.0), 3217.0 / 2280.0, 293.0 / 912.0);
  }

  /** The example program's weighted fit: slope 293/912, intercept 3217/2280. */
  lemma ExampleProgramFit()
    ensures Wls(SampleX, SampleY, ExampleWeights).CanFit()
    ensures Wls(SampleX, SampleY, ExampleWeights).Fit() == Some(Points.New(3217.0 / 2280.0, 293.0 / 912.0))
  {
    ExampleProgramSums();
    ExampleProgramLine();
  }
}
