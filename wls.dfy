/** The weighted least-squares estimator (src/models/wls.rs): samples, their
    weights, construction with its size checks, and the closed-form fit of a
    single-predictor line. Floating-point arithmetic is modelled over `real`. */
module WeightedLeastSquares {

  import opened Wrappers
  import opened Points

  /** Why construction fails; each stands for one panicking assertion of `Wls::new`. */
  datatype ConstructError = XYSizeMismatch | WeightsSizeMismatch | TooFewPoints

  /** The five weighted sums the fit accumulates. */
  datatype Sums = Sums(
    sw: real,    // sum of w
    swx: real,   // sum of x*w
    swxy: real,  // sum of (x*w)*y
    swy: real,   // sum of y*w
    swxx: real)  // sum of (x*w)*x
  {
    function Dividend(): real { sw * swxy - swx * swy }

    function Divisor(): real { sw * swxx - swx * swx }

    /** The intercept divides by `sw` with no guard of its own. It is defined
        when a zero weight sum comes with a zero weighted x sum: the divisor is
        then `-(swx * swx)`, zero as well, and the fit stops before dividing
        (`WeightSumNonzero`). */
    predicate InterceptDefined() { sw == 0.0 ==> swx == 0.0 }

    /** The sums with one more sample `(x, y)` of weight `w`. */
    function Add(x: real, y: real, w: real): Sums
    {
      Sums(sw + w, swx + x * w, swxy + (x * w) * y, swy + y * w, swxx + (x * w) * x)
    }

    /** Every sum multiplied by `c`. */
    function Scaled(c: real): Sums
    {
      Sums(c * sw, c * swx, c * swxy, c * swy, c * swxx)
    }
  }

  /** The sums over the first `k` samples, in the order the fit visits them. */
  function Accumulate(xs: seq<real>, ys: seq<real>, ws: seq<real>, k: nat): Sums
    requires k <= |xs| && k <= |ys| && k <= |ws|
  {
    if k == 0 then Sums(0.0, 0.0, 0.0, 0.0, 0.0)
    else Accumulate(xs, ys, ws, k - 1).Add(xs[k - 1], ys[k - 1], ws[k - 1])
  }

  /** The sums over `k + 1` samples are the sums `before` over `k` with sample
      `k` added; the sample's values and the earlier sums are given by name. */
  lemma AccumulateNext(xs: seq<real>, ys: seq<real>, ws: seq<real>, k: nat,
                       x: real, y: real, w: real, before: Sums)
    requires k < |xs| && k < |ys| && k < |ws|
    requires xs[k] == x && ys[k] == y && ws[k] == w
    requires Accumulate(xs, ys, ws, k) == before
    ensures Accumulate(xs, ys, ws, k + 1) == before.Add(x, y, w)
  {
  }

  /** Adding a sample is what the fit's loop body does, with the product
      `x * w` computed once and reused. */
  lemma AddWithProduct(s: Sums, x: real, y: real, w: real, p: real)
    requires p == x * w
    ensures s.Add(x, y, w) == Sums(s.sw + w, s.swx + p, s.swxy + p * y, s.swy + y * w, s.swxx + p * x)
  {
  }

  /** With a zero weight sum the divisor is `-(swx * swx)`. */
  lemma ZeroWeightDivisor(s: Sums)
    ensures s.sw == 0.0 ==> s.Divisor() == -(s.swx * s.swx)
    ensures s.sw == 0.0 && s.swx == 0.0 ==> s.Divisor() == 0.0
  {
    if s.sw == 0.0 {
      ZeroTimes(s.sw, s.swxx);
      if s.swx == 0.0 {
        ZeroTimes(s.swx, s.swx);
      }
    }
  }

  /** A zero factor gives a zero product. */
  lemma ZeroTimes(u: real, v: real)
    requires u == 0.0
    ensures u * v == 0.0
  {
  }

  /** Past the divisor check, the intercept's division is by a nonzero weight sum. */
  lemma WeightSumNonzero(s: Sums)
    requires s.InterceptDefined() && s.Divisor() != 0.0
    ensures s.sw != 0.0
  {
    ZeroWeightDivisor(s);
  }

  /** The closed-form fit from the sums: no line when the divisor is zero,
      otherwise the line whose slope and intercept satisfy the weighted
      normal equations (the second one is `NormalEquations`). */
  function FitFromSums(s: Sums): (r: Option<Point>)
    requires s.InterceptDefined()
    ensures r.None? <==> s.Divisor() == 0.0
    ensures r.Some? ==> r.value.GetSlope() * s.Divisor() == s.Dividend()
    ensures r.Some? ==> r.value.GetIntercept() * s.sw + r.value.GetSlope() * s.swx == s.swy
  {
    if s.Divisor() == 0.0 then None
    else
      WeightSumNonzero(s);
      var slope := s.Dividend() / s.Divisor();
      var intercept := (s.swy - slope * s.swx) / s.sw;
      Some(Points.New(intercept, slope))
  }

  /** The estimator. Its fields are fixed once it is built. */
  datatype Wls = Wls(xPoints: seq<real>, yPoints: seq<real>, weights: seq<real>)
  {
    /** What a successful `New` guarantees. */
    predicate Valid()
    {
      |yPoints| == |xPoints| && |weights| == |xPoints| && |xPoints| > 2
    }

    /** The fit reads `yPoints[i]` and `weights[i]` for every index `i` of `xPoints`. */
    predicate InBounds()
    {
      |yPoints| >= |xPoints| && |weights| >= |xPoints|
    }

    /** The sums over all samples. */
    function Totals(): Sums
      requires InBounds()
    {
      Accumulate(xPoints, yPoints, weights, |xPoints|)
    }

    /** What the fit needs: every index readable and the intercept defined. */
    predicate CanFit()
    {
      InBounds() && Totals().InterceptDefined()
    }

    /** The value `fit_linear_regression` returns. */
    function Fit(): Option<Point>
      requires CanFit()
    {
      FitFromSums(Totals())
    }

    /** `fit_linear_regression`: one pass accumulating the five sums, then the
        closed form of `FitFromSums`: `None` on a zero divisor, otherwise the line. */
    method FitLinearRegression() returns (r: Option<Point>)
      requires CanFit()
      ensures r == Fit()
      ensures r.None? <==> Totals().Divisor() == 0.0
    {
      var sumOfWeights := 0.0;
      var sumOfProductsOfWeightsAndXSquared := 0.0;
      var sumOfProductsOfXAndYAndWeights := 0.0;
      var sumOfProductsOfXiAndWi := 0.0;
      var sumOfProductsOfYAndWeights := 0.0;

      for i := 0 to |xPoints|
        invariant Sums(sumOfWeights, sumOfProductsOfXiAndWi, sumOfProductsOfXAndYAndWeights,
                       sumOfProductsOfYAndWeights, sumOfProductsOfWeightsAndXSquared)
               == Accumulate(xPoints, yPoints, weights, i)
      {
        var xi := xPoints[i];
        var yi := yPoints[i];
        var wi := weights[i];

        sumOfWeights := sumOfWeights + wi;
        var productOfXiAndWi := xi * wi;
        sumOfProductsOfXiAndWi := sumOfProductsOfXiAndWi + productOfXiAndWi;
        sumOfProductsOfXAndYAndWeights := sumOfProductsOfXAndYAndWeights + productOfXiAndWi * yi;
        sumOfProductsOfYAndWeights := sumOfProductsOfYAndWeights + yi * wi;
        sumOfProductsOfWeightsAndXSquared := sumOfProductsOfWeightsAndXSquared + productOfXiAndWi * xi;
        AddWithProduct(Accumulate(xPoints, yPoints, weights, i), xi, yi, wi, productOfXiAndWi);
        AccumulateNext(xPoints, yPoints, weights, i, xi, yi, wi, Accumulate(xPoints, yPoints, weights, i));
      }

      var sums := Sums(sumOfWeights, sumOfProductsOfXiAndWi, sumOfProductsOfXAndYAndWeights,
                       sumOfProductsOfYAndWeights, sumOfProductsOfWeightsAndXSquared);
      r := FitFromSums(sums);
    }
  }

  /** `populate_weights`: `capacity` copies of `value`. */
  function PopulateWeights(capacity: nat, value: real): (r: seq<real>)
    ensures |r| == capacity
    ensures forall i | 0 <= i < capacity :: r[i] == value
  {
    seq(capacity, _ => value)
  }

  /** The local `assert_have_same_size` of the estimator, on two lengths. */
  function HaveSameSize(sizeOne: nat, sizeTwo: nat): (passes: bool)
    ensures passes <==> sizeOne == sizeTwo
  {
    sizeOne == sizeTwo
  }

  /** The local `assert_have_size_greater_than_two`: at least three points. */
  function HaveSizeGreaterThanTwo(size: nat): (passes: bool)
    ensures passes <==> size >= 3
  {
    size > 2
  }

  /** The checks of `Wls::new` in their order, with the length compared against
      `xPoints` for the y check passed in as `ySize`. Supplied weights are
      stored as given; missing weights become ones. */
  function Build(xPoints: seq<real>, yPoints: seq<real>, weights: Option<seq<real>>, ySize: nat)
    : (r: Result<Wls, ConstructError>)
    ensures r.Ok? <==>
      ySize == |xPoints| && (weights.Some? ==> |weights.value| == |xPoints|) && |xPoints| > 2
    ensures r == Err(XYSizeMismatch) <==> ySize != |xPoints|
    ensures r == Err(WeightsSizeMismatch) <==>
      ySize == |xPoints| && weights.Some? && |weights.value| != |xPoints|
    ensures r == Err(TooFewPoints) <==>
      ySize == |xPoints| && (weights.Some? ==> |weights.value| == |xPoints|) && |xPoints| <= 2
    ensures r.Ok? ==> r.value.xPoints == xPoints && r.value.yPoints == yPoints
    ensures r.Ok? ==> |r.value.weights| == |xPoints|
    ensures r.Ok? && weights.Some? ==> r.value.weights == weights.value
    ensures r.Ok? && weights.None? ==> forall i | 0 <= i < |xPoints| :: r.value.weights[i] == 1.0
  {
    if !HaveSameSize(|xPoints|, ySize) then Err(XYSizeMismatch)
    else if weights.Some? && !HaveSameSize(|xPoints|, |weights.value|) then Err(WeightsSizeMismatch)
    else if !HaveSizeGreaterThanTwo(|xPoints|) then Err(TooFewPoints)
    else
      var weightsNormalized := if weights.Some? then weights.value else PopulateWeights(|xPoints|, 1.0);
      Ok(Wls(xPoints, yPoints, weightsNormalized))
  }

  /** `Wls::new` as it evidently means to be: the y check compares the lengths of
      `xPoints` and `yPoints`, so every estimator it builds is valid. */
  function New(xPoints: seq<real>, yPoints: seq<real>, weights: Option<seq<real>>)
    : (r: Result<Wls, ConstructError>)
    ensures r.Ok? <==>
      |yPoints| == |xPoints| && (weights.Some? ==> |weights.value| == |xPoints|) && |xPoints| > 2
    ensures r.Ok? ==> r.value.Valid() && r.value.InBounds()
  {
    Build(xPoints, yPoints, weights, |yPoints|)
  }

  /** `Wls::new` as written: the y length is read from `xPoints`, so the y check
      compares a length with itself and never fails. */
  function NewAsWritten(xPoints: seq<real>, yPoints: seq<real>, weights: Option<seq<real>>)
    : (r: Result<Wls, ConstructError>)
    ensures r.Ok? <==> (weights.Some? ==> |weights.value| == |xPoints|) && |xPoints| > 2
    ensures r != Err(XYSizeMismatch)
  {
    Build(xPoints, yPoints, weights, |xPoints|)
  }
}
