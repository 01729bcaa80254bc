# Weighted least-squares line fit, modelled in Dafny

The library fits one straight line `y = intercept + slope * x` to paired samples
`(x, y)` by weighted least squares. An estimator (`Wls`) is built from the x
values, the y values and optional weights. Construction checks the sizes, and
missing weights become ones. The fit makes one pass over the samples to build
five weighted sums. It then applies the closed-form single-predictor formula.
It returns no line when the divisor of that formula is zero, and otherwise a
`Point` holding the intercept and the slope.

The model has five files:

- `wrappers.dfy`: `Option` and `Result`.
- `asserts.dfy` (module `Asserts`): the shared checking helpers of
  `src/asserts/assert.rs`. Each one returns whether it passes instead of
  panicking.
- `points.dfy` (module `Points`): the immutable `Point` of
  `src/models/point.rs`. It is a datatype, so nothing can change it after
  `New`, and its getters return the same value on every read.
- `wls.dfy` (module `WeightedLeastSquares`): the estimator of
  `src/models/wls.rs`.
  - `Wls` is a datatype, because its fields never change after construction.
  - `Build`, `New` and `NewAsWritten` model `Wls::new`. A failed assertion
    becomes an `Err` that names the check.
  - `Accumulate` is the recursive definition of the five sums over the first
    `k` samples.
  - `FitFromSums` is the closed form.
  - `Wls.FitLinearRegression` is the method with the accumulation loop. Its
    invariant keeps the five accumulators equal to `Accumulate` over the
    samples visited so far.
- `wls_properties.dfy` (module `WlsProperties`): lemmas about the fit.
  - The fitted line solves the weighted normal equations, and it is their
    only solution when the divisor is nonzero.
  - With a zero divisor no solution of the normal equations is unique: beside
    any solution there is another. Negative weights can also leave no solution at all.
  - Identical x values always give no line.
  - Scaling all weights by a nonzero constant changes nothing.
  - Positive or default weights make the intercept division defined.
  - The repository's fixtures come out exactly.

All arithmetic is over `real`.

`Wls::new` as written in src/models/wls.rs does not compile:

- `weights` is used after it is moved (lines 29-30).
- `is_empty()` is called on an `Option` (line 34).

The model follows the evident data flow. Supplied weights must have the length
of the x values and are stored as given. Missing weights become `|x|` copies
of `1.0`.

## Model

| member | source | states |
|---|---|---|
| `Asserts.AssertAlmostEqual` | src/asserts/assert.rs:4-6 | passes exactly when `actual > expected - delta`; with a positive delta every `actual >= expected` passes, however far above |
| `Asserts.AssertAlmostEqualSymmetric` | src/asserts/assert.rs:4-6 | corrected check: passes exactly when `actual` lies strictly within `delta` of `expected` on either side; whatever passes it also passes the one-sided check |
| `Asserts.AlmostEqualAcceptsOvershoot` | src/asserts/assert.rs:4-6 | an `actual` one million above `expected` passes the one-sided check with `delta = 0.000001` and fails the corrected one |
| `Asserts.AlmostEqualSymmetricSwaps` | src/asserts/assert.rs:4-6 | the corrected check gives the same answer with `expected` and `actual` exchanged |
| `Asserts.AssertTrue` | src/asserts/assert.rs:9-11 | passes exactly when the condition holds |
| `Asserts.AssertHaveSameSize` | src/asserts/assert.rs:13-15 | passes exactly when the two slices have equal length, whatever their elements |
| `Asserts.AssertHaveSizeGreaterThanTwo` | src/asserts/assert.rs:17-19 | passes exactly when the slice has at least two items, so a two-item slice passes |
| `Points.New` | src/models/point.rs:12-14 | `GetIntercept` returns the first argument and `GetSlope` the second |
| `Points.Point.GetIntercept` | src/models/point.rs:17-19 | returns the stored intercept |
| `Points.Point.GetSlope` | src/models/point.rs:22-24 | returns the stored slope |
| `WeightedLeastSquares.PopulateWeights` | src/models/wls.rs:9-11 | `capacity` elements, each equal to `value` |
| `WeightedLeastSquares.HaveSameSize` | src/models/wls.rs:13-15 | passes exactly when the two sizes are equal |
| `WeightedLeastSquares.HaveSizeGreaterThanTwo` | src/models/wls.rs:17-19 | passes exactly when there are at least three points |
| `WeightedLeastSquares.Build` | src/models/wls.rs:22-42 | succeeds exactly when the y check, the weights check and the more-than-two check all pass; the first failing check, in source order, names the error; on success x and y are stored unchanged, supplied weights are stored as given and missing weights become ones of the x length |
| `WeightedLeastSquares.New` | src/models/wls.rs:22-42 | corrected constructor: succeeds exactly when `\|y\| = \|x\|`, supplied weights have length `\|x\|` and `\|x\| > 2`; every estimator it builds is valid and lets the fit read every index |
| `WeightedLeastSquares.NewAsWritten` | src/models/wls.rs:22-42 | as written: success depends only on the weights length and `\|x\| > 2`; the y length plays no part and the size-mismatch error never arises |
| `WeightedLeastSquares.ZeroWeightDivisor` | src/models/wls.rs:71-72 | with a zero weight sum the divisor is `-(Swx*Swx)`, zero when `Swx` is zero too |
| `WeightedLeastSquares.WeightSumNonzero` | src/models/wls.rs:71-78 | on sums where the intercept is defined, a nonzero divisor comes with a nonzero weight sum, so the intercept's division is by nonzero |
| `WeightedLeastSquares.FitFromSums` | src/models/wls.rs:69-79 | no line exactly when `Sw*Swxx - Swx*Swx = 0`; otherwise `slope * divisor = dividend` and `intercept * Sw + slope * Swx = Swy`, read through `GetSlope` and `GetIntercept`, so the point holds intercept first and slope second |
| `WeightedLeastSquares.Wls.FitLinearRegression` | src/models/wls.rs:44-80 | returns `FitFromSums` of the five sums over all samples; the loop keeps the accumulators equal to the sums of the samples visited; `None` exactly when the divisor of those sums is zero |
| `WlsProperties.NormalEquations` | src/models/wls.rs:69-79 | the fitted line solves both weighted normal equations, `a*Sw + b*Swx = Swy` and `a*Swx + b*Swxx = Swxy` |
| `WlsProperties.FitIsUniqueSolution` | src/models/wls.rs:69-79 | with a nonzero divisor, any solution of the normal equations is the fitted line |
| `WlsProperties.DegenerateSolutionFamily` | src/models/wls.rs:73-75 | with a zero divisor, every solution `(a, b)` gives the solutions `(a - t*Swx, b + t*Sw)` for every `t` |
| `WlsProperties.DegenerateHasManySolutions` | src/models/wls.rs:73-75 | with a zero divisor, beside every solution `(a, b)` there is a different one, so no line is unique; this covers `Sw = Swx = 0`, where the family above is a single point |
| `WlsProperties.NoSolutionDivisor` | src/models/wls.rs:69-75 | with `Sw = Swx = 0` and `Swy != 0` the divisor is zero, the fit returns `None` and no line solves the normal equations, since the first reads `0 = Swy` |
| `WlsProperties.NoSolutionSums` | src/models/wls.rs:22-67 | x = 1, 2, 3, y = 1, 0, 0 and weights 1, -2, 1 pass construction and give `Sw = Swx = 0`, `Swxy = Swy = 1`, `Swxx = 2` |
| `WlsProperties.DegenerateMayHaveNoSolution` | src/models/wls.rs:69-75 | that estimator meets the fit's requirement, the fit returns `None`, and no line solves its normal equations |
| `WlsProperties.AddConstantX` | src/models/wls.rs:61-66 | one loop step with x = `c` keeps `Swx = c*Sw` and `Swxx = c*c*Sw` |
| `WlsProperties.ConstantXSums` | src/models/wls.rs:56-67 | when every x equals `c`, `Swx = c*Sw` and `Swxx = c*c*Sw` |
| `WlsProperties.ConstantXHasNoFit` | src/models/wls.rs:69-75 | identical x values give a zero divisor, and the fit returns `None` for any y and weights |
| `WlsProperties.AddScaled` | src/models/wls.rs:57-66 | one loop step with weight `w*c` on sums scaled by `c` equals the step with weight `w` followed by scaling |
| `WlsProperties.AccumulateScaled` | src/models/wls.rs:56-67 | scaling every weight by `c` scales each of the five sums by `c` |
| `WlsProperties.DivisorScaled` | src/models/wls.rs:71-72 | scaling all five sums by `c` scales the divisor by `c*c` |
| `WlsProperties.DividendScaled` | src/models/wls.rs:69-70 | scaling all five sums by `c` scales the dividend by `c*c` |
| `WlsProperties.NormalEquationsScaled` | src/models/wls.rs:69-79 | a solution of the normal equations of some sums also solves those of the sums scaled by any `c` |
| `WlsProperties.FitFromSumsScaled` | src/models/wls.rs:69-79 | scaling all sums by a nonzero `c` keeps the intercept defined and leaves the closed form's result unchanged |
| `WlsProperties.WeightScaleInvariance` | src/models/wls.rs:44-80 | multiplying every weight by the same nonzero constant changes neither whether a line is found nor its slope and intercept |
| `WlsProperties.PositiveWeightSum` | src/models/wls.rs:61 | positive weights over at least one sample have a positive sum |
| `WlsProperties.PositiveWeightsCanFit` | src/models/wls.rs:71-78 | with positive weights the division by the weight sum is always defined |
| `WlsProperties.ValidPositiveWeightsCanFit` | src/models/wls.rs:56-78 | an estimator that meets `New`'s guarantee and has positive weights meets the fit's requirement |
| `WlsProperties.DefaultWeights` | src/models/wls.rs:33-36 | omitting the weights builds the same estimator as passing `\|x\|` ones, and that estimator can always be fitted |
| `WlsProperties.InterceptDefinedMeans` | src/models/wls.rs:71-78 | the intercept is defined exactly when a nonzero divisor comes with a nonzero weight sum |
| `WlsProperties.ZeroWeightSumBreaksIntercept` | src/models/wls.rs:71-78 | weights summing to zero with `Swx != 0` give the negative divisor `-(Swx*Swx)`, so the intercept divides by zero |
| `WlsProperties.NegativeWeightsPassConstruction` | src/models/wls.rs:28-32 | weights 1, -1 and 0 pass construction: their signs are never checked |
| `WlsProperties.ZeroWeightSumExample` | src/models/wls.rs:56-67 | for x = 1, 2, 3 and those weights, `Sw = 0` and `Swx = -1` |
| `WlsProperties.UnguardedInterceptDivision` | src/models/wls.rs:71-78 | that estimator has divisor -1 and weight sum 0, so the unguarded intercept division is reached |
| `WlsProperties.AsWrittenAcceptsShortY` | src/models/wls.rs:23-27 | three x values and no y values pass the constructor as written, and the fit would read past the y values; the corrected constructor rejects them |
| `WlsProperties.SharedSizeCheckAcceptsTwo` | src/asserts/assert.rs:17-19 | a two-item slice passes the shared helper, and the estimator's own helper and construction reject two points |
| `WlsProperties.StableWeightsSums` | src/models/wls.rs:89-91 | the estimator of the test samples with unit weights has the totals `Sw = 7`, `Swx = 28`, `Swxy = 95`, `Swy = 22`, `Swxx = 140` |
| `WlsProperties.StableWeightsConstruction` | src/models/wls.rs:89-91 | the test's construction without weights stores seven ones |
| `WlsProperties.StableWeightsLine` | src/models/wls.rs:69-79 | the closed form on those totals is the line with intercept 15/7 and slope 1/4 |
| `WlsProperties.StableWeightsTest` | src/models/wls.rs:88-95 | the test's fit gives slope exactly 1/4 and intercept 15/7, and both of the test's assertions pass |
| `WlsProperties.ExampleProgramConstruction` | examples/weighted.rs:4-8 | the example's seven weights pass construction and are stored as given |
| `WlsProperties.ExampleProgramSums` | examples/weighted.rs:4-8 | the example's estimator has the totals `Sw = 70`, `Swx = 340`, `Swxy = 1094`, `Swy = 208`, `Swxx = 1912` |
| `WlsProperties.ExampleProgramLine` | src/models/wls.rs:69-79 | the closed form on those totals is the line with intercept 3217/2280 and slope 293/912 |
| `WlsProperties.ExampleProgramFit` | examples/weighted.rs:4-9 | the example's weighted fit gives slope 293/912 and intercept 3217/2280 |

## Left out

- IEEE-754 `f64` behaviour is not modelled: rounding of the sums, the exact `== 0.0` test on rounded values, and infinities or NaN from a division. Everything is over `real`. The exact results of the fixtures hold in reals.
- The assertion helpers and the constructor's checks do not panic. A helper returns `false` and the constructor returns an `Err` naming the failed check.
- Genericity over `num_traits::float::FloatCore` is not modelled. The helpers take `real`.
- Rust ownership, moves and the two compile errors in `Wls::new` are not modelled. The model follows the evident data flow.
- `#[derive(Debug)]` on `Point` is not modelled. The `println!` output of examples/weighted.rs is not modelled either; only its data is used, as a fixture.
- `WeightedLeastSquares.Wls.FitLinearRegression`: requires `CanFit()`. This means `y` and the weights are at least as long as `x`; where the source would panic on an out-of-range index, the model needs this instead. It also means that a zero weight sum comes with a zero weighted x sum. `InterceptDefinedMeans` shows this is exactly the condition that a nonzero divisor comes with a nonzero weight sum. The source divides by a zero weight sum unguarded and yields a non-finite intercept, which has no `real` value. `UnguardedInterceptDivision` exhibits that case. `PositiveWeightsCanFit` and `DefaultWeights` show that positive or omitted weights always meet the requirement.
- `WeightedLeastSquares.FitFromSums`: requires the same condition on its sums, for the same reason.
- The fit is a pure read. The method's result is fixed by its inputs (`r == Fit()`), so repeated calls agree. Concurrency is not modelled.

## Findings

| source | as written | input that shows it | evidently intended | confidence | as-written member | corrected member |
|---|---|---|---|---|---|---|
| src/models/wls.rs:24 | `y_points_size` is read from `x_points`, so the check at line 27 compares the x length with itself | x = [1, 2, 3], y = [], no weights: construction succeeds and the fit reads `y_points[0]` | compare the lengths of `x_points` and `y_points` | high, not executed | `WeightedLeastSquares.NewAsWritten` (shown by `WlsProperties.AsWrittenAcceptsShortY`) | `WeightedLeastSquares.New` |
| src/asserts/assert.rs:18 | `assert_have_size_greater_than_two` tests `len >= 2` | a slice of two items passes | `len > 2`, as the name says and as the estimator's own helper at src/models/wls.rs:18 does | medium, not executed | `Asserts.AssertHaveSizeGreaterThanTwo` (shown by `WlsProperties.SharedSizeCheckAcceptsTwo`) | `WeightedLeastSquares.HaveSizeGreaterThanTwo` |
| src/asserts/assert.rs:5 | `assert_almost_equal` tests only `delta > expected - actual` | expected 0, actual 1000000, delta 0.000001 passes | `actual` within `delta` of `expected` on both sides | medium, not executed | `Asserts.AssertAlmostEqual` (shown by `Asserts.AlmostEqualAcceptsOvershoot`) | `Asserts.AssertAlmostEqualSymmetric` |
