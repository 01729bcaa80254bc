/** The shared checking helpers of the library (src/asserts/assert.rs).
    In the library each helper panics when its check fails, and the helpers on
    values and slices are generic over a floating-point type (`assert_true`
    takes a `bool`); here each one returns whether it passes, over `real`. */
module Asserts {

  /** The magnitude of a difference. */
  function Abs(d: real): (r: real)
    ensures r >= 0.0 && (r == d || r == -d)
  {
    if d < 0.0 then -d else d
  }

  /** `assert_almost_equal`: passes when `actual` lies above `expected - delta`.
      The check bounds `actual` from below only, so any overshoot passes. */
  function AssertAlmostEqual(expected: real, actual: real, delta: real): (passes: bool)
    ensures passes <==> actual > expected - delta
    ensures delta > 0.0 && actual >= expected ==> passes
  {
    delta > expected - actual
  }

  /** The tolerance check `assert_almost_equal` evidently means: `actual` lies
      strictly within `delta` of `expected`, on either side. */
  function AssertAlmostEqualSymmetric(expected: real, actual: real, delta: real): (passes: bool)
    ensures passes <==> expected - delta < actual < expected + delta
    ensures passes ==> AssertAlmostEqual(expected, actual, delta)
  {
    Abs(expected - actual) < delta
  }

  /** `assert_true`: passes exactly when the condition holds. */
  function AssertTrue(condition: bool): (passes: bool)
    ensures passes <==> condition
  {
    condition
  }

  /** `assert_have_same_size`: compares the two lengths; the elements play no part. */
  function AssertHaveSameSize(items1: seq<real>, items2: seq<real>): (passes: bool)
    ensures passes <==> |items1| == |items2|
  {
    |items1| == |items2|
  }

  /** `assert_have_size_greater_than_two`: despite its name it admits exactly two items. */
  function AssertHaveSizeGreaterThanTwo(items: seq<real>): (passes: bool)
    ensures passes <==> |items| >= 2
    ensures |items| == 2 ==> passes
  {
    |items| >= 2
  }

  /** Overshooting the expected value by any amount passes the one-sided check,
      while the symmetric check rejects it. */
  lemma AlmostEqualAcceptsOvershoot()
    ensures AssertAlmostEqual(0.0, 1000000.0, 0.000001)
    ensures !AssertAlmostEqualSymmetric(0.0, 1000000.0, 0.000001)
  {
  }

  /** The symmetric check does not depend on which value is called expected. */
  lemma AlmostEqualSymmetricSwaps(expected: real, actual: real, delta: real)
    ensures AssertAlmostEqualSymmetric(expected, actual, delta)
        == AssertAlmostEqualSymmetric(actual, expected, delta)
  {
  }
}
