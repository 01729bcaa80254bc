/** The result of a fit (src/models/point.rs): an immutable intercept and slope. */
module Points {

  /** The fitted line. A value: nothing can change it after `New`. */
  datatype Point = Point(intercept: real, slope: real) {

    /** `get_intercept`: the stored intercept. */
    function GetIntercept(): (r: real)
      ensures r == intercept
    {
      intercept
    }

    /** `get_slope`: the stored slope. */
    function GetSlope(): (r: real)
      ensures r == slope
    {
      slope
    }
  }

  /** `Point::new(intercept, slope)`: the getters give back the arguments in order. */
  function New(intercept: real, slope: real): (p: Point)
    ensures p.GetIntercept() == intercept && p.GetSlope() == slope
  {
    Point(intercept, slope)
  }
}
