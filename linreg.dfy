/** The `LinearRegression` object: validated construction, the fields set one after another
    by the constructor, the loops that compute the slope and R², and `predict`. */
module LinReg {
  import opened Stats
  import opened Regression

  /** The two ways construction fails; both surface as Python's `ValueError`. */
  datatype Error =
    | EmptyAxes         // "axes cannot be empty"
    | ShapesNotAligned  // `np.dot` refuses vectors of different lengths

  datatype Result<T> = Ok(value: T) | Err(error: Error)

  /** A simple (one-predictor) least-squares regression over the points (xAxis[i], yAxis[i]). */
  class LinearRegression {
    var xAxis: seq<real>
    var yAxis: seq<real>
    var beta: Quantity
    var inty: Quantity
    var domain: (real, real)
    var range: (real, real)
    var rSquare: Quantity
    var rSquareAdj: Quantity

    /** The fitted line is in place: what `predict` needs. */
    ghost predicate LineValid()
      reads this
    {
      && |xAxis| == |yAxis| > 0
      && beta == Slope(xAxis, yAxis)
      && inty == Intercept(xAxis, yAxis, beta)
    }

    /** Every field holds what the constructor computes from the two axes. */
    ghost predicate Valid()
      reads this
    {
      && LineValid()
      && Fit(beta, inty, domain, range, rSquare, rSquareAdj) == FitOf(xAxis, yAxis)
    }

    /** Sets the fields in the order the source does; each step reads the ones before it. */
    constructor (x: seq<real>, y: seq<real>)
      requires |x| == |y| > 0
      ensures xAxis == x && yAxis == y
      ensures Valid()
    {
      xAxis := x;
      yAxis := y;
      new;
      beta := CalculateBeta();
      inty := Intercept(xAxis, yAxis, beta);
      domain := (Min(x), Max(x));
      range := (Min(y), Max(y));
      rSquare := CalcRSquare();
      rSquareAdj := RSquareAdj(|xAxis|, rSquare);
    }

    /** Construction with the source's error paths: empty axes first, then mismatched lengths. */
    static method Create(x: seq<real>, y: seq<real>) returns (r: Result<LinearRegression>)
      ensures r == Err(EmptyAxes) <==> |x| == 0 || |y| == 0
      ensures r == Err(ShapesNotAligned) <==> |x| > 0 && |y| > 0 && |x| != |y|
      ensures r.Ok? ==> fresh(r.value) && r.value.xAxis == x && r.value.yAxis == y && r.value.Valid()
    {
      if |x| == 0 || |y| == 0 {
        return Err(EmptyAxes);
      }
      if |x| != |y| {
        return Err(ShapesNotAligned);
      }
      var lr := new LinearRegression(x, y);
      return Ok(lr);
    }

    /** Covariance over x-variance, from deviation lists built element by element. */
    method CalculateBeta() returns (b: Quantity)
      requires |xAxis| == |yAxis| > 0
      ensures b == Slope(xAxis, yAxis)
    {
      var xBar := Sum(xAxis) / (|xAxis| as real);
      var xErr: seq<real> := [];
      for i := 0 to |xAxis|
        invariant xErr == Deviations(xAxis)[..i]
      {
        xErr := xErr + [xAxis[i] - xBar];
      }
      var yBar := Sum(yAxis) / (|yAxis| as real);
      var yErr: seq<real> := [];
      for i := 0 to |yAxis|
        invariant yErr == Deviations(yAxis)[..i]
      {
        yErr := yErr + [yAxis[i] - yBar];
      }
      assert xErr == Deviations(xAxis) && yErr == Deviations(yAxis);
      var covXY := Dot(xErr, yErr);
      var varX := SumOfSquares(xErr);
      b := Quotient(covXY, varX);
    }

    /** 1 − SSres/SStot, accumulating the squared prediction errors and squared deviations
        point by point. A NaN coefficient makes every prediction, and so the result, NaN. */
    method CalcRSquare() returns (r: Quantity)
      requires LineValid()
      ensures r == RSquare(xAxis, yAxis, beta, inty)
    {
      if beta.NaN? || inty.NaN? {
        return NaN;
      }
      ghost var res := Residuals(xAxis, yAxis, beta.value, inty.value);
      ghost var dy := Deviations(yAxis);
      var yBar := Sum(yAxis) / (|yAxis| as real);
      var ssReg: seq<real> := [];
      var ssTotal: seq<real> := [];
      for i := 0 to |yAxis|
        invariant ssReg == Products(res, res)[..i]
        invariant ssTotal == Products(dy, dy)[..i]
      {
        assert LineAt(beta, inty, xAxis[i]) == Defined(beta.value * xAxis[i] + inty.value);
        assert Predict(xAxis[i]) == LineAt(beta, inty, xAxis[i]);
        var yHat := Predict(xAxis[i]).value;
        var e, d := yAxis[i] - yHat, yAxis[i] - yBar;
        SquaresPrefixStep(res, i, e);
        SquaresPrefixStep(dy, i, d);
        ssReg := ssReg + [e * e];
        ssTotal := ssTotal + [d * d];
      }
      assert ssReg == Products(res, res) && ssTotal == Products(dy, dy);
      r := OneMinus(Quotient(Sum(ssReg), Sum(ssTotal)));
    }

    /** The regression line at `v`: defined exactly when the x values have spread, and then it is
        the line through the point of means with gradient β. */
    function Predict(v: real): (r: Quantity)
      reads this
      requires LineValid()
      ensures r.Defined? <==> !AllEqual(xAxis)
      ensures r.Defined? ==> beta.Defined? && r.value == Mean(yAxis) + beta.value * (v - Mean(xAxis))
    {
      SlopeDefinedIff(xAxis, yAxis);
      if !AllEqual(xAxis) then
        LineThroughMeans(xAxis, yAxis, v);
        LineAt(beta, inty, v)
      else LineAt(beta, inty, v)
    }

    /** The prediction at the mean of x is the mean of y. */
    lemma PredictAtMean()
      requires LineValid() && !AllEqual(xAxis)
      ensures Predict(Mean(xAxis)) == Defined(Mean(yAxis))
    {
    }

    /** `predict` is affine: it maps a weighted average of two inputs to the same weighted
        average of the two predictions, wherever the inputs lie. */
    lemma PredictAffine(u: real, v: real, t: real)
      requires LineValid() && !AllEqual(xAxis)
      ensures Predict(t * u + (1.0 - t) * v).value
           == t * Predict(u).value + (1.0 - t) * Predict(v).value
    {
      SlopeDefinedIff(xAxis, yAxis);
      var b, mx, my := beta.value, Mean(xAxis), Mean(yAxis);
      calc {
        Predict(t * u + (1.0 - t) * v).value;
        == my + b * (t * u + (1.0 - t) * v - mx);
        == t * (my + b * (u - mx)) + (1.0 - t) * (my + b * (v - mx));
        == t * Predict(u).value + (1.0 - t) * Predict(v).value;
      }
    }
  }
}
