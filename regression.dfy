/**
 * The closed forms of a one-predictor ordinary-least-squares fit, in exact
 * real arithmetic, and what they guarantee.
 *
 * Each division that can meet a zero divisor (lines 72, 105 and 116 of
 * regpy/linreg.py) is a numpy float64 division, which never raises: a zero
 * denominator yields NaN (0/0) or an infinity (nonzero/0). The means divide by
 * the length of a non-empty axis, which is never zero. The model
 * keeps the NaN as `Quantity.NaN` and proves that, over exact reals, each
 * zero denominator comes with a zero numerator, so no infinity can arise.
 */
module Regression {
  import opened Stats

  /** A float computed by the fit: an exact real, or NaN. */
  datatype Quantity = Defined(value: real) | NaN

  /**
   * `n / d` over exact reals, with every zero divisor mapped to NaN. float64 division gives NaN
   * only for 0/0 and ±inf for a nonzero numerator over zero; at the three divisions of the fit
   * the numerator is zero whenever the divisor is (`SlopeIsZeroOverZero`, `RSquareIsZeroOverZero`,
   * `RSquareAdjDefinedIff`), so there the model agrees with numpy.
   */
  function Quotient(n: real, d: real): (q: Quantity)
    ensures q.Defined? <==> d != 0.0
  {
    if d == 0.0 then NaN else Defined(n / d)
  }

  /** `1 - q`, NaN staying NaN. */
  function OneMinus(q: Quantity): Quantity
  {
    match q
    case NaN => NaN
    case Defined(v) => Defined(1.0 - v)
  }

  /** Σ(xᵢ − x̄)(yᵢ − ȳ), the covariance numerator. */
  function Sxy(x: seq<real>, y: seq<real>): real
    requires |x| == |y| > 0
  {
    Dot(Deviations(x), Deviations(y))
  }

  /** Σ(xᵢ − x̄)², the variance numerator (the total sum of squares for y). */
  function Sxx(x: seq<real>): real
    requires |x| > 0
  {
    SumOfSquares(Deviations(x))
  }

  /** The slope coefficient: covariance over variance of the deviations. A defined slope solves
      the least-squares normal equation β·Sxx = Sxy; a NaN one comes from 0/0, never from a
      nonzero covariance over a zero spread. */
  function Slope(x: seq<real>, y: seq<real>): (r: Quantity)
    requires |x| == |y| > 0
    ensures r.Defined? ==> r.value * Sxx(x) == Sxy(x, y)
    ensures r.NaN? ==> Sxx(x) == 0.0 && Sxy(x, y) == 0.0
  {
    if Sxx(x) == 0.0 then
      SlopeIsZeroOverZero(x, y);
      NaN
    else
      Quotient(Sxy(x, y), Sxx(x))
  }

  /** The y-intercept ȳ − β·x̄; a NaN slope makes it NaN. The line with this intercept passes
      through the point of means (x̄, ȳ). */
  function Intercept(x: seq<real>, y: seq<real>, beta: Quantity): (r: Quantity)
    requires |x| > 0 && |y| > 0
    ensures r.Defined? <==> beta.Defined?
    ensures r.Defined? ==> beta.value * Mean(x) + r.value == Mean(y)
  {
    match beta
    case NaN => NaN
    case Defined(b) => Defined(Mean(y) - b * Mean(x))
  }

  /** The regression line β·v + a evaluated at `v`: NaN if either coefficient is, and at
      v = 0 the intercept itself. */
  function LineAt(beta: Quantity, inty: Quantity, v: real): (r: Quantity)
    ensures r.Defined? <==> beta.Defined? && inty.Defined?
    ensures r.Defined? && v == 0.0 ==> r.value == inty.value
  {
    match (beta, inty)
    case (Defined(b), Defined(a)) => Defined(b * v + a)
    case _ => NaN
  }

  /** The prediction errors yᵢ − (b·xᵢ + a). */
  function Residuals(x: seq<real>, y: seq<real>, b: real, a: real): seq<real>
    requires |x| == |y|
  {
    seq(|x|, i requires 0 <= i < |x| => y[i] - (b * x[i] + a))
  }

  /** The residual sum of squares of the line (b, a). */
  function ResidualSquares(x: seq<real>, y: seq<real>, b: real, a: real): real
    requires |x| == |y|
  {
    SumOfSquares(Residuals(x, y, b, a))
  }

  /** The coefficient of determination 1 − SSres/SStot; NaN propagates. For any line it is at
      most 1, and with both coefficients defined it is NaN only when y has no spread. */
  function RSquare(x: seq<real>, y: seq<real>, beta: Quantity, inty: Quantity): (r: Quantity)
    requires |x| == |y| > 0
    ensures r.Defined? ==> beta.Defined? && inty.Defined? && r.value <= 1.0
    ensures r.NaN? && beta.Defined? && inty.Defined? ==> Sxx(y) == 0.0
  {
    match (beta, inty)
    case (Defined(b), Defined(a)) => OneMinus(Quotient(ResidualSquares(x, y, b, a), Sxx(y)))
    case _ => NaN
  }

  /** The adjusted R², 1 − (1 − R²)(n − 1)/(n − 2), for one predictor: NaN when R² is, and
      when n = 2 zeroes the divisor. */
  function RSquareAdj(n: nat, rSquare: Quantity): (r: Quantity)
    ensures r.Defined? <==> rSquare.Defined? && n != 2
  {
    match rSquare
    case NaN => NaN
    case Defined(r) => OneMinus(Quotient((1.0 - r) * (n as real - 1.0), n as real - 2.0))
  }

  /** Everything the constructor computes, as one value. */
  datatype Fit = Fit(beta: Quantity, inty: Quantity, domain: (real, real), range: (real, real),
                     rSquare: Quantity, rSquareAdj: Quantity)

  /** The fit of y on x, field by field in the order the constructor computes it. The slope is
      defined exactly when x has spread, the intercept exactly with it, domain and range are
      ordered pairs, and an adjusted R² is only ever defined alongside R². */
  function FitOf(x: seq<real>, y: seq<real>): (r: Fit)
    requires |x| == |y| > 0
    ensures r.beta.Defined? <==> !AllEqual(x)
    ensures r.inty.Defined? <==> r.beta.Defined?
    ensures r.domain.0 <= r.domain.1 && r.range.0 <= r.range.1
    ensures r.rSquareAdj.Defined? ==> r.rSquare.Defined?
  {
    ZeroSpreadIffAllEqual(x);
    assert Min(x) <= x[0] <= Max(x) && Min(y) <= y[0] <= Max(y);
    var beta := Slope(x, y);
    var inty := Intercept(x, y, beta);
    var rSquare := RSquare(x, y, beta, inty);
    Fit(beta, inty, (Min(x), Max(x)), (Min(y), Max(y)), rSquare, RSquareAdj(|x|, rSquare))
  }

  // ---------------------------------------------------------------------
  // Domain and range

  /** Domain and range are the extreme values: ordered, attained, and enclosing every point. */
  lemma DomainRangeEnclose(x: seq<real>, y: seq<real>)
    requires |x| == |y| > 0
    ensures FitOf(x, y).domain.0 <= FitOf(x, y).domain.1
    ensures FitOf(x, y).range.0 <= FitOf(x, y).range.1
    ensures FitOf(x, y).domain.0 in x && FitOf(x, y).domain.1 in x
    ensures FitOf(x, y).range.0 in y && FitOf(x, y).range.1 in y
    ensures forall i :: 0 <= i < |x| ==> FitOf(x, y).domain.0 <= x[i] <= FitOf(x, y).domain.1
    ensures forall i :: 0 <= i < |y| ==> FitOf(x, y).range.0 <= y[i] <= FitOf(x, y).range.1
  {
    assert Min(x) <= x[0] <= Max(x);
    assert Min(y) <= y[0] <= Max(y);
  }

  // ---------------------------------------------------------------------
  // Slope and intercept

  /** The slope is defined exactly when the x values are not all equal. */
  lemma SlopeDefinedIff(x: seq<real>, y: seq<real>)
    requires |x| == |y| > 0
    ensures Slope(x, y).Defined? <==> !AllEqual(x)
  {
    ZeroSpreadIffAllEqual(x);
  }

  /** A zero x-spread forces a zero covariance: the slope division is 0/0, never ±inf. */
  lemma SlopeIsZeroOverZero(x: seq<real>, y: seq<real>)
    requires |x| == |y| > 0
    requires Sxx(x) == 0.0
    ensures Sxy(x, y) == 0.0
  {
    DotWithZeros(Deviations(x), Deviations(y));
  }

  /** The fitted line passes through the point of means, with the slope as its gradient. */
  lemma LineThroughMeans(x: seq<real>, y: seq<real>, v: real)
    requires |x| == |y| > 0 && !AllEqual(x)
    ensures Slope(x, y).Defined?
    ensures LineAt(Slope(x, y), Intercept(x, y, Slope(x, y)), v)
         == Defined(Mean(y) + Slope(x, y).value * (v - Mean(x)))
  {
    SlopeDefinedIff(x, y);
  }

  /** Mean of an affine image. */
  lemma MeanAffine(a: seq<real>, c: seq<real>, k: real, d: real)
    requires |a| == |c| > 0
    requires forall i :: 0 <= i < |c| ==> c[i] == k * a[i] + d
    ensures Mean(c) == k * Mean(a) + d
  {
    SumAffine(a, c, k, d);
    var n := |a| as real;
    calc {
      Mean(c);
      == Sum(c) / n;
      == (k * Sum(a) + n * d) / n;
      == k * (Sum(a) / n) + d;
      == k * Mean(a) + d;
    }
  }

  /** Deviations of an affine image are the scaled deviations. */
  lemma DeviationsAffine(a: seq<real>, c: seq<real>, k: real, d: real)
    requires |a| == |c| > 0
    requires forall i :: 0 <= i < |c| ==> c[i] == k * a[i] + d
    ensures forall i :: 0 <= i < |c| ==> Deviations(c)[i] == k * Deviations(a)[i]
  {
    MeanAffine(a, c, k, d);
    forall i | 0 <= i < |c|
      ensures Deviations(c)[i] == k * Deviations(a)[i]
    {
      calc {
        Deviations(c)[i];
        == c[i] - Mean(c);
        == (k * a[i] + d) - (k * Mean(a) + d);
        == k * (a[i] - Mean(a));
        == k * Deviations(a)[i];
      }
    }
  }

  /** Multiplying and dividing by the same nonzero real cancels. */
  lemma Cancel(c: real, s: real)
    requires s != 0.0
    ensures (c * s) / s == c
  {
  }

  /** A product of two nonzero reals is nonzero. */
  lemma ProductNonZero(c: real, e: real)
    requires c != 0.0 && e != 0.0
    ensures c * e != 0.0
  {
    if c > 0.0 {
      if e > 0.0 { calc { c * e; > 0.0; } } else { calc { c * e; < 0.0; } }
    } else {
      if e > 0.0 { calc { c * e; < 0.0; } } else { calc { c * e; > 0.0; } }
    }
  }

  /** Points on a non-vertical line y = c·x + d give slope c and intercept d. */
  lemma ExactLineSlope(x: seq<real>, y: seq<real>, c: real, d: real)
    requires |x| == |y| > 0 && !AllEqual(x)
    requires forall i :: 0 <= i < |y| ==> y[i] == c * x[i] + d
    ensures Slope(x, y) == Defined(c)
    ensures Intercept(x, y, Defined(c)) == Defined(d)
  {
    var dx, dy := Deviations(x), Deviations(y);
    ZeroSpreadIffAllEqual(x);
    DeviationsAffine(x, y, c, d);
    MeanAffine(x, y, c, d);
    DotScaled(dx, dy, dx, c);
    Cancel(c, Sxx(x));
  }

  /** The line a sample was drawn from leaves no residual. */
  lemma ExactLineResiduals(x: seq<real>, y: seq<real>, c: real, d: real)
    requires |x| == |y|
    requires forall i :: 0 <= i < |y| ==> y[i] == c * x[i] + d
    ensures ResidualSquares(x, y, c, d) == 0.0
  {
    var res := Residuals(x, y, c, d);
    assert forall i :: 0 <= i < |res| ==> res[i] == 0.0;
  }

  /** y = c·x + d has spread exactly when c ≠ 0 (x having spread). */
  lemma ExactLineSpread(x: seq<real>, y: seq<real>, c: real, d: real)
    requires |x| == |y| > 0 && !AllEqual(x)
    requires forall i :: 0 <= i < |y| ==> y[i] == c * x[i] + d
    ensures Sxx(y) == 0.0 <==> c == 0.0
  {
    var dx, dy := Deviations(x), Deviations(y);
    ZeroSpreadIffAllEqual(x);
    DeviationsAffine(x, y, c, d);
    if c == 0.0 {
      assert forall i :: 0 <= i < |dy| ==> dy[i] == 0.0;
    } else {
      var k :| 0 <= k < |dx| && dx[k] != 0.0;
      ProductNonZero(c, dx[k]);
      assert dy[k] != 0.0;
    }
  }

  /**
   * Points on a non-vertical line y = c·x + d are fitted exactly: the slope is c, the intercept d,
   * the residuals vanish, and R² is 1, or NaN when the line is flat (y has no spread).
   */
  lemma ExactLineRecovered(x: seq<real>, y: seq<real>, c: real, d: real)
    requires |x| == |y| > 0 && !AllEqual(x)
    requires forall i :: 0 <= i < |y| ==> y[i] == c * x[i] + d
    ensures FitOf(x, y).beta == Defined(c)
    ensures FitOf(x, y).inty == Defined(d)
    ensures ResidualSquares(x, y, c, d) == 0.0
    ensures FitOf(x, y).rSquare == if c == 0.0 then NaN else Defined(1.0)
  {
    ExactLineSlope(x, y, c, d);
    ExactLineResiduals(x, y, c, d);
    ExactLineSpread(x, y, c, d);
    assert FitOf(x, y).rSquare == OneMinus(Quotient(0.0, Sxx(y)));
  }

  /** y == x: slope 1, intercept 0, R² 1, and the line predicts every value as itself. */
  lemma IdentityFit(x: seq<real>)
    requires |x| > 0 && !AllEqual(x)
    ensures FitOf(x, x).beta == Defined(1.0)
    ensures FitOf(x, x).inty == Defined(0.0)
    ensures FitOf(x, x).rSquare == Defined(1.0)
    ensures forall v :: LineAt(FitOf(x, x).beta, FitOf(x, x).inty, v) == Defined(v)
  {
    ExactLineRecovered(x, x, 1.0, 0.0);
    var f := FitOf(x, x);
    forall v ensures LineAt(f.beta, f.inty, v) == Defined(v) {
      assert LineAt(Defined(1.0), Defined(0.0), v) == Defined(1.0 * v + 0.0);
    }
  }

  /** Rescaling the response, z = c·y + d, turns slope β and intercept a into c·β and c·a + d. */
  lemma AffineResponseLine(x: seq<real>, y: seq<real>, z: seq<real>, c: real, d: real)
    requires |x| == |y| == |z| > 0 && !AllEqual(x)
    requires forall i :: 0 <= i < |z| ==> z[i] == c * y[i] + d
    ensures Slope(x, y).Defined? && Slope(x, z).Defined?
    ensures Slope(x, z).value == c * Slope(x, y).value
    ensures Intercept(x, z, Slope(x, z)).value == c * Intercept(x, y, Slope(x, y)).value + d
  {
    SlopeDefinedIff(x, y);
    SlopeDefinedIff(x, z);
    DeviationsAffine(y, z, c, d);
    MeanAffine(y, z, c, d);
    DotScaled(Deviations(x), Deviations(z), Deviations(y), c);
    var b := Sxy(x, y) / Sxx(x);
    calc {
      Sxy(x, z) / Sxx(x);
      == (c * Sxy(x, y)) / Sxx(x);
      == c * b;
    }
    calc {
      Mean(z) - (c * b) * Mean(x);
      == (c * Mean(y) + d) - (c * b) * Mean(x);
      == c * (Mean(y) - b * Mean(x)) + d;
    }
  }

  // ---------------------------------------------------------------------
  // R²

  /** The residuals of the least-squares line are the y-deviations minus β times the x-deviations. */
  lemma ResidualsAsDeviations(x: seq<real>, y: seq<real>, b: real)
    requires |x| == |y| > 0
    ensures forall i :: 0 <= i < |x| ==>
      Residuals(x, y, b, Mean(y) - b * Mean(x))[i] == Deviations(y)[i] + (-b) * Deviations(x)[i]
  {
  }

  /** With b = sxy/sxx the residuals are orthogonal to the x-deviations: sxy − b·sxx = 0. */
  lemma NormalEquation(sxy: real, sxx: real)
    requires sxx != 0.0
    ensures sxy + (-(sxy / sxx)) * sxx == 0.0
  {
  }

  /** The dot product of the residuals with any `d` splits into the y- and x-deviation parts. */
  lemma ResidualsDot(x: seq<real>, y: seq<real>, b: real, d: seq<real>)
    requires |x| == |y| == |d| > 0
    ensures Dot(Residuals(x, y, b, Mean(y) - b * Mean(x)), d)
         == Dot(d, Deviations(y)) + (-b) * Dot(d, Deviations(x))
  {
    var r := Residuals(x, y, b, Mean(y) - b * Mean(x));
    ResidualsAsDeviations(x, y, b);
    DotSymmetric(r, d);
    DotLinear(d, r, Deviations(y), Deviations(x), -b);
  }

  /** The scalar step: rr = ry − b·rx with ry = syy − b·sxy and rx = sxy − b·sxx = 0. */
  lemma ResidualAlgebra(rr: real, ry: real, rx: real, syy: real, sxy: real, sxx: real, b: real)
    requires sxx != 0.0 && b == sxy / sxx
    requires rr == ry + (-b) * rx
    requires ry == syy + (-b) * sxy
    requires rx == sxy + (-b) * sxx
    ensures rr == syy - b * sxy
  {
    NormalEquation(sxy, sxx);
  }

  /** SSres of the least-squares line is SStot − β·Sxy: the line explains β·Sxy of the spread. */
  lemma ResidualIdentity(x: seq<real>, y: seq<real>, b: real)
    requires |x| == |y| > 0 && Slope(x, y) == Defined(b)
    ensures ResidualSquares(x, y, b, Mean(y) - b * Mean(x)) == Sxx(y) - b * Sxy(x, y)
  {
    var dx, dy := Deviations(x), Deviations(y);
    var r := Residuals(x, y, b, Mean(y) - b * Mean(x));
    ResidualsDot(x, y, b, r);
    ResidualsDot(x, y, b, dy);
    ResidualsDot(x, y, b, dx);
    DotSymmetric(r, dy);
    DotSymmetric(r, dx);
    DotSymmetric(dy, dx);
    ResidualAlgebra(Dot(r, r), Dot(dy, r), Dot(dx, r), Sxx(y), Sxy(x, y), Sxx(x), b);
  }

  /** The explained part β·Sxy = Sxy²/Sxx is never negative. */
  lemma ExplainedNonNegative(sxy: real, sxx: real)
    requires sxx > 0.0
    ensures (sxy / sxx) * sxy >= 0.0
  {
    if sxy >= 0.0 {
      calc { sxy / sxx; >= 0.0; }
      calc { (sxy / sxx) * sxy; >= 0.0; }
    } else {
      calc { sxy / sxx; < 0.0; }
      calc { (sxy / sxx) * sxy; > 0.0; }
    }
  }

  /** A ratio u/t with 0 ≤ u ≤ t and t > 0 lies in [0, 1]. */
  lemma UnitRatio(u: real, t: real)
    requires 0.0 <= u <= t && t > 0.0
    ensures 0.0 <= u / t <= 1.0
  {
    calc { u / t; >= 0.0; }
    calc { u / t; <= t / t; == 1.0; }
  }

  /** R² is defined exactly when neither x nor y is constant. */
  lemma RSquareDefinedIff(x: seq<real>, y: seq<real>)
    requires |x| == |y| > 0
    ensures FitOf(x, y).rSquare.Defined? <==> !AllEqual(x) && !AllEqual(y)
  {
    SlopeDefinedIff(x, y);
    ZeroSpreadIffAllEqual(y);
  }

  /** A constant y (with a defined slope) leaves no residual: the R² division is 0/0, never ±inf. */
  lemma RSquareIsZeroOverZero(x: seq<real>, y: seq<real>, b: real)
    requires |x| == |y| > 0 && Slope(x, y) == Defined(b) && Sxx(y) == 0.0
    ensures ResidualSquares(x, y, b, Mean(y) - b * Mean(x)) == 0.0
  {
    calc {
      ResidualSquares(x, y, b, Mean(y) - b * Mean(x));
      == { ResidualIdentity(x, y, b); }
      Sxx(y) - b * Sxy(x, y);
      == { DotWithZeros(Deviations(y), Deviations(x)); }
      0.0 - b * 0.0;
      == 0.0;
    }
  }

  /** With a positive x-spread and y-spread, 1 − SSres/SStot lies in [0, 1] when SSres = SStot − β·Sxy ≥ 0. */
  lemma ExplainedFraction(ss: real, syy: real, sxy: real, sxx: real, b: real)
    requires sxx > 0.0 && syy > 0.0 && ss >= 0.0 && b == sxy / sxx && ss == syy - b * sxy
    ensures 0.0 <= 1.0 - ss / syy <= 1.0
  {
    ExplainedNonNegative(sxy, sxx);
    UnitRatio(ss, syy);
  }

  /** The R² of the fit, for a defined slope b and a y with spread. */
  lemma FitRSquareValue(x: seq<real>, y: seq<real>, b: real)
    requires |x| == |y| > 0 && Slope(x, y) == Defined(b) && Sxx(y) != 0.0
    ensures FitOf(x, y).rSquare == Defined(1.0 - ResidualSquares(x, y, b, Mean(y) - b * Mean(x)) / Sxx(y))
  {
    var a := Mean(y) - b * Mean(x);
    assert Intercept(x, y, Defined(b)) == Defined(a);
    var ss := ResidualSquares(x, y, b, a);
    assert RSquare(x, y, Defined(b), Defined(a)) == OneMinus(Quotient(ss, Sxx(y)));
  }

  /** A defined R² means a defined slope and a positive spread in both x and y. */
  lemma RSquareDefinedSpreads(x: seq<real>, y: seq<real>)
    requires |x| == |y| > 0
    requires FitOf(x, y).rSquare.Defined?
    ensures Slope(x, y).Defined? && Sxx(x) > 0.0 && Sxx(y) > 0.0
  {
    RSquareDefinedIff(x, y);
    SlopeDefinedIff(x, y);
    ZeroSpreadIffAllEqual(x);
    ZeroSpreadIffAllEqual(y);
  }

  /** For a defined slope and a y with spread, 1 − SSres/SStot lies in [0, 1]. */
  lemma ExplainedShareBounds(x: seq<real>, y: seq<real>, b: real)
    requires |x| == |y| > 0 && Slope(x, y) == Defined(b) && Sxx(y) > 0.0
    ensures 0.0 <= 1.0 - ResidualSquares(x, y, b, Mean(y) - b * Mean(x)) / Sxx(y) <= 1.0
  {
    var sxy, sxx, syy := Sxy(x, y), Sxx(x), Sxx(y);
    assert sxx > 0.0 && b == sxy / sxx;
    var ss := ResidualSquares(x, y, b, Mean(y) - b * Mean(x));
    ResidualIdentity(x, y, b);
    ExplainedFraction(ss, syy, sxy, sxx, b);
  }

  /** Whenever R² is defined it lies in [0, 1]. */
  lemma RSquareBounds(x: seq<real>, y: seq<real>)
    requires |x| == |y| > 0
    requires FitOf(x, y).rSquare.Defined?
    ensures 0.0 <= FitOf(x, y).rSquare.value <= 1.0
  {
    RSquareDefinedSpreads(x, y);
    var b := Slope(x, y).value;
    ExplainedShareBounds(x, y, b);
    FitRSquareValue(x, y, b);
  }

  /** The sum of a two-element sequence. */
  lemma SumOfPair(s: seq<real>)
    requires |s| == 2
    ensures Sum(s) == s[0] + s[1]
  {
    calc {
      Sum(s);
      == Sum(s[..1]) + s[1];
      == { assert s[..1][..0] == []; } (Sum([]) + s[0]) + s[1];
    }
  }

  /** The least-squares line through two centred points passes through both. */
  lemma TwoPointAlgebra(w0: real, w1: real, u0: real, u1: real, b: real)
    requires w1 == -w0 && u1 == -u0 && w0 * w0 + w1 * w1 != 0.0
    requires b == (w0 * u0 + w1 * u1) / (w0 * w0 + w1 * w1)
    ensures u0 + (-b) * w0 == 0.0 && u1 + (-b) * w1 == 0.0
  {
    calc {
      b;
      == (w0 * u0 + (-w0) * (-u0)) / (w0 * w0 + (-w0) * (-w0));
      == (2.0 * (w0 * u0)) / (2.0 * (w0 * w0));
      == u0 / w0;
    }
    calc {
      (-b) * w0;
      == (-(u0 / w0)) * w0;
      == -u0;
    }
  }

  /** Two points with distinct x are always fitted exactly. */
  lemma TwoPointFitIsExact(x: seq<real>, y: seq<real>, b: real)
    requires |x| == |y| == 2 && Slope(x, y) == Defined(b)
    ensures ResidualSquares(x, y, b, Mean(y) - b * Mean(x)) == 0.0
  {
    var dx, dy := Deviations(x), Deviations(y);
    DeviationsSumToZero(x);
    DeviationsSumToZero(y);
    SumOfPair(dx);
    SumOfPair(dy);
    SumOfPair(Products(dx, dx));
    SumOfPair(Products(dx, dy));
    TwoPointAlgebra(dx[0], dx[1], dy[0], dy[1], b);
    var r := Residuals(x, y, b, Mean(y) - b * Mean(x));
    ResidualsAsDeviations(x, y, b);
    assert forall i :: 0 <= i < |r| ==> r[i] == 0.0;
  }

  // ---------------------------------------------------------------------
  // Adjusted R²

  /**
   * Adjusted R² is defined exactly when R² is and n > 2. At n == 2 a defined R² is exactly 1,
   * so the division is 0/0 (NaN), and at n == 1 R² itself is NaN.
   */
  lemma RSquareAdjDefinedIff(x: seq<real>, y: seq<real>)
    requires |x| == |y| > 0
    ensures FitOf(x, y).rSquareAdj.Defined? <==> |x| > 2 && FitOf(x, y).rSquare.Defined?
    ensures |x| == 2 && FitOf(x, y).rSquare.Defined? ==> FitOf(x, y).rSquare.value == 1.0
  {
    RSquareDefinedIff(x, y);
    if |x| == 1 {
      assert AllEqual(x);
    } else if |x| == 2 && FitOf(x, y).rSquare.Defined? {
      SlopeDefinedIff(x, y);
      ZeroSpreadIffAllEqual(y);
      var b := Slope(x, y).value;
      TwoPointFitIsExact(x, y, b);
      FitRSquareValue(x, y, b);
    }
  }

  /** With a non-negative loss 1 − r and m + 1 ≥ 2 points past the first, the penalty only lowers r. */
  lemma AdjustmentPenalty(r: real, m: real)
    requires r <= 1.0 && m > 0.0
    ensures 1.0 - (1.0 - r) * (m + 1.0) / m <= r
  {
    var loss := 1.0 - r;
    var q := loss / m;
    calc { q; >= 0.0; }
    calc {
      1.0 - (1.0 - r) * (m + 1.0) / m;
      == 1.0 - (loss + q);
      <= r;
    }
  }

  /** For n > 2 and R² ≤ 1 the adjusted R² is defined and no larger than R². */
  lemma AdjustedAtMost(n: nat, rSquare: Quantity)
    requires n > 2 && rSquare.Defined? && rSquare.value <= 1.0
    ensures RSquareAdj(n, rSquare).Defined?
    ensures RSquareAdj(n, rSquare).value <= rSquare.value
  {
    var m := n as real - 2.0;
    AdjustmentPenalty(rSquare.value, m);
    assert m + 1.0 == n as real - 1.0;
  }

  /** For n > 2 adjusted R² is defined whenever R² is, and never exceeds it. */
  lemma RSquareAdjAtMostRSquare(x: seq<real>, y: seq<real>)
    requires |x| == |y| > 2
    requires FitOf(x, y).rSquare.Defined?
    ensures FitOf(x, y).rSquareAdj.Defined?
    ensures FitOf(x, y).rSquareAdj.value <= FitOf(x, y).rSquare.value
  {
    RSquareBounds(x, y);
    AdjustedAtMost(|x|, FitOf(x, y).rSquare);
  }

  // ---------------------------------------------------------------------
  // Order independence

  /** Reordering the points together leaves the covariance and x-spread, hence the slope, unchanged. */
  lemma SlopePermute(x: seq<real>, y: seq<real>, p: seq<nat>)
    requires |x| == |y| > 0 && IsPermutation(p, |x|)
    ensures |Permute(x, p)| == |Permute(y, p)| > 0
    ensures Sxx(Permute(x, p)) == Sxx(x) && Sxx(Permute(y, p)) == Sxx(y)
    ensures Slope(Permute(x, p), Permute(y, p)) == Slope(x, y)
  {
    var dx, dy := Deviations(x), Deviations(y);
    DeviationsPermute(x, p);
    DeviationsPermute(y, p);
    DotPermute(dx, dy, p);
    DotPermute(dx, dx, p);
    DotPermute(dy, dy, p);
  }

  /** Reordering the points together leaves the residual sum of squares of any line unchanged. */
  lemma ResidualSquaresPermute(x: seq<real>, y: seq<real>, p: seq<nat>, b: real, a: real)
    requires |x| == |y| && IsPermutation(p, |x|)
    ensures |Permute(x, p)| == |Permute(y, p)|
    ensures ResidualSquares(Permute(x, p), Permute(y, p), b, a) == ResidualSquares(x, y, b, a)
  {
    var res := Residuals(x, y, b, a);
    var px, py := Permute(x, p), Permute(y, p);
    forall i | 0 <= i < |p|
      ensures Residuals(px, py, b, a)[i] == Permute(res, p)[i]
    {
      assert px[i] == x[p[i]] && py[i] == y[p[i]];
    }
    assert Residuals(px, py, b, a) == Permute(res, p);
    DotPermute(res, res, p);
  }

  /** The intercept depends on the points only through the two means. */
  lemma InterceptFromMeans(x: seq<real>, y: seq<real>, u: seq<real>, v: seq<real>, beta: Quantity)
    requires |x| == |y| > 0 && |u| == |v| > 0
    requires Mean(u) == Mean(x) && Mean(v) == Mean(y)
    ensures Intercept(u, v, beta) == Intercept(x, y, beta)
  {
  }

  /** Reordering the points, pairing x[i] with y[i] as before, changes nothing in the fit. */
  lemma FitInvariantUnderPermutation(x: seq<real>, y: seq<real>, p: seq<nat>)
    requires |x| == |y| > 0 && IsPermutation(p, |x|)
    ensures |Permute(x, p)| == |Permute(y, p)| > 0
    ensures FitOf(Permute(x, p), Permute(y, p)) == FitOf(x, y)
  {
    var px, py := Permute(x, p), Permute(y, p);
    SlopePermute(x, y, p);
    MeanPermute(x, p);
    MeanPermute(y, p);
    MinMaxPermute(x, p);
    MinMaxPermute(y, p);
    var beta := Slope(x, y);
    var inty := Intercept(x, y, beta);
    InterceptFromMeans(x, y, px, py, beta);
    if beta.Defined? {
      ResidualSquaresPermute(x, y, p, beta.value, inty.value);
    }
    assert RSquare(px, py, beta, inty) == RSquare(x, y, beta, inty);
  }
}
