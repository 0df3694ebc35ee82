/** The concrete regressions of the project's unit tests, stated over exact reals. */
module Scenarios {
  import opened Stats
  import opened Regression

  /** y == x on a sorted sample: slope 1, intercept 0. */
  lemma SimpleRegressionLine()
    ensures FitOf([1.0, 2.0, 3.0], [1.0, 2.0, 3.0]).beta == Defined(1.0)
    ensures FitOf([1.0, 2.0, 3.0], [1.0, 2.0, 3.0]).inty == Defined(0.0)
  {
    var s := [1.0, 2.0, 3.0];
    assert s[0] != s[1];
    IdentityFit(s);
  }

  /** y == x on an unsorted sample: slope 1, intercept 0. */
  lemma SimpleAxesNotSorted()
    ensures FitOf([3.0, 1.0, 2.0], [3.0, 1.0, 2.0]).beta == Defined(1.0)
    ensures FitOf([3.0, 1.0, 2.0], [3.0, 1.0, 2.0]).inty == Defined(0.0)
  {
    var s := [3.0, 1.0, 2.0];
    assert s[0] != s[1];
    IdentityFit(s);
  }

  /** y == x at magnitudes in the millions: still slope 1, intercept 0. */
  lemma LargeRegressionNotSorted()
    ensures FitOf([3000000.0, 1000000.0, 4000000.0], [3000000.0, 1000000.0, 4000000.0]).beta == Defined(1.0)
    ensures FitOf([3000000.0, 1000000.0, 4000000.0], [3000000.0, 1000000.0, 4000000.0]).inty == Defined(0.0)
  {
    var s := [3000000.0, 1000000.0, 4000000.0];
    assert s[0] != s[1];
    IdentityFit(s);
  }

  /** The sum of a four-element sequence. */
  lemma SumOfFour(s: seq<real>)
    requires |s| == 4
    ensures Sum(s) == s[0] + s[1] + s[2] + s[3]
  {
    calc {
      Sum(s);
      == Sum(s[..3]) + s[3];
      == { assert s[..3][..2] == s[..2]; } (Sum(s[..2]) + s[2]) + s[3];
      == { assert s[..2][..1] == s[..1]; } ((Sum(s[..1]) + s[1]) + s[2]) + s[3];
      == { assert s[..1][..0] == []; } (((0.0 + s[0]) + s[1]) + s[2]) + s[3];
    }
  }

  /** On y == x the prediction at any point, however far outside the domain, is that point. */
  lemma SimpleRegressionPredict(v: real)
    ensures LineAt(FitOf([1.0, 2.0, 3.0], [1.0, 2.0, 3.0]).beta,
                   FitOf([1.0, 2.0, 3.0], [1.0, 2.0, 3.0]).inty, v) == Defined(v)
  {
    var s := [1.0, 2.0, 3.0];
    assert s[0] != s[1];
    IdentityFit(s);
  }

  /** Four unsorted points: slope 256.25/552.75 = 1025/2211 and intercept −504/737. */
  lemma RandomAxesNotSorted()
    ensures FitOf([5.0, -10.0, 3.0, 23.0], [3.0, -2.0, -6.0, 12.0]).beta == Defined(1025.0 / 2211.0)
    ensures FitOf([5.0, -10.0, 3.0, 23.0], [3.0, -2.0, -6.0, 12.0]).inty == Defined(-504.0 / 737.0)
  {
    var x, y := [5.0, -10.0, 3.0, 23.0], [3.0, -2.0, -6.0, 12.0];
    SumOfFour(x);
    SumOfFour(y);
    var dx, dy := Deviations(x), Deviations(y);
    assert dx == [-0.25, -15.25, -2.25, 17.75];
    assert dy == [1.25, -3.75, -7.75, 10.25];
    var pxy, pxx := Products(dx, dy), Products(dx, dx);
    assert pxy == [-0.3125, 57.1875, 17.4375, 181.9375];
    assert pxx == [0.0625, 232.5625, 5.0625, 315.0625];
    SumOfFour(pxy);
    SumOfFour(pxx);
  }

  /** The sum of a seven-element sequence. */
  lemma SumOfSeven(s: seq<real>)
    requires |s| == 7
    ensures Sum(s) == s[0] + s[1] + s[2] + s[3] + s[4] + s[5] + s[6]
  {
    calc {
      Sum(s);
      == Sum(s[..6]) + s[6];
      == { assert s[..6][..5] == s[..5]; } (Sum(s[..5]) + s[5]) + s[6];
      == { assert s[..5][..4] == s[..4]; } ((Sum(s[..4]) + s[4]) + s[5]) + s[6];
      == { assert s[..4] == s[..4][..3] + [s[3]]; SumOfFour(s[..4]); }
      (s[0] + s[1] + s[2] + s[3]) + s[4] + s[5] + s[6];
    }
  }

  /** The slope and intercept follow from the two means, the covariance sum and the x-spread. */
  lemma FitFromMoments(x: seq<real>, y: seq<real>, mx: real, my: real, sxy: real, sxx: real)
    requires |x| == |y| > 0 && sxx != 0.0
    requires Mean(x) == mx && Mean(y) == my && Sxy(x, y) == sxy && Sxx(x) == sxx
    ensures FitOf(x, y).beta == Defined(sxy / sxx)
    ensures FitOf(x, y).inty == Defined(my - (sxy / sxx) * mx)
  {
    var beta := Slope(x, y);
    assert beta == Defined(sxy / sxx);
    assert Intercept(x, y, beta) == Defined(my - (sxy / sxx) * mx);
  }

  /** Seven unsorted points: Sxy = 15052/7 and Sxx = 26200/7 give slope 3763/6550 and intercept -54998/3275. */
  lemma RandomRegression()
    ensures FitOf([31.0, -46.0, 12.0, -9.0, -15.0, 11.0, 10.0],
                  [-8.0, -62.0, -9.0, -63.0, 37.0, -94.0, 78.0]).beta == Defined(3763.0 / 6550.0)
    ensures FitOf([31.0, -46.0, 12.0, -9.0, -15.0, 11.0, 10.0],
                  [-8.0, -62.0, -9.0, -63.0, 37.0, -94.0, 78.0]).inty == Defined(-54998.0 / 3275.0)
  {
    var x, y := [31.0, -46.0, 12.0, -9.0, -15.0, 11.0, 10.0], [-8.0, -62.0, -9.0, -63.0, 37.0, -94.0, 78.0];
    assert Mean(x) == -6.0 / 7.0 by { SumOfSeven(x); }
    assert Mean(y) == -121.0 / 7.0 by { SumOfSeven(y); }
    var dx, dy := Deviations(x), Deviations(y);
    assert dx == [223.0 / 7.0, -316.0 / 7.0, 90.0 / 7.0, -57.0 / 7.0, -99.0 / 7.0, 83.0 / 7.0, 76.0 / 7.0];
    assert dy == [65.0 / 7.0, -313.0 / 7.0, 58.0 / 7.0, -320.0 / 7.0, 380.0 / 7.0, -537.0 / 7.0, 667.0 / 7.0];
    assert Sxy(x, y) == 15052.0 / 7.0 by {
      var pxy := Products(dx, dy);
      assert pxy == [14495.0 / 49.0, 98908.0 / 49.0, 5220.0 / 49.0, 18240.0 / 49.0, -37620.0 / 49.0, -44571.0 / 49.0, 50692.0 / 49.0];
      SumOfSeven(pxy);
    }
    assert Sxx(x) == 26200.0 / 7.0 by {
      var pxx := Products(dx, dx);
      assert pxx == [49729.0 / 49.0, 99856.0 / 49.0, 8100.0 / 49.0, 3249.0 / 49.0, 9801.0 / 49.0, 6889.0 / 49.0, 5776.0 / 49.0];
      SumOfSeven(pxx);
    }
    FitFromMoments(x, y, -6.0 / 7.0, -121.0 / 7.0, 15052.0 / 7.0, 26200.0 / 7.0);
  }

  /** Seven unsorted points: Sxy = 94791/7 and Sxx = 118788/7 give slope 1663/2084 and intercept -8781/1042. */
  lemma RandomRegression2()
    ensures FitOf([15.0, -15.0, -64.0, -53.0, 64.0, 34.0, -75.0],
                  [54.0, -16.0, -93.0, -42.0, -5.0, 37.0, -69.0]).beta == Defined(1663.0 / 2084.0)
    ensures FitOf([15.0, -15.0, -64.0, -53.0, 64.0, 34.0, -75.0],
                  [54.0, -16.0, -93.0, -42.0, -5.0, 37.0, -69.0]).inty == Defined(-8781.0 / 1042.0)
  {
    var x, y := [15.0, -15.0, -64.0, -53.0, 64.0, 34.0, -75.0], [54.0, -16.0, -93.0, -42.0, -5.0, 37.0, -69.0];
    assert Mean(x) == -94.0 / 7.0 by { SumOfSeven(x); }
    assert Mean(y) == -134.0 / 7.0 by { SumOfSeven(y); }
    var dx, dy := Deviations(x), Deviations(y);
    assert dx == [199.0 / 7.0, -11.0 / 7.0, -354.0 / 7.0, -277.0 / 7.0, 542.0 / 7.0, 332.0 / 7.0, -431.0 / 7.0];
    assert dy == [512.0 / 7.0, 22.0 / 7.0, -517.0 / 7.0, -160.0 / 7.0, 99.0 / 7.0, 393.0 / 7.0, -349.0 / 7.0];
    assert Sxy(x, y) == 94791.0 / 7.0 by {
      var pxy := Products(dx, dy);
      assert pxy == [101888.0 / 49.0, -242.0 / 49.0, 183018.0 / 49.0, 44320.0 / 49.0, 53658.0 / 49.0, 130476.0 / 49.0, 150419.0 / 49.0];
      SumOfSeven(pxy);
    }
    assert Sxx(x) == 118788.0 / 7.0 by {
      var pxx := Products(dx, dx);
      assert pxx == [39601.0 / 49.0, 121.0 / 49.0, 125316.0 / 49.0, 76729.0 / 49.0, 293764.0 / 49.0, 110224.0 / 49.0, 185761.0 / 49.0];
      SumOfSeven(pxx);
    }
    FitFromMoments(x, y, -94.0 / 7.0, -134.0 / 7.0, 94791.0 / 7.0, 118788.0 / 7.0);
  }

  /** Seven unsorted points: Sxy = -90665/7 and Sxx = 172098/7 give slope -90665/172098 and intercept -3608596/86049. */
  lemma RandomRegression3()
    ensures FitOf([-90.0, 72.0, -16.0, 38.0, 23.0, 12.0, -97.0],
                  [42.0, -99.0, -4.0, -65.0, -6.0, -92.0, -39.0]).beta == Defined(-90665.0 / 172098.0)
    ensures FitOf([-90.0, 72.0, -16.0, 38.0, 23.0, 12.0, -97.0],
                  [42.0, -99.0, -4.0, -65.0, -6.0, -92.0, -39.0]).inty == Defined(-3608596.0 / 86049.0)
  {
    var x, y := [-90.0, 72.0, -16.0, 38.0, 23.0, 12.0, -97.0], [42.0, -99.0, -4.0, -65.0, -6.0, -92.0, -39.0];
    assert Mean(x) == -58.0 / 7.0 by { SumOfSeven(x); }
    assert Mean(y) == -263.0 / 7.0 by { SumOfSeven(y); }
    var dx, dy := Deviations(x), Deviations(y);
    assert dx == [-572.0 / 7.0, 562.0 / 7.0, -54.0 / 7.0, 324.0 / 7.0, 219.0 / 7.0, 142.0 / 7.0, -621.0 / 7.0];
    assert dy == [557.0 / 7.0, -430.0 / 7.0, 235.0 / 7.0, -192.0 / 7.0, 221.0 / 7.0, -381.0 / 7.0, -10.0 / 7.0];
    assert Sxy(x, y) == -90665.0 / 7.0 by {
      var pxy := Products(dx, dy);
      assert pxy == [-318604.0 / 49.0, -241660.0 / 49.0, -12690.0 / 49.0, -62208.0 / 49.0, 48399.0 / 49.0, -54102.0 / 49.0, 6210.0 / 49.0];
      SumOfSeven(pxy);
    }
    assert Sxx(x) == 172098.0 / 7.0 by {
      var pxx := Products(dx, dx);
      assert pxx == [327184.0 / 49.0, 315844.0 / 49.0, 2916.0 / 49.0, 104976.0 / 49.0, 47961.0 / 49.0, 20164.0 / 49.0, 385641.0 / 49.0];
      SumOfSeven(pxx);
    }
    FitFromMoments(x, y, -58.0 / 7.0, -263.0 / 7.0, -90665.0 / 7.0, 172098.0 / 7.0);
  }

  /** `assertAlmostEqual` at its default seven places: the difference rounds to zero at the
      seventh decimal. */
  predicate AlmostEqual(a: real, b: real)
  {
    -0.00000005 < a - b < 0.00000005
  }

  /** A prediction that is defined and within seven places of the expected value `e`. */
  predicate NearPrediction(q: Quantity, e: real)
  {
    q.Defined? && AlmostEqual(q.value, e)
  }

  /** The axes of the test at lines 60-67. */
  const PredictX: seq<real> := [73.0, -7.0, -11.0, 31.0, 89.0, 7.0, 84.0]
  const PredictY: seq<real> := [-8.0, -96.0, -72.0, -93.0, 53.0, 73.0, 94.0]

  /** Seven points: slope 12983/11378 and intercept -286500/5689. The exact predictions are within
      seven places of the expected values at -10⁹, -1, 0 and 1; at 10⁹ the exact prediction misses
      the expected value by more than that, which the test meets only through float64 rounding. Each
      expected value is the float64 nearest the test's literal. */
  lemma RandomRegressionPredict()
    ensures FitOf(PredictX, PredictY).beta == Defined(12983.0 / 11378.0)
    ensures FitOf(PredictX, PredictY).inty == Defined(-286500.0 / 5689.0)
    ensures NearPrediction(LineAt(FitOf(PredictX, PredictY).beta, FitOf(PredictX, PredictY).inty, -1000000000.0),
                           -1141061748.3740551471710205078125)
    ensures NearPrediction(LineAt(FitOf(PredictX, PredictY).beta, FitOf(PredictX, PredictY).inty, -1.0),
                           -51.501406222534711787375272251665592193603515625)
    ensures NearPrediction(LineAt(FitOf(PredictX, PredictY).beta, FitOf(PredictX, PredictY).inty, 0.0),
                           -50.36034452452100396158130024559795856475830078125)
    ensures NearPrediction(LineAt(FitOf(PredictX, PredictY).beta, FitOf(PredictX, PredictY).inty, 1.0),
                           -49.2192828265072961357873282395303249359130859375)
    ensures LineAt(FitOf(PredictX, PredictY).beta, FitOf(PredictX, PredictY).inty, 1000000000.0) == Defined(6491499713500.0 / 5689.0)
    ensures !NearPrediction(LineAt(FitOf(PredictX, PredictY).beta, FitOf(PredictX, PredictY).inty, 1000000000.0),
                            1141061647.6533663272857666015625)
  {
    var x, y := PredictX, PredictY;
    assert Mean(x) == 38.0 by { SumOfSeven(x); }
    assert Mean(y) == -7.0 by { SumOfSeven(y); }
    var dx, dy := Deviations(x), Deviations(y);
    assert dx == [35.0, -45.0, -49.0, -7.0, 51.0, -31.0, 46.0];
    assert dy == [-1.0, -89.0, -65.0, -86.0, 60.0, 80.0, 101.0];
    assert Sxy(x, y) == 12983.0 by {
      var pxy := Products(dx, dy);
      assert pxy == [-35.0, 4005.0, 3185.0, 602.0, 3060.0, -2480.0, 4646.0];
      SumOfSeven(pxy);
    }
    assert Sxx(x) == 11378.0 by {
      var pxx := Products(dx, dx);
      assert pxx == [1225.0, 2025.0, 2401.0, 49.0, 2601.0, 961.0, 2116.0];
      SumOfSeven(pxx);
    }
    FitFromMoments(x, y, 38.0, -7.0, 12983.0, 11378.0);
  }

  /** The axes of the test at lines 69-76. */
  const PredictX2: seq<real> := [85.0, -41.0, 86.0, 67.0, 67.0, -7.0, -61.0]
  const PredictY2: seq<real> := [58.0, 89.0, -60.0, 5.0, 74.0, 74.0, 80.0]

  /** Seven points: slope -6472/11781 and intercept 719776/11781. The exact predictions are within
      seven places of the expected values at -10⁹, -1, 0 and 1; at 10⁹ the exact prediction misses
      the expected value by more than that, which the test meets only through float64 rounding. Each
      expected value is the float64 nearest the test's literal. */
  lemma RandomRegressionPredict2()
    ensures FitOf(PredictX2, PredictY2).beta == Defined(-6472.0 / 11781.0)
    ensures FitOf(PredictX2, PredictY2).inty == Defined(719776.0 / 11781.0)
    ensures NearPrediction(LineAt(FitOf(PredictX2, PredictY2).beta, FitOf(PredictX2, PredictY2).inty, -1000000000.0),
                           549359198.6907732486724853515625)
    ensures NearPrediction(LineAt(FitOf(PredictX2, PredictY2).beta, FitOf(PredictX2, PredictY2).inty, -1.0),
                           61.6457007045242306730870041064918041229248046875)
    ensures NearPrediction(LineAt(FitOf(PredictX2, PredictY2).beta, FitOf(PredictX2, PredictY2).inty, 0.0),
                           61.09634156692980155867189751006662845611572265625)
    ensures NearPrediction(LineAt(FitOf(PredictX2, PredictY2).beta, FitOf(PredictX2, PredictY2).inty, 1.0),
                           60.546982429335372444256790913641452789306640625)
    ensures LineAt(FitOf(PredictX2, PredictY2).beta, FitOf(PredictX2, PredictY2).inty, 1000000000.0) == Defined(-719111031136.0 / 1309.0)
    ensures !NearPrediction(LineAt(FitOf(PredictX2, PredictY2).beta, FitOf(PredictX2, PredictY2).inty, 1000000000.0),
                            -549359076.4980900287628173828125)
  {
    var x, y := PredictX2, PredictY2;
    assert Mean(x) == 28.0 by { SumOfSeven(x); }
    assert Mean(y) == 320.0 / 7.0 by { SumOfSeven(y); }
    var dx, dy := Deviations(x), Deviations(y);
    assert dx == [57.0, -69.0, 58.0, 39.0, 39.0, -35.0, -89.0];
    assert dy == [86.0 / 7.0, 303.0 / 7.0, -740.0 / 7.0, -285.0 / 7.0, 198.0 / 7.0, 198.0 / 7.0, 240.0 / 7.0];
    assert Sxy(x, y) == -12944.0 by {
      var pxy := Products(dx, dy);
      assert pxy == [4902.0 / 7.0, -20907.0 / 7.0, -42920.0 / 7.0, -11115.0 / 7.0, 7722.0 / 7.0, -990.0, -21360.0 / 7.0];
      SumOfSeven(pxy);
    }
    assert Sxx(x) == 23562.0 by {
      var pxx := Products(dx, dx);
      assert pxx == [3249.0, 4761.0, 3364.0, 1521.0, 1521.0, 1225.0, 7921.0];
      SumOfSeven(pxx);
    }
    FitFromMoments(x, y, 28.0, 320.0 / 7.0, -12944.0, 23562.0);
  }

  /** The axes of the test at lines 78-85. */
  const PredictX3: seq<real> := [91.0, 73.0, -15.0, -23.0, -75.0, 9.0, 12.0]
  const PredictY3: seq<real> := [-38.0, 88.0, -76.0, -57.0, 59.0, -67.0, -90.0]

  /** Seven points: slope 8195/136314 and intercept -200499/7573, and predictions within seven
      places of the expected values at -10⁹, -1, 0, 1 and 10⁹. Each expected value is the float64
      nearest the test's literal. */
  lemma RandomRegressionPredict3()
    ensures FitOf(PredictX3, PredictY3).beta == Defined(8195.0 / 136314.0)
    ensures FitOf(PredictX3, PredictY3).inty == Defined(-200499.0 / 7573.0)
    ensures NearPrediction(LineAt(FitOf(PredictX3, PredictY3).beta, FitOf(PredictX3, PredictY3).inty, -1000000000.0),
                           -60118576.2943057715892791748046875)
    ensures NearPrediction(LineAt(FitOf(PredictX3, PredictY3).beta, FitOf(PredictX3, PredictY3).inty, -1.0),
                           -26.535623633669320753369902377016842365264892578125)
    ensures NearPrediction(LineAt(FitOf(PredictX3, PredictY3).beta, FitOf(PredictX3, PredictY3).inty, 0.0),
                           -26.475505083850521259591914713382720947265625)
    ensures NearPrediction(LineAt(FitOf(PredictX3, PredictY3).beta, FitOf(PredictX3, PredictY3).inty, 1.0),
                           -26.415386534031721765813927049748599529266357421875)
    ensures NearPrediction(LineAt(FitOf(PredictX3, PredictY3).beta, FitOf(PredictX3, PredictY3).inty, 1000000000.0),
                           60118523.3432956039905548095703125)
  {
    var x, y := PredictX3, PredictY3;
    assert Mean(x) == 72.0 / 7.0 by { SumOfSeven(x); }
    assert Mean(y) == -181.0 / 7.0 by { SumOfSeven(y); }
    var dx, dy := Deviations(x), Deviations(y);
    assert dx == [565.0 / 7.0, 439.0 / 7.0, -177.0 / 7.0, -233.0 / 7.0, -597.0 / 7.0, -9.0 / 7.0, 12.0 / 7.0];
    assert dy == [-85.0 / 7.0, 797.0 / 7.0, -351.0 / 7.0, -218.0 / 7.0, 594.0 / 7.0, -288.0 / 7.0, -449.0 / 7.0];
    assert Sxy(x, y) == 8195.0 / 7.0 by {
      var pxy := Products(dx, dy);
      assert pxy == [-48025.0 / 49.0, 349883.0 / 49.0, 62127.0 / 49.0, 50794.0 / 49.0, -354618.0 / 49.0, 2592.0 / 49.0, -5388.0 / 49.0];
      SumOfSeven(pxy);
    }
    assert Sxx(x) == 136314.0 / 7.0 by {
      var pxx := Products(dx, dx);
      assert pxx == [319225.0 / 49.0, 192721.0 / 49.0, 31329.0 / 49.0, 54289.0 / 49.0, 356409.0 / 49.0, 81.0 / 49.0, 144.0 / 49.0];
      SumOfSeven(pxx);
    }
    FitFromMoments(x, y, 72.0 / 7.0, -181.0 / 7.0, 8195.0 / 7.0, 136314.0 / 7.0);
  }

  /** Domain and range of small positive and of negative samples. */
  lemma DomainRange()
    ensures FitOf([0.0, 1.0, 3.0], [2.0, 3.0, 4.0]).domain == (0.0, 3.0)
    ensures FitOf([0.0, 1.0, 3.0], [2.0, 3.0, 4.0]).range == (2.0, 4.0)
    ensures FitOf([-1.0, -2.0, -3.0], [-1.0, -2.0, -3.0]).domain == (-3.0, -1.0)
    ensures FitOf([-1.0, -2.0, -3.0], [-1.0, -2.0, -3.0]).range == (-3.0, -1.0)
  {
    var a, b, c := [0.0, 1.0, 3.0], [2.0, 3.0, 4.0], [-1.0, -2.0, -3.0];
    assert a[..2][..1] == [0.0] && b[..2][..1] == [2.0] && c[..2][..1] == [-1.0];
  }
}
