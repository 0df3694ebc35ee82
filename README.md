# regpy linear regression, modelled in Dafny

regpy fits a simple (one-predictor) ordinary-least-squares line to two lists of numbers. The
`LinearRegression` constructor takes the x and y axes and, in order, computes:

- the slope `beta`, as covariance over x-variance of the centred deviations;
- the intercept `inty`, as ȳ − β·x̄;
- `domain` and `range`, the (min, max) pairs of x and of y;
- the coefficient of determination `rSquare`;
- the adjusted coefficient `rSquareAdj`.

`predict(v)` evaluates the fitted line at `v`. `drawPlots` lays the queued plots out on a grid
of `int(sqrt(n))` by `ceil(n / cols)` subplots, then deletes the surplus cells.

In `drawPlots` the figure is created as `subplots(cols, rows)` and indexed `axes[col][row]`, so the
source's `row` counts the figure's columns and its `col` counts the figure's rows: the figure is
filled column by column, and surplus axes are deleted from its last column. The rows below keep
the source's names `row` and `col`, in backticks.

The model is written over exact `real`, in five modules, one per file:

- `stats.dfy` (module `Stats`): Python's `sum`, `min` and `max`, numpy's `np.dot`, deviations from
  the mean, and reordering by a permutation. It also proves the algebra the other modules use.
- `regression.dfy` (module `Regression`): every fitted quantity as a function of the two axes
  (`Slope`, `Intercept`, `LineAt`, `RSquare`, `RSquareAdj`, all gathered in `FitOf`), and the
  lemmas about them.
- `linreg.dfy` (module `LinReg`): the `LinearRegression` class.
  - The constructor sets the fields one after another, as the source does.
  - The slope and R² are computed by loops that build the deviation and squared-error lists.
  - `Create` adds the error paths.
  - `Predict` is the line.
  - Each method is proved equal to the matching `Regression` function.
- `scenarios.dfy` (module `Scenarios`): the concrete regressions of the unit tests.
- `layout.dfy` (module `Layout`): the grid arithmetic and the cell-filling loops of `drawPlots`.

A zero denominator does not raise an error in the source. numpy's scalar division turns 0/0
into `nan`, and `nan` then spreads through the intercept, R² and adjusted R²; `domain` and
`range` come from the raw axes and are never NaN. The model follows this with
`Quantity = Defined(value) | NaN`. It also proves that whenever a denominator is zero the
numerator is zero too, so the source can never produce ±inf in exact arithmetic. The cases are:

- a constant x gives a NaN slope, intercept, R² and adjusted R²;
- a constant y gives a NaN R²;
- two points give a NaN adjusted R².

The source raises no error of its own for degenerate input:

- A constant x, a constant y, or n = 2 does not raise a dedicated error. The model gives `NaN`,
  as the code does.
- Non-empty axes of different lengths are rejected by `np.dot` in `_calculateBeta`. This also
  raises `ValueError`, before the `zip` at line 101 could truncate anything. The model returns
  `ShapesNotAligned` for them.

## Model

| member | source | states |
|---|---|---|
| Stats.SumOfSquares | regpy/linreg.py:70 | `sum(v**2 for v in s)` is never negative, and it is zero exactly when every element is zero |
| Stats.Min | regpy/linreg.py:43-44 | `min` returns an element of the list that is no larger than any element |
| Stats.Max | regpy/linreg.py:43-44 | `max` returns an element of the list that is no smaller than any element |
| Stats.SumConcat | regpy/linreg.py:57 | `sum` of a concatenation is the sum of the parts, the left-to-right accumulation of `sum` being additive |
| Stats.SumOfNonNegatives | regpy/linreg.py:70 | a `sum` of non-negative terms is non-negative, and zero exactly when every term is |
| Stats.MeanBetween | regpy/linreg.py:57 | the mean `sum(s) / len(s)` lies between `min(s)` and `max(s)` |
| Stats.DeviationsSumToZero | regpy/linreg.py:57-65 | the deviations `xErr` from the mean sum to zero |
| Stats.ZeroSpreadIffAllEqual | regpy/linreg.py:69-72 | the variance sum `varX` is zero exactly when all values are equal |
| Stats.SumPermute | regpy/linreg.py:57 | `sum` does not depend on the order of its terms |
| Stats.MeanPermute | regpy/linreg.py:57-62 | the means `xBar`, `yBar` do not depend on the order of the points |
| Stats.DotPermute | regpy/linreg.py:68 | `np.dot` is unchanged when both vectors are reordered by the same permutation |
| Stats.MinMaxPermute | regpy/linreg.py:43-44 | reordering keeps `min` and `max` |
| Stats.DotLinear | regpy/linreg.py:68 | `np.dot` is linear in its second argument |
| Stats.DotSymmetric | regpy/linreg.py:68 | `np.dot` is symmetric |
| Regression.Quotient | regpy/linreg.py:72 | maps every zero divisor to NaN, and a nonzero divisor to a defined value; float64 agrees only for 0/0 (a nonzero numerator over zero gives ±inf), which is the only zero division the fit reaches, by `SlopeIsZeroOverZero`, `RSquareIsZeroOverZero` and `RSquareAdjDefinedIff` |
| Regression.Slope | regpy/linreg.py:49-72 | a defined slope β solves the least-squares normal equation β·Sxx = Sxy; a NaN slope comes from 0/0: both the x-spread and the covariance are zero |
| Regression.Intercept | regpy/linreg.py:75-86 | the intercept is defined exactly when the slope is, and then β·x̄ + a = ȳ: the line passes through the point of means |
| Regression.LineAt | regpy/linreg.py:133 | `beta * x + inty` is NaN when either coefficient is, and at x = 0 it is the intercept |
| Regression.RSquare | regpy/linreg.py:89-105 | a defined R² comes from defined coefficients and is at most 1 for any line; with defined coefficients it is NaN only when y has no spread |
| Regression.RSquareAdj | regpy/linreg.py:108-116 | adjusted R² is defined exactly when R² is and the sample size is not 2 |
| Regression.FitOf | regpy/linreg.py:35-46 | the slope is defined exactly when x has spread, the intercept exactly with the slope, domain and range are ordered pairs, and an adjusted R² is defined only alongside R² |
| Regression.DomainRangeEnclose | regpy/linreg.py:43-44 | `domain` and `range` are ordered pairs of values taken from x and y that enclose every x and every y |
| Regression.SlopeDefinedIff | regpy/linreg.py:49-72 | the slope is defined exactly when the x values are not all equal |
| Regression.SlopeIsZeroOverZero | regpy/linreg.py:68-72 | when `varX` is zero, `covXY` is zero too, so the slope is 0/0 (NaN) and never ±inf |
| Regression.LineThroughMeans | regpy/linreg.py:83-86 | with a defined slope, the line β·v + (ȳ − β·x̄) equals ȳ + β·(v − x̄): it passes through the point of means |
| Regression.ExactLineRecovered | regpy/linreg.py:49-105 | points on y = c·x + d (x not constant) give slope c, intercept d and zero residuals, and R² is 1, or NaN when c = 0 |
| Regression.IdentityFit | regpy/linreg.py:49-105 | y == x gives slope 1, intercept 0 and R² 1, and the line predicts every v as v |
| Regression.AffineResponseLine | regpy/linreg.py:57-86 | for z = c·y + d, the slope becomes c·β and the intercept becomes c·a + d (a sign flip of y flips the line) |
| Regression.ResidualIdentity | regpy/linreg.py:96-105 | the sum of squared prediction errors of the fitted line is SStot − β·Sxy |
| Regression.RSquareDefinedIff | regpy/linreg.py:89-105 | R² is defined exactly when neither x nor y is constant |
| Regression.RSquareIsZeroOverZero | regpy/linreg.py:101-105 | when y is constant the residual sum is zero too, so R² is 0/0 (NaN) and never ±inf |
| Regression.FitRSquareValue | regpy/linreg.py:96-105 | for a defined slope and a y with spread, R² is 1 − SSres/SStot with the residuals of the fitted line |
| Regression.RSquareBounds | regpy/linreg.py:89-105 | whenever R² is defined, 0 ≤ R² ≤ 1 |
| Regression.TwoPointFitIsExact | regpy/linreg.py:96-105 | two points with distinct x are fitted with zero residual |
| Regression.RSquareAdjDefinedIff | regpy/linreg.py:108-116 | adjusted R² is defined exactly when n > 2 and R² is defined; at n = 2 a defined R² is exactly 1, so the division is 0/0 |
| Regression.AdjustedAtMost | regpy/linreg.py:115-116 | for n > 2 and R² ≤ 1, 1 − (1 − R²)(n − 1)/(n − 2) is defined and at most R² |
| Regression.RSquareAdjAtMostRSquare | regpy/linreg.py:108-116 | for n > 2, adjusted R² is defined whenever R² is, and never exceeds it |
| Regression.SlopePermute | regpy/linreg.py:57-72 | reordering the points (pairs kept together) leaves covariance, variances and slope unchanged |
| Regression.ResidualSquaresPermute | regpy/linreg.py:99-105 | reordering the points leaves the residual sum of squares of any line unchanged |
| Regression.FitInvariantUnderPermutation | regpy/linreg.py:35-116 | reordering the points (pairs kept together) leaves every field of the fit unchanged |
| LinReg.LinearRegression.constructor | regpy/linreg.py:35-46 | keeps the axes and sets beta, inty, domain, range, rSquare and rSquareAdj, in that order, to the fit of the axes |
| LinReg.LinearRegression.Create | regpy/linreg.py:36-37 | fails with `EmptyAxes` exactly when an axis is empty, and with `ShapesNotAligned` (the `np.dot` at line 68) exactly when non-empty axes differ in length; otherwise it returns a new, fully set object |
| LinReg.LinearRegression.CalculateBeta | regpy/linreg.py:49-72 | the deviation lists built point by point give covariance over x-variance, i.e. `Slope` |
| LinReg.LinearRegression.CalcRSquare | regpy/linreg.py:89-105 | the squared-error and squared-deviation lists accumulated over the points give 1 − SSres/SStot, i.e. `RSquare` |
| LinReg.LinearRegression.Predict | regpy/linreg.py:119-133 | the prediction is defined exactly when x is not constant, and then equals ȳ + β·(v − x̄) for every v, inside the domain or not |
| LinReg.LinearRegression.PredictAtMean | regpy/linreg.py:83-86 | `predict(x̄) == ȳ` |
| LinReg.LinearRegression.PredictAffine | regpy/linreg.py:133 | `predict` maps a weighted average of two inputs to the same weighted average of their predictions |
| Scenarios.SimpleRegressionLine | test/linregtest.py:13-16 | [1,2,3] against itself gives slope 1 and intercept 0 |
| Scenarios.SimpleAxesNotSorted | test/linregtest.py:18-21 | [3,1,2] against itself gives slope 1 and intercept 0 |
| Scenarios.LargeRegressionNotSorted | test/linregtest.py:28-32 | values in the millions against themselves give slope 1 and intercept 0 |
| Scenarios.SimpleRegressionPredict | test/linregtest.py:52-58 | on y == x, `predict(v) == v` for every v, including ±10⁹ |
| Scenarios.RandomAxesNotSorted | test/linregtest.py:23-26 | x = [5,−10,3,23], y = [3,−2,−6,12] give slope exactly 1025/2211 and intercept −504/737 |
| Scenarios.FitFromMoments | test/linregtest.py:34-50 | with the means, covariance and a nonzero x-spread known, the fit's slope is Sxy/Sxx and its intercept ȳ − (Sxy/Sxx)·x̄ |
| Scenarios.RandomRegression | test/linregtest.py:34-38 | the first seven-point sample gives slope exactly 3763/6550 and intercept −54998/3275 |
| Scenarios.RandomRegression2 | test/linregtest.py:40-44 | the second seven-point sample gives slope exactly 1663/2084 and intercept −8781/1042 |
| Scenarios.RandomRegression3 | test/linregtest.py:46-50 | the third seven-point sample gives slope exactly −90665/172098 and intercept −3608596/86049 |
| Scenarios.RandomRegressionPredict | test/linregtest.py:60-67 | slope exactly 12983/11378 and intercept −286500/5689; the predictions at −10⁹, −1, 0 and 1 are within seven places of the expected float64 values, while the exact prediction at 10⁹, 6491499713500/5689, misses the expectation at line 67 by more than that |
| Scenarios.RandomRegressionPredict2 | test/linregtest.py:69-76 | slope exactly −6472/11781 and intercept 719776/11781; the predictions at −10⁹, −1, 0 and 1 are within seven places of the expected float64 values, while the exact prediction at 10⁹ misses the expectation at line 76 by more than that |
| Scenarios.RandomRegressionPredict3 | test/linregtest.py:78-85 | slope exactly 8195/136314 and intercept −200499/7573; all five predictions are within seven places of the expected float64 values |
| Scenarios.DomainRange | test/linregtest.py:87-95 | domain (0,3) and range (2,4) for the first sample, and (−3,−1) for the negative one |
| Layout.Isqrt | regpy/linreg.py:171 | `int(sqrt(n))` is the r with r² ≤ n < (r+1)² |
| Layout.CeilingDivision | regpy/linreg.py:172 | (n + c − 1) div c is `ceil(n / c)`: the least q with q·c ≥ n |
| Layout.GridShape | regpy/linreg.py:169-172 | no plots divides by zero (None); otherwise cols ≥ 1, cols² ≤ n < (cols+1)², and rows is the least count with rows·cols ≥ n |
| Layout.GridNearlySquare | regpy/linreg.py:169-172 | cols ≤ rows ≤ cols + 2 |
| Layout.SmallGridIsOneRow | regpy/linreg.py:171-177 | one to three plots give `cols` = 1, so `subplots(1, n)` makes one figure row of n axes side by side, which is why those branches use a single subscript; four or more give `cols` ≥ 2 |
| Layout.CellOf | regpy/linreg.py:210-230 | a cell is never left blank; a drawn cell holds a queued plot whose index leads back to the cell: `row` = index div `cols`, `col` = index mod `cols` |
| Layout.EveryPlotDrawnOnce | regpy/linreg.py:210-230 | every queued plot k is drawn at `axes[k mod cols][k div cols]`, i.e. `col` = k mod `cols`, `row` = k div `cols`, and in no other cell |
| Layout.DeletedOnlyInLastRow | regpy/linreg.py:210-217 | a deleted cell always has `row` = `rows` − 1, so fewer than `cols` cells are deleted |
| Layout.DrawPlots | regpy/linreg.py:168-230 | with no plots nothing is drawn; otherwise a new grid of the computed shape is filled so that each cell holds the plot at position `row`·`cols` + `col`, or is deleted past the end of the queue |
| Layout.FillRow | regpy/linreg.py:192-206 | two or three plots, on the one figure row of n axes: axes `row` shows plot `row` |
| Layout.FillGrid | regpy/linreg.py:208-230 | four or more plots: the loop runs `col` inside `row`, each cell draws the next queued plot, and once the queue is exhausted every remaining cell is deleted |

## Left out

- Rendering: matplotlib and numpy calls in `drawPlots`, such as `subplots`, `plot`, `scatter`, `linspace`, the labels, titles and `show`. A cell is only recorded as drawn with plot k, or as deleted.
- The module-level `_plots` queue, `plotLinReg` and the `_LinRegPlot` record. Only the queue's length reaches the grid arithmetic, so `DrawPlots` takes that length as its parameter.
- `__repr__`, which formats two decimals; `__main`, which only prints; and `setup.py`, which is packaging.
- IEEE-754 floating point. All arithmetic is exact `real`, so the model omits:
  - rounding;
  - the `assertAlmostEqual` tolerance of the slope and intercept tests, which are stated with their exact values instead;
  - a ±inf adjusted R² at n = 2 when rounding leaves 1 − R² slightly off zero;
  - the loss of precision of `sqrt` for very large plot counts;
  - float overflow: `x**2` at line 70 and `(y - yBar)**2` at line 103 raise `OverflowError` once a deviation exceeds about 1.3·10¹⁵⁴ in magnitude, and the exact-real model has no such exception.
- The aliasing of the caller's lists: the object keeps references to `x` and `y`, and the model keeps their values.
- Python's dynamic typing: integer inputs are modelled as reals. In the source the means become floats through Python's `/` at lines 57 and 62, while `domain` and `range` keep the element type of the input.
- LinReg.LinearRegression.CalcRSquare: when beta or inty is NaN it returns NaN at once, instead of building the lists of `nan` predictions that Python would build. The result is the same NaN.
- The invariance of R² under rescaling y (z = c·y + d with c ≠ 0) is not stated. Only the effect of rescaling on the slope and the intercept is proved, by `Regression.AffineResponseLine`.
- The expectations at test/linregtest.py lines 67 and 76 are not met in exact arithmetic: the exact predictions at 10⁹ differ from the expected float64 values by about 1.8·10⁻⁷ and 1.2·10⁻⁷, beyond the seven places of `assertAlmostEqual`, so those two assertions can hold only through floating-point rounding. `Scenarios.RandomRegressionPredict` and `Scenarios.RandomRegressionPredict2` state the exact predictions there and that they miss; every other expectation of the three `predict` tests is stated as met.
