# Complexity estimator — a Dafny model

The system estimates the asymptotic time complexity of a callable, working empirically. It takes four steps:

- **Sampling.** It times the callable at growing input sizes in three regimes:
  - sizes 1..9 with averaged runs;
  - sizes 11, 21, …, 91 with averaged runs;
  - sizes 101, 201, …, 9901 with averaged runs.

  A timeout makes it change strategy:
  - regime 1 switches to single runs over the rest of 1..9 and then stops;
  - regime 2 switches to single runs from the failing size up to 99, and a single-run timeout there records a 2-second penalty sample and stops;
  - regime 3 simply stops.
- **Selection.** It walks the catalog of eight growth models (constant, log, square root, linear, linearithmic, quadratic, cubic, exponential) pair by pair. For each neighbouring pair it fits the two-term model `a·f(x) + b·g(x)`. The walk moves on while `a < b`.
- **Fitting.** It fits the coefficient of the model the walk stops at.
- **Prediction.** It answers two queries:
  - the predicted time at a size;
  - the largest size predicted to take less than a time budget. This uses a doubling probe followed by a bisection.

The model is split into six modules:

- `Complexities` (`complexities.dfy`) is the catalog. It covers:
  - the models and their names;
  - their order;
  - their values, with the logarithm and square root left uninterpreted as the fields of a `Numerics` value;
  - coefficient scaling and monotonicity.
- `Sampling` (`sampling.dfy`) covers the sampling loops as methods. Each method is proved to record exactly what a ghost function per regime describes. The timing of a run is an oracle `Timer`: for every size it says whether the averaged and the single run finish and in how many seconds. The lemmas prove that every sample is one the timer reported.
- `SamplingProperties` (`sampling_properties.dfy`) proves what is recorded in each situation the control flow distinguishes.
- `Selection` (`selection.dfy`) covers the pairwise walk. The curve fit is an oracle that gives the fitted coefficients of every pair.
- `Predictor` (`predictor.dfy`) covers the probe and the bisection over any time function `f` of the size.
- `ComplexityTest` (`complexity_tester.dfy`) is the `ComplexityTester` class. Its constructor samples, selects and fits. It also provides the two queries over the session's fields.

## Model

| member | source | states |
|---|---|---|
| Complexities.Eval | complexity/complexities.py:6-30 | the value of each catalog formula at a size with a coefficient; an exact model with a non-negative coefficient never predicts a negative time |
| Complexities.Model.Name | complexity/complexities.py:6-30 | the `__name__` of each catalog function, which the session stores and reports (complexity_test.py:107) |
| Complexities.NameIdentifies | complexity/complexities.py:6-32 | the names of the eight models, as reported inside "O(...)", are distinct: a name identifies its model |
| Complexities.Rank | complexity/complexities.py:32 | the position of each model in the catalog list, inverse to indexing it |
| Complexities.CatalogOrder | complexity/complexities.py:32 | the catalog has eight distinct models and ends with the exponential one; indexing and `Rank` are inverse |
| Complexities.ConstFill | complexity/complexities.py:27-30 | the constant model's array has the shape of the input and every entry equals the coefficient |
| Complexities.Apply | complexity/complexities.py:6-30 | applying a model to a vector of sizes gives, entry by entry, the model's value at that size |
| Complexities.CoefficientScales | complexity/complexities.py:6-25 | every model is linear in its coefficient |
| Complexities.LinearMonotone | complexity/complexities.py:6-7 | `a*x` does not decrease in x for a >= 0 |
| Complexities.QuadraticMonotone | complexity/complexities.py:12-13 | `x*x*a` does not decrease in x for a >= 0 |
| Complexities.CubicMonotone | complexity/complexities.py:21-22 | `a*x*x*x` does not decrease in x for a >= 0 |
| Complexities.ExponentialMonotone | complexity/complexities.py:24-25 | `exp2(x)*a` does not decrease in x for a >= 0 |
| Complexities.EvalMonotone | complexity/complexities.py:6-30 | every model without a logarithm or square root does not decrease in the size for a >= 0 |
| Complexities.CubeBelowPow2 | complexity/complexities.py:21-25 | from size 10 on, x*x*x stays below 2^x |
| Complexities.GrowthOrder | complexity/complexities.py:6-32 | from size 10 on, with a positive coefficient, the exact models predict strictly increasing times in catalog order: const < n < n_power_2 < n_power_3 < exponential |
| Complexities.Pow2Increasing | complexity/complexities.py:24-25 | powers of two strictly grow with the exponent |
| Sampling.FallbackOne | complexity/complexity_test.py:124-131 | defines what the regime-1 fallback records: the single-run samples of sizes j..9 that finish |
| Sampling.RegimeOne | complexity/complexity_test.py:117-131 | defines what regime 1 records from size i: averaged samples, until the first multi-run timeout switches to the fallback and stops |
| Sampling.FallbackTwo | complexity/complexity_test.py:141-150 | defines what the regime-2 fallback records: single-run samples from j up to 99, and at the first single-run timeout the penalty sample and a stop |
| Sampling.RegimeTwo | complexity/complexity_test.py:133-150 | defines what regime 2 records from size i: averaged samples in steps of 10; a multi-run timeout runs the fallback, which stops sampling or resumes at i+10 |
| Sampling.RegimeThree | complexity/complexity_test.py:152-158 | defines what regime 3 records from size i: averaged samples in steps of 100 up to the first timeout |
| Sampling.Sampled | complexity/complexity_test.py:114-159 | defines the whole record: regime 1, then regime 2 unless regime 1 returned, then regime 3 unless regime 2 returned |
| Sampling.RunFallbackOne | complexity/complexity_test.py:124-131 | the regime-1 single-run loop appends exactly the samples of the sizes j..9 whose single run finishes, skipping the ones that time out |
| Sampling.StepRegimeOne | complexity/complexity_test.py:118-131 | one regime-1 iteration either records the averaged sample and leaves the rest of the regime to do, or falls back and stops with the whole regime recorded |
| Sampling.RunRegimeOne | complexity/complexity_test.py:117-131 | the regime-1 loop records exactly regime 1's samples and reports whether sampling returned |
| Sampling.RunFallbackTwo | complexity/complexity_test.py:141-150 | the regime-2 single-run loop appends single-run samples up to the first single-run timeout, which adds a penalty sample and stops |
| Sampling.StepRegimeTwo | complexity/complexity_test.py:134-150 | one regime-2 iteration records the averaged sample, or runs the fallback and either stops or leaves the sweep to resume at i+10 |
| Sampling.RunRegimeTwo | complexity/complexity_test.py:133-150 | the regime-2 loop appends exactly regime 2's samples and reports whether sampling returned |
| Sampling.RunRegimeThree | complexity/complexity_test.py:152-158 | the regime-3 loop appends averaged samples up to the first timeout |
| Sampling.MakeSamples | complexity/complexity_test.py:114-159 | the sampling run returns exactly the sizes and times the three regimes record, as parallel lists |
| Sampling.ConsWellFormed | complexity/complexity_test.py:119-120 | recording one timer-reported sample keeps a stretch well formed |
| Sampling.ThenWellFormed | complexity/complexity_test.py:117-159 | two well-formed stretches, the first of which does not stop, join to a well-formed stretch |
| Sampling.FallbackOneWellFormed | complexity/complexity_test.py:124-131 | every sample of the regime-1 fallback is tagged as a single run and is one the timer reported as finished at its size; the fallback never stops on its own |
| Sampling.RegimeOneWellFormed | complexity/complexity_test.py:117-131 | every regime-1 sample is one the timer reported at its size, and none is a penalty sample, so each is a finished averaged or single run |
| Sampling.FallbackTwoWellFormed | complexity/complexity_test.py:141-150 | no regime-2 fallback sample is tagged as averaged; every sample is a finished single run the timer reported, except a penalty sample, which can only be the last one of a stretch that stops |
| Sampling.RegimeTwoWellFormed | complexity/complexity_test.py:133-150 | every regime-2 sample is reported by the timer, and a penalty sample only ends sampling |
| Sampling.RegimeThreeWellFormed | complexity/complexity_test.py:152-158 | every regime-3 sample is tagged as averaged and is an averaged run the timer reported as finished at its size |
| Sampling.SampledWellFormed | complexity/complexity_test.py:114-159 | the whole record has parallel lists, sizes in 1..9999, every time reported by the timer for its size (or the 2-second penalty after a single-run timeout), and at most one penalty sample, the last one |
| SamplingProperties.Steps | complexity/complexity_test.py:117 | `count` sizes from `start`, `step` apart, as a `range` produces them |
| SamplingProperties.AveragedSweepSamples | complexity/complexity_test.py:117-120 | when every averaged run finishes, a sweep records exactly the stepped sizes, each with its averaged time |
| SamplingProperties.SingleSweepSizes | complexity/complexity_test.py:141-144 | when every single run finishes, a single-run sweep records exactly the consecutive sizes |
| SamplingProperties.SampledWithoutTimeouts | complexity/complexity_test.py:114-159 | with no timeout, sampling is the three averaged sweeps in order |
| SamplingProperties.SampledNominalSizes | complexity/complexity_test.py:117-155 | with no timeout the sizes are exactly 1..9, 11..91 step 10, 101..9901 step 100, all averaged, and sampling runs to the end |
| SamplingProperties.ThreeSweeps | complexity/complexity_test.py:117-155 | three complete averaged sweeps record the concatenation of their stepped sizes, all averaged |
| SamplingProperties.FallbackOneContents | complexity/complexity_test.py:124-131 | the regime-1 fallback from j records exactly the sizes in j..9 whose single run finishes, all as single runs |
| SamplingProperties.RegimeOneFallsBack | complexity/complexity_test.py:121-131 | unfolding step (one branch of the definition): a multi-run timeout in regime 1 gives the single-run sweep and then stops |
| SamplingProperties.FallbackTwoPenaltyAt | complexity/complexity_test.py:145-150 | unfolding step (one branch of the definition): a single-run timeout in the regime-2 fallback records only the 2-second penalty at that size and stops |
| SamplingProperties.RegimeTwoFallsBack | complexity/complexity_test.py:137-150 | unfolding step (one branch of the definition): a regime-2 multi-run timeout whose fallback stops gives that fallback as the rest of sampling |
| SamplingProperties.RegimeTwoResumes | complexity/complexity_test.py:133-150 | unfolding step (one branch of the definition): a regime-2 fallback that reaches 99 without stopping is followed by the step-10 sweep from i+10 |
| SamplingProperties.RegimeThreeStopsAt | complexity/complexity_test.py:156-158 | unfolding step (one branch of the definition): a regime-3 multi-run timeout ends sampling with no sample |
| SamplingProperties.SampledStopsInOne | complexity/complexity_test.py:131 | unfolding step (one branch of the definition): when regime 1 returns, nothing else is sampled |
| SamplingProperties.SampledStopsInTwo | complexity/complexity_test.py:150 | unfolding step (one branch of the definition): when regime 2 returns, regime 3 is not run |
| SamplingProperties.SampledRunsAll | complexity/complexity_test.py:114-159 | unfolding step (one branch of the definition): otherwise the three regimes are recorded in order |
| SamplingProperties.RegimeOneComplete | complexity/complexity_test.py:117-120 | regime 1 without timeouts is the averaged sweep over 1..9 |
| SamplingProperties.RegimeTwoComplete | complexity/complexity_test.py:133-136 | regime 2 without timeouts is the averaged sweep over 11..91 |
| SamplingProperties.RegimeThreeComplete | complexity/complexity_test.py:152-155 | regime 3 without timeouts is the averaged sweep over 101..9901 |
| SamplingProperties.RegimeOneTimeout | complexity/complexity_test.py:117-131 | a first multi-run timeout at size i < 10 gives the averaged samples 1..i-1, then the single-run sweep from i, and stops |
| SamplingProperties.RegimeOneTimeoutSizes | complexity/complexity_test.py:121-131 | after such a timeout, the sizes after the first i-1 are exactly those in i..9 whose single run finishes, and no size reaches 10 |
| SamplingProperties.RegimeTwoPenaltyRun | complexity/complexity_test.py:137-150 | a regime-2 timeout at i whose single runs finish up to j, where one times out, records the single runs i..j-1 and the penalty at j, then stops |
| SamplingProperties.RegimeTwoPenalty | complexity/complexity_test.py:133-150 | the whole record after a regime-2 timeout at 11+10c with a single-run timeout at j: regime 1, the averaged sizes before 11+10c, the single runs up to j, the penalty sample, and nothing from regime 3 |
| SamplingProperties.RegimeTwoResumeAt | complexity/complexity_test.py:137-150 | a regime-2 timeout at i whose single runs all finish records i..99 and resumes at i+10 |
| SamplingProperties.RegimeTwoResume | complexity/complexity_test.py:133-150 | after a regime-2 resume, size 99 is immediately followed by size 21+10c, so the recorded sizes are not increasing |
| SamplingProperties.RegimeThreeTimesOut | complexity/complexity_test.py:152-158 | c finished averaged runs and then a timeout in regime 3 record those c samples and stop |
| SamplingProperties.RegimeThreeTimeout | complexity/complexity_test.py:152-158 | a first timeout at 101+100c in regime 3 gives all of regimes 1 and 2 and the c regime-3 samples before it |
| Selection.Compare | complexity/complexity_test.py:92-95 | the comparison is 1 or -1, and 1 exactly when the first fitted coefficient is below the second |
| Selection.Find | complexity/complexity_test.py:97-101 | the walk from i ends inside the catalog; every pair it passes compares as 1, and the pair it stops at (if not the last position) compares as -1 |
| Selection.FindIsFirstStop | complexity/complexity_test.py:97-101 | the walk from 0 returns r if and only if r is the first position whose pair does not advance (or the last one) |
| Selection.Selected | complexity/complexity_test.py:104-105 | the selected model sits at the walk's position, every model before it lost its comparison, and it won its own unless it is exponential |
| Selection.SelectedExtremes | complexity/complexity_test.py:97-105 | if every pair advances, the exponential model is selected; if the first pair does not, the constant model is |
| Predictor.Pow2IsPow2 | complexity/complexity_test.py:214-217 | every probe value is a power of two |
| Predictor.Probe | complexity/complexity_test.py:214-217 | the doubling probe stops at the first power of two whose time reaches the budget; every smaller power, in particular it/2, is below it |
| Predictor.BinSearch | complexity/complexity_test.py:204-212 | bisection with a `>=` test, which sends a midpoint whose time equals the budget to the right end: from a bracket with f(left) < t <= f(right) it returns r in the bracket with f(r) < t <= f(r+1) |
| Predictor.BinSearchAsWritten | complexity/complexity_test.py:204-212 | the bisection as written, which sends a midpoint whose time equals the budget to the left end; all it keeps is f(r) <= t <= f(r+1) |
| Predictor.AsWrittenHitsBudget | complexity/complexity_test.py:208 | for f(n) = n and budget 3 the bisection as written returns 3, whose time equals the budget; the corrected one returns 2 |
| Predictor.MaxUnderBudget | complexity/complexity_test.py:201-202 | for a non-decreasing time function, such an r is the largest size below the budget: f(n) < t exactly when n <= r |
| Predictor.FindMaxN | complexity/complexity_test.py:202-224 | with the corrected `>=` bisection test (see Findings), the probe and bisection return n with f(n) < budget <= f(n+1), and for a non-decreasing f the sizes below the budget are exactly 0..n |
| ComplexityTest.PredictionMonotone | complexity/complexity_test.py:227-228 | an exact model with a non-negative coefficient predicts non-decreasing times |
| ComplexityTest.ComplexityTester.constructor | complexity/complexity_test.py:67-87 | creating a session records the samples the timer gives, selects the walk's model, fits its coefficient and stores its name |
| ComplexityTest.ComplexityTester.FindComplexity | complexity/complexity_test.py:90-108 | samples are exactly the sampling record, the model is the walk's choice over them, the coefficient is its single-model fit, and the name is the model's |
| ComplexityTest.ComplexityTester.EstimatedTime | complexity/complexity_test.py:227-228 | the session's predicted time at a size: the selected model with its fitted coefficient; for an exact model with a non-negative coefficient it is never negative |
| ComplexityTest.ComplexityTester.EstimatedTimeGrows | complexity/complexity_test.py:227-228 | the estimated time of an exact model with coefficient >= 0 does not decrease with the size and is the coefficient times the unit model |
| ComplexityTest.ComplexityTester.FindMaxN | complexity/complexity_test.py:202-224 | with the corrected `>=` bisection test (see Findings), the returned size's estimated time is below the budget and the next size's is not; for an exact model with coefficient >= 0 it is the largest such size |

## Sizes are not always increasing

One might expect the sample sizes to increase strictly, since every regime and every fallback sweeps upwards. The code does not guarantee this. Suppose a regime-2 averaged run times out at a size `i` <= 81, and the single runs at `i..99` all finish. The loop then continues at `i + 10` (complexity/complexity_test.py:133-150), and the list of sizes goes …, 98, 99, `i + 10`, …. At `i = 91` there is no later step of `range(11, 100, 10)`, so regime 3 follows at 101 and the sizes stay increasing.

The model follows the code. `SamplingProperties.RegimeTwoResume` proves the drop: after such a resume, size 99 is immediately followed by `21 + 10c`. It is not listed under Findings because the code's intent here is unclear.

## Left out

- **Timing.** The deadline-bounded executor (complexity/timeout.py, separate processes) and the `single_test`/`multi_test` timing decorators are not part of this model. A `Timer` oracle, passed as a parameter, gives each size's outcome. It is deterministic per size, so a single run repeated at the same size after a regime-2 resume gives the same result. A consequence: once a regime-2 fallback from i has run through 99 without a single-run timeout, a later fallback from i+10 can never reach the penalty, since every single run it repeats already finished. A real run, whose timings vary, can time out on the repeat; that case is not represented.
- **Averaging.** `multi_test` divides a sum over `number - 1` runs by `number`. This lowers every averaged time by the factor (number - 1) / number, 10% at the default `loops=10`. The averaged time is whatever the oracle reports, so this systematic underestimate is not modelled.
- **Overall timeout.** The overall timeout on sampling and the `exit(-1)` on expiry are not modelled. Sampling always completes.
- **Curve fitting.** `test_complexity` and scipy's `curve_fit` are outside the model. A `Fitter` oracle gives the pair coefficients and the single-model coefficient. Fit errors, its standard errors, its timeout and the `exit(-1)` on failure are left out.
- **Numerics.** Floating point is modelled as exact reals. `log2` and `sqrt` are uninterpreted fields of `Numerics`, and `exp2` is an exact power of two.
- **Scalar `const`.** `const(x, a)` reads `x.shape`, so it fails on a scalar size. `Eval(Const, …)` returns `a`, which is what `ConstFill` gives entry by entry on an array.
- **The `it < 0` guard.** The probe's `it < 0` guard never fires on Python's unbounded integers, so its "no interval" path is not modelled.
- Predictor.FindMaxN: requires f(1) < budget, so that the probe doubles at least once and bisection starts from a whole bracket [it/2, it]. In the source, with `it == 1` the bisection works on fractional sizes in [0.5, 1], whose ends can never again be 1 apart; that case is not modelled.
- Predictor.FindMaxN: requires a ghost exponent k with f(2^k) >= budget. Without one, under exact arithmetic, the probe never ends. In the source, the float predictions leave the float range after about 1024 doublings.
- ComplexityTest.ComplexityTester.FindMaxN: has the same two requirements as Predictor.FindMaxN, and uses the corrected `>=` bisection of the Finding, not the `>` of complexity_test.py:208.
- Predictor.BinSearch: returns a natural. The source divides with `/`, so its bracket ends are floats with whole values; the model uses whole numbers. While the bracket ends stay below 2^53, the power-of-two bracket width makes every float midpoint a whole number computed exactly.
- **Output.** Plotting (`print`), logging, the debug `print(i)` in regime 2, `main.py` and `setup.py` are not part of this model.

## Findings

| source | as written | input that shows it | evidently intended | confidence | as-written member | corrected member |
|---|---|---|---|---|---|---|
| complexity/complexity_test.py:208 | `center_result > max_time` sends a midpoint whose time equals the budget to the left end, so the result's time can equal the budget | f(n) = n, max_time = 3: the probe stops at 4, bisecting [2, 4] gives 3, and f(3) = 3 is not below the budget | `>=`, so that the result is the largest size whose time is below the budget (as the comment on line 201 says) | not executed | Predictor.AsWrittenHitsBudget | Predictor.FindMaxN |
