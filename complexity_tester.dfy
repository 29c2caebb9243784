/** The estimation session: samples the callable once, selects a growth
    model, fits its coefficient, and then answers prediction queries. */
module ComplexityTest {
  import opened Complexities
  import opened Sampling
  import opened Selection
  import opened Predictor

  /** The curve fitter, outside the model.  For the samples (x, y) it gives
      the coefficients of the two-term model of every pair and the
      coefficient of every single model. */
  datatype Fitter = Fitter(pair: (seq<nat>, seq<real>) -> PairFit, single: (seq<nat>, seq<real>, Model) -> real)

  /** A model with a fitted coefficient, as a function of the size. */
  function Prediction(m: Model, a: real, num: Numerics): (f: nat -> real)
    ensures forall n :: f(n) == Eval(m, n, a, num)
  {
    (n: nat) => Eval(m, n, a, num)
  }

  /** With a non-negative coefficient an exact model's prediction never
      decreases with the size. */
  lemma PredictionMonotone(m: Model, a: real, num: Numerics)
    requires Exact(m) && 0.0 <= a
    ensures Monotone(Prediction(m, a, num))
  {
    forall p: nat, q: nat | p <= q
      ensures Eval(m, p, a, num) <= Eval(m, q, a, num)
    {
      EvalMonotone(m, p, q, a, num);
    }
  }

  class ComplexityTester {
    /** The logarithm and square root the models evaluate with. */
    const numerics: Numerics
    /** The sampled sizes and their times. */
    var x: seq<nat>
    var y: seq<real>
    /** The selected model, its fitted coefficient and its name. */
    var model: Model
    var coefficient: real
    var name: string

    /** Creating a session samples and selects at once. */
    constructor (timer: Timer, fitter: Fitter, numerics: Numerics)
      ensures this.numerics == numerics
      ensures x == Sampled(timer).sizes && y == Sampled(timer).seconds
      ensures model == Selected(fitter.pair(x, y))
      ensures coefficient == fitter.single(x, y, model)
      ensures |x| == |y| && name == model.Name()
    {
      this.numerics := numerics;
      x, y := [], [];
      model, coefficient, name := Const, 0.0, "";
      new;
      FindComplexity(timer, fitter);
    }

    /** Samples, walks the catalog from its first pair, and fits the model
        the walk stops at. */
    method FindComplexity(timer: Timer, fitter: Fitter)
      modifies this
      ensures x == Sampled(timer).sizes && y == Sampled(timer).seconds
      ensures model == Selected(fitter.pair(x, y))
      ensures coefficient == fitter.single(x, y, model)
      ensures |x| == |y| && name == model.Name()
    {
      var xs, ys := MakeSamples(timer);
      x, y := xs, ys;
      var result := Find(fitter.pair(xs, ys), 0);
      model := ALL[result];
      coefficient := fitter.single(xs, ys, model);
      name := model.Name();
    }

    /** The predicted time at size n; an exact model with a non-negative
        coefficient never predicts a negative time. */
    function EstimatedTime(n: nat): (r: real)
      reads this
      ensures Exact(model) && 0.0 <= coefficient ==> 0.0 <= r
    {
      Eval(model, n, coefficient, numerics)
    }

    /** With a non-negative coefficient, the prediction of an exact model
        never decreases with the size, and is the coefficient times the
        prediction with coefficient 1. */
    lemma EstimatedTimeGrows(m: nat, n: nat)
      requires Exact(model) && 0.0 <= coefficient && m <= n
      ensures EstimatedTime(m) <= EstimatedTime(n)
      ensures EstimatedTime(n) == coefficient * Eval(model, n, 1.0, numerics)
    {
      EvalMonotone(model, m, n, coefficient, numerics);
      CoefficientScales(model, n, coefficient, numerics);
    }

    /** The largest size predicted to run below the budget, by the
        inverse lookup over this session's predictions. */
    method FindMaxN(maxTime: real, ghost k: nat) returns (n: nat)
      requires EstimatedTime(1) < maxTime <= EstimatedTime(Pow2(k))
      ensures EstimatedTime(n) < maxTime <= EstimatedTime(n + 1)
      ensures Exact(model) && 0.0 <= coefficient ==>
                forall m: nat :: EstimatedTime(m) < maxTime <==> m <= n
    {
      var f := Prediction(model, coefficient, numerics);
      n := Predictor.FindMaxN(f, maxTime, k);
      if Exact(model) && 0.0 <= coefficient {
        PredictionMonotone(model, coefficient, numerics);
      }
    }
  }
}
