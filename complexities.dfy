/** The catalog of growth models a timed callable is matched against.

    Each model maps an input size `x` and a coefficient `a` to a predicted
    running time.  Sizes are natural numbers; times and coefficients are
    reals computed exactly.  The logarithm and the square root, which the
    implementation takes from a floating-point library, are left
    uninterpreted: they are the two fields of a `Numerics` value that every
    evaluation is given. */
module Complexities {

  /** The eight growth models, named as in the implementation. */
  datatype Model = Const | LogN | SqrtN | N | NLogN | NPower2 | NPower3 | Exponential
  {
    /** The model's name, as reported to the user inside "O(...)". */
    function Name(): string {
      match this
      case Const => "const"
      case LogN => "log_n"
      case SqrtN => "sqrt_n"
      case N => "n"
      case NLogN => "n_log_n"
      case NPower2 => "n_power_2"
      case NPower3 => "n_power_3"
      case Exponential => "exponential"
    }
  }

  /** A model's name identifies it. */
  lemma NameIdentifies(m1: Model, m2: Model)
    ensures m1.Name() == m2.Name() <==> m1 == m2
  {
  }

  /** The catalog, in strictly increasing order of asymptotic growth. */
  const ALL: seq<Model> := [Const, LogN, SqrtN, N, NLogN, NPower2, NPower3, Exponential]

  /** The position of a model in the catalog: the inverse of indexing `ALL`. */
  function Rank(m: Model): (r: nat)
    ensures r < |ALL| && ALL[r] == m
  {
    match m
    case Const => 0
    case LogN => 1
    case SqrtN => 2
    case N => 3
    case NLogN => 4
    case NPower2 => 5
    case NPower3 => 6
    case Exponential => 7
  }

  /** The catalog has eight distinct entries, its last entry is the
      exponential model, and indexing it and `Rank` are inverse to each other. */
  lemma CatalogOrder()
    ensures |ALL| == 8 && ALL[|ALL| - 1] == Exponential
    ensures forall i :: 0 <= i < |ALL| ==> Rank(ALL[i]) == i
    ensures forall i, j :: 0 <= i < j < |ALL| ==> ALL[i] != ALL[j]
  {
    forall i | 0 <= i < |ALL|
      ensures Rank(ALL[i]) == i
    {
      assert ALL[i] == [Const, LogN, SqrtN, N, NLogN, NPower2, NPower3, Exponential][i];
    }
  }

  /** The floating-point primitives the logarithmic and square-root models use. */
  datatype Numerics = Numerics(log2: nat -> real, sqrt: nat -> real)

  /** 2 to the power `n`. */
  function Pow2(n: nat): (r: nat)
    ensures r >= 1
  {
    if n == 0 then 1 else 2 * Pow2(n - 1)
  }

  /** Powers of two grow strictly with their exponent. */
  lemma {:induction false} Pow2Increasing(i: nat, j: nat)
    requires i < j
    ensures Pow2(i) < Pow2(j)
  {
    if i + 1 < j {
      Pow2Increasing(i, j - 1);
    }
  }

  /** The value of model `m` with coefficient `a` at size `x`. */
  function Eval(m: Model, x: nat, a: real, num: Numerics): (r: real)
    ensures Exact(m) && 0.0 <= a ==> 0.0 <= r
  {
    var r := x as real;
    match m
    case Const => a
    case LogN => a * num.log2(x)
    case SqrtN => a * num.sqrt(x)
    case N => a * r
    case NLogN => a * r * num.log2(x)
    case NPower2 => r * r * a
    case NPower3 => a * r * r * r
    case Exponential => Pow2(x) as real * a
  }

  /** The constant model's implementation: a fresh array shaped like `xs`,
      every entry holding `a`. */
  function ConstFill(xs: seq<nat>, a: real): (r: seq<real>)
    ensures |r| == |xs|
    ensures forall k :: 0 <= k < |r| ==> r[k] == a
  {
    seq(|xs|, _ => a)
  }

  /** A model applied to a whole vector of sizes, as the curve fitter calls it:
      the constant model fills an array, the arithmetic models work element by
      element. */
  function Apply(m: Model, xs: seq<nat>, a: real, num: Numerics): (r: seq<real>)
    ensures |r| == |xs|
    ensures forall k :: 0 <= k < |xs| ==> r[k] == Eval(m, xs[k], a, num)
  {
    if m == Const then ConstFill(xs, a)
    else seq(|xs|, k requires 0 <= k < |xs| => Eval(m, xs[k], a, num))
  }

  /** The models whose formula is exact over the naturals (everything but the
      three that need a logarithm or a square root). */
  predicate Exact(m: Model) {
    m != LogN && m != SqrtN && m != NLogN
  }

  /** The coefficient only scales a model: every model is linear in `a`. */
  lemma CoefficientScales(m: Model, x: nat, a: real, num: Numerics)
    ensures Eval(m, x, a, num) == a * Eval(m, x, 1.0, num)
  {
  }

  lemma MulMonotone(p: real, q: real, c: real)
    requires 0.0 <= p <= q && 0.0 <= c
    ensures p * c <= q * c
  {
  }

  lemma SquareMonotone(p: real, q: real)
    requires 0.0 <= p <= q
    ensures p * p <= q * q
  {
    MulMonotone(p, q, p);
    MulMonotone(p, q, q);
    assert q * p == p * q;
  }

  lemma LinearMonotone(x: nat, y: nat, a: real, num: Numerics)
    requires 0.0 <= a && x <= y
    ensures Eval(N, x, a, num) <= Eval(N, y, a, num)
  {
    MulMonotone(x as real, y as real, a);
  }

  lemma QuadraticMonotone(x: nat, y: nat, a: real, num: Numerics)
    requires 0.0 <= a && x <= y
    ensures Eval(NPower2, x, a, num) <= Eval(NPower2, y, a, num)
  {
    var p, q := x as real, y as real;
    SquareMonotone(p, q);
    MulMonotone(p * p, q * q, a);
  }

  lemma CubicMonotone(x: nat, y: nat, a: real, num: Numerics)
    requires 0.0 <= a && x <= y
    ensures Eval(NPower3, x, a, num) <= Eval(NPower3, y, a, num)
  {
    var p, q := x as real, y as real;
    SquareMonotone(p, q);
    MulMonotone(p * p, q * q, p);
    MulMonotone(p, q, q * q);
    assert p * p * p <= q * q * q;
    MulMonotone(p * p * p, q * q * q, a);
    assert a * p * p * p == p * p * p * a;
    assert a * q * q * q == q * q * q * a;
  }

  lemma ExponentialMonotone(x: nat, y: nat, a: real, num: Numerics)
    requires 0.0 <= a && x <= y
    ensures Eval(Exponential, x, a, num) <= Eval(Exponential, y, a, num)
  {
    if x < y {
      Pow2Increasing(x, y);
    }
    MulMonotone(Pow2(x) as real, Pow2(y) as real, a);
  }

  /** With a non-negative coefficient, every exact model is non-decreasing in
      the size: the monotonicity the inverse lookup relies on. */
  lemma EvalMonotone(m: Model, x: nat, y: nat, a: real, num: Numerics)
    requires Exact(m) && 0.0 <= a && x <= y
    ensures Eval(m, x, a, num) <= Eval(m, y, a, num)
  {
    match m
    case Const =>
    case N => LinearMonotone(x, y, a, num);
    case NPower2 => QuadraticMonotone(x, y, a, num);
    case NPower3 => CubicMonotone(x, y, a, num);
    case Exponential => ExponentialMonotone(x, y, a, num);
  }

  /** The cube of a size stays below its power of two from size 10 on. */
  lemma {:induction false} CubeBelowPow2(x: nat)
    requires 10 <= x
    ensures x * x * x < Pow2(x)
  {
    if x > 10 {
      var y := x - 1;
      CubeBelowPow2(y);
      assert y * y * y >= 10 * (y * y);
      assert 3 * y + 1 <= 4 * (y * y);
      assert x * x * x == y * y * y + 3 * (y * y) + 3 * y + 1;
      assert Pow2(x) == 2 * Pow2(y);
    }
  }

  lemma MulStrict(p: real, q: real, c: real)
    requires p < q && 0.0 < c
    ensures p * c < q * c
  {
  }

  lemma PowersOrdered(r: real, a: real)
    requires 10.0 <= r && 0.0 < a
    ensures a < a * r
    ensures a * r < r * r * a
    ensures r * r * a < a * r * r * r
  {
    MulStrict(1.0, r, a);
    MulStrict(r, r * r, a) by { MulStrict(1.0, r, r); }
    MulStrict(r * r, r * r * r, a) by { MulStrict(1.0, r, r * r); }
  }

  /** From size 10 on, with a positive coefficient, the exact models of the
      catalog predict strictly increasing times in catalog order: constant,
      linear, quadratic, cubic, exponential. */
  lemma GrowthOrder(x: nat, a: real, num: Numerics)
    requires 10 <= x && 0.0 < a
    ensures Eval(Const, x, a, num) < Eval(N, x, a, num)
    ensures Eval(N, x, a, num) < Eval(NPower2, x, a, num)
    ensures Eval(NPower2, x, a, num) < Eval(NPower3, x, a, num)
    ensures Eval(NPower3, x, a, num) < Eval(Exponential, x, a, num)
  {
    var r := x as real;
    PowersOrdered(r, a);
    assert Eval(Const, x, a, num) == a;
    assert Eval(N, x, a, num) == a * r;
    assert Eval(NPower2, x, a, num) == r * r * a;
    assert Eval(N, x, a, num) < Eval(NPower2, x, a, num);
    CubeBelowPow2(x);
    assert (x * x * x) as real == r * r * r;
    MulStrict(r * r * r, Pow2(x) as real, a);
  }
}
