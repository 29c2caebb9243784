/** The inverse lookup: the largest size whose predicted time stays below a
    budget.

    A doubling probe from size 1 finds the first power of two whose
    predicted time reaches the budget; a bisection of the bracket between
    that power and its half then narrows it to two neighbouring sizes.
    The predicted time is any function `f` of the size.  Sizes are
    naturals: once the probe has doubled at least once, every bracket width
    is a power of two, so every midpoint is a whole size. */
module Predictor {
  import opened Complexities

  /** n is a power of two. */
  predicate IsPow2(n: nat)
    decreases n
  {
    n == 1 || (n >= 2 && n % 2 == 0 && IsPow2(n / 2))
  }

  lemma {:induction false} Pow2IsPow2(k: nat)
    ensures IsPow2(Pow2(k))
  {
    if k > 0 {
      Pow2IsPow2(k - 1);
      assert Pow2(k) / 2 == Pow2(k - 1);
    }
  }

  /** f never decreases as the size grows. */
  ghost predicate Monotone(f: nat -> real) {
    forall m: nat, n: nat :: m <= n ==> f(m) <= f(n)
  }

  /** The doubling probe: starting at 1, `it` doubles as long as f(it) is
      below the budget.  The ghost exponent k names a power of two that
      reaches the budget, without which the probe would not end.  On exit
      `it` is the first power of two whose time reaches the budget: every
      smaller power of two is below it, in particular it / 2. */
  method Probe(f: nat -> real, maxTime: real, ghost k: nat) returns (it: nat, ghost j: nat)
    requires maxTime <= f(Pow2(k))
    ensures it == Pow2(j) && j <= k
    ensures maxTime <= f(it)
    ensures forall m :: 0 <= m < j ==> f(Pow2(m)) < maxTime
    ensures it > 1 ==> f(it / 2) < maxTime
  {
    it, j := 1, 0;
    while f(it) < maxTime
      invariant it == Pow2(j) && j <= k
      invariant forall m :: 0 <= m < j ==> f(Pow2(m)) < maxTime
      decreases k - j
    {
      it, j := it * 2, j + 1;
    }
    if it > 1 {
      assert Pow2(j - 1) == it / 2;
    }
  }

  /** The bisection with the budget test as intended: sizes whose time
      reaches the budget move the right end.  It keeps f(left) below the
      budget and f(right) at or above it, halving the bracket each step,
      and returns the left end once the two ends are neighbours. */
  function BinSearch(f: nat -> real, t: real, left: nat, right: nat): (r: nat)
    requires left < right && IsPow2(right - left)
    requires f(left) < t <= f(right)
    ensures left <= r < right
    ensures f(r) < t <= f(r + 1)
    decreases right - left
  {
    if left == right || left + 1 == right then left
    else
      var center := (right + left) / 2;
      if f(center) >= t then BinSearch(f, t, left, center)
      else BinSearch(f, t, center, right)
  }

  /** The bisection as the implementation writes it: only sizes whose time
      exceeds the budget move the right end, so a size whose time equals the
      budget becomes the left end.  All it keeps is f(left) <= t <= f(right). */
  function BinSearchAsWritten(f: nat -> real, t: real, left: nat, right: nat): (r: nat)
    requires left < right && IsPow2(right - left)
    requires f(left) <= t <= f(right)
    ensures left <= r < right
    ensures f(r) <= t <= f(r + 1)
    decreases right - left
  {
    if left == right || left + 1 == right then left
    else
      var center := (right + left) / 2;
      if f(center) > t then BinSearchAsWritten(f, t, left, center)
      else BinSearchAsWritten(f, t, center, right)
  }

  /** With a non-decreasing f, a size r with f(r) below the budget and
      f(r + 1) at or above it is the largest size below the budget: the
      sizes below the budget are exactly 0 .. r. */
  lemma MaxUnderBudget(f: nat -> real, t: real, r: nat)
    requires Monotone(f) && f(r) < t <= f(r + 1)
    ensures forall n: nat :: f(n) < t <==> n <= r
  {
    forall n: nat
      ensures f(n) < t <==> n <= r
    {
      if n <= r {
        assert f(n) <= f(r);
      } else {
        assert f(r + 1) <= f(n);
      }
    }
  }

  /** The inverse lookup: the probe, then the bisection of the bracket
      between it / 2 and it.  The time at size 1 must be below the budget,
      so that the probe doubles at least once, and some power of two (the
      ghost exponent k) must reach it. */
  method FindMaxN(f: nat -> real, maxTime: real, ghost k: nat) returns (n: nat)
    requires f(1) < maxTime <= f(Pow2(k))
    ensures f(n) < maxTime <= f(n + 1)
    ensures Monotone(f) ==> forall m: nat :: f(m) < maxTime <==> m <= n
  {
    var it;
    ghost var j;
    it, j := Probe(f, maxTime, k);
    Pow2IsPow2(j);
    assert it != 1;
    n := BinSearch(f, maxTime, it / 2, it);
    if Monotone(f) {
      MaxUnderBudget(f, maxTime, n);
    }
  }

  /** The identity time function with budget 3: the probe stops at 4, and
      the bisection of [2, 4] as written returns 3, whose time is not below
      the budget, while the intended bisection returns 2. */
  lemma AsWrittenHitsBudget()
    ensures BinSearchAsWritten(n => n as real, 3.0, 2, 4) == 3
    ensures BinSearch(n => n as real, 3.0, 2, 4) == 2
  {
    var f := (n: nat) => n as real;
    assert IsPow2(2) by { assert IsPow2(1); }
    assert BinSearchAsWritten(f, 3.0, 2, 4) == BinSearchAsWritten(f, 3.0, 3, 4);
    assert BinSearch(f, 3.0, 2, 4) == BinSearch(f, 3.0, 2, 3);
  }
}
