/** The sampling engine: times the callable at growing sizes and records the
    (size, seconds) pairs the curve fitter works on.

    Timing itself is outside the model.  A `Timer` is an oracle that says,
    for every size, whether the averaged run and the single run finish
    within their deadlines and, if they do, how many seconds they report.
    The ghost functions describe, regime by regime, what the sweep records;
    the methods are the sweep's loops, each proved to append exactly that
    record to `x` and `y`; the lemmas state what the record is. */
module Sampling {

  /** The outcome of one deadline-bounded run. */
  datatype Timing = TimedOut | Took(seconds: real)

  /** The averaged (multi-run) and single-run timings, by input size. */
  datatype Timer = Timer(multi: nat -> Timing, single: nat -> Timing)

  /** Where a recorded sample comes from. */
  datatype Source = Averaged | SingleShot | Penalty

  /** What a stretch of the sweep records: the sizes appended to `x`, the
      times appended to `y`, where each came from, and whether sampling
      returned inside the stretch. */
  datatype Run = Run(sizes: seq<nat>, seconds: seq<real>, sources: seq<Source>, stopped: bool)

  /** The time recorded for the size whose single run timed out in regime 2. */
  const PENALTY_SECONDS: real := 2.0

  const EMPTY: Run := Run([], [], [], false)

  /** One sample recorded before the stretch `r`. */
  ghost function Cons(n: nat, t: real, src: Source, r: Run): Run {
    Run([n] + r.sizes, [t] + r.seconds, [src] + r.sources, r.stopped)
  }

  /** Stretch `a` followed by stretch `b`. */
  ghost function Then(a: Run, b: Run): Run {
    Run(a.sizes + b.sizes, a.seconds + b.seconds, a.sources + b.sources, b.stopped)
  }

  // ---------------------------------------------------------------------
  // What the sweep records, regime by regime
  // ---------------------------------------------------------------------

  /** Regime 1 after a multi-run timeout: single runs at sizes j..9, a size
      whose single run times out being skipped. */
  ghost function FallbackOne(single: nat -> Timing, j: nat): Run
    decreases 10 - j
  {
    if j >= 10 then EMPTY
    else match single(j)
      case TimedOut => FallbackOne(single, j + 1)
      case Took(t) => Cons(j, t, SingleShot, FallbackOne(single, j + 1))
  }

  /** Regime 1 from size i: averaged runs at i..9; the first multi-run
      timeout switches to `FallbackOne` and ends sampling. */
  ghost function RegimeOne(timer: Timer, i: nat): Run
    decreases 10 - i
  {
    if i >= 10 then EMPTY
    else match timer.multi(i)
      case Took(t) => Cons(i, t, Averaged, RegimeOne(timer, i + 1))
      case TimedOut =>
        var sweep := FallbackOne(timer.single, i);
        Run(sweep.sizes, sweep.seconds, sweep.sources, true)
  }

  /** Regime 2 after a multi-run timeout: single runs at sizes j..99; the
      first single-run timeout records the penalty sample and ends sampling. */
  ghost function FallbackTwo(single: nat -> Timing, j: nat): Run
    decreases 100 - j
  {
    if j >= 100 then EMPTY
    else match single(j)
      case TimedOut => Run([j], [PENALTY_SECONDS], [Penalty], true)
      case Took(t) => Cons(j, t, SingleShot, FallbackTwo(single, j + 1))
  }

  /** Regime 2 from size i: averaged runs at i, i+10, ... below 100; a
      multi-run timeout at i runs `FallbackTwo` from i and, if that sweep
      reaches 99, resumes the step-10 sweep at i+10. */
  ghost function RegimeTwo(timer: Timer, i: nat): Run
    decreases 100 - i
  {
    if i >= 100 then EMPTY
    else match timer.multi(i)
      case Took(t) => Cons(i, t, Averaged, RegimeTwo(timer, i + 10))
      case TimedOut =>
        var sweep := FallbackTwo(timer.single, i);
        if sweep.stopped then sweep else Then(sweep, RegimeTwo(timer, i + 10))
  }

  /** Regime 3 from size i: averaged runs at i, i+100, ... below 10000; the
      first multi-run timeout ends sampling. */
  ghost function RegimeThree(timer: Timer, i: nat): Run
    decreases 10000 - i
  {
    if i >= 10000 then EMPTY
    else match timer.multi(i)
      case Took(t) => Cons(i, t, Averaged, RegimeThree(timer, i + 100))
      case TimedOut => Run([], [], [], true)
  }

  /** Everything sampling records, in the order it records it. */
  ghost function Sampled(timer: Timer): Run {
    var one := RegimeOne(timer, 1);
    if one.stopped then one
    else
      var two := RegimeTwo(timer, 11);
      if two.stopped then Then(one, two)
      else Then(Then(one, two), RegimeThree(timer, 101))
  }

  // ---------------------------------------------------------------------
  // What every recorded sample is
  // ---------------------------------------------------------------------

  /** Sample (n, t) from `src` is what the timer reports: an averaged or a
      single run at size n that finished in t seconds, or the penalty time
      for a size whose single run timed out. Sizes lie in 1..9999. */
  ghost predicate Recorded(timer: Timer, n: nat, t: real, src: Source) {
    1 <= n < 10000 &&
    match src
    case Averaged => timer.multi(n) == Took(t)
    case SingleShot => timer.single(n) == Took(t)
    case Penalty => timer.single(n) == TimedOut && t == PENALTY_SECONDS
  }

  /** The lists are parallel, every sample is `Recorded`, and a penalty
      sample can only be the last one of a stretch that stops sampling. */
  ghost predicate WellFormed(timer: Timer, r: Run) {
    |r.seconds| == |r.sizes| && |r.sources| == |r.sizes| &&
    (forall k :: 0 <= k < |r.sizes| ==> Recorded(timer, r.sizes[k], r.seconds[k], r.sources[k])) &&
    (forall k :: 0 <= k < |r.sizes| && r.sources[k] == Penalty ==> r.stopped && k == |r.sizes| - 1)
  }

  /** Every sample of the stretch comes from `src`. */
  ghost predicate AllFrom(r: Run, src: Source) {
    forall k :: 0 <= k < |r.sources| ==> r.sources[k] == src
  }

  /** No sample of the stretch comes from `src`. */
  ghost predicate NoneFrom(r: Run, src: Source) {
    forall k :: 0 <= k < |r.sources| ==> r.sources[k] != src
  }

  lemma AllFromCons(n: nat, t: real, src: Source, r: Run)
    requires AllFrom(r, src)
    ensures AllFrom(Cons(n, t, src, r), src)
  {
    var c := Cons(n, t, src, r);
    forall k | 0 <= k < |c.sources| ensures c.sources[k] == src {
      if k > 0 {
        assert c.sources[k] == r.sources[k - 1];
      }
    }
  }

  lemma NoneFromCons(n: nat, t: real, s: Source, r: Run, src: Source)
    requires NoneFrom(r, src) && s != src
    ensures NoneFrom(Cons(n, t, s, r), src)
  {
    var c := Cons(n, t, s, r);
    forall k | 0 <= k < |c.sources| ensures c.sources[k] != src {
      if k > 0 {
        assert c.sources[k] == r.sources[k - 1];
      }
    }
  }

  lemma ConsWellFormed(timer: Timer, n: nat, t: real, src: Source, r: Run)
    requires WellFormed(timer, r) && Recorded(timer, n, t, src) && src != Penalty
    ensures WellFormed(timer, Cons(n, t, src, r))
  {
    var c := Cons(n, t, src, r);
    forall k | 0 <= k < |c.sizes|
      ensures Recorded(timer, c.sizes[k], c.seconds[k], c.sources[k])
    {
      if k > 0 {
        assert c.sizes[k] == r.sizes[k - 1] && c.seconds[k] == r.seconds[k - 1];
        assert c.sources[k] == r.sources[k - 1];
      }
    }
  }

  lemma ThenWellFormed(timer: Timer, a: Run, b: Run)
    requires WellFormed(timer, a) && WellFormed(timer, b) && !a.stopped
    ensures WellFormed(timer, Then(a, b))
  {
    var c := Then(a, b);
    forall k | 0 <= k < |c.sizes|
      ensures Recorded(timer, c.sizes[k], c.seconds[k], c.sources[k])
    {
      if k >= |a.sizes| {
        var m := k - |a.sizes|;
        assert c.sizes[k] == b.sizes[m] && c.seconds[k] == b.seconds[m] && c.sources[k] == b.sources[m];
      } else {
        assert c.sizes[k] == a.sizes[k] && c.seconds[k] == a.seconds[k] && c.sources[k] == a.sources[k];
      }
    }
    forall k | 0 <= k < |c.sizes| && c.sources[k] == Penalty
      ensures c.stopped && k == |c.sizes| - 1
    {
      if k >= |a.sizes| {
        assert c.sources[k] == b.sources[k - |a.sizes|];
      }
    }
  }

  lemma {:induction false} FallbackOneWellFormed(timer: Timer, j: nat)
    requires 1 <= j
    ensures WellFormed(timer, FallbackOne(timer.single, j)) && !FallbackOne(timer.single, j).stopped
    ensures AllFrom(FallbackOne(timer.single, j), SingleShot)
    decreases 10 - j
  {
    if j < 10 {
      FallbackOneWellFormed(timer, j + 1);
      match timer.single(j)
      case TimedOut =>
      case Took(t) =>
        ConsWellFormed(timer, j, t, SingleShot, FallbackOne(timer.single, j + 1));
        AllFromCons(j, t, SingleShot, FallbackOne(timer.single, j + 1));
    }
  }

  lemma {:induction false} RegimeOneWellFormed(timer: Timer, i: nat)
    requires 1 <= i
    ensures WellFormed(timer, RegimeOne(timer, i))
    ensures NoneFrom(RegimeOne(timer, i), Penalty)
    decreases 10 - i
  {
    if i < 10 {
      match timer.multi(i)
      case Took(t) =>
        RegimeOneWellFormed(timer, i + 1);
        ConsWellFormed(timer, i, t, Averaged, RegimeOne(timer, i + 1));
        NoneFromCons(i, t, Averaged, RegimeOne(timer, i + 1), Penalty);
      case TimedOut =>
        FallbackOneWellFormed(timer, i);
    }
  }

  lemma {:induction false} FallbackTwoWellFormed(timer: Timer, j: nat)
    requires 1 <= j
    ensures WellFormed(timer, FallbackTwo(timer.single, j))
    ensures NoneFrom(FallbackTwo(timer.single, j), Averaged)
    decreases 100 - j
  {
    if j < 100 {
      match timer.single(j)
      case TimedOut =>
      case Took(t) =>
        FallbackTwoWellFormed(timer, j + 1);
        ConsWellFormed(timer, j, t, SingleShot, FallbackTwo(timer.single, j + 1));
        NoneFromCons(j, t, SingleShot, FallbackTwo(timer.single, j + 1), Averaged);
    }
  }

  lemma {:induction false} RegimeTwoWellFormed(timer: Timer, i: nat)
    requires 1 <= i
    ensures WellFormed(timer, RegimeTwo(timer, i))
    decreases 100 - i
  {
    if i < 100 {
      RegimeTwoWellFormed(timer, i + 10);
      match timer.multi(i)
      case Took(t) =>
        ConsWellFormed(timer, i, t, Averaged, RegimeTwo(timer, i + 10));
      case TimedOut =>
        FallbackTwoWellFormed(timer, i);
        var sweep := FallbackTwo(timer.single, i);
        if !sweep.stopped {
          ThenWellFormed(timer, sweep, RegimeTwo(timer, i + 10));
        }
    }
  }

  lemma {:induction false} RegimeThreeWellFormed(timer: Timer, i: nat)
    requires 1 <= i
    ensures WellFormed(timer, RegimeThree(timer, i))
    ensures AllFrom(RegimeThree(timer, i), Averaged)
    decreases 10000 - i
  {
    if i < 10000 {
      match timer.multi(i)
      case Took(t) =>
        RegimeThreeWellFormed(timer, i + 100);
        ConsWellFormed(timer, i, t, Averaged, RegimeThree(timer, i + 100));
        AllFromCons(i, t, Averaged, RegimeThree(timer, i + 100));
      case TimedOut =>
    }
  }

  /** Whatever the timer does, sampling leaves `x` and `y` of equal length,
      every sample is one the timer reported (or the regime-2 penalty), and
      a penalty sample is always the last one. */
  lemma SampledWellFormed(timer: Timer)
    ensures WellFormed(timer, Sampled(timer))
  {
    var one := RegimeOne(timer, 1);
    RegimeOneWellFormed(timer, 1);
    if !one.stopped {
      var two := RegimeTwo(timer, 11);
      RegimeTwoWellFormed(timer, 11);
      ThenWellFormed(timer, one, two);
      if !two.stopped {
        RegimeThreeWellFormed(timer, 101);
        ThenWellFormed(timer, Then(one, two), RegimeThree(timer, 101));
      }
    }
  }

  // ---------------------------------------------------------------------
  // The sampling loops
  // ---------------------------------------------------------------------

  lemma Append<T>(a: seq<T>, e: T, b: seq<T>)
    ensures (a + [e]) + b == a + ([e] + b)
  {
  }

  lemma Concat<T>(a: seq<T>, b: seq<T>, c: seq<T>)
    ensures (a + b) + c == a + (b + c)
  {
  }

  /** The single-run sweep regime 1 falls back to: sizes j0..9, skipping a
      size whose single run times out. */
  method RunFallbackOne(timer: Timer, j0: nat, x0: seq<nat>, y0: seq<real>)
    returns (x: seq<nat>, y: seq<real>)
    requires j0 <= 10
    ensures x == x0 + FallbackOne(timer.single, j0).sizes
    ensures y == y0 + FallbackOne(timer.single, j0).seconds
  {
    x, y := x0, y0;
    ghost var sweep := FallbackOne(timer.single, j0);
    for j := j0 to 10
      invariant x + FallbackOne(timer.single, j).sizes == x0 + sweep.sizes
      invariant y + FallbackOne(timer.single, j).seconds == y0 + sweep.seconds
    {
      match timer.single(j)
      case Took(t) =>
        Append(y, t, FallbackOne(timer.single, j + 1).seconds);
        Append(x, j, FallbackOne(timer.single, j + 1).sizes);
        y, x := y + [t], x + [j];
      case TimedOut =>
    }
  }

  /** One pass of the regime-1 loop body at size i: the averaged sample, or
      the fallback sweep from i, which stops sampling. */
  method StepRegimeOne(timer: Timer, i: nat, x0: seq<nat>, y0: seq<real>)
    returns (x: seq<nat>, y: seq<real>, stopped: bool)
    requires i < 10
    ensures stopped ==> RegimeOne(timer, i).stopped
    ensures stopped ==> x == x0 + RegimeOne(timer, i).sizes && y == y0 + RegimeOne(timer, i).seconds
    ensures !stopped ==> RegimeOne(timer, i + 1).stopped == RegimeOne(timer, i).stopped
    ensures !stopped ==> x + RegimeOne(timer, i + 1).sizes == x0 + RegimeOne(timer, i).sizes
    ensures !stopped ==> y + RegimeOne(timer, i + 1).seconds == y0 + RegimeOne(timer, i).seconds
  {
    match timer.multi(i) {
      case Took(t) =>
        Append(y0, t, RegimeOne(timer, i + 1).seconds);
        Append(x0, i, RegimeOne(timer, i + 1).sizes);
        x, y, stopped := x0 + [i], y0 + [t], false;
      case TimedOut =>
        x, y := RunFallbackOne(timer, i, x0, y0);
        stopped := true;
    }
  }

  /** Regime 1 (sizes 1..9, averaged runs); the first multi-run timeout
      switches to `RunFallbackOne` and ends sampling (`stopped`). */
  method RunRegimeOne(timer: Timer) returns (x: seq<nat>, y: seq<real>, stopped: bool)
    ensures x == RegimeOne(timer, 1).sizes && y == RegimeOne(timer, 1).seconds
    ensures stopped == RegimeOne(timer, 1).stopped
  {
    x, y := [], [];
    ghost var one := RegimeOne(timer, 1);
    for i := 1 to 10
      invariant x + RegimeOne(timer, i).sizes == one.sizes
      invariant y + RegimeOne(timer, i).seconds == one.seconds
      invariant RegimeOne(timer, i).stopped == one.stopped
    {
      x, y, stopped := StepRegimeOne(timer, i, x, y);
      if stopped {
        return;
      }
    }
    stopped := false;
  }

  /** The single-run sweep regime 2 falls back to: sizes j0..99; the first
      single-run timeout records the penalty sample and ends sampling. */
  method RunFallbackTwo(timer: Timer, j0: nat, x0: seq<nat>, y0: seq<real>)
    returns (x: seq<nat>, y: seq<real>, stopped: bool)
    requires j0 <= 100
    ensures x == x0 + FallbackTwo(timer.single, j0).sizes
    ensures y == y0 + FallbackTwo(timer.single, j0).seconds
    ensures stopped == FallbackTwo(timer.single, j0).stopped
  {
    x, y := x0, y0;
    ghost var sweep := FallbackTwo(timer.single, j0);
    for j := j0 to 100
      invariant x + FallbackTwo(timer.single, j).sizes == x0 + sweep.sizes
      invariant y + FallbackTwo(timer.single, j).seconds == y0 + sweep.seconds
      invariant FallbackTwo(timer.single, j).stopped == sweep.stopped
    {
      match timer.single(j)
      case Took(t) =>
        Append(y, t, FallbackTwo(timer.single, j + 1).seconds);
        Append(x, j, FallbackTwo(timer.single, j + 1).sizes);
        y, x := y + [t], x + [j];
      case TimedOut =>
        x, y := x + [j], y + [PENALTY_SECONDS];
        return x, y, true;
    }
    stopped := false;
  }

  /** One pass of the regime-2 loop body at size i: the averaged sample, or
      the fallback sweep from i. Either sampling stops with everything
      regime 2 records from i appended, or what is appended leaves exactly
      the record from i+10 to go. */
  method StepRegimeTwo(timer: Timer, i: nat, x0: seq<nat>, y0: seq<real>)
    returns (x: seq<nat>, y: seq<real>, stopped: bool)
    requires i < 100
    ensures stopped ==> RegimeTwo(timer, i).stopped
    ensures stopped ==> x == x0 + RegimeTwo(timer, i).sizes && y == y0 + RegimeTwo(timer, i).seconds
    ensures !stopped ==> RegimeTwo(timer, i + 10).stopped == RegimeTwo(timer, i).stopped
    ensures !stopped ==> x + RegimeTwo(timer, i + 10).sizes == x0 + RegimeTwo(timer, i).sizes
    ensures !stopped ==> y + RegimeTwo(timer, i + 10).seconds == y0 + RegimeTwo(timer, i).seconds
  {
    match timer.multi(i) {
      case Took(t) =>
        Append(y0, t, RegimeTwo(timer, i + 10).seconds);
        Append(x0, i, RegimeTwo(timer, i + 10).sizes);
        x, y, stopped := x0 + [i], y0 + [t], false;
      case TimedOut =>
        ghost var sweep := FallbackTwo(timer.single, i);
        x, y, stopped := RunFallbackTwo(timer, i, x0, y0);
        if !stopped {
          Concat(x0, sweep.sizes, RegimeTwo(timer, i + 10).sizes);
          Concat(y0, sweep.seconds, RegimeTwo(timer, i + 10).seconds);
        }
    }
  }

  /** Regime 2 (sizes 11, 21, ..., 91, averaged runs); a multi-run timeout
      at i runs `RunFallbackTwo` from i, and unless that stops sampling the
      step-10 loop goes on at i+10. */
  method RunRegimeTwo(timer: Timer, x0: seq<nat>, y0: seq<real>)
    returns (x: seq<nat>, y: seq<real>, stopped: bool)
    ensures x == x0 + RegimeTwo(timer, 11).sizes && y == y0 + RegimeTwo(timer, 11).seconds
    ensures stopped == RegimeTwo(timer, 11).stopped
  {
    x, y := x0, y0;
    ghost var two := RegimeTwo(timer, 11);
    var i: nat := 11;
    while i < 100
      invariant x + RegimeTwo(timer, i).sizes == x0 + two.sizes
      invariant y + RegimeTwo(timer, i).seconds == y0 + two.seconds
      invariant RegimeTwo(timer, i).stopped == two.stopped
      decreases 100 - i
    {
      x, y, stopped := StepRegimeTwo(timer, i, x, y);
      if stopped {
        return;
      }
      i := i + 10;
    }
    stopped := false;
  }

  /** Regime 3 (sizes 101, 201, ..., 9901, averaged runs) until the first
      multi-run timeout. */
  method RunRegimeThree(timer: Timer, x0: seq<nat>, y0: seq<real>) returns (x: seq<nat>, y: seq<real>)
    ensures x == x0 + RegimeThree(timer, 101).sizes && y == y0 + RegimeThree(timer, 101).seconds
  {
    x, y := x0, y0;
    ghost var three := RegimeThree(timer, 101);
    var i: int := 101;
    while i < 10000
      invariant 101 <= i
      invariant x + RegimeThree(timer, i).sizes == x0 + three.sizes
      invariant y + RegimeThree(timer, i).seconds == y0 + three.seconds
      decreases 10000 - i
    {
      match timer.multi(i) {
        case Took(t) =>
          Append(y, t, RegimeThree(timer, i + 100).seconds);
          Append(x, i, RegimeThree(timer, i + 100).sizes);
          y, x := y + [t], x + [i];
        case TimedOut =>
          return;
      }
      i := i + 100;
    }
  }

  /** Sweeps the three regimes, appending each measured size to `x` and its
      time to `y`, and returns the two lists; sampling returns early where
      a regime says it stops. */
  method MakeSamples(timer: Timer) returns (x: seq<nat>, y: seq<real>)
    ensures x == Sampled(timer).sizes && y == Sampled(timer).seconds
    ensures |x| == |y|
  {
    SampledWellFormed(timer);
    var stopped;
    x, y, stopped := RunRegimeOne(timer);
    if stopped {
      return;
    }
    x, y, stopped := RunRegimeTwo(timer, x, y);
    if stopped {
      return;
    }
    x, y := RunRegimeThree(timer, x, y);
  }
}
