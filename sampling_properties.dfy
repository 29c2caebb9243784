/** What sampling records in the situations the implementation's control
    flow distinguishes: no timeout at all, a multi-run timeout in each of the
    three regimes, and the two ways a regime-2 fallback sweep can end. */
module SamplingProperties {
  import opened Sampling

  /** `count` sizes from `start`, `step` apart. */
  function Steps(start: nat, step: nat, count: nat): (r: seq<nat>)
    ensures |r| == count
    ensures forall k :: 0 <= k < count ==> r[k] == start + step * k
    decreases count
  {
    if count == 0 then []
    else
      var rest := Steps(start + step, step, count - 1);
      assert forall k :: 0 <= k < count - 1 ==> start + step + step * k == start + step * (k + 1);
      [start] + rest
  }

  /** The sizes the three regimes visit when nothing times out: 1..9, then
      11, 21, ..., 91, then 101, 201, ..., 9901. */
  const NOMINAL: seq<nat> := Steps(1, 1, 9) + Steps(11, 10, 9) + Steps(101, 100, 99)

  /** A stretch with no samples that stops sampling. */
  const STOP: Run := Run([], [], [], true)

  /** The averaged runs at the `count` sizes from `start`, `step` apart, all finish. */
  ghost predicate AveragedAt(timer: Timer, start: nat, step: nat, count: nat)
    decreases count
  {
    count == 0 || (timer.multi(start).Took? && AveragedAt(timer, start + step, step, count - 1))
  }

  /** The single runs at sizes start .. start + count - 1 all finish. */
  ghost predicate SingleAt(single: nat -> Timing, start: nat, count: nat)
    decreases count
  {
    count == 0 || (single(start).Took? && SingleAt(single, start + 1, count - 1))
  }

  /** No averaged run at any size the three regimes visit times out. */
  ghost predicate NoTimeouts(timer: Timer) {
    AveragedAt(timer, 1, 1, 9) && AveragedAt(timer, 11, 10, 9) && AveragedAt(timer, 101, 100, 99)
  }

  /** The averaged samples at the sizes of `Steps(start, step, count)`, each
      with the time its averaged run reported, up to the first averaged run
      that times out. */
  ghost function AveragedSweep(timer: Timer, start: nat, step: nat, count: nat): (r: Run)
    ensures !r.stopped
    decreases count
  {
    if count == 0 then EMPTY
    else match timer.multi(start)
      case TimedOut => EMPTY
      case Took(t) => Cons(start, t, Averaged, AveragedSweep(timer, start + step, step, count - 1))
  }

  /** The single-run samples at sizes start .. start + count - 1, up to the
      first single run that times out. */
  ghost function SingleSweep(single: nat -> Timing, start: nat, count: nat): (r: Run)
    ensures !r.stopped
    decreases count
  {
    if count == 0 then EMPTY
    else match single(start)
      case TimedOut => EMPTY
      case Took(t) => Cons(start, t, SingleShot, SingleSweep(single, start + 1, count - 1))
  }

  /** An averaged sweep records exactly the sizes it visits, each with the
      time its averaged run reported. */
  lemma {:induction false} AveragedSweepSamples(timer: Timer, start: nat, step: nat, count: nat)
    requires AveragedAt(timer, start, step, count)
    ensures AveragedSweep(timer, start, step, count).sizes == Steps(start, step, count)
    ensures |AveragedSweep(timer, start, step, count).seconds| == count
    ensures |AveragedSweep(timer, start, step, count).sources| == count
    ensures forall k :: 0 <= k < count ==>
      AveragedSweep(timer, start, step, count).sources[k] == Averaged &&
      timer.multi(start + step * k) == Took(AveragedSweep(timer, start, step, count).seconds[k])
    decreases count
  {
    if count > 0 {
      AveragedSweepSamples(timer, start + step, step, count - 1);
      var r := AveragedSweep(timer, start, step, count);
      var rest := AveragedSweep(timer, start + step, step, count - 1);
      forall k | 0 < k < count
        ensures r.sources[k] == Averaged && timer.multi(start + step * k) == Took(r.seconds[k])
      {
        assert r.sources[k] == rest.sources[k - 1] && r.seconds[k] == rest.seconds[k - 1];
        assert start + step + step * (k - 1) == start + step * k;
      }
    }
  }

  /** A single-run sweep records exactly the sizes it visits. */
  lemma {:induction false} SingleSweepSizes(single: nat -> Timing, start: nat, count: nat)
    requires SingleAt(single, start, count)
    ensures SingleSweep(single, start, count).sizes == Steps(start, 1, count)
    decreases count
  {
    if count > 0 {
      SingleSweepSizes(single, start + 1, count - 1);
    }
  }

  // ---------------------------------------------------------------------
  // Algebra of stretches
  // ---------------------------------------------------------------------

  lemma ThenEmpty(b: Run)
    ensures Then(EMPTY, b) == b
  {
    assert [] + b.sizes == b.sizes && [] + b.seconds == b.seconds && [] + b.sources == b.sources;
  }

  lemma ThenEmptyRight(a: Run)
    requires !a.stopped
    ensures Then(a, EMPTY) == a
  {
    assert a.sizes + [] == a.sizes && a.seconds + [] == a.seconds && a.sources + [] == a.sources;
  }

  lemma ThenStop(a: Run)
    ensures Then(a, STOP) == Run(a.sizes, a.seconds, a.sources, true)
  {
    assert a.sizes + [] == a.sizes && a.seconds + [] == a.seconds && a.sources + [] == a.sources;
  }

  lemma ThenCons(n: nat, t: real, src: Source, a: Run, b: Run)
    ensures Then(Cons(n, t, src, a), b) == Cons(n, t, src, Then(a, b))
  {
    Concat([n], a.sizes, b.sizes);
    Concat([t], a.seconds, b.seconds);
    Concat([src], a.sources, b.sources);
  }

  // ---------------------------------------------------------------------
  // Each regime's loop over sizes whose runs finish
  // ---------------------------------------------------------------------

  /** Regime 1 over c sizes from i whose averaged runs finish records them
      and goes on at i + c. */
  lemma {:induction false} RegimeOneAveraged(timer: Timer, i: nat, c: nat, e: nat)
    requires e == i + c <= 10 && AveragedAt(timer, i, 1, c)
    ensures RegimeOne(timer, i) == Then(AveragedSweep(timer, i, 1, c), RegimeOne(timer, e))
    decreases c
  {
    if c == 0 {
      ThenEmpty(RegimeOne(timer, i));
    } else {
      RegimeOneAveraged(timer, i + 1, c - 1, e);
      ThenCons(i, timer.multi(i).seconds, Averaged, AveragedSweep(timer, i + 1, 1, c - 1), RegimeOne(timer, e));
    }
  }

  /** Regime 2 over c sizes i, i+10, ... whose averaged runs finish records
      them and goes on at i + 10c. */
  lemma {:induction false} RegimeTwoAveraged(timer: Timer, i: nat, c: nat, e: nat)
    requires e == i + 10 * c <= 109 && AveragedAt(timer, i, 10, c)
    ensures RegimeTwo(timer, i) == Then(AveragedSweep(timer, i, 10, c), RegimeTwo(timer, e))
    decreases c
  {
    if c == 0 {
      ThenEmpty(RegimeTwo(timer, i));
    } else {
      RegimeTwoAveraged(timer, i + 10, c - 1, e);
      ThenCons(i, timer.multi(i).seconds, Averaged, AveragedSweep(timer, i + 10, 10, c - 1), RegimeTwo(timer, e));
    }
  }

  /** Regime 3 over c sizes i, i+100, ... whose averaged runs finish records
      them and goes on at i + 100c. */
  lemma {:induction false} RegimeThreeAveraged(timer: Timer, i: nat, c: nat, e: nat)
    requires e == i + 100 * c <= 10099 && AveragedAt(timer, i, 100, c)
    ensures RegimeThree(timer, i) == Then(AveragedSweep(timer, i, 100, c), RegimeThree(timer, e))
    decreases c
  {
    if c == 0 {
      ThenEmpty(RegimeThree(timer, i));
    } else {
      RegimeThreeAveraged(timer, i + 100, c - 1, e);
      ThenCons(i, timer.multi(i).seconds, Averaged, AveragedSweep(timer, i + 100, 100, c - 1), RegimeThree(timer, e));
    }
  }

  /** The regime-2 fallback over c sizes from i whose single runs finish
      records them and goes on at i + c. */
  lemma {:induction false} FallbackTwoSingle(single: nat -> Timing, i: nat, c: nat, e: nat)
    requires e == i + c <= 100 && SingleAt(single, i, c)
    ensures FallbackTwo(single, i) == Then(SingleSweep(single, i, c), FallbackTwo(single, e))
    decreases c
  {
    if c == 0 {
      ThenEmpty(FallbackTwo(single, i));
    } else {
      FallbackTwoSingle(single, i + 1, c - 1, e);
      ThenCons(i, single(i).seconds, SingleShot, SingleSweep(single, i + 1, c - 1), FallbackTwo(single, e));
    }
  }

  /** The regime-1 fallback from j records exactly the sizes j..9 whose
      single run finishes (a size whose single run times out is skipped),
      all as single-run samples. */
  lemma {:induction false} FallbackOneContents(single: nat -> Timing, j: nat)
    ensures forall n :: n in FallbackOne(single, j).sizes <==> j <= n < 10 && single(n).Took?
    ensures forall k :: 0 <= k < |FallbackOne(single, j).sources| ==> FallbackOne(single, j).sources[k] == SingleShot
    decreases 10 - j
  {
    if j < 10 {
      FallbackOneContents(single, j + 1);
      var rest := FallbackOne(single, j + 1);
      match single(j)
      case TimedOut =>
      case Took(t) =>
        assert forall n :: n in [j] + rest.sizes <==> n == j || n in rest.sizes;
        assert forall k :: 0 < k < |[SingleShot] + rest.sources| ==> ([SingleShot] + rest.sources)[k] == rest.sources[k - 1];
    }
  }

  // ---------------------------------------------------------------------
  // Single branches of the loops
  // ---------------------------------------------------------------------

  /** A multi-run timeout at size i < 10 of regime 1 runs the fallback from
      i and then returns. */
  lemma RegimeOneFallsBack(timer: Timer, i: nat)
    requires i < 10 && timer.multi(i).TimedOut?
    ensures RegimeOne(timer, i) == Then(FallbackOne(timer.single, i), STOP)
  {
    ThenStop(FallbackOne(timer.single, i));
  }

  /** A single-run timeout at size j < 100 of the regime-2 fallback records
      (j, 2.0) and returns. */
  lemma FallbackTwoPenaltyAt(single: nat -> Timing, j: nat)
    requires j < 100 && single(j).TimedOut?
    ensures FallbackTwo(single, j) == Run([j], [PENALTY_SECONDS], [Penalty], true)
  {
  }

  /** After a multi-run timeout at i in regime 2, a fallback sweep that
      returns ends regime 2 ... */
  lemma RegimeTwoFallsBack(timer: Timer, i: nat)
    requires i < 100 && timer.multi(i).TimedOut? && FallbackTwo(timer.single, i).stopped
    ensures RegimeTwo(timer, i) == FallbackTwo(timer.single, i)
  {
  }

  /** ... and one that reaches 99 continues the step-10 loop at i + 10. */
  lemma RegimeTwoResumes(timer: Timer, i: nat)
    requires i < 100 && timer.multi(i).TimedOut? && !FallbackTwo(timer.single, i).stopped
    ensures RegimeTwo(timer, i) == Then(FallbackTwo(timer.single, i), RegimeTwo(timer, i + 10))
  {
  }

  /** A multi-run timeout at size e < 10000 of regime 3 returns at once. */
  lemma RegimeThreeStopsAt(timer: Timer, e: nat)
    requires e < 10000 && timer.multi(e).TimedOut?
    ensures RegimeThree(timer, e) == STOP
  {
  }

  lemma SampledStopsInOne(timer: Timer)
    requires RegimeOne(timer, 1).stopped
    ensures Sampled(timer) == RegimeOne(timer, 1)
  {
  }

  lemma SampledStopsInTwo(timer: Timer)
    requires !RegimeOne(timer, 1).stopped && RegimeTwo(timer, 11).stopped
    ensures Sampled(timer) == Then(RegimeOne(timer, 1), RegimeTwo(timer, 11))
  {
  }

  lemma SampledRunsAll(timer: Timer)
    requires !RegimeOne(timer, 1).stopped && !RegimeTwo(timer, 11).stopped
    ensures Sampled(timer) == Then(Then(RegimeOne(timer, 1), RegimeTwo(timer, 11)), RegimeThree(timer, 101))
  {
  }

  // ---------------------------------------------------------------------
  // The whole of sampling
  // ---------------------------------------------------------------------

  /** Regime 1 when sizes 1..9 all finish: the averaged samples 1..9; it
      does not stop sampling. */
  lemma RegimeOneComplete(timer: Timer)
    requires AveragedAt(timer, 1, 1, 9)
    ensures RegimeOne(timer, 1) == AveragedSweep(timer, 1, 1, 9)
  {
    RegimeOneAveraged(timer, 1, 9, 10);
    ThenEmptyRight(AveragedSweep(timer, 1, 1, 9));
  }

  /** Regime 2 when sizes 11, 21, ..., 91 all finish. */
  lemma RegimeTwoComplete(timer: Timer)
    requires AveragedAt(timer, 11, 10, 9)
    ensures RegimeTwo(timer, 11) == AveragedSweep(timer, 11, 10, 9)
  {
    RegimeTwoAveraged(timer, 11, 9, 101);
    ThenEmptyRight(AveragedSweep(timer, 11, 10, 9));
  }

  /** Regime 3 when sizes 101, 201, ..., 9901 all finish. */
  lemma RegimeThreeComplete(timer: Timer)
    requires AveragedAt(timer, 101, 100, 99)
    ensures RegimeThree(timer, 101) == AveragedSweep(timer, 101, 100, 99)
  {
    RegimeThreeAveraged(timer, 101, 99, 10001);
    ThenEmptyRight(AveragedSweep(timer, 101, 100, 99));
  }

  /** If no averaged run times out, sampling records the averaged samples
      of the three regimes, one after the other. */
  lemma SampledWithoutTimeouts(timer: Timer)
    requires NoTimeouts(timer)
    ensures Sampled(timer) == Then(Then(AveragedSweep(timer, 1, 1, 9), AveragedSweep(timer, 11, 10, 9)),
                                   AveragedSweep(timer, 101, 100, 99))
  {
    RegimeOneComplete(timer);
    RegimeTwoComplete(timer);
    RegimeThreeComplete(timer);
    SampledRunsAll(timer);
  }

  /** If no averaged run times out, `x` is exactly 1..9, 11, 21, ..., 91,
      101, 201, ..., 9901 in that order, every sample is an averaged one,
      and sampling runs to the end. */
  lemma SampledNominalSizes(timer: Timer)
    requires NoTimeouts(timer)
    ensures Sampled(timer).sizes == NOMINAL && !Sampled(timer).stopped
    ensures forall k :: 0 <= k < |Sampled(timer).sources| ==> Sampled(timer).sources[k] == Averaged
  {
    SampledWithoutTimeouts(timer);
    ThreeSweeps(timer, 1, 11, 101);
  }

  /** Three averaged sweeps of 9, 9 and 99 sizes, from p, q and r, record
      the sizes they visit and only averaged samples. */
  lemma ThreeSweeps(timer: Timer, p: nat, q: nat, r: nat)
    requires AveragedAt(timer, p, 1, 9) && AveragedAt(timer, q, 10, 9) && AveragedAt(timer, r, 100, 99)
    ensures Then(Then(AveragedSweep(timer, p, 1, 9), AveragedSweep(timer, q, 10, 9)), AveragedSweep(timer, r, 100, 99)).sizes
            == Steps(p, 1, 9) + Steps(q, 10, 9) + Steps(r, 100, 99)
    ensures var t := Then(Then(AveragedSweep(timer, p, 1, 9), AveragedSweep(timer, q, 10, 9)), AveragedSweep(timer, r, 100, 99));
            forall k :: 0 <= k < |t.sources| ==> t.sources[k] == Averaged
  {
    AveragedSweepSamples(timer, p, 1, 9);
    AveragedSweepSamples(timer, q, 10, 9);
    AveragedSweepSamples(timer, r, 100, 99);
    AllAveraged(AveragedSweep(timer, p, 1, 9), AveragedSweep(timer, q, 10, 9), AveragedSweep(timer, r, 100, 99));
  }

  lemma AllAveraged(a1: Run, a2: Run, a3: Run)
    requires forall k :: 0 <= k < |a1.sources| ==> a1.sources[k] == Averaged
    requires forall k :: 0 <= k < |a2.sources| ==> a2.sources[k] == Averaged
    requires forall k :: 0 <= k < |a3.sources| ==> a3.sources[k] == Averaged
    ensures forall k :: 0 <= k < |Then(Then(a1, a2), a3).sources| ==> Then(Then(a1, a2), a3).sources[k] == Averaged
  {
    var src := Then(Then(a1, a2), a3).sources;
    forall k | 0 <= k < |src| ensures src[k] == Averaged {
      if k < |a1.sources| {
        assert src[k] == a1.sources[k];
      } else if k < |a1.sources| + |a2.sources| {
        assert src[k] == a2.sources[k - |a1.sources|];
      } else {
        assert src[k] == a3.sources[k - |a1.sources| - |a2.sources|];
      }
    }
  }

  /** A multi-run timeout at size i of regime 1 (after sizes 1..i-1 were
      averaged) runs single runs at i..9 and then returns, without
      reaching regime 2 or 3. */
  lemma RegimeOneTimeout(timer: Timer, i: nat)
    requires 1 <= i < 10 && AveragedAt(timer, 1, 1, i - 1) && timer.multi(i).TimedOut?
    ensures Sampled(timer) == Then(AveragedSweep(timer, 1, 1, i - 1), Then(FallbackOne(timer.single, i), STOP))
  {
    RegimeOneAveraged(timer, 1, i - 1, i);
    RegimeOneFallsBack(timer, i);
    SampledStopsInOne(timer);
  }

  /** In that case the sizes after the first i - 1 are exactly those of
      i..9 whose single run finishes (sizes whose single run times out are
      skipped), and no size reaches 10. */
  lemma RegimeOneTimeoutSizes(timer: Timer, i: nat)
    requires 1 <= i < 10 && AveragedAt(timer, 1, 1, i - 1) && timer.multi(i).TimedOut?
    ensures |Sampled(timer).sizes| >= i - 1
    ensures forall n :: n in Sampled(timer).sizes[i - 1..] <==> i <= n < 10 && timer.single(n).Took?
    ensures forall k :: 0 <= k < |Sampled(timer).sizes| ==> Sampled(timer).sizes[k] < 10
  {
    RegimeOneTimeout(timer, i);
    var sweep := FallbackOne(timer.single, i);
    AveragedSweepSamples(timer, 1, 1, i - 1);
    FallbackOneContents(timer.single, i);
    var s := Sampled(timer).sizes;
    assert s == Steps(1, 1, i - 1) + (sweep.sizes + []);
    assert s[i - 1..] == sweep.sizes;
    forall k | 0 <= k < |s| ensures s[k] < 10 {
      if k >= i - 1 {
        assert s[k] == sweep.sizes[k - (i - 1)];
        assert s[k] in sweep.sizes;
      }
    }
  }

  /** Regime 2 from a size i whose multi-run times out: the single runs
      from i that finish are recorded, and the first single-run timeout, at
      j, records the penalty sample (j, 2.0) and ends sampling. */
  lemma RegimeTwoPenaltyRun(timer: Timer, i: nat, j: nat)
    requires i <= j < 100 && timer.multi(i).TimedOut?
    requires SingleAt(timer.single, i, j - i) && timer.single(j).TimedOut?
    ensures RegimeTwo(timer, i) == Then(SingleSweep(timer.single, i, j - i), Run([j], [PENALTY_SECONDS], [Penalty], true))
  {
    FallbackTwoSingle(timer.single, i, j - i, j);
    FallbackTwoPenaltyAt(timer.single, j);
    RegimeTwoFallsBack(timer, i);
  }

  /** Regime 2 after regime 1 and c sizes of regime 2 were averaged, with a
      multi-run timeout at i = 11 + 10c: the single runs from i that finish
      are recorded, and the first single-run timeout, at j, records the
      penalty sample (j, 2.0) and ends sampling. */
  lemma RegimeTwoPenalty(timer: Timer, c: nat, j: nat)
    requires AveragedAt(timer, 1, 1, 9) && c < 9 && AveragedAt(timer, 11, 10, c)
    requires timer.multi(11 + 10 * c).TimedOut?
    requires 11 + 10 * c <= j < 100 && SingleAt(timer.single, 11 + 10 * c, j - (11 + 10 * c))
    requires timer.single(j).TimedOut?
    ensures Sampled(timer) == Then(AveragedSweep(timer, 1, 1, 9), RegimeTwo(timer, 11))
    ensures RegimeTwo(timer, 11) == Then(AveragedSweep(timer, 11, 10, c),
                                         Then(SingleSweep(timer.single, 11 + 10 * c, j - (11 + 10 * c)),
                                              Run([j], [PENALTY_SECONDS], [Penalty], true)))
  {
    var i := 11 + 10 * c;
    RegimeOneComplete(timer);
    RegimeTwoAveraged(timer, 11, c, i);
    RegimeTwoPenaltyRun(timer, i, j);
    SampledStopsInTwo(timer);
  }

  /** Regime 2 from a size i whose multi-run times out and whose fallback
      single runs all finish up to 99: the fallback samples are recorded and
      the step-10 sweep resumes at i + 10. */
  lemma RegimeTwoResumeAt(timer: Timer, i: nat, e: nat)
    requires i < 100 && e == i + 10 && timer.multi(i).TimedOut?
    requires SingleAt(timer.single, i, 100 - i)
    ensures RegimeTwo(timer, i) == Then(SingleSweep(timer.single, i, 100 - i), RegimeTwo(timer, e))
  {
    FallbackTwoSingle(timer.single, i, 100 - i, 100);
    ThenEmptyRight(SingleSweep(timer.single, i, 100 - i));
    RegimeTwoResumes(timer, i);
  }

  lemma RegimeOneCompleteSizes(timer: Timer)
    requires AveragedAt(timer, 1, 1, 9)
    ensures RegimeOne(timer, 1).sizes == Steps(1, 1, 9) && !RegimeOne(timer, 1).stopped
  {
    RegimeOneComplete(timer);
    AveragedSweepSamples(timer, 1, 1, 9);
  }

  lemma RegimeTwoAveragedSizes(timer: Timer, s: nat, c: nat, i: nat)
    requires i == s + 10 * c <= 109 && AveragedAt(timer, s, 10, c)
    ensures RegimeTwo(timer, s).sizes == Steps(s, 10, c) + RegimeTwo(timer, i).sizes
  {
    RegimeTwoAveraged(timer, s, c, i);
    AveragedSweepSamples(timer, s, 10, c);
  }

  lemma RegimeTwoResumeSizes(timer: Timer, i: nat, n: nat, e: nat, f: nat)
    requires i < 90 && n == 100 - i && e == i + 10 && f == i + 20
    requires timer.multi(i).TimedOut? && timer.multi(e).Took? && SingleAt(timer.single, i, n)
    ensures RegimeTwo(timer, i).sizes == Steps(i, 1, n) + [e] + RegimeTwo(timer, f).sizes
  {
    RegimeTwoResumeAt(timer, i, e);
    SingleSweepSizes(timer.single, i, n);
  }

  /** Sampling's sizes start with those of regime 1 and regime 2. */
  lemma SampledStartsWithTwo(timer: Timer)
    requires !RegimeOne(timer, 1).stopped
    ensures RegimeOne(timer, 1).sizes + RegimeTwo(timer, 11).sizes <= Sampled(timer).sizes
  {
    var p := RegimeOne(timer, 1).sizes + RegimeTwo(timer, 11).sizes;
    if RegimeTwo(timer, 11).stopped {
      SampledStopsInTwo(timer);
    } else {
      SampledRunsAll(timer);
      assert Sampled(timer).sizes == p + RegimeThree(timer, 101).sizes;
    }
  }

  /** Regime 2's sizes from s in that situation: the averaged sizes, the
      fallback sizes i .. 99, then i + 10 and whatever follows it. */
  lemma RegimeTwoResumeSizesFrom(timer: Timer, s: nat, c: nat, i: nat, n: nat, e: nat)
    requires i == s + 10 * c < 90 && n == 100 - i && e == i + 10
    requires AveragedAt(timer, s, 10, c) && timer.multi(i).TimedOut?
    requires SingleAt(timer.single, i, n) && timer.multi(e).Took?
    ensures RegimeTwo(timer, s).sizes == Steps(s, 10, c) + (Steps(i, 1, n) + [e] + RegimeTwo(timer, i + 20).sizes)
  {
    RegimeTwoResumeSizes(timer, i, n, e, i + 20);
    RegimeTwoAveragedSizes(timer, s, c, i);
  }

  lemma PrefixPieces(one: seq<nat>, two: seq<nat>, all: seq<nat>,
                     s1: seq<nat>, s2: seq<nat>, s3: seq<nat>, e: nat, rest: seq<nat>)
    requires one == s1 && two == s2 + (s3 + [e] + rest) && one + two <= all
    ensures s1 + s2 + s3 + [e] <= all
  {
    assert one + two == s1 + s2 + s3 + [e] + rest;
  }

  /** Where the size 99 and the size after it sit in such a prefix. */
  lemma ResumeIndex(all: seq<nat>, c: nat)
    requires c < 8
    requires Steps(1, 1, 9) + Steps(11, 10, c) + Steps(11 + 10 * c, 1, 89 - 10 * c) + [21 + 10 * c] <= all
    ensures 98 - 9 * c < |all|
    ensures all[97 - 9 * c] == 99 && all[98 - 9 * c] == 21 + 10 * c
  {
    var s1, s2, s3 := Steps(1, 1, 9), Steps(11, 10, c), Steps(11 + 10 * c, 1, 89 - 10 * c);
    var p := s1 + s2 + s3 + [21 + 10 * c];
    assert all[97 - 9 * c] == p[97 - 9 * c] == s3[88 - 10 * c];
    assert all[98 - 9 * c] == p[98 - 9 * c];
  }

  /** After regime 1 and c averaged sizes of regime 2, a multi-run timeout at
      i = 11 + 10c whose fallback single runs all finish up to 99, and an
      averaged run at i + 10 that finishes, the recorded sizes are those of
      the averaged runs, then i .. 99 from the fallback, then i + 10 again. */
  lemma RegimeTwoResumePrefix(timer: Timer, c: nat)
    requires AveragedAt(timer, 1, 1, 9) && c < 8 && AveragedAt(timer, 11, 10, c)
    requires timer.multi(11 + 10 * c).TimedOut?
    requires SingleAt(timer.single, 11 + 10 * c, 89 - 10 * c)
    requires timer.multi(21 + 10 * c).Took?
    ensures Steps(1, 1, 9) + Steps(11, 10, c) + Steps(11 + 10 * c, 1, 89 - 10 * c) + [21 + 10 * c]
            <= Sampled(timer).sizes
  {
    var i, n, e := 11 + 10 * c, 89 - 10 * c, 21 + 10 * c;
    RegimeTwoResumeSizesFrom(timer, 11, c, i, n, e);
    RegimeOneCompleteSizes(timer);
    SampledStartsWithTwo(timer);
    PrefixPieces(RegimeOne(timer, 1).sizes, RegimeTwo(timer, 11).sizes, Sampled(timer).sizes,
      Steps(1, 1, 9), Steps(11, 10, c), Steps(i, 1, n), e, RegimeTwo(timer, i + 20).sizes);
  }

  /** In that situation the recorded sizes are not increasing: size 99 is
      followed by i + 10. */
  lemma RegimeTwoResume(timer: Timer, c: nat)
    requires AveragedAt(timer, 1, 1, 9) && c < 8 && AveragedAt(timer, 11, 10, c)
    requires timer.multi(11 + 10 * c).TimedOut?
    requires SingleAt(timer.single, 11 + 10 * c, 89 - 10 * c)
    requires timer.multi(21 + 10 * c).Took?
    ensures 98 - 9 * c < |Sampled(timer).sizes|
    ensures Sampled(timer).sizes[97 - 9 * c] == 99 && Sampled(timer).sizes[98 - 9 * c] == 21 + 10 * c
  {
    RegimeTwoResumePrefix(timer, c);
    ResumeIndex(Sampled(timer).sizes, c);
  }

  /** Regime 3 from s when the c averaged runs from s finish and the next
      one, at e, times out. */
  lemma RegimeThreeTimesOut(timer: Timer, s: nat, c: nat, e: nat)
    requires e == s + 100 * c < 10000 && AveragedAt(timer, s, 100, c) && timer.multi(e).TimedOut?
    ensures RegimeThree(timer, s) == Then(AveragedSweep(timer, s, 100, c), STOP)
  {
    RegimeThreeAveraged(timer, s, c, e);
    RegimeThreeStopsAt(timer, e);
  }

  /** A multi-run timeout at size 101 + 100c of regime 3, after everything
      before it was averaged, returns the samples gathered so far. */
  lemma RegimeThreeTimeout(timer: Timer, c: nat)
    requires AveragedAt(timer, 1, 1, 9) && AveragedAt(timer, 11, 10, 9)
    requires c < 99 && AveragedAt(timer, 101, 100, c) && timer.multi(101 + 100 * c).TimedOut?
    ensures Sampled(timer) == Then(Then(AveragedSweep(timer, 1, 1, 9), AveragedSweep(timer, 11, 10, 9)),
                                   Then(AveragedSweep(timer, 101, 100, c), STOP))
  {
    RegimeOneComplete(timer);
    RegimeTwoComplete(timer);
    RegimeThreeTimesOut(timer, 101, c, 101 + 100 * c);
    SampledRunsAll(timer);
  }
}
