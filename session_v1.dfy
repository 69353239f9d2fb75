/** The session loop of pi.py (revision 0.1): `MonteCarlo.monte_carlo`. */
module SessionV1 {
  import opened Python
  import opened Pacing
  import opened Runs
  import EstimatesV1
  import Kernel

  /** `pi_results` after the first k runs: each run's estimate, in run order. */
  function Results(xs: seq<seq<real>>, ys: seq<seq<real>>, k: nat): (r: seq<real>)
    requires k <= |xs| && |xs| == |ys|
    requires forall j :: 0 <= j < |xs| ==> |xs[j]| == |ys[j]|
    ensures |r| == k
  {
    seq(k, j requires 0 <= j < k => EstimatesV1.FinalEstimate(xs[j], ys[j]))
  }

  /** The run log is written when at least ten runs completed and the
      control panel is still running. */
  predicate WritesLog(tkRunning: bool, completed: nat): (w: bool)
    ensures w <==> tkRunning && completed >= 10
  {
    tkRunning && completed >= 10
  }

  /** `values` are the running estimates shown at the dots `dots`, each
      below `bound` and at least `first`, where the estimate of dot i is
      `piArr[i - first]`. */
  predicate ShowsEstimates(dots: seq<nat>, values: seq<real>, piArr: seq<real>, first: nat, bound: nat)
  {
    |values| == |dots|
    && forall k :: 0 <= k < |dots| ==>
         first <= dots[k] < bound && dots[k] - first < |piArr| && values[k] == piArr[dots[k] - first]
  }

  /** Moving on from dot i keeps the record, with or without dot i shown. */
  lemma ShowsEstimatesStep(dots: seq<nat>, values: seq<real>, piArr: seq<real>, first: nat, i: nat)
    requires ShowsEstimates(dots, values, piArr, first, i) && first <= i && i - first < |piArr|
    ensures ShowsEstimates(dots, values, piArr, first, i + 1)
    ensures ShowsEstimates(dots + [i], values + [piArr[i - first]], piArr, first, i + 1)
  {
  }

  /** Each run appends one estimate at the end. */
  lemma ResultsAppend(xs: seq<seq<real>>, ys: seq<seq<real>>, k: nat)
    requires k < |xs| && |xs| == |ys|
    requires forall j :: 0 <= j < |xs| ==> |xs[j]| == |ys[j]|
    ensures Results(xs, ys, k + 1) == Results(xs, ys, k) + [EstimatesV1.FinalEstimate(xs[k], ys[k])]
  {
  }

  /** The state of a session after its first `run` runs, the loop's
      dots starting at `first`: the estimates appended so far and the
      pacing they left. With a zero step a run that returns normally makes
      no dot animated, which only the window closing during the first run
      at its first dot allows, so no later run starts. */
  ghost predicate SessionSoFar(s0: PaceState, xs: seq<seq<real>>, ys: seq<seq<real>>, runs: nat, dots: nat,
                               first: nat, animation: Animation, c: Closure, run: nat,
                               results: seq<real>, t: PaceState)
    requires Shaped(xs, ys, runs, dots)
  {
    run <= StartedRuns(runs, c)
    && results == Results(xs, ys, run)
    && (s0.step != 0 ==> t == SessionPacing(s0, run, runs, dots, first, animation, c))
    && (s0.step == 0 ==> t == s0)
    && (s0.step == 0 && run > 0 ==> DotsVisited(0, dots, c) <= first && ClosedBefore(c, run))
  }

  class MonteCarlo {
    /** Plot every `step`-th dot of an animated run. */
    var step: int
    /** Delay in ms after each plotted dot. */
    var wait: int
    var runs: int
    var dots: int
    /** One estimate per started run of the last session; the field is
        first created by a session, so its initial value is never read. */
    var piResults: seq<real>

    /** `step` and `wait` come from the settings file, unchecked. */
    constructor (settingsWait: int, settingsStep: int)
      ensures wait == settingsWait && step == settingsStep
    {
      wait := settingsWait;
      step := settingsStep;
      runs := 0;
      dots := 0;
      piResults := [];
    }

    /** One session: `runs` runs of `dots` dots each, the coordinates of run j
        being xs[j] and ys[j]. Every started run appends its estimate to
        `piResults`; the animated dots adjust `step` and `wait`, which carry
        over to the next session. A zero step raises ZeroDivisionError at
        the first dot of the first run, and zero dots raise IndexError in
        the first run's closing `plot_dots`, both after that run's estimate
        was appended. */
    method MonteCarlo(runs: nat, dots: nat, animation: Animation,
                      xs: seq<seq<real>>, ys: seq<seq<real>>,
                      closure: Closure, tkRunning: bool) returns (outcome: Outcome, logWritten: bool)
      requires runs >= 1
      requires Shaped(xs, ys, runs, dots)
      modifies this
      ensures this.runs == runs && this.dots == dots
      ensures outcome.Fail? <==> StartedRuns(runs, closure) > 0
                                 && (dots == 0 || (old(step) == 0 && DotsVisited(0, dots, closure) > 0))
      ensures outcome.Fail? && dots == 0 ==> outcome.error == IndexError
      ensures outcome.Fail? && dots > 0 ==> outcome.error == ZeroDivisionError
      ensures outcome.Fail? ==> piResults == Results(xs, ys, 1) && step == old(step) && wait == old(wait) && !logWritten
      ensures outcome.Pass? ==> piResults == Results(xs, ys, StartedRuns(runs, closure))
      ensures outcome.Pass? && old(step) != 0 ==>
                PaceState(step, wait)
                == SessionPacing(old(PaceState(step, wait)), StartedRuns(runs, closure),
                                 runs, dots, 0, animation, closure)
      ensures outcome.Pass? && old(step) == 0 ==> step == old(step) && wait == old(wait)
      ensures outcome.Pass? ==> (logWritten <==> WritesLog(tkRunning, |piResults|))
    {
      ghost var s0 := PaceState(step, wait);
      piResults := [];
      this.runs := runs;
      this.dots := dots;
      var run := 0;
      while run < runs && !ClosedBefore(closure, run)
        modifies this`step, this`wait, this`piResults
        invariant run > 0 ==> dots >= 1
        invariant SessionSoFar(s0, xs, ys, runs, dots, 0, animation, closure, run, piResults, PaceState(step, wait))
      {
        StartedRunsExact(runs, closure, run);
        outcome := NextRun(run, runs, dots, animation, xs, ys, closure, s0);
        if outcome.Fail? {
          logWritten := false;
          return;
        }
        run := run + 1;
      }
      StartedRunsExact(runs, closure, run);
      outcome := Pass;
      logWritten := tkRunning && |piResults| >= 10;
    }

    /** Run `run` of a session, with its estimate appended. */
    method NextRun(run: nat, runs: nat, dots: nat, animation: Animation,
                   xs: seq<seq<real>>, ys: seq<seq<real>>, closure: Closure, ghost s0: PaceState)
      returns (outcome: Outcome)
      requires Shaped(xs, ys, runs, dots) && run < StartedRuns(runs, closure) && (run > 0 ==> dots >= 1)
      requires SessionSoFar(s0, xs, ys, runs, dots, 0, animation, closure, run, piResults, PaceState(step, wait))
      modifies this`step, this`wait, this`piResults
      ensures outcome.Pass? ==> dots >= 1
      ensures outcome.Pass? ==>
                SessionSoFar(s0, xs, ys, runs, dots, 0, animation, closure, run + 1, piResults, PaceState(step, wait))
      ensures outcome.Fail? <==> run == 0 && (dots == 0 || (s0.step == 0 && DotsVisited(0, dots, closure) > 0))
      ensures outcome.Fail? && dots == 0 ==> outcome.error == IndexError
      ensures outcome.Fail? && dots > 0 ==> outcome.error == ZeroDivisionError
      ensures outcome.Fail? ==> piResults == Results(xs, ys, 1) && PaceState(step, wait) == s0
    {
      StartedRunsExact(runs, closure, run);
      var piExt;
      piExt, outcome := Run(run, runs, dots, animation, xs[run], ys[run], closure);
      ResultsAppend(xs, ys, run);
      piResults := piResults + [piExt];
      if s0.step == 0 && outcome.Pass? {
        FirstRunCutShort(runs, dots, 0, closure, run + 1);
      }
    }

    /** One run: `pi_arr`, its last entry as the run's estimate, the dot
        loop, and the closing `plot_dots` at dot `dots-1`, which reads
        `in_circle_cum[dots-1]` and so raises IndexError for zero dots. */
    method Run(run: nat, runs: nat, dots: nat, animation: Animation,
               x: seq<real>, y: seq<real>, closure: Closure) returns (piExt: real, outcome: Outcome)
      requires |x| == dots && |y| == dots
      modifies this`step, this`wait
      ensures piExt == EstimatesV1.FinalEstimate(x, y)
      ensures outcome.Fail? <==> dots == 0 || (old(step) == 0 && Animates(animation, run, runs) && DotsVisited(run, dots, closure) > 0)
      ensures outcome.Fail? && dots == 0 ==> outcome.error == IndexError
      ensures outcome.Fail? && dots > 0 ==> outcome.error == ZeroDivisionError
      ensures old(step) == 0 ==> step == old(step) && wait == old(wait)
      ensures old(step) != 0 ==>
                PaceState(step, wait) == RunPacing(old(PaceState(step, wait)), run, runs, dots, 0, animation, closure)
    {
      var piArr := EstimatesV1.RunArr(x, y);
      EstimatesV1.FinalEstimateIsLast(x, y);
      piExt := Python.Index(piArr, dots - 1).value;
      var shown, shownValues;
      outcome, shown, shownValues := AnimateDots(run, runs, dots, animation, piArr, closure);
      if outcome.Pass? && Python.Index(Kernel.CumSum(Kernel.InsideFlags(x, y)), dots - 1).Err? {
        outcome := Fail(IndexError);
      }
    }

    /** The dot loop of one run (drawing is left out). On an animated run
        every dot whose index is a multiple of `step` shows its running
        estimate `pi_arr[i]` and adjusts the pacing; `shown` and
        `shownValues` are the dots shown and the estimates shown at them. */
    method AnimateDots(run: nat, runs: nat, dots: nat, animation: Animation,
                       piArr: seq<real>, closure: Closure)
      returns (outcome: Outcome, shown: seq<nat>, shownValues: seq<real>)
      requires dots <= |piArr|
      modifies this`step, this`wait
      ensures outcome.Fail? <==> old(step) == 0 && Animates(animation, run, runs) && DotsVisited(run, dots, closure) > 0
      ensures outcome.Fail? ==> outcome.error == ZeroDivisionError
      ensures old(step) == 0 ==> step == old(step) && wait == old(wait) && shown == []
      ensures old(step) != 0 ==>
                PaceState(step, wait) == RunPacing(old(PaceState(step, wait)), run, runs, dots, 0, animation, closure)
      ensures old(step) != 0 && Animates(animation, run, runs) ==>
                shown == ShownDots(old(PaceState(step, wait)), 0, DotsVisited(run, dots, closure))
      ensures !Animates(animation, run, runs) ==> shown == []
      ensures ShowsEstimates(shown, shownValues, piArr, 0, dots)
    {
      ghost var sRun := PaceState(step, wait);
      ghost var n := DotsVisited(run, dots, closure);
      ghost var live := sRun.step != 0 && Animates(animation, run, runs);
      shown, shownValues := [], [];
      if live {
        TracksStart(sRun, 0, n);
      }
      var i := 0;
      while i < dots && !ClosedDuring(closure, run, i)
        invariant 0 <= i <= dots
        invariant !live ==> PaceState(step, wait) == sRun && shown == []
        invariant !live && Animates(animation, run, runs) ==> i == 0
        invariant live ==> Tracks(sRun, 0, n, PaceState(step, wait), i, shown)
        invariant ShowsEstimates(shown, shownValues, piArr, 0, i)
      {
        DotsVisitedExact(run, dots, closure, i);
        ShowsEstimatesStep(shown, shownValues, piArr, 0, i);
        if Animates(animation, run, runs) {
          if step == 0 {
            return Fail(ZeroDivisionError), shown, shownValues;
          }
          TracksStep(sRun, 0, n, PaceState(step, wait), i, shown);
          var isShown := PaceDotStep(i);
          if isShown {
            shown, shownValues := shown + [i], shownValues + [piArr[i]];
          }
        }
        i := i + 1;
      }
      DotsVisitedExact(run, dots, closure, i);
      if live {
        TracksEnd(sRun, 0, n, PaceState(step, wait), i, shown);
      }
      outcome := Pass;
    }

    /** The test and the adjustment at animated dot i: whether its estimate
        is shown, and the new step and delay. */
    method PaceDotStep(i: nat) returns (isShown: bool)
      requires step != 0
      modifies this`step, this`wait
      ensures isShown <==> i % old(step) == 0
      ensures PaceState(step, wait) == PaceDot(old(PaceState(step, wait)), i)
    {
      isShown := i % step == 0;
      if isShown {
        var newstep := Python.Max(1, i / 100);
        if newstep > step {
          step := newstep;
          wait := wait - 10;
          wait := Python.Max(1, wait);
        }
      }
    }
  }

  /** A session closed before run k holds the k estimates a session of
      exactly k runs over the same coordinates would hold. */
  lemma CancelledSessionIsShorterSession(xs: seq<seq<real>>, ys: seq<seq<real>>,
                                         runs: nat, dots: nat, k: nat)
    requires Shaped(xs, ys, runs, dots) && k <= runs
    ensures Shaped(xs[..k], ys[..k], k, dots)
    ensures Results(xs, ys, StartedRuns(runs, BeforeRun(k)))
            == Results(xs[..k], ys[..k], StartedRuns(k, Never))
  {
    var a := Results(xs, ys, StartedRuns(runs, BeforeRun(k)));
    var b := Results(xs[..k], ys[..k], StartedRuns(k, Never));
    assert |a| == |b| == k;
    forall j | 0 <= j < k ensures a[j] == b[j] {
      assert xs[..k][j] == xs[j] && ys[..k][j] == ys[j];
    }
  }

  /** Every estimate in `pi_results` lies in [0, 4·dots/(dots-1)]. */
  lemma ResultsBounds(xs: seq<seq<real>>, ys: seq<seq<real>>, runs: nat, dots: nat, k: nat)
    requires Shaped(xs, ys, runs, dots) && k <= runs && dots >= 2
    ensures forall j :: 0 <= j < k ==>
              0.0 <= Results(xs, ys, k)[j] <= 4.0 * (dots as real) / ((dots - 1) as real)
  {
    forall j | 0 <= j < k
      ensures 0.0 <= Results(xs, ys, k)[j] <= 4.0 * (dots as real) / ((dots - 1) as real)
    {
      EstimatesV1.FinalEstimateBounds(xs[j], ys[j]);
    }
  }
}
