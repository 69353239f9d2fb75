/** The session loop of pi_monte_carlo/pi.py (revision 0.0):
    `MonteCarlo.monte_carlo`. */
module SessionV0 {
  import opened Python
  import opened Pacing
  import opened Runs
  import EstimatesV1
  import EstimatesV0
  import SessionV1

  /** The delay this revision paces with: the local variable that first held
      the length, 3, of the pause before the runs. */
  const InitialWait := 3

  /** The run log is written when the window was not closed and at least one
      run completed (the second disjunct of the source adds nothing). */
  predicate WritesLog(closed: bool, completed: nat): (w: bool)
    ensures w <==> !closed && completed >= 1
  {
    (!closed && completed >= 1) || (!closed && completed > 1)
  }

  /** Each of `results` is what this revision's `pi_arr[dots-2]` yields
      for the samples of that run. */
  predicate EstimatesOfRuns(xs: seq<seq<real>>, ys: seq<seq<real>>, results: seq<real>)
    requires |results| <= |xs| && |results| <= |ys|
  {
    forall j :: 0 <= j < |results| ==>
      |xs[j]| == |ys[j]| && EstimatesV0.FinalEstimate(xs[j], ys[j]) == Ok(results[j])
  }

  /** The estimates of revision 0.1's `pi_results` are, one by one, what
      this revision's `pi_arr[dots-2]` yields when it does not raise. */
  lemma ResultsAgree(xs: seq<seq<real>>, ys: seq<seq<real>>, runs: nat, dots: nat, k: nat)
    requires Shaped(xs, ys, runs, dots) && k <= runs && (k == 0 || dots >= 2)
    ensures EstimatesOfRuns(xs, ys, SessionV1.Results(xs, ys, k))
  {
    forall j | 0 <= j < k
      ensures EstimatesV0.FinalEstimate(xs[j], ys[j]) == Ok(SessionV1.Results(xs, ys, k)[j])
    {
      EstimatesV0.SameFinalEstimate(xs[j], ys[j]);
    }
  }

  class MonteCarlo {
    /** Plot every `step`-th dot of an animated run. */
    var step: int
    var runs: int
    var dots: int
    /** One estimate per started run of the last session; the field is
        first created by a session, so its initial value is never read. */
    var piResults: seq<real>

    /** `step` comes from the settings file, unchecked. */
    constructor (settingsStep: int)
      ensures step == settingsStep
    {
      step := settingsStep;
      runs := 0;
      dots := 0;
      piResults := [];
    }

    /** One session. With fewer than two dots the first run raises
        IndexError before appending anything; with a zero step it raises
        ZeroDivisionError at dot 1 of the first run, after appending that
        run's estimate; otherwise every started run appends the same
        estimate revision 0.1 appends. */
    method MonteCarlo(runs: nat, dots: nat, animation: Animation,
                      xs: seq<seq<real>>, ys: seq<seq<real>>,
                      closure: Closure) returns (outcome: Outcome, logWritten: bool)
      requires runs >= 1
      requires Shaped(xs, ys, runs, dots)
      modifies this
      ensures this.runs == runs && this.dots == dots
      ensures outcome.Fail? <==> StartedRuns(runs, closure) > 0
                                 && (dots < 2 || (old(step) == 0 && DotsVisited(0, dots, closure) > 1))
      ensures outcome.Fail? && dots < 2 ==> outcome.error == IndexError && piResults == []
      ensures outcome.Fail? && dots >= 2 ==> outcome.error == ZeroDivisionError
                                             && piResults == SessionV1.Results(xs, ys, 1)
      ensures outcome.Fail? ==> step == old(step) && !logWritten
      ensures outcome.Pass? ==> piResults == SessionV1.Results(xs, ys, StartedRuns(runs, closure))
      ensures outcome.Pass? ==> |piResults| <= runs && EstimatesOfRuns(xs, ys, piResults)
      ensures outcome.Pass? && old(step) != 0 ==>
                step == SessionPacing(PaceState(old(step), InitialWait), StartedRuns(runs, closure),
                                      runs, dots, 1, animation, closure).step
      ensures outcome.Pass? && old(step) == 0 ==> step == old(step)
      ensures outcome.Pass? ==> (logWritten <==> WritesLog(SessionClosed(runs, closure), |piResults|))
    {
      piResults := [];
      this.runs := runs;
      this.dots := dots;
      var wait := InitialWait;
      ghost var s0 := PaceState(step, wait);
      var run := 0;
      while run < runs && !ClosedBefore(closure, run)
        modifies this`step, this`piResults
        invariant run > 0 ==> dots >= 2
        invariant SessionV1.SessionSoFar(s0, xs, ys, runs, dots, 1, animation, closure, run, piResults, PaceState(step, wait))
      {
        StartedRunsExact(runs, closure, run);
        outcome, wait := NextRun(run, runs, dots, animation, xs, ys, closure, wait, s0);
        if outcome.Fail? {
          logWritten := false;
          return;
        }
        run := run + 1;
      }
      StartedRunsExact(runs, closure, run);
      ResultsAgree(xs, ys, runs, dots, run);
      var closeWindow := SessionClosed(runs, closure);
      outcome := Pass;
      logWritten := (!closeWindow && |piResults| >= 1) || (!closeWindow && |piResults| > 1);
    }

    /** Run `run` of a session: IndexError before anything is appended, or
        its estimate appended and then its dot loop; `wait` is the
        session's local delay, returned updated. */
    method NextRun(run: nat, runs: nat, dots: nat, animation: Animation,
                   xs: seq<seq<real>>, ys: seq<seq<real>>, closure: Closure, wait0: int,
                   ghost s0: PaceState)
      returns (outcome: Outcome, wait: int)
      requires Shaped(xs, ys, runs, dots) && run < StartedRuns(runs, closure) && (run > 0 ==> dots >= 2)
      requires SessionV1.SessionSoFar(s0, xs, ys, runs, dots, 1, animation, closure, run, piResults, PaceState(step, wait0))
      modifies this`step, this`piResults
      ensures outcome.Pass? ==> dots >= 2
      ensures outcome.Pass? ==>
                SessionV1.SessionSoFar(s0, xs, ys, runs, dots, 1, animation, closure, run + 1, piResults, PaceState(step, wait))
      ensures outcome.Fail? <==> run == 0 && (dots < 2 || (s0.step == 0 && DotsVisited(0, dots, closure) > 1))
      ensures outcome.Fail? && dots < 2 ==> outcome.error == IndexError && piResults == []
      ensures outcome.Fail? && dots >= 2 ==> outcome.error == ZeroDivisionError
                                             && piResults == SessionV1.Results(xs, ys, 1)
      ensures outcome.Fail? ==> step == s0.step
    {
      StartedRunsExact(runs, closure, run);
      var pi;
      pi, outcome, wait := Run(run, runs, dots, animation, xs[run], ys[run], closure, wait0);
      if pi.Err? {
        outcome := Fail(pi.error);
        return;
      }
      SessionV1.ResultsAppend(xs, ys, run);
      piResults := piResults + [pi.value];
      if s0.step == 0 && outcome.Pass? {
        FirstRunCutShort(runs, dots, 1, closure, run + 1);
      }
    }

    /** One run: its estimate, or IndexError before any dot is drawn, and
        then its dot loop, which may raise ZeroDivisionError. */
    method Run(run: nat, runs: nat, dots: nat, animation: Animation,
               x: seq<real>, y: seq<real>, closure: Closure, wait0: int)
      returns (pi: Result<real>, outcome: Outcome, wait: int)
      requires |x| == dots && |y| == dots
      modifies this`step
      ensures pi.Err? <==> dots < 2
      ensures pi.Err? ==> pi.error == IndexError
      ensures pi.Ok? ==> pi.value == EstimatesV1.FinalEstimate(x, y)
      ensures pi.Ok? ==> (outcome.Fail? <==> old(step) == 0 && Animates(animation, run, runs)
                                             && DotsVisited(run, dots, closure) > 1)
      ensures outcome.Fail? ==> outcome.error == ZeroDivisionError
      ensures pi.Err? || old(step) == 0 ==> step == old(step) && wait == wait0
      ensures pi.Ok? && old(step) != 0 ==>
                PaceState(step, wait) == RunPacing(PaceState(old(step), wait0), run, runs, dots, 1, animation, closure)
    {
      var piArr;
      piArr, pi := Sample(x, y);
      wait := wait0;
      outcome := Pass;
      if pi.Ok? {
        var shown, shownValues;
        outcome, wait, shown, shownValues := AnimateDots(run, runs, dots, animation, piArr, closure, wait);
      }
    }

    /** The vectorised part of a run: `pi_arr` and its entry `dots-2`, which
        raises for fewer than two dots and otherwise is revision 0.1's
        estimate. */
    static method Sample(x: seq<real>, y: seq<real>) returns (piArr: seq<real>, pi: Result<real>)
      requires |x| == |y|
      ensures piArr == EstimatesV0.RunArr(x, y) && |piArr| == if |x| == 0 then 0 else |x| - 1
      ensures pi == EstimatesV0.FinalEstimate(x, y)
      ensures pi.Err? <==> |x| < 2
      ensures pi.Err? ==> pi.error == IndexError
      ensures pi.Ok? ==> pi.value == EstimatesV1.FinalEstimate(x, y)
    {
      piArr := EstimatesV0.RunArr(x, y);
      pi := Index(piArr, |x| - 2);
      if pi.Ok? {
        EstimatesV0.SameFinalEstimate(x, y);
      }
    }

    /** The dot loop of one run, from dot 1 (drawing is left out): on an
        animated run every dot whose index is a positive multiple of `step`
        shows `pi_arr[i-1]` and adjusts the pacing; `wait` is the caller's
        local delay, returned updated; `shown` and `shownValues` are the
        dots shown and the estimates shown at them. */
    method AnimateDots(run: nat, runs: nat, dots: nat, animation: Animation,
                       piArr: seq<real>, closure: Closure, wait0: int)
      returns (outcome: Outcome, wait: int, shown: seq<nat>, shownValues: seq<real>)
      requires |piArr| == dots - 1
      modifies this`step
      ensures outcome.Fail? <==> old(step) == 0 && Animates(animation, run, runs) && DotsVisited(run, dots, closure) > 1
      ensures outcome.Fail? ==> outcome.error == ZeroDivisionError
      ensures old(step) == 0 ==> step == old(step) && wait == wait0 && shown == []
      ensures old(step) != 0 ==>
                PaceState(step, wait) == RunPacing(PaceState(old(step), wait0), run, runs, dots, 1, animation, closure)
      ensures old(step) != 0 && Animates(animation, run, runs) ==>
                shown == ShownDots(PaceState(old(step), wait0), 1, DotsVisited(run, dots, closure))
      ensures !Animates(animation, run, runs) ==> shown == []
      ensures SessionV1.ShowsEstimates(shown, shownValues, piArr, 1, dots)
    {
      wait := wait0;
      ghost var sRun := PaceState(step, wait);
      ghost var n := DotsVisited(run, dots, closure);
      ghost var live := sRun.step != 0 && Animates(animation, run, runs);
      shown, shownValues := [], [];
      if live {
        TracksStart(sRun, 1, n);
      }
      var i := 1;
      while i < dots && !ClosedDuring(closure, run, i)
        invariant 1 <= i <= dots
        invariant !live ==> PaceState(step, wait) == sRun && shown == []
        invariant !live && Animates(animation, run, runs) ==> i == 1
        invariant live ==> Tracks(sRun, 1, n, PaceState(step, wait), i, shown)
        invariant SessionV1.ShowsEstimates(shown, shownValues, piArr, 1, i)
      {
        DotsVisitedExact(run, dots, closure, i);
        SessionV1.ShowsEstimatesStep(shown, shownValues, piArr, 1, i);
        if Animates(animation, run, runs) {
          if step == 0 {
            return Fail(ZeroDivisionError), wait, shown, shownValues;
          }
          TracksStep(sRun, 1, n, PaceState(step, wait), i, shown);
          var isShown;
          isShown, wait := PaceDotStep(i, wait);
          if isShown {
            shown, shownValues := shown + [i], shownValues + [piArr[i - 1]];
          }
        }
        i := i + 1;
      }
      DotsVisitedExact(run, dots, closure, i);
      if live {
        TracksEnd(sRun, 1, n, PaceState(step, wait), i, shown);
      }
      outcome := Pass;
    }

    /** The test and the adjustment at animated dot i, with the caller's
        local delay: whether its estimate is shown (`i > 0` holds on every
        dot of this loop), and the new step and delay. */
    method PaceDotStep(i: nat, wait0: int) returns (isShown: bool, wait: int)
      requires step != 0 && i > 0
      modifies this`step
      ensures isShown <==> i % old(step) == 0
      ensures PaceState(step, wait) == PaceDot(PaceState(old(step), wait0), i)
    {
      wait := wait0;
      isShown := i % step == 0 && i > 0;
      if isShown {
        var newstep := Python.Max(1, i / 100);
        if newstep > step {
          step := newstep;
          wait := wait - 10;
          wait := Python.Max(1, wait);
        }
      }
    }
  }
}
