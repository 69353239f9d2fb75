/** What both revisions' session loops share: the animation level, the
    moment the user closes the window, and how those decide which runs start
    and which dots are animated. */
module Runs {
  import opened Pacing
  import Python

  /** The animation level chosen in the control panel. */
  datatype Animation = Min | Med | Max

  /** When the closing of the window (or of the control panel) is first seen
      by the session loop: never, at the check before run `run` starts, or at
      the check before dot `dot` of run `run`. */
  datatype Closure = Never | BeforeRun(run: nat) | DuringRun(run: nat, dot: nat)

  /** The check at the top of the run loop sees the window closed. */
  predicate ClosedBefore(c: Closure, run: nat)
  {
    match c
    case Never => false
    case BeforeRun(r) => run >= r
    case DuringRun(r, _) => run > r
  }

  /** The check at the top of the dot loop sees the window closed. */
  predicate ClosedDuring(c: Closure, run: nat, i: nat)
  {
    c.DuringRun? && c.run == run && i >= c.dot
  }

  /** The sampled coordinates of a session: for each of `runs` runs an x and
      a y sequence of `dots` entries, standing for the two uniform draws. */
  predicate Shaped(xs: seq<seq<real>>, ys: seq<seq<real>>, runs: nat, dots: nat)
  {
    |xs| == runs && |ys| == runs
    && forall j :: 0 <= j < runs ==> |xs[j]| == dots && |ys[j]| == dots
  }

  /** The number of runs that start, each of which appends one estimate. */
  function StartedRuns(runs: nat, c: Closure): (k: nat)
    ensures k <= runs
    ensures c == Never ==> k == runs
  {
    match c
    case Never => runs
    case BeforeRun(r) => if r < runs then r else runs
    case DuringRun(r, _) => if r + 1 < runs then r + 1 else runs
  }

  /** A run starts exactly when the loop has not reached `runs` and the
      check before it does not see the window closed. */
  lemma StartedRunsExact(runs: nat, c: Closure, run: nat)
    ensures run < StartedRuns(runs, c) <==> run < runs && !ClosedBefore(c, run)
  {
  }

  /** The number of dots of a run that the dot loop goes through. */
  function DotsVisited(run: nat, dots: nat, c: Closure): (n: nat)
    ensures n <= dots
  {
    if c.DuringRun? && c.run == run && c.dot < dots then c.dot else dots
  }

  /** The dot loop goes through dot i exactly when i < dots and the check
      before it does not see the window closed. */
  lemma DotsVisitedExact(run: nat, dots: nat, c: Closure, i: nat)
    ensures i < DotsVisited(run, dots, c) <==> i < dots && !ClosedDuring(c, run, i)
  {
  }

  /** The two nested conditions under which a dot of run `run` is plotted
      and the pacing adjusted: `max`, `med`, the first or the last run, and
      then the first run or `max`. Together: the first run, or `max`. */
  predicate Animates(animation: Animation, run: nat, runs: nat): (a: bool)
    ensures a <==> run == 0 || animation == Max
  {
    (animation == Max || animation == Med || run == 0 || run == runs - 1)
    && (run == 0 || animation == Max)
  }

  /** The pacing after one run whose dot loop starts at index `first`. */
  function RunPacing(s: PaceState, run: nat, runs: nat, dots: nat, first: nat,
                     animation: Animation, c: Closure): (t: PaceState)
    requires s.step != 0
    ensures t.step >= s.step && t.step != 0
  {
    if Animates(animation, run, runs) then PaceFrom(s, first, DotsVisited(run, dots, c)) else s
  }

  /** The pacing after the first k runs of a session. */
  function SessionPacing(s: PaceState, k: nat, runs: nat, dots: nat, first: nat,
                         animation: Animation, c: Closure): (t: PaceState)
    requires s.step != 0
    ensures t.step >= s.step && t.step != 0
  {
    if k == 0 then s
    else RunPacing(SessionPacing(s, k - 1, runs, dots, first, animation, c), k - 1, runs, dots, first, animation, c)
  }

  /** Across a session the step never decreases; when it moved the delay
      ends at least 1 ms and no longer than it started (or 1 ms). */
  lemma {:induction false} SessionPacingProperties(s: PaceState, k: nat, runs: nat, dots: nat,
                                                   first: nat, animation: Animation, c: Closure)
    requires s.step != 0
    ensures SessionPacing(s, k, runs, dots, first, animation, c).step >= s.step
    ensures SessionPacing(s, k, runs, dots, first, animation, c).step == s.step
            ==> SessionPacing(s, k, runs, dots, first, animation, c) == s
    ensures SessionPacing(s, k, runs, dots, first, animation, c).step != s.step
            ==> 1 <= SessionPacing(s, k, runs, dots, first, animation, c).wait <= Python.Max(1, s.wait)
  {
    if k > 0 {
      var u := SessionPacing(s, k - 1, runs, dots, first, animation, c);
      SessionPacingProperties(s, k - 1, runs, dots, first, animation, c);
      if Animates(animation, k - 1, runs) {
        PaceFromProperties(u, first, DotsVisited(k - 1, dots, c));
      }
    }
  }

  /** When the first run's dot loop stops before its first dot `first` of
      a run of more than `first` dots, the window was closed during that
      run, so no later run starts. */
  lemma FirstRunCutShort(runs: nat, dots: nat, first: nat, c: Closure, run: nat)
    requires first < dots && DotsVisited(0, dots, c) <= first && run >= 1
    ensures ClosedBefore(c, run) && StartedRuns(runs, c) <= 1
  {
  }

  /** The window was closed while the session ran. */
  predicate SessionClosed(runs: nat, c: Closure)
  {
    match c
    case Never => false
    case BeforeRun(r) => r < runs
    case DuringRun(r, _) => r < runs
  }
}
