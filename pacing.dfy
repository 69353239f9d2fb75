/** The accelerating animation: every `step`-th dot is plotted with a delay
    of `wait` milliseconds, and both are adjusted as the dot index grows.
    The step comes from the settings unchecked: any non-zero step paces (a
    negative one is replaced at the first plotted dot), while a zero step
    makes `i % step` raise, which the session loops handle. */
module Pacing {
  import opened Python

  datatype PaceState = PaceState(step: int, wait: int)

  /** The adjustment at dot i: the candidate step is max(1, i // 100); when it
      is larger than the current step, the step takes it and the delay drops
      by 10 ms but not below 1 ms; otherwise nothing changes. */
  function Pace(s: PaceState, i: nat): (t: PaceState)
    ensures t.step != s.step <==> Max(1, i / 100) > s.step
    ensures t.step >= s.step
    ensures t.step == s.step ==> t == s
    ensures t.step != s.step ==> t.step == Max(1, i / 100) && t.wait == Max(1, s.wait - 10)
    ensures t.step != s.step && s.step >= 1 ==> t.step == i / 100 && t.step >= 2
    ensures t.step != s.step ==> 1 <= t.wait <= Max(1, s.wait)
  {
    var newstep := Max(1, i / 100);
    if newstep > s.step then
      PaceState(newstep, Max(1, s.wait - 10))
    else
      s
  }

  /** One dot of an animated run: the estimate is shown and the pacing
      adjusted only on dots whose index is a multiple of the current step.
      Python's `%` takes the sign of the divisor, so `i % step == 0` holds
      for the same i as Dafny's. */
  function PaceDot(s: PaceState, i: nat): (t: PaceState)
    requires s.step != 0
    ensures t.step >= s.step && t.step != 0
    ensures i % s.step != 0 ==> t == s
    ensures i % s.step == 0 ==> t == Pace(s, i)
  {
    if i % s.step == 0 then Pace(s, i) else s
  }

  /** The pacing after the animated dots i .. n-1. */
  function PaceFrom(s: PaceState, i: nat, n: nat): (t: PaceState)
    requires s.step != 0
    ensures t.step >= s.step && t.step != 0
    decreases n - i
  {
    if i >= n then s else PaceFrom(PaceDot(s, i), i + 1, n)
  }

  /** Over any stretch of dots the step never decreases; if it did not move,
      nothing moved; if it did, it ends at max(1, (some dot index) // 100),
      at most max(1, (n-1) // 100), at least 2 from a positive step, and the
      delay ends at least 1 and no longer than before. */
  lemma {:induction false} PaceFromProperties(s: PaceState, i: nat, n: nat)
    requires s.step != 0
    ensures PaceFrom(s, i, n).step >= s.step
    ensures PaceFrom(s, i, n).step == s.step ==> PaceFrom(s, i, n) == s
    ensures PaceFrom(s, i, n).step != s.step ==> 1 <= PaceFrom(s, i, n).wait <= Max(1, s.wait)
    ensures PaceFrom(s, i, n).step != s.step ==> 1 <= PaceFrom(s, i, n).step <= Max(1, (n - 1) / 100)
    ensures PaceFrom(s, i, n).step != s.step && s.step >= 1 ==> PaceFrom(s, i, n).step >= 2
    decreases n - i
  {
    if i < n {
      var u := PaceDot(s, i);
      PaceFromProperties(u, i + 1, n);
      assert u.step != s.step ==> u.step <= Max(1, (n - 1) / 100);
    }
  }

  /** The indices among the animated dots i .. n-1 whose estimate is shown:
      those that are a multiple of the step in force when they are reached. */
  function ShownDots(s: PaceState, i: nat, n: nat): (d: seq<nat>)
    requires s.step != 0
    ensures |d| <= if i >= n then 0 else n - i
    decreases n - i
  {
    if i >= n then []
    else (if i % s.step == 0 then [i] else []) + ShownDots(PaceDot(s, i), i + 1, n)
  }

  /** The first dot of a non-empty stretch is shown when it is a multiple
      of the step, before the rest of the stretch. */
  lemma ShownDotsUnfold(s: PaceState, i: nat, n: nat)
    requires s.step != 0 && i < n
    ensures ShownDots(s, i, n) == (if i % s.step == 0 then [i] else []) + ShownDots(PaceDot(s, i), i + 1, n)
    ensures PaceFrom(s, i, n) == PaceFrom(PaceDot(s, i), i + 1, n)
  {
  }

  /** A dot j is shown exactly when i <= j < n and j is a multiple of the
      step the pacing has reached at j. */
  lemma {:induction false} ShownDotsExact(s: PaceState, i: nat, n: nat)
    requires s.step != 0
    ensures forall j: nat :: j in ShownDots(s, i, n) <==> i <= j < n && j % PaceFrom(s, i, j).step == 0
    decreases n - i
  {
    if i < n {
      var u := PaceDot(s, i);
      ShownDotsExact(u, i + 1, n);
      forall j: nat
        ensures j in ShownDots(s, i, n) <==> i <= j < n && j % PaceFrom(s, i, j).step == 0
      {
        ShownDotsAt(s, i, n, j);
      }
    }
  }

  /** One step of the induction above: dot i itself, or a later dot of the
      rest of the stretch. */
  lemma ShownDotsAt(s: PaceState, i: nat, n: nat, j: nat)
    requires s.step != 0 && i < n
    requires j in ShownDots(PaceDot(s, i), i + 1, n)
             <==> i + 1 <= j < n && j % PaceFrom(PaceDot(s, i), i + 1, j).step == 0
    ensures j in ShownDots(s, i, n) <==> i <= j < n && j % PaceFrom(s, i, j).step == 0
  {
    var u := PaceDot(s, i);
    assert ShownDots(s, i, n) == (if i % s.step == 0 then [i] else []) + ShownDots(u, i + 1, n);
    if j > i {
      assert PaceFrom(s, i, j) == PaceFrom(u, i + 1, j);
    } else if j == i {
      assert PaceFrom(s, i, j) == s;
      ShownDotsAbove(u, i + 1, n);
    }
  }

  /** Every dot shown in the stretch i .. n-1 is at least i. */
  lemma {:induction false} ShownDotsAbove(s: PaceState, i: nat, n: nat)
    requires s.step != 0
    ensures forall k :: 0 <= k < |ShownDots(s, i, n)| ==> ShownDots(s, i, n)[k] >= i
    decreases n - i
  {
    if i < n {
      ShownDotsAbove(PaceDot(s, i), i + 1, n);
    }
  }

  /** The shown dots come in increasing order. */
  lemma {:induction false} ShownDotsIncreasing(s: PaceState, i: nat, n: nat)
    requires s.step != 0
    ensures forall a, b :: 0 <= a < b < |ShownDots(s, i, n)| ==> ShownDots(s, i, n)[a] < ShownDots(s, i, n)[b]
    decreases n - i
  {
    if i < n {
      var u := PaceDot(s, i);
      ShownDotsIncreasing(u, i + 1, n);
      ShownDotsAbove(u, i + 1, n);
    }
  }

  /** Part way through a stretch of animated dots that began at dot
      `first` from pacing `s0` and ends before dot n: at dot i the pacing
      is `cur`, and `shown` holds the dots shown so far. */
  ghost predicate Tracks(s0: PaceState, first: nat, n: nat, cur: PaceState, i: nat, shown: seq<nat>)
  {
    s0.step != 0 && cur.step != 0
    && PaceFrom(cur, i, n) == PaceFrom(s0, first, n)
    && shown + ShownDots(cur, i, n) == ShownDots(s0, first, n)
  }

  /** Nothing has been shown at the start of a stretch. */
  lemma TracksStart(s0: PaceState, first: nat, n: nat)
    requires s0.step != 0
    ensures Tracks(s0, first, n, s0, first, [])
  {
  }

  /** One more dot: the pacing takes `PaceDot`, and the dot joins the shown
      ones when it is a multiple of the current step. */
  lemma TracksStep(s0: PaceState, first: nat, n: nat, cur: PaceState, i: nat, shown: seq<nat>)
    requires Tracks(s0, first, n, cur, i, shown) && i < n
    ensures i % cur.step == 0 ==> Tracks(s0, first, n, PaceDot(cur, i), i + 1, shown + [i])
    ensures i % cur.step != 0 ==> Tracks(s0, first, n, PaceDot(cur, i), i + 1, shown)
  {
    var u := PaceDot(cur, i);
    ShownDotsUnfold(cur, i, n);
    if i % cur.step == 0 {
      assert shown + ShownDots(cur, i, n) == (shown + [i]) + ShownDots(u, i + 1, n);
    } else {
      assert shown + ShownDots(cur, i, n) == shown + ShownDots(u, i + 1, n);
    }
  }

  /** At the end of the stretch the pacing and the shown dots are those
      of the whole stretch. */
  lemma TracksEnd(s0: PaceState, first: nat, n: nat, cur: PaceState, i: nat, shown: seq<nat>)
    requires Tracks(s0, first, n, cur, i, shown) && i >= n
    ensures cur == PaceFrom(s0, first, n) && shown == ShownDots(s0, first, n)
  {
    assert shown + [] == shown;
  }
}
