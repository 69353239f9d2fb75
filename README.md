# Monte Carlo π estimator — a Dafny model

The program estimates π by throwing `dots` uniformly random points into the
unit square. It counts those that fall inside the quarter circle
`x² + y² ≤ 1`, and for each run reports four times the inside count over
`dots-1`, one less than the number of points (see below). A
session makes `runs` such runs, collects one estimate per run in
`pi_results`, paces the on-screen animation of the dots, and afterwards
writes a log and draws charts when enough runs completed. A Tkinter control
panel sets `runs` and `dots` with a unit slider and a power-of-ten slider,
and an information window scrolls through nine slides.

Two revisions are modelled side by side:

* `pi.py` (revision 0.1): modules `EstimatesV1` and `SessionV1`;
* `pi_monte_carlo/pi.py` (revision 0.0): modules `EstimatesV0` and
  `SessionV0`, which also holds the unused `blocks`/`block0` split.

The shared parts are modelled once:

* `Kernel`: the inside test, the inside flags and their cumulative sum;
* `Pacing`: the step/wait acceleration of one plotted dot;
* `Runs`: which runs and dots a session goes through, and the pacing across
  runs;
* `Sliders` and `Slides`: the slider arithmetic and the slide carousel;
* `Gui`: the control panel's own fields and the thresholds for charts and
  the histogram;
* `Python`: the few Python semantics the code relies on, namely indexing
  with negative indices and IndexError, `max`, `str` of a non-negative
  integer, and `os.path.join`.

Modelling choices:

* **Random samples are inputs.** The coordinates `x` and `y` drawn by
  `numpy.random.uniform` are parameters. They are sequences of `real`, one
  pair per run (`xs[j]`, `ys[j]`).
* **Inside test.** The code takes `d = sqrt(x² + y²)` and tests `d <= 1`.
  The model tests `x² + y² ≤ 1` directly, and `Kernel.DistanceTest` proves
  the two tests agree for any non-negative `d` with `d² = x² + y²`.
* **Estimates are exact rationals** (`real`), computed from integer counts.
* **Window closing.** The OpenCV window being closed, or the control panel
  shutting down, is a parameter `Closure`. It says whether and where the
  loops see the flag: at the check before run `r`, or at the check before
  dot `d` of run `r`.
* **Displayed formula versus computed estimate.** The window shows the
  formula "pi ~ 4 x dots in circle / total dots" (`pi.py:430-437`) and, at
  dot `i`, prints "total dots = i+1" (`pi.py:411`). The estimate itself
  divides the inside count of the first `i+1` dots by `i` (`pi.py:563`). A
  run therefore reports `4·inside/(dots-1)`, a value that can exceed 4
  (`EstimatesV1.AllInsideExceedsFour`). The model follows the computation.
* **The step from the settings is used unchecked.** Any non-zero step
  paces the animation. A negative step is replaced by `max(1, i//100)` at
  the first plotted dot, because Python's `i % step == 0` holds for the
  same dots as Dafny's. A zero step makes `i % step` raise
  ZeroDivisionError at the first animated dot of the first run: dot 0 in
  revision 0.1 (`pi.py:610`) and dot 1 in revision 0.0
  (`pi_monte_carlo/pi.py:532`). That run's estimate was already appended,
  and the exception leaves the session as `Outcome.Fail(ZeroDivisionError)`.
* **Shown estimates.** Each dot loop returns the dots at which it shows an
  estimate together with the estimates shown there. `Pacing.ShownDots`
  specifies them.
* **Where the revisions differ.**
  * Revision 0.1 puts a placeholder 4 at the front of `pi_arr` and reads
    `pi_arr[dots-1]`.
  * Revision 0.0 has no placeholder. It reads `pi_arr[dots-2]`, which
    raises IndexError for fewer than two dots. That is modelled as
    `Outcome.Fail(IndexError)`.
  * Both give the same estimate whenever revision 0.0 does not raise
    (`EstimatesV0.SameFinalEstimate`).
  * Revision 0.0 paces with a local `wait` that still holds the 3 of its
    three-second opening pause. Revision 0.1 paces with the `wait` field
    read from the settings.

## Model

| member | source | states |
|---|---|---|
| Python.Index | pi_monte_carlo/pi.py:509 | Python sequence indexing: succeeds exactly for `-len <= k < len`, gives `s[k]` or `s[len+k]`, and otherwise raises IndexError |
| Python.Join | pi.py:1111 | `os.path.join` with the POSIX separator: the result ends with the second part; when that part is not absolute it starts with the first and has one `/` between them unless the first is empty or ends with `/` |
| Python.DecimalString | pi.py:783-787 | `str(n)` of a non-negative integer is at least one character long |
| Kernel.Inside | pi.py:558-559 | an inside point has `x² <= 1` and `y² <= 1`, and every point with `x² <= 1/2` and `y² <= 1/2` is inside |
| Kernel.DistanceTest | pi.py:558-559 | for `d >= 0` with `d² = x² + y²`, the code's `d <= 1` holds exactly when the point is inside |
| Kernel.InsideFlags | pi.py:559 | `in_circle` has one entry per point: 1 exactly when the point is inside, 0 exactly when it is not |
| Kernel.InsideFlagsAreBits | pi_monte_carlo/pi.py:504-505 | every inside flag is 0 or 1 |
| Kernel.CumSum | pi.py:560 | `in_circle_cum` has one entry per flag |
| Kernel.CumSumStep | pi.py:560 | each entry of the cumulative sum is the previous entry (0 before the first) plus the flag at that position |
| Kernel.CumSumRises | pi.py:560 | over 0/1 flags, each step of the cumulative sum rises by exactly 0 or 1 |
| Kernel.CumSumMonotone | pi.py:560 | over 0/1 flags the cumulative sum is non-decreasing |
| Kernel.CumSumBounds | pi_monte_carlo/pi.py:506 | over 0/1 flags, `0 <= in_circle_cum[i] <= i+1` |
| Kernel.CumSumCountsInside | pi.py:558-560 | `in_circle_cum[k]` is the number of inside points among the first k+1 points |
| EstimatesV1.PiArr | pi.py:563-564 | `pi_arr` has `dots` entries (one when `dots` is 0), `pi_arr[0] == 4` and `pi_arr[k] == 4·cum[k]/k` for `1 <= k < dots` |
| EstimatesV1.RunArrCounts | pi.py:556-564 | a run's `pi_arr` has one entry per dot (one when there is none): 4 at dot 0, and at dot `k >= 1` four times the inside points among the first `k+1`, over `k` |
| EstimatesV1.FinalEstimateIsLast | pi.py:566 | `pi_arr[dots-1]`, with Python's `-1` when `dots` is 0, never raises and yields the run's estimate |
| EstimatesV1.FinalEstimateValue | pi.py:563-566 | the estimate is `4·inside/(dots-1)` for `dots >= 2` and the placeholder 4 for `dots <= 1` |
| EstimatesV1.FinalEstimateBounds | pi.py:563-566 | for `dots >= 2` the estimate lies in `[0, 4·dots/(dots-1)]`, and that upper bound exceeds 4 |
| EstimatesV1.AllInsideExceedsFour | pi.py:563-566 | when every point is inside, the estimate is exactly `4·dots/(dots-1)`, which is more than 4 |
| EstimatesV1.TwoPointsAtOrigin | pi.py:563-566 | two points at the origin give the estimate 8 |
| EstimatesV1.TicketAsWritten | pi.py:626-627 | the per-run notification `pi_arr[i-1]` at the last dot never raises |
| EstimatesV1.TicketAsWrittenLags | pi.py:626-627 | the notification reports `pi_arr[dots-2]`, one dot short of the appended estimate; three points at the origin give 8 against 6 |
| EstimatesV1.Ticket | pi.py:566-567 | the corrected notification equals the appended estimate, `4·inside/(dots-1)` |
| EstimatesV0.PiArr | pi_monte_carlo/pi.py:507 | `pi_arr` has `dots-1` entries (none for 0 dots) and `pi_arr[k-1] == 4·cum[k]/k` for `1 <= k < dots` |
| EstimatesV0.RunArrCounts | pi_monte_carlo/pi.py:502-507 | a run's `pi_arr` has `dots-1` entries (none for 0 dots): at index `j` four times the inside points among the first `j+2`, over `j+1` |
| EstimatesV0.FinalEstimate | pi_monte_carlo/pi.py:509 | `pi_arr[dots-2]` succeeds exactly when `dots >= 2` and otherwise raises IndexError |
| EstimatesV0.PlaceholderShift | pi_monte_carlo/pi.py:507 | revision 0.1's array is revision 0.0's with a 4 in front |
| EstimatesV0.SameFinalEstimate | pi_monte_carlo/pi.py:509 | for `dots >= 2` both revisions give the same estimate, `4·inside/(dots-1)` |
| EstimatesV0.DisplayedEstimate | pi_monte_carlo/pi.py:532-533 | the estimate shown at dot `i` (`pi_arr[i-1]`) is `4·(inside among the first i+1 points)/i`, the value revision 0.1 shows at the same dot |
| EstimatesV0.Ticket | pi_monte_carlo/pi.py:546-547 | this revision's notification `pi_arr[i-1]` at the last dot is the appended estimate, equal to revision 0.1's and to `4·inside/(dots-1)` |
| EstimatesV0.ISqrt | pi_monte_carlo/pi.py:469 | `int(sqrt(n))` computed exactly: `r² <= n < (r+1)²` |
| EstimatesV0.Blocks | pi_monte_carlo/pi.py:467-471 | from 10000 dots on, `blocks = ⌊√dots⌋ >= 100` and `block0 = dots - blocks²` with `0 <= block0 <= 2·blocks`; otherwise both are 1 |
| Pacing.Pace | pi.py:615-619 | the step changes exactly when `max(1, i//100)` exceeds it, and then becomes that value (`i//100`, at least 2, from a positive step) while the delay becomes `max(1, wait-10)`, at least 1 and no longer than before; otherwise nothing changes. The step never decreases |
| Pacing.PaceDot | pi.py:610-619 | at an animated dot the pacing is adjusted exactly when the dot index is a multiple of the step, and is left alone otherwise; the step never decreases and never becomes 0 |
| Pacing.PaceFrom | pi.py:610-619 | pacing over a range of dots never lowers the step and keeps it non-zero |
| Pacing.PaceFromProperties | pi.py:610-619 | over any dot range the step does not decrease, and an unchanged step means an unchanged state. A moved step lies in `[1, max(1, (n-1)//100)]`, at least 2 from a positive step, with the delay in `[1, max(1, wait)]` |
| Pacing.ShownDots | pi.py:610-611 | the dots of a range `i .. n-1` at which an estimate is shown are at most `n-i` |
| Pacing.ShownDotsExact | pi.py:610-611 | dot `j` is shown exactly when `i <= j < n` and `j` is a multiple of the step in force when dot `j` is reached |
| Pacing.ShownDotsAbove | pi_monte_carlo/pi.py:532 | every dot shown in the range `i .. n-1` is at least `i`, so revision 0.0, whose loop starts at 1, shows only dots `i > 0` |
| Pacing.ShownDotsIncreasing | pi.py:610-611 | the shown dots come in strictly increasing order |
| Runs.StartedRuns | pi.py:550-553 | at most `runs` runs start, and all of them when the window is never closed |
| Runs.StartedRunsExact | pi.py:550-553 | run `r` starts exactly when `r < runs` and the check before it does not see the window closed |
| Runs.DotsVisited | pi.py:573-576 | the dot loop goes through at most `dots` dots |
| Runs.DotsVisitedExact | pi.py:573-576 | the dot loop reaches dot `i` exactly when `i < dots` and the check before it does not see the window closed |
| Runs.Animates | pi.py:595-608 | the two nested animation conditions together hold exactly for the first run or the `max` animation |
| Runs.FirstRunCutShort | pi.py:550-576 | when the first run's dot loop stops before dot `first` of more than `first` dots, the window counts as closed before every later run, and at most one run starts |
| Runs.RunPacing | pi.py:595-619 | one run's pacing never lowers the step |
| Runs.SessionPacing | pi.py:550-619 | a session's pacing never lowers the step |
| Runs.SessionPacingProperties | pi.py:550-619 | across a session: the step never decreases, an unchanged step means an unchanged state, and a moved step leaves the delay in `[1, max(1, wait)]` |
| SessionV1.Results | pi.py:529-567 | `pi_results` after k runs has exactly k entries |
| SessionV1.WritesLog | pi.py:741 | the log is written exactly when the panel still runs and at least 10 estimates exist |
| SessionV1.ShowsEstimatesStep | pi.py:610-611 | moving on from dot `i`, with or without showing `pi_arr[i]` there, keeps every shown estimate equal to `pi_arr` at its dot |
| SessionV1.ResultsAppend | pi.py:567 | each run appends its estimate at the end, leaving the earlier ones in place |
| SessionV1.MonteCarlo.constructor | pi.py:182-189 | `step` and `wait` start at the settings values |
| SessionV1.MonteCarlo.MonteCarlo | pi.py:524-742 | The session raises exactly when the first run starts and either has no dot (IndexError from the closing `plot_dots`) or has a zero step and reaches a dot (ZeroDivisionError); `pi_results` then holds that run's estimate (4 for no dot), step and delay are unchanged, and no log is written. Otherwise `pi_results` is the estimates of the started runs in run order, step and delay end as the session pacing of the animated runs prescribes (unchanged for a zero step), and the log is written exactly when the panel still runs and at least 10 estimates exist |
| SessionV1.MonteCarlo.NextRun | pi.py:550-619 | one more run appends its estimate and leaves the pacing of one more run; it raises only in the first run, after appending: IndexError for no dot, ZeroDivisionError for a zero step with a dot reached |
| SessionV1.MonteCarlo.Run | pi.py:556-623 | a run's value is `pi_arr[dots-1]`. It raises IndexError exactly when it has no dot, at the closing `plot_dots` (`pi.py:623`, reading `in_circle_cum[-1]` at `pi.py:409`); its dot loop raises ZeroDivisionError exactly when the step is 0 and an animated dot is reached, and otherwise leaves the pacing as that run's pacing prescribes |
| SessionV1.MonteCarlo.AnimateDots | pi.py:573-619 | the dot loop changes only `step` and `wait`: it raises exactly when the step is 0 and an animated dot is reached, and otherwise leaves them as one run's pacing prescribes. The dots it shows are `ShownDots` of the dots visited, and each shows `pi_arr` at that dot |
| SessionV1.MonteCarlo.PaceDotStep | pi.py:610-619 | at an animated dot the estimate is shown exactly when the index is a multiple of the step, and the pacing becomes `PaceDot` of the old one |
| SessionV1.CancelledSessionIsShorterSession | pi.py:550-553 | a session closed before run k holds the same estimates as a complete session of k runs |
| SessionV1.ResultsBounds | pi.py:563-567 | every entry of `pi_results` lies in `[0, 4·dots/(dots-1)]` |
| SessionV0.WritesLog | pi_monte_carlo/pi.py:638-647 | the log is written exactly when the window stayed open and at least one run completed; the second disjunct of the condition adds nothing |
| SessionV0.ResultsAgree | pi_monte_carlo/pi.py:509-510 | each entry revision 0.1 appends is what `pi_arr[dots-2]` yields in this revision |
| SessionV0.MonteCarlo.constructor | pi_monte_carlo/pi.py:166-172 | `step` starts at the settings value |
| SessionV0.MonteCarlo.MonteCarlo | pi_monte_carlo/pi.py:456-661 | The session raises IndexError exactly when a run starts with fewer than two dots; it then leaves nothing appended, the step unchanged and no log. It raises ZeroDivisionError exactly when the step is 0 and the first run reaches dot 1; `pi_results` then holds that run's estimate. Otherwise `pi_results` is revision 0.1's list for the started runs, each entry equal to this revision's `pi_arr[dots-2]`, the step ends as the session pacing from delay 3 prescribes (unchanged for a zero step), and the log is written exactly when the window stayed open and a run completed |
| SessionV0.MonteCarlo.NextRun | pi_monte_carlo/pi.py:497-540 | one more run raises IndexError for fewer than two dots before appending; otherwise it appends its estimate and leaves the pacing of one more run, raising only for a zero step in the first run with dot 1 reached |
| SessionV0.MonteCarlo.Run | pi_monte_carlo/pi.py:497-540 | a run raises IndexError exactly when `dots < 2`, touching nothing. Otherwise it yields revision 0.1's estimate; its dot loop raises ZeroDivisionError exactly when the step is 0 and an animated dot from 1 on is reached, and otherwise paces as its run's pacing from dot 1 prescribes |
| SessionV0.MonteCarlo.Sample | pi_monte_carlo/pi.py:502-509 | `pi_arr` has `dots-1` entries, and `pi_arr[dots-2]` raises exactly when `dots < 2`, otherwise giving revision 0.1's estimate |
| SessionV0.MonteCarlo.AnimateDots | pi_monte_carlo/pi.py:515-540 | the dot loop from dot 1 changes only `step` and the local `wait`: it raises exactly when the step is 0 and an animated dot is reached, and otherwise leaves them as one run's pacing from dot 1 prescribes. The dots it shows are `ShownDots` from dot 1, and each shows `pi_arr[i-1]` |
| SessionV0.MonteCarlo.PaceDotStep | pi_monte_carlo/pi.py:532-539 | at an animated dot `i > 0` the estimate is shown exactly when `i` is a multiple of the step, and step and local delay become `PaceDot` of the old ones |
| Sliders.Pow10 | pi.py:976 | `10**m` is at least 1 |
| Sliders.Compose | pi.py:976 | the value a slider row sets is at least `10**multiplier` for a unit from its slider, and 0 for a unit of 0; the same product is computed at `pi.py:990`, `1004` and `1018` |
| Sliders.ComposeStep | pi.py:976 | raising the multiplier by one multiplies the value by ten |
| Sliders.Decompose | pi.py:783-787 | a single-digit value reads back as itself with multiplier 0, and from 10 on the multiplier is at least 1 (non-negative values only) |
| Sliders.DecomposeStep | pi.py:783-787 | dropping the last digit of a value from 10 on keeps the unit and lowers the multiplier by one |
| Sliders.DecimalStringOfCompose | pi.py:783-787 | `str(unit·10^m)` is the unit's digit followed by m zeros |
| Sliders.DecomposeCompose | pi.py:783-787 | reading back a value the sliders set gives the same unit and multiplier, and the value is at least 1 |
| Sliders.DecomposeBounds | pi.py:783-787 | for any positive value, the unit read back is a digit 1..9 and `unit·10^m <= n < (unit+1)·10^m` |
| Sliders.RecomposeExact | pi.py:783-787 | a value is recomposed exactly from its read-back positions iff it is a digit times a power of ten |
| Sliders.Pow10Monotone | pi.py:976 | `10**a <= 10**b` for `a <= b` |
| Sliders.SliderRanges | pi.py:874-913 | the sliders set 1 to 9·10^6 runs, and from 1000 to 9·10^6 dots when the multiplier is in the dots range 3..6 |
| Slides.SlideNames | pi.py:1108 | nine names, the i-th being `"Slide" + str(i+1) + ".jpg"` |
| Slides.SlidePaths | pi.py:1105-1112 | nine paths, the i-th being the `info` directory under the working directory, a `/` and the i-th slide name; each starts with the working directory |
| Slides.Scrolled | pi.py:1039-1051 | an index in range stays in range; 'next' from the last slide gives 0 and 'prev' from 0 the last; any other direction leaves it |
| Slides.ScrollIsModular | pi.py:1039-1051 | on a valid index 'next' is `(k+1) mod count` and 'prev' is `(k-1) mod count` |
| Slides.ScrollRoundTrip | pi.py:1039-1051 | 'next' then 'prev', and 'prev' then 'next', restore the index |
| Slides.NextTimesIsModular | pi.py:1039-1051 | m presses of 'next' move the index to `(k+m) mod count` |
| Gui.ChartsBuilt | pi.py:1150-1151 | charts are built exactly when the panel still runs and at least 50 estimates exist, so only when the log is also written |
| Gui.HistogramBuiltV0 | pi_monte_carlo/pi.py:984 | revision 0.0 draws its histogram from 10 estimates on whether or not the window was closed; whenever it draws it, a session whose window stayed open also writes its log, and it draws it wherever revision 0.1 draws its charts with the panel running |
| Gui.CompletedSessionThresholds | pi_monte_carlo/pi.py:984 | for an uninterrupted session, revision 0.0's histogram appears iff at least 10 runs were made, and revision 0.1's charts iff the panel runs and there were at least 50 |
| Gui.Gui.constructor | pi.py:783-791 | each unit slider starts on the leading digit of the setting and each multiplier on its digit count less one. Runs, dots and the settings entries hold the setting values, and slide 0 is current |
| Gui.Gui.FRunsUnit | pi.py:972-979 | `runs` becomes `unit·10^multiplier` and is stored in the settings; reading it back gives the slider positions |
| Gui.Gui.FRunsMultiplier | pi.py:986-993 | `runs` becomes `unit·10^multiplier` and is stored in the settings; with a slider-set unit it reads back to the slider positions |
| Gui.Gui.FDotsUnit | pi.py:1000-1007 | `dots` becomes `unit·10^multiplier` and is stored in the settings; reading it back gives the slider positions |
| Gui.Gui.FDotsMultiplier | pi.py:1014-1021 | `dots` becomes `unit·10^multiplier` and is stored in the settings; with a slider-set unit it is 1000 to 9·10^6 and reads back |
| Gui.Gui.LoadSlides | pi.py:1103-1112 | the slide list becomes the nine slide paths under the working directory, and the current index is kept |
| Gui.Gui.ScrollSlides | pi.py:1039-1051 | only `slide_num` changes, by the carousel rule, and it stays a valid slide index |
| Gui.DigitRange | pi_monte_carlo/pi.py:681-685 | the unit read back from any non-negative stored value is a single digit |

The slider handlers, `scroll_slides` and the slide list read the same in
both revisions. They are the rows cited to `pi.py` above; the revision 0.0
copies are at `pi_monte_carlo/pi.py` lines 852-884, 894-903 and 945-952.

## Left out

- Random number generation (`numpy.random.uniform`): samples are inputs.
- Floating point: `float64` estimates are exact rationals here. The mean,
  `np.std`, the error against `np.pi` and the chart arrays of cumulative
  error and standard deviation are not modelled.
- The interrupted-session average, which divides by `run+1`, is not
  modelled: it is floating-point aggregation, and its divisor depends on
  where the loop broke.
- Drawing: OpenCV sketches, plotting, window polling (`check_close_req`),
  Tkinter widgets, matplotlib charts and the histogram drawing. Only the
  conditions under which they happen are modelled.
- Threads, the queue, `Ticket` objects and `trigger_event`/`check_queue`.
  Only the value a per-run notification carries is modelled, for a run that
  completes its dot loop. The value for a run whose dot loop was broken off
  is not modelled.
- File I/O: the settings file (load, save, parse) and `write_log`. Only
  whether the log is written is modelled. The settings mapping is the two
  fields `settingsRuns` and `settingsDots`.
- Wall-clock waits (`time.time`, `cv2.waitKey`, the three-second opening
  pause) and argparse.
- Window closing is observed at the checks at the head of the run loop and
  of the dot loop. The checks after a dot is drawn (`pi.py:605` and the
  `not self.close_window` of `pi.py:610`) are not modelled separately.
  Nothing the animation thread does between the head check and them sets
  `close_window`, so they see the value the head check saw. `tk_running`,
  however, is cleared by the control panel's thread (`pi.py:1391`), which
  can happen between the checks; threads are left out, so a run broken off
  by the check at `pi.py:605` is not modelled.
- Slides.SlidePaths: `os.path.join` is modelled with the POSIX separator
  `/` only, and the working directory is a parameter.
- SessionV1.MonteCarlo.MonteCarlo requires `runs >= 1`: with no run the
  code reads the unbound loop variable `run` after the loop (`pi.py:695`).
  With no dot the session is modelled: the first run appends the
  placeholder 4 and its closing `plot_dots` raises IndexError; a window
  closed before run 0 raises nothing.
- SessionV0.MonteCarlo.MonteCarlo requires `runs >= 1`, for the same
  reason with `run` (`pi_monte_carlo/pi.py:612`).
- Sliders.Decompose: takes a non-negative setting only. The settings are
  parsed with a bare `int` (`pi.py:157-165`), so a negative `runs` or `dots`
  is possible, and then `int(str(n)[:1])` is `int('-')`, which raises
  ValueError (`pi.py:783`, `pi.py:786`, `pi_monte_carlo/pi.py:681`,
  `pi_monte_carlo/pi.py:684`). That error path is not modelled.
- Gui.Gui.constructor: takes non-negative `runs` and `dots` settings only,
  for the same reason; because the panel raises before any session starts
  on a negative setting, both `MonteCarlo` methods take `runs` and `dots`
  as `nat`.
- Settings above the slider range are not modelled separately: the stored
  value reaches the session unchecked (`pi.py:777-778` to `pi.py:1146`,
  `pi_monte_carlo/pi.py:683` to `pi_monte_carlo/pi.py:981`). The
  statements about `int32` and the float root below hold only within the
  slider range; from 2^31 dots on, the cumulative sum would wrap.
- Kernel.CumSum: the cumulative sum is computed as `int32`. Its wrap-around
  is not modelled, because the sliders allow at most 9·10^6 dots, far below
  2^31.
- EstimatesV0.ISqrt: the code's `int(np.sqrt(dots))` takes a
  floating-point root. The model uses the exact integer root, which agrees
  for every value the sliders allow (at most 9·10^6).
- Gui.Gui.ScrollSlides requires a loaded slide list: the scroll buttons
  only exist once the information window has loaded its slides, and
  `show_slide` would raise on an empty list.
- Gui.Gui.FRunsMultiplier and Gui.Gui.FDotsMultiplier state the read-back
  only for a unit in 1..9. A unit of 0 can only come from a setting whose
  leading digit is 0, that is "0" itself.

## Findings

| source | as written | input that shows it | evidently intended | confidence | as-written member | corrected member |
|---|---|---|---|---|---|---|
| pi.py:627 | after the placeholder 4 was put in front of `pi_arr`, the per-run notification still sends `pi_arr[i-1]`, the estimate one dot before the last | `dots = 3` with all three points at the origin: the notification carries 8.0 while the appended estimate is 6.0 | notify `pi_arr[i]`, the estimate appended to `pi_results`, as revision 0.0's `pi_arr[i-1]` (no placeholder) does | not executed | EstimatesV1.TicketAsWrittenLags | EstimatesV1.Ticket |
