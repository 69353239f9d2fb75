/** The per-run estimate of pi.py (revision 0.1): the running estimates with
    a sentinel in front, and the value a run contributes to the session. */
module EstimatesV1 {
  import opened Kernel
  import opened Python

  /** `pi_arr` built from `in_circle_cum`: the estimates `4*cum[k]/k` for
      k in 1 .. dots-1, with the placeholder 4 inserted at index 0. The
      divisor is k, the index, although k+1 points have been counted. */
  function PiArr(cum: seq<int>): (p: seq<real>)
    ensures |p| == if |cum| == 0 then 1 else |cum|
    ensures p[0] == 4.0
    ensures forall k :: 1 <= k < |cum| ==> p[k] == 4.0 * (cum[k] as real) / (k as real)
  {
    [4.0] + seq(if |cum| == 0 then 0 else |cum| - 1,
                j requires 0 <= j < |cum| - 1 => (cum[j + 1] * 4) as real / ((j + 1) as real))
  }

  /** The running-estimate array of one run with coordinates x and y. */
  function RunArr(x: seq<real>, y: seq<real>): (p: seq<real>)
    requires |x| == |y|
  {
    PiArr(CumSum(InsideFlags(x, y)))
  }

  /** A run's `pi_arr` holds one entry per dot (the placeholder alone when
      there is none): the placeholder 4 at dot 0, and at each later dot k
      four times the number of inside points among the first k+1 over k. */
  lemma RunArrCounts(x: seq<real>, y: seq<real>)
    requires |x| == |y|
    ensures |RunArr(x, y)| == if |x| == 0 then 1 else |x|
    ensures RunArr(x, y)[0] == 4.0
    ensures forall k :: 1 <= k < |RunArr(x, y)| ==>
              RunArr(x, y)[k] == 4.0 * (|InsidePoints(x, y, k + 1)| as real) / (k as real)
  {
    var c := CumSum(InsideFlags(x, y));
    var p := RunArr(x, y);
    assert p == PiArr(c);
    forall k | 1 <= k < |p|
      ensures p[k] == 4.0 * (|InsidePoints(x, y, k + 1)| as real) / (k as real)
    {
      CumSumCountsInside(x, y, k);
      assert p[k] == 4.0 * (c[k] as real) / (k as real);
    }
  }

  /** `pi_arr[dots-1]`, the estimate a run appends to `pi_results`; with no
      dots at all Python's index -1 picks the lone placeholder. */
  function FinalEstimate(x: seq<real>, y: seq<real>): (e: real)
    requires |x| == |y|
  {
    var p := RunArr(x, y);
    p[if |x| == 0 then 0 else |x| - 1]
  }

  /** Python's `pi_arr[dots-1]` never raises, with no dots as with some, and
      yields the run's estimate. */
  lemma FinalEstimateIsLast(x: seq<real>, y: seq<real>)
    requires |x| == |y|
    ensures Index(RunArr(x, y), |x| - 1) == Ok(FinalEstimate(x, y))
  {
  }

  /** The number of points of a run inside the quarter disc. */
  ghost function InsideCount(x: seq<real>, y: seq<real>): (n: nat)
    requires |x| == |y|
  {
    |InsidePoints(x, y, |x|)|
  }

  /** With at least two dots the run's estimate is 4·inside/(dots-1); with
      fewer it is the placeholder 4. */
  lemma FinalEstimateValue(x: seq<real>, y: seq<real>)
    requires |x| == |y|
    ensures |x| >= 2 ==> FinalEstimate(x, y) == 4.0 * (InsideCount(x, y) as real) / ((|x| - 1) as real)
    ensures |x| <= 1 ==> FinalEstimate(x, y) == 4.0
  {
    var c := CumSum(InsideFlags(x, y));
    var p := RunArr(x, y);
    assert p == PiArr(c);
    if |x| >= 2 {
      CumSumCountsInside(x, y, |x| - 1);
      assert p[|x| - 1] == 4.0 * (c[|x| - 1] as real) / ((|x| - 1) as real);
    }
  }

  /** With at least two dots the estimate is 4·count/(dots-1), the count
      being the last entry of `in_circle_cum`. */
  lemma FinalEstimateFromCount(x: seq<real>, y: seq<real>)
    requires |x| == |y| && |x| >= 2
    ensures FinalEstimate(x, y)
            == 4.0 * (CumSum(InsideFlags(x, y))[|x| - 1] as real) / ((|x| - 1) as real)
  {
  }

  /** 4c/(n-1) lies in [0, 4n/(n-1)] for 0 <= c <= n, and 4n/(n-1) > 4. */
  lemma RatioBounds(c: int, n: int)
    requires 0 <= c <= n && n >= 2
    ensures 0.0 <= 4.0 * (c as real) / ((n - 1) as real) <= 4.0 * (n as real) / ((n - 1) as real)
    ensures 4.0 * (n as real) / ((n - 1) as real) > 4.0
  {
    var d := (n - 1) as real;
    assert 4.0 * (c as real) <= 4.0 * (n as real);
    assert 4.0 * (n as real) / d == 4.0 + 4.0 / d;
  }

  /** The estimate lies in [0, 4·dots/(dots-1)]; the upper end is above 4. */
  lemma FinalEstimateBounds(x: seq<real>, y: seq<real>)
    requires |x| == |y| && |x| >= 2
    ensures 0.0 <= FinalEstimate(x, y) <= 4.0 * (|x| as real) / ((|x| - 1) as real)
    ensures 4.0 * (|x| as real) / ((|x| - 1) as real) > 4.0
  {
    var f := InsideFlags(x, y);
    CumSumBounds(f, |x| - 1);
    FinalEstimateFromCount(x, y);
    RatioBounds(CumSum(f)[|x| - 1], |x|);
  }

  /** When every point falls inside, the count after k+1 points is k+1. */
  lemma {:induction false} AllInsideCount(x: seq<real>, y: seq<real>, k: nat)
    requires |x| == |y| && k < |x|
    requires forall i :: 0 <= i < |x| ==> Inside(x[i], y[i])
    ensures CumSum(InsideFlags(x, y))[k] == k + 1
  {
    CumSumStep(InsideFlags(x, y), k);
    if k > 0 {
      AllInsideCount(x, y, k - 1);
    }
  }

  /** A run whose points all fall inside reports 4·dots/(dots-1), more than 4. */
  lemma AllInsideExceedsFour(x: seq<real>, y: seq<real>)
    requires |x| == |y| && |x| >= 2
    requires forall i :: 0 <= i < |x| ==> Inside(x[i], y[i])
    ensures FinalEstimate(x, y) == 4.0 * (|x| as real) / ((|x| - 1) as real)
    ensures FinalEstimate(x, y) > 4.0
  {
    AllInsideCount(x, y, |x| - 1);
    FinalEstimateFromCount(x, y);
    RatioBounds(|x|, |x|);
  }

  /** Two points at the origin give the estimate 8. */
  lemma TwoPointsAtOrigin()
    ensures FinalEstimate([0.0, 0.0], [0.0, 0.0]) == 8.0
  {
    AllInsideExceedsFour([0.0, 0.0], [0.0, 0.0]);
  }

  /** The per-run notification as written: `pi_arr[i-1]`, where i is the dot
      loop variable after a run that was not interrupted, i.e. dots-1. */
  function TicketAsWritten(x: seq<real>, y: seq<real>): (t: Result<real>)
    requires |x| == |y| && |x| >= 1
    ensures t.Ok?
  {
    Index(RunArr(x, y), (|x| - 1) - 1)
  }

  /** With two or more dots the notification carries the estimate one dot
      before the end; with three points at the origin it is 8 while the
      appended estimate is 6. */
  lemma TicketAsWrittenLags(x: seq<real>, y: seq<real>)
    requires |x| == |y| && |x| >= 2
    ensures TicketAsWritten(x, y) == Ok(RunArr(x, y)[|x| - 2])
    ensures TicketAsWritten([0.0, 0.0, 0.0], [0.0, 0.0, 0.0]) == Ok(8.0)
    ensures FinalEstimate([0.0, 0.0, 0.0], [0.0, 0.0, 0.0]) == 6.0
  {
    var z := [0.0, 0.0, 0.0];
    AllInsideCount(z, z, 1);
    AllInsideExceedsFour(z, z);
  }

  /** The notification as evidently intended: `pi_arr[i]`, the estimate at the
      last dot processed, which for a completed run is the appended value. */
  function Ticket(x: seq<real>, y: seq<real>): (t: Result<real>)
    requires |x| == |y| && |x| >= 1
    ensures t == Ok(FinalEstimate(x, y))
    ensures |x| >= 2 ==> t == Ok(4.0 * (InsideCount(x, y) as real) / ((|x| - 1) as real))
  {
    FinalEstimateValue(x, y);
    Index(RunArr(x, y), |x| - 1)
  }
}
