/** The per-run estimate of pi_monte_carlo/pi.py (revision 0.0): the running
    estimates without a placeholder, and the unused block split. */
module EstimatesV0 {
  import opened Kernel
  import opened Python
  import EstimatesV1

  /** `pi_arr` built from `in_circle_cum`: the estimates `4*cum[k]/k` for
      k in 1 .. dots-1, stored at index k-1. */
  function PiArr(cum: seq<int>): (p: seq<real>)
    ensures |p| == if |cum| == 0 then 0 else |cum| - 1
    ensures forall k :: 1 <= k < |cum| ==> p[k - 1] == 4.0 * (cum[k] as real) / (k as real)
  {
    seq(if |cum| == 0 then 0 else |cum| - 1,
        j requires 0 <= j < |cum| - 1 => (cum[j + 1] * 4) as real / ((j + 1) as real))
  }

  /** The running-estimate array of one run with coordinates x and y. */
  function RunArr(x: seq<real>, y: seq<real>): (p: seq<real>)
    requires |x| == |y|
  {
    PiArr(CumSum(InsideFlags(x, y)))
  }

  /** A run's `pi_arr` holds one entry per dot after the first (none for no
      dots): at index j the estimate at dot j+1, four times the number of
      inside points among the first j+2 over j+1. */
  lemma RunArrCounts(x: seq<real>, y: seq<real>)
    requires |x| == |y|
    ensures |RunArr(x, y)| == if |x| == 0 then 0 else |x| - 1
    ensures forall j :: 0 <= j < |RunArr(x, y)| ==>
              RunArr(x, y)[j] == 4.0 * (|InsidePoints(x, y, j + 2)| as real) / ((j + 1) as real)
  {
    forall j | 0 <= j < |RunArr(x, y)|
      ensures RunArr(x, y)[j] == 4.0 * (|InsidePoints(x, y, j + 2)| as real) / ((j + 1) as real)
    {
      CumSumCountsInside(x, y, j + 1);
    }
  }

  /** `pi_arr[dots-2]`, the estimate a run appends; it raises IndexError when
      there are fewer than two dots (the array is then empty). */
  function FinalEstimate(x: seq<real>, y: seq<real>): (r: Result<real>)
    requires |x| == |y|
    ensures r.Ok? <==> |x| >= 2
    ensures r.Err? ==> r.error == IndexError
  {
    Index(RunArr(x, y), |x| - 2)
  }

  /** Revision 0.1's array is this one with the placeholder 4 in front. */
  lemma PlaceholderShift(cum: seq<int>)
    ensures EstimatesV1.PiArr(cum) == [4.0] + PiArr(cum)
  {
    var a, b := EstimatesV1.PiArr(cum), [4.0] + PiArr(cum);
    assert |a| == |b|;
    forall k | 0 <= k < |a| ensures a[k] == b[k] {
      if k > 0 {
        assert b[k] == PiArr(cum)[k - 1];
      }
    }
  }

  /** Where it does not raise, revision 0.0 appends the same estimate as
      revision 0.1: 4·inside/(dots-1). */
  lemma SameFinalEstimate(x: seq<real>, y: seq<real>)
    requires |x| == |y| && |x| >= 2
    ensures FinalEstimate(x, y) == Ok(EstimatesV1.FinalEstimate(x, y))
    ensures FinalEstimate(x, y).value == 4.0 * (EstimatesV1.InsideCount(x, y) as real) / ((|x| - 1) as real)
  {
    PlaceholderShift(CumSum(InsideFlags(x, y)));
    EstimatesV1.FinalEstimateValue(x, y);
  }

  /** The estimate shown at dot i (`pi_arr[i-1]`, for 1 <= i < dots): four
      times the inside count of the first i+1 points over i, the value
      revision 0.1 shows at the same dot. */
  function DisplayedEstimate(x: seq<real>, y: seq<real>, i: nat): (e: real)
    requires |x| == |y| && 1 <= i < |x|
    ensures e == 4.0 * (|InsidePoints(x, y, i + 1)| as real) / (i as real)
    ensures e == EstimatesV1.RunArr(x, y)[i]
  {
    CumSumCountsInside(x, y, i);
    RunArr(x, y)[i - 1]
  }

  /** The notification after a completed run, `pi_arr[i-1]` with i at the
      last dot `dots-1`: having no placeholder, this revision reports the
      appended estimate, the value revision 0.1 appends as well. */
  function Ticket(x: seq<real>, y: seq<real>): (t: Result<real>)
    requires |x| == |y| && |x| >= 2
    ensures t == Ok(EstimatesV1.FinalEstimate(x, y))
    ensures t == Ok(4.0 * (EstimatesV1.InsideCount(x, y) as real) / ((|x| - 1) as real))
  {
    SameFinalEstimate(x, y);
    Index(RunArr(x, y), (|x| - 1) - 1)
  }

  /** a <= b for non-negative a and b gives a*a <= b*b. */
  lemma SquareMonotone(a: int, b: int)
    requires 0 <= a <= b
    ensures a * a <= b * b
  {
    assert a * b - a * a == a * (b - a);
    assert b * b - a * b == b * (b - a);
  }

  /** Comparing squares of non-negative numbers compares the numbers. */
  lemma SquareLess(a: int, b: int)
    requires 0 <= a && 0 <= b && a * a < b * b
    ensures a < b
  {
    if b <= a {
      SquareMonotone(b, a);
      assert false;
    }
  }

  /** Doubling the root of n/4 brackets the root of n. */
  lemma RootDoubling(n: nat, q: nat)
    requires q * q <= n / 4 < (q + 1) * (q + 1)
    ensures (2 * q) * (2 * q) <= n < (2 * q + 2) * (2 * q + 2)
  {
    var m := n / 4;
    var s, t := q * q, (q + 1) * (q + 1);
    assert (2 * q) * (2 * q) == 4 * s;
    assert (2 * q + 2) * (2 * q + 2) == 4 * t;
    assert 4 * s <= 4 * m <= n < 4 * m + 4 <= 4 * t;
  }

  /** The integer square root: the largest r with r*r <= n. */
  function ISqrt(n: nat): (r: nat)
    ensures r * r <= n < (r + 1) * (r + 1)
  {
    if n < 4 then (if n == 0 then 0 else 1)
    else
      var q := ISqrt(n / 4);
      RootDoubling(n, q);
      var h := 2 * q;
      if (h + 1) * (h + 1) <= n then h + 1 else h
  }

  /** `blocks, block0` of pi_monte_carlo/pi.py:467-471: for 10000 dots or more
      the dots split into `blocks` squared plus a remainder `block0`, where
      `blocks` is the truncated square root; otherwise both are 1. */
  function Blocks(dots: int): (b: (int, int))
    ensures dots >= 10000 ==> b.0 >= 100 && b.0 * b.0 <= dots < (b.0 + 1) * (b.0 + 1)
    ensures dots >= 10000 ==> b.0 * b.0 + b.1 == dots && 0 <= b.1 <= 2 * b.0
    ensures dots < 10000 ==> b == (1, 1)
  {
    if dots >= 10000 then
      var blocks := ISqrt(dots);
      assert blocks >= 100 by {
        SquareLess(100, blocks + 1);
      }
      (blocks, dots - blocks * blocks)
    else (1, 1)
  }
}
