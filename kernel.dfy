/** The part of one run that both revisions share: classifying the sampled
    points against the quarter disc and counting them cumulatively. */
module Kernel {

  /** A point of the unit square is inside the quarter disc when its squared
      distance from the origin is at most 1: an inside point has both
      coordinates within 1 of the axes, and the inscribed square, where
      both squares are at most 1/2, lies inside. */
  predicate Inside(x: real, y: real): (b: bool)
    ensures b ==> x * x <= 1.0 && y * y <= 1.0
    ensures x * x <= 0.5 && y * y <= 0.5 ==> b
  {
    x * x + y * y <= 1.0
  }

  /** The code compares the distance `sqrt(x*x + y*y)` with 1; any
      non-negative `d` whose square is the squared distance passes that test
      exactly when the point is inside. */
  lemma DistanceTest(x: real, y: real, d: real)
    requires d >= 0.0 && d * d == x * x + y * y
    ensures d <= 1.0 <==> Inside(x, y)
  {
    if d > 1.0 {
      assert d * d > 1.0 * d by {
        assert d * d - 1.0 * d == d * (d - 1.0);
      }
    } else {
      assert d * d <= 1.0 * d by {
        assert 1.0 * d - d * d == d * (1.0 - d);
      }
    }
  }

  /** `in_circle`: one flag per point, 1 for inside and 0 for outside. */
  function InsideFlags(x: seq<real>, y: seq<real>): (f: seq<int>)
    requires |x| == |y|
    ensures |f| == |x|
    ensures forall i :: 0 <= i < |f| ==> (f[i] == 1 <==> Inside(x[i], y[i]))
    ensures forall i :: 0 <= i < |f| ==> (f[i] == 0 <==> !Inside(x[i], y[i]))
  {
    seq(|x|, i requires 0 <= i < |x| => if Inside(x[i], y[i]) then 1 else 0)
  }

  /** Every entry is 0 or 1. */
  predicate IsBits(f: seq<int>)
  {
    forall i :: 0 <= i < |f| ==> f[i] == 0 || f[i] == 1
  }

  function Sum(s: seq<int>): (t: int)
  {
    if s == [] then 0 else Sum(s[..|s| - 1]) + s[|s| - 1]
  }

  /** `numpy.cumsum`: entry i is the sum of the first i+1 entries. */
  function CumSum(f: seq<int>): (c: seq<int>)
    ensures |c| == |f|
  {
    seq(|f|, i requires 0 <= i < |f| => Sum(f[..i + 1]))
  }

  /** The prefix sum starts with the first flag and then adds one flag per step. */
  lemma CumSumStep(f: seq<int>, i: nat)
    requires i < |f|
    ensures CumSum(f)[i] == (if i == 0 then 0 else CumSum(f)[i - 1]) + f[i]
  {
    var p := f[..i + 1];
    assert p[..|p| - 1] == f[..i];
    assert Sum(p) == Sum(f[..i]) + f[i];
    if i == 0 {
      assert f[..i] == [];
    }
  }

  /** Over 0/1 flags each entry of the prefix sum rises by 0 or 1 over the one
      before it (over 0 for the first entry). */
  lemma CumSumRises(f: seq<int>, i: nat)
    requires IsBits(f) && i < |f|
    ensures var prev := if i == 0 then 0 else CumSum(f)[i - 1];
            CumSum(f)[i] == prev || CumSum(f)[i] == prev + 1
  {
    CumSumStep(f, i);
  }

  /** Over 0/1 flags the prefix sum never decreases. */
  lemma {:induction false} CumSumMonotone(f: seq<int>, i: nat, j: nat)
    requires IsBits(f) && i <= j < |f|
    ensures CumSum(f)[i] <= CumSum(f)[j]
    decreases j - i
  {
    if i < j {
      CumSumMonotone(f, i, j - 1);
      CumSumRises(f, j);
    }
  }

  /** Over 0/1 flags the count after i+1 points lies between 0 and i+1. */
  lemma {:induction false} CumSumBounds(f: seq<int>, i: nat)
    requires IsBits(f) && i < |f|
    ensures 0 <= CumSum(f)[i] <= i + 1
  {
    CumSumRises(f, i);
    if i > 0 {
      CumSumBounds(f, i - 1);
    }
  }

  /** The indices, among the first n, of the points inside the quarter disc. */
  ghost function InsidePoints(x: seq<real>, y: seq<real>, n: nat): set<nat>
    requires |x| == |y| && n <= |x|
  {
    set i: nat | i < n && Inside(x[i], y[i])
  }

  /** `in_circle_cum[k]` is the number of points among the first k+1 that
      fall inside the quarter disc. */
  lemma {:induction false} CumSumCountsInside(x: seq<real>, y: seq<real>, k: nat)
    requires |x| == |y| && k < |x|
    ensures CumSum(InsideFlags(x, y))[k] == |InsidePoints(x, y, k + 1)|
  {
    var f := InsideFlags(x, y);
    CumSumStep(f, k);
    var before := InsidePoints(x, y, k);
    if k == 0 {
      assert before == {};
    } else {
      CumSumCountsInside(x, y, k - 1);
    }
    assert k !in before;
    if Inside(x[k], y[k]) {
      assert InsidePoints(x, y, k + 1) == before + {k};
    } else {
      assert InsidePoints(x, y, k + 1) == before;
    }
  }

  /** The flags of a run are 0/1. */
  lemma InsideFlagsAreBits(x: seq<real>, y: seq<real>)
    requires |x| == |y|
    ensures IsBits(InsideFlags(x, y))
  {
  }
}
