/** The carousel of information slides. */
module Slides {
  import opened Python

  /** The number of slides the information window loads. */
  const SlidesQuantity := 9

  /** The slide file names `Slide1.jpg` .. `SlideN.jpg`, in order. */
  function SlideNames(quantity: nat): (names: seq<string>)
    ensures |names| == quantity
    ensures forall i :: 0 <= i < quantity ==> names[i] == "Slide" + DecimalString(i + 1) + ".jpg"
  {
    seq(quantity, i requires 0 <= i < quantity => "Slide" + DecimalString(i + 1) + ".jpg")
  }

  /** The slide paths the information window stores: each slide name
      joined to the `info` directory under `folder`. */
  function SlidePaths(folder: string, quantity: nat): (paths: seq<string>)
    ensures |paths| == quantity
    ensures forall i :: 0 <= i < quantity ==>
              paths[i] == Join(folder, "info") + "/" + SlideNames(quantity)[i]
    ensures forall i :: 0 <= i < quantity ==> |paths[i]| >= |folder| && paths[i][..|folder|] == folder
  {
    var dir := Join(folder, "info");
    assert dir[|dir| - 4..] == "info";
    assert dir != [] && dir[|dir| - 1] != '/';
    seq(quantity, i requires 0 <= i < quantity => Join(dir, SlideNames(quantity)[i]))
  }

  /** `slide_num` after `scroll_slides(direction)` with `count` slides:
      'prev' steps back and wraps from the first slide to the last, 'next'
      steps forward and wraps from the last to the first, anything else
      leaves it. */
  function Scrolled(k: int, count: int, direction: string): (r: int)
    ensures 0 <= k < count ==> 0 <= r < count
    ensures direction != "prev" && direction != "next" ==> r == k
    ensures count >= 1 && direction == "next" && k == count - 1 ==> r == 0
    ensures count >= 1 && direction == "prev" && k == 0 ==> r == count - 1
  {
    if direction == "prev" then
      if k - 1 < 0 then count - 1 else k - 1
    else if direction == "next" then
      if k + 1 > count - 1 then 0 else k + 1
    else
      k
  }

  /** On a valid index both directions are steps modulo the slide count. */
  lemma ScrollIsModular(k: int, count: int)
    requires 0 <= k < count
    ensures Scrolled(k, count, "next") == (k + 1) % count
    ensures Scrolled(k, count, "prev") == (k - 1 + count) % count
  {
    if k + 1 == count {
      ModUnique(k + 1, count, 1, 0);
    } else {
      ModUnique(k + 1, count, 0, k + 1);
    }
    if k == 0 {
      ModUnique(k - 1 + count, count, 0, count - 1);
    } else {
      ModUnique(k - 1 + count, count, 1, k - 1);
    }
  }

  /** 'next' then 'prev', or 'prev' then 'next', shows the same slide again. */
  lemma ScrollRoundTrip(k: int, count: int)
    requires 0 <= k < count
    ensures Scrolled(Scrolled(k, count, "next"), count, "prev") == k
    ensures Scrolled(Scrolled(k, count, "prev"), count, "next") == k
  {
  }

  /** `slide_num` after pressing 'next' m times. */
  function NextTimes(k: int, count: int, m: nat): (j: int)
  {
    if m == 0 then k else Scrolled(NextTimes(k, count, m - 1), count, "next")
  }

  /** Pressing 'next' m times advances by m slides modulo the count; after
      `count` presses the first slide is back. */
  lemma {:induction false} NextTimesIsModular(k: int, count: int, m: nat)
    requires 0 <= k < count
    ensures NextTimes(k, count, m) == (k + m) % count
  {
    if m > 0 {
      NextTimesIsModular(k, count, m - 1);
      var j := (k + m - 1) % count;
      ScrollIsModular(j, count);
      ModSucc(k + m - 1, count);
    }
  }

  /** A multiple of c strictly between -c and c is zero. */
  lemma SmallMultiple(x: int, c: int)
    requires c > 0 && -c < x * c < c
    ensures x == 0
  {
    if x >= 1 {
      assert false;
    } else if x <= -1 {
      assert false;
    }
  }

  /** Division with remainder is unique. */
  lemma ModUnique(a: int, c: int, q: int, r: int)
    requires c > 0 && 0 <= r < c && a == q * c + r
    ensures a % c == r
  {
    var q', r' := a / c, a % c;
    assert (q - q') * c == r' - r;
    SmallMultiple(q - q', c);
  }

  /** ((a mod c) + 1) mod c == (a + 1) mod c. */
  lemma ModSucc(a: nat, c: int)
    requires c > 0
    ensures ((a % c) + 1) % c == (a + 1) % c
  {
    var q, r := a / c, a % c;
    if r + 1 < c {
      ModUnique(a + 1, c, q, r + 1);
      ModUnique(r + 1, c, 0, r + 1);
    } else {
      ModUnique(a + 1, c, q + 1, 0);
      ModUnique(r + 1, c, 1, 0);
    }
  }
}
