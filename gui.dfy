/** The control panel's own state: the slider positions with the runs and
    dots they set, the settings entries the sliders rewrite, and the index
    of the information slide on show. The slider handlers and the slide
    carousel read the same in both revisions. */
module Gui {
  import opened Python
  import opened Sliders
  import opened Slides
  import opened Runs
  import SessionV1
  import SessionV0

  /** Revision 0.1 builds the error and standard-deviation charts and the
      histogram only from 50 estimates on, and only while the panel runs;
      charts therefore always come with a written log. */
  function ChartsBuilt(tkRunning: bool, datapoints: nat): (built: bool)
    ensures built <==> tkRunning && datapoints >= 50
    ensures built ==> SessionV1.WritesLog(tkRunning, datapoints)
  {
    tkRunning && datapoints >= 50
  }

  /** Revision 0.0 draws the histogram from 10 estimates on, whether or
      not the window was closed; when it stayed open the log is written as
      well, and wherever revision 0.1 draws its charts this revision draws
      its histogram. */
  predicate HistogramBuiltV0(datapoints: nat): (h: bool)
    ensures h ==> SessionV0.WritesLog(false, datapoints)
    ensures ChartsBuilt(true, datapoints) ==> h
  {
    datapoints >= 10
  }

  /** A session that is not interrupted yields as many estimates as runs, so
      the histogram of revision 0.0 appears from 10 runs on and the charts of
      revision 0.1 from 50. */
  lemma CompletedSessionThresholds(runs: nat, tkRunning: bool)
    ensures HistogramBuiltV0(StartedRuns(runs, Never)) <==> runs >= 10
    ensures ChartsBuilt(tkRunning, StartedRuns(runs, Never)) <==> tkRunning && runs >= 50
  {
  }

  class Gui {
    var runs: int
    var runsUnit: int
    var runsMultiplier: nat
    var dots: int
    var dotsUnit: int
    var dotsMultiplier: nat
    /** The entries `runs` and `dots` of the settings mapping. */
    var settingsRuns: int
    var settingsDots: int
    var slideNum: int
    var slides: seq<string>

    ghost predicate Valid()
      reads this
    {
      0 <= runsUnit <= 9 && 0 <= dotsUnit <= 9
      && (slides == [] || |slides| == SlidesQuantity)
      && (slides == [] ==> slideNum == 0)
      && (slides != [] ==> 0 <= slideNum < |slides|)
    }

    /** The panel reads runs and dots from the settings and places each
        unit slider on the leading digit and each multiplier slider on the
        digit count less one. */
    constructor (settingsRuns: nat, settingsDots: nat)
      ensures Valid()
      ensures runs == settingsRuns && dots == settingsDots
      ensures (runsUnit, runsMultiplier) == Decompose(settingsRuns)
      ensures (dotsUnit, dotsMultiplier) == Decompose(settingsDots)
      ensures this.settingsRuns == settingsRuns && this.settingsDots == settingsDots
      ensures slideNum == 0 && slides == []
    {
      runs := settingsRuns;
      dots := settingsDots;
      runsUnit, runsMultiplier := Decompose(settingsRuns).0, Decompose(settingsRuns).1;
      dotsUnit, dotsMultiplier := Decompose(settingsDots).0, Decompose(settingsDots).1;
      this.settingsRuns := settingsRuns;
      this.settingsDots := settingsDots;
      slideNum := 0;
      slides := [];
      DigitRange(settingsRuns);
      DigitRange(settingsDots);
    }

    /** The RUNS unit slider released at `unit`. */
    method FRunsUnit(unit: int)
      requires Valid() && UnitMin <= unit <= UnitMax
      modifies this`runsUnit, this`runs, this`settingsRuns
      ensures Valid()
      ensures runsUnit == unit && runs == Compose(unit, runsMultiplier) && settingsRuns == runs
      ensures runs >= 1 && Decompose(runs) == (runsUnit, runsMultiplier)
    {
      runsUnit := unit;
      runs := Compose(runsUnit, runsMultiplier);
      settingsRuns := runs;
      DecomposeCompose(runsUnit, runsMultiplier);
    }

    /** The RUNS multiplier slider released at `multiplier`. */
    method FRunsMultiplier(multiplier: int)
      requires Valid() && RunsMultiplierMin <= multiplier <= RunsMultiplierMax
      modifies this`runsMultiplier, this`runs, this`settingsRuns
      ensures Valid()
      ensures runsMultiplier == multiplier && runs == Compose(runsUnit, multiplier) && settingsRuns == runs
      ensures runsUnit >= UnitMin ==> runs >= 1 && Decompose(runs) == (runsUnit, runsMultiplier)
    {
      runsMultiplier := multiplier;
      runs := Compose(runsUnit, runsMultiplier);
      settingsRuns := runs;
      if runsUnit >= UnitMin {
        DecomposeCompose(runsUnit, runsMultiplier);
      }
    }

    /** The DOTS unit slider released at `unit`. */
    method FDotsUnit(unit: int)
      requires Valid() && UnitMin <= unit <= UnitMax
      modifies this`dotsUnit, this`dots, this`settingsDots
      ensures Valid()
      ensures dotsUnit == unit && dots == Compose(unit, dotsMultiplier) && settingsDots == dots
      ensures dots >= 1 && Decompose(dots) == (dotsUnit, dotsMultiplier)
    {
      dotsUnit := unit;
      dots := Compose(dotsUnit, dotsMultiplier);
      settingsDots := dots;
      DecomposeCompose(dotsUnit, dotsMultiplier);
    }

    /** The DOTS multiplier slider released at `multiplier`; a unit already
        set by its slider then gives at least 1000 dots, enough for both
        revisions' estimate. */
    method FDotsMultiplier(multiplier: int)
      requires Valid() && DotsMultiplierMin <= multiplier <= DotsMultiplierMax
      modifies this`dotsMultiplier, this`dots, this`settingsDots
      ensures Valid()
      ensures dotsMultiplier == multiplier && dots == Compose(dotsUnit, multiplier) && settingsDots == dots
      ensures dotsUnit >= UnitMin ==> 1000 <= dots <= 9000000 && Decompose(dots) == (dotsUnit, dotsMultiplier)
    {
      dotsMultiplier := multiplier;
      dots := Compose(dotsUnit, dotsMultiplier);
      settingsDots := dots;
      if dotsUnit >= UnitMin {
        DecomposeCompose(dotsUnit, dotsMultiplier);
        SliderRanges(dotsUnit, dotsMultiplier);
      }
    }

    /** The information window stores the path of each slide under the
        `info` directory of the working directory `folder` and shows slide 0,
        leaving `slideNum` where the last scrolling put it. */
    method LoadSlides(folder: string)
      requires Valid()
      modifies this`slides
      ensures Valid()
      ensures slides == SlidePaths(folder, SlidesQuantity)
      ensures slideNum == old(slideNum)
    {
      slides := SlidePaths(folder, SlidesQuantity);
    }

    /** The '<' and '>' buttons of the information window. */
    method ScrollSlides(direction: string)
      requires Valid() && slides != []
      modifies this`slideNum
      ensures Valid()
      ensures slideNum == Scrolled(old(slideNum), |slides|, direction)
    {
      if direction == "prev" {
        slideNum := slideNum - 1;
        if slideNum < 0 {
          slideNum := |slides| - 1;
        }
      } else if direction == "next" {
        slideNum := slideNum + 1;
        if slideNum > |slides| - 1 {
          slideNum := 0;
        }
      }
    }
  }

  /** The unit read back from any value is a single digit. */
  lemma DigitRange(n: nat)
    ensures 0 <= Decompose(n).0 <= 9
  {
    if n == 0 {
      assert DecimalString(0) == [DigitChar(0)];
    } else {
      DecomposeBounds(n);
    }
  }
}
