/** The RUNS and DOTS sliders: a unit slider and a power-of-ten slider set
    `unit * 10**multiplier`, and a value read from the settings file is split
    back into its leading digit and its digit count less one. */
module Sliders {
  import opened Python

  /** The unit sliders go from 1 to 9, the runs multiplier from 0 to 6 and the
      dots multiplier from 3 to 6. */
  const UnitMin := 1
  const UnitMax := 9
  const RunsMultiplierMin := 0
  const RunsMultiplierMax := 6
  const DotsMultiplierMin := 3
  const DotsMultiplierMax := 6

  function Pow10(m: nat): (p: nat)
    ensures p >= 1
  {
    if m == 0 then 1 else 10 * Pow10(m - 1)
  }

  /** The value the two sliders of a row set: `unit * 10**multiplier`, at
      least 10**multiplier for a unit from its slider, and 0 for a unit of 0. */
  function Compose(unit: int, multiplier: nat): (v: int)
    ensures unit >= 1 ==> v >= Pow10(multiplier)
    ensures unit == 0 ==> v == 0
  {
    assert unit >= 1 ==> 1 * Pow10(multiplier) <= unit * Pow10(multiplier);
    unit * Pow10(multiplier)
  }

  /** `(int(str(n)[:1]), len(str(n)) - 1)`: the slider positions shown for a
      value read from the settings file. */
  function Decompose(n: nat): (r: (int, nat))
    ensures n < 10 ==> r == (n, 0)
    ensures n >= 10 ==> r.1 >= 1
  {
    var s := DecimalString(n);
    (DigitValue(s[0]), |s| - 1)
  }

  /** A string of m zeros. */
  function Zeros(m: nat): (z: string)
    ensures |z| == m
  {
    seq(m, _ => '0')
  }

  /** The decimal text of unit·10^m is the unit's digit followed by m zeros. */
  lemma {:induction false} DecimalStringOfCompose(unit: int, m: nat)
    requires UnitMin <= unit <= UnitMax
    ensures DecimalString(Compose(unit, m)) == [DigitChar(unit)] + Zeros(m)
  {
    if m > 0 {
      var a := Compose(unit, m - 1);
      ComposeStep(unit, m);
      DecimalStringTimesTen(a);
      DecimalStringOfCompose(unit, m - 1);
      assert Zeros(m - 1) + ['0'] == Zeros(m);
    }
  }

  lemma ComposeStep(unit: int, m: nat)
    requires m > 0
    ensures Compose(unit, m) == 10 * Compose(unit, m - 1)
  {
    assert unit * (10 * Pow10(m - 1)) == 10 * (unit * Pow10(m - 1));
  }

  /** Multiplying by ten appends a zero to the decimal text. */
  lemma DecimalStringTimesTen(a: nat)
    requires a >= 1
    ensures DecimalString(10 * a) == DecimalString(a) + ['0']
  {
    assert (10 * a) / 10 == a && (10 * a) % 10 == 0;
  }

  /** Saving what the sliders set and reading it back gives the same slider
      positions. */
  lemma DecomposeCompose(unit: int, m: nat)
    requires UnitMin <= unit <= UnitMax
    ensures Compose(unit, m) >= 1
    ensures Decompose(Compose(unit, m)) == (unit, m)
  {
    DecimalStringOfCompose(unit, m);
  }

  /** Dropping the last digit of a value of two or more digits keeps the
      leading digit and shortens the text by one. */
  lemma DecomposeStep(n: nat)
    requires n >= 10
    ensures Decompose(n) == (Decompose(n / 10).0, Decompose(n / 10).1 + 1)
  {
    assert DecimalString(n) == DecimalString(n / 10) + [DigitChar(n % 10)];
  }

  /** Scaling the bracket of q = n / 10 by ten brackets n. */
  lemma ScaleBracket(u: int, p: nat, q: nat, n: nat)
    requires u * p <= q < (u + 1) * p && 10 * q <= n < 10 * q + 10
    ensures u * (10 * p) <= n < (u + 1) * (10 * p)
  {
    var lo, hi := u * p, (u + 1) * p;
    assert u * (10 * p) == 10 * lo;
    assert (u + 1) * (10 * p) == 10 * hi;
    assert q + 1 <= hi;
  }

  /** For any positive value the unit position is its leading digit and the
      value lies in [unit·10^m, (unit+1)·10^m). */
  lemma {:induction false} DecomposeBounds(n: nat)
    requires n >= 1
    ensures UnitMin <= Decompose(n).0 <= UnitMax
    ensures Compose(Decompose(n).0, Decompose(n).1) <= n < Compose(Decompose(n).0 + 1, Decompose(n).1)
  {
    if n >= 10 {
      var q := n / 10;
      DecomposeBounds(q);
      DecomposeStep(n);
      var u, m := Decompose(q).0, Decompose(q).1;
      ScaleBracket(u, Pow10(m), q, n);
    }
  }

  /** A positive value survives the round trip through the sliders exactly
      when it is of the form unit·10^m with a unit from 1 to 9. */
  lemma RecomposeExact(n: nat)
    requires n >= 1
    ensures Compose(Decompose(n).0, Decompose(n).1) == n
            <==> exists unit, m: nat :: UnitMin <= unit <= UnitMax && Compose(unit, m) == n
  {
    DecomposeBounds(n);
    if exists unit, m: nat :: UnitMin <= unit <= UnitMax && Compose(unit, m) == n {
      var unit, m: nat :| UnitMin <= unit <= UnitMax && Compose(unit, m) == n;
      DecomposeCompose(unit, m);
    }
  }

  lemma {:induction false} Pow10Monotone(a: nat, b: nat)
    requires a <= b
    ensures Pow10(a) <= Pow10(b)
    decreases b
  {
    if a < b {
      Pow10Monotone(a, b - 1);
    }
  }

  /** The sliders allow 1 to 9·10^6 runs and 1000 to 9·10^6 dots. */
  lemma SliderRanges(unit: int, m: nat)
    requires UnitMin <= unit <= UnitMax && m <= RunsMultiplierMax
    ensures 1 <= Compose(unit, m) <= 9000000
    ensures DotsMultiplierMin <= m ==> 1000 <= Compose(unit, m)
  {
    assert Pow10(6) == 1000000 by {
      assert Pow10(3) == 1000;
    }
    Pow10Monotone(m, 6);
    assert unit * Pow10(m) <= 9 * Pow10(m);
    assert 1 * Pow10(m) <= unit * Pow10(m);
    if DotsMultiplierMin <= m {
      Pow10Monotone(3, m);
      assert Pow10(3) == 1000;
    }
  }
}
