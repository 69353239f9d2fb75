/** The few pieces of Python's semantics the estimator relies on. */
module Python {

  /** The exception kinds the modelled code can raise. */
  datatype PyError = IndexError | ZeroDivisionError

  /** A value, or the exception the expression raised instead. */
  datatype Result<T> = Ok(value: T) | Err(error: PyError)

  /** Whether a procedure ran to its end or raised. */
  datatype Outcome = Pass | Fail(error: PyError)

  /** Python's `s[k]` on a list or one-dimensional array: a negative index
      counts from the end, and an index outside `-len(s) .. len(s)-1` raises. */
  function Index<T>(s: seq<T>, k: int): (r: Result<T>)
    ensures r.Ok? <==> -|s| <= k < |s|
    ensures r.Ok? ==> r.value == s[if k < 0 then |s| + k else k]
  {
    if 0 <= k < |s| then Ok(s[k])
    else if -|s| <= k < 0 then Ok(s[|s| + k])
    else Err(IndexError)
  }

  function Max(a: int, b: int): (m: int)
  {
    if a >= b then a else b
  }

  /** The character of a decimal digit. */
  function DigitChar(d: nat): (c: char)
    requires d < 10
  {
    (('0' as int) + d) as char
  }

  /** The value of a digit character, as `int()` reads it. */
  function DigitValue(c: char): (v: int)
  {
    (c as int) - ('0' as int)
  }

  /** `os.path.join(a, b)` with the POSIX separator: b itself when it is
      absolute, otherwise b after a, with a '/' between them unless a is
      empty or already ends with one. */
  function Join(a: string, b: string): (p: string)
    ensures |p| >= |b| && p[|p| - |b|..] == b
    ensures (b == [] || b[0] != '/') ==> |p| >= |a| && p[..|a|] == a
    ensures (b == [] || b[0] != '/') && a != [] && a[|a| - 1] != '/' ==> p == a + "/" + b
    ensures |b| > 0 && b[0] == '/' ==> p == b
  {
    if |b| > 0 && b[0] == '/' then b
    else if a == [] || a[|a| - 1] == '/' then a + b
    else a + "/" + b
  }

  /** Python's `str(n)` for a non-negative integer: its decimal digits, most
      significant first, without leading zeros. */
  function DecimalString(n: nat): (s: string)
    ensures |s| >= 1
  {
    if n < 10 then [DigitChar(n)] else DecimalString(n / 10) + [DigitChar(n % 10)]
  }
}
