/**
 * Small numeric and textual helpers shared by the editor model: an Option
 * type for the source's `null`/`undefined` results, the JavaScript Math
 * functions the source uses (min, max, abs, round) over real numbers, and
 * the decimal rendering of a non-negative integer used inside generated ids.
 */
module Base {

  /** A value that may be absent (`null` or `undefined` in the source). */
  datatype Option<+T> = None | Some(value: T)

  /** `Math.PI`, as a named constant. */
  const Pi: real := 3.141592653589793

  /** JavaScript truthiness of an optional string: absent and "" are falsy. */
  predicate Truthy(s: Option<string>)
  {
    s.Some? && s.value != ""
  }

  /** `Math.abs` */
  function Abs(x: real): (r: real)
    ensures r >= 0.0
    ensures r == x || r == -x
  {
    if x < 0.0 then -x else x
  }

  /** `Math.min` of two numbers */
  function Min(a: real, b: real): (r: real)
    ensures r <= a && r <= b
    ensures r == a || r == b
  {
    if a <= b then a else b
  }

  /** `Math.max` of two numbers */
  function Max(a: real, b: real): (r: real)
    ensures r >= a && r >= b
    ensures r == a || r == b
  {
    if a >= b then a else b
  }

  /** `Math.round`: the nearest integer, halves rounded up. */
  function Round(x: real): (n: int)
    ensures x - 0.5 < n as real <= x + 0.5
  {
    (x + 0.5).Floor
  }

  /** Rounding an integer-valued number gives that integer back. */
  lemma RoundOfInt(n: int)
    ensures Round(n as real) == n
  {
  }

  /** Rounding is monotone, so a rounded value between two integers stays between them. */
  lemma RoundBetween(x: real, lo: int, hi: int)
    requires lo as real <= x <= hi as real
    ensures lo <= Round(x) <= hi
  {
  }

  /** A fraction with 0 <= num < den lies in [0, 1), and in (0, 1) when num > 0. */
  lemma UnitFraction(num: real, den: real)
    requires 0.0 <= num < den
    ensures 0.0 <= num / den < 1.0
    ensures 0.0 < num ==> 0.0 < num / den
  {
    var q := num / den;
    assert q * den == num;
  }

  /** A fraction with 0 <= num <= den and den > 0 lies in [0, 1]. */
  lemma ClosedUnitFraction(num: real, den: real)
    requires 0.0 <= num <= den && 0.0 < den
    ensures 0.0 <= num / den <= 1.0
  {
    if num < den {
      UnitFraction(num, den);
    }
  }

  // ----- decimal rendering of array indices inside ids (`${i}`) -----

  function DigitChar(d: int): (c: char)
    requires 0 <= d < 10
    ensures '0' <= c <= '9'
  {
    "0123456789"[d]
  }

  function DigitValue(c: char): (d: int)
    requires '0' <= c <= '9'
    ensures 0 <= d < 10
  {
    (c as int) - ('0' as int)
  }

  /** The decimal text of a non-negative integer, as JavaScript prints it. */
  function Decimal(n: nat): (s: string)
    ensures |s| >= 1
    ensures forall i :: 0 <= i < |s| ==> '0' <= s[i] <= '9'
    decreases n
  {
    if n < 10 then [DigitChar(n)] else Decimal(n / 10) + [DigitChar(n % 10)]
  }

  /** Reads a string of decimal digits back as a number. */
  function ParseDecimal(s: string): nat
    requires forall i :: 0 <= i < |s| ==> '0' <= s[i] <= '9'
  {
    if s == [] then 0 else ParseDecimal(s[..|s| - 1]) * 10 + DigitValue(s[|s| - 1])
  }

  lemma {:induction false} DecimalRoundTrip(n: nat)
    ensures ParseDecimal(Decimal(n)) == n
    decreases n
  {
    if n >= 10 {
      var s := Decimal(n);
      assert s[..|s| - 1] == Decimal(n / 10);
      DecimalRoundTrip(n / 10);
    }
  }

  /** Different indices give different texts. */
  lemma DecimalInjective(a: nat, b: nat)
    requires a != b
    ensures Decimal(a) != Decimal(b)
  {
    DecimalRoundTrip(a);
    DecimalRoundTrip(b);
  }
}
