/**
 * The cell values of the one-row transaction frame, and Python's `str()`
 * conversion of them, which is what `astype(str)` applies to a column.
 */
module Values {

  /**
   * A cell of the frame: a Python `str`, a Python `int`, or a Python `float`.
   * Floating point is not modelled: a float is carried as the text that
   * Python's `repr` prints for it (for example "0.0" or "5000.0"), which is
   * also what `str()` gives for it.
   */
  datatype Value = Str(text: string) | Int(n: int) | Num(repr: string)

  /** The value is a Python `str`. */
  predicate IsText(v: Value)
  {
    v.Str?
  }

  predicate IsDigit(c: char)
  {
    '0' <= c <= '9'
  }

  function DigitChar(d: nat): (c: char)
    requires d < 10
    ensures IsDigit(c) && c as int - '0' as int == d
  {
    ('0' as int + d) as char
  }

  function DigitValue(c: char): nat
  {
    if IsDigit(c) then c as int - '0' as int else 0
  }

  /** The decimal numeral of `n`, most significant digit first, as `str()` writes it. */
  function NatText(n: nat): (s: string)
    ensures |s| >= 1
    ensures forall i :: 0 <= i < |s| ==> IsDigit(s[i])
    ensures s[0] == '0' ==> n == 0
  {
    if n < 10 then [DigitChar(n)] else NatText(n / 10) + [DigitChar(n % 10)]
  }

  /** Python's `str(n)` for an integer: a minus sign before the digits of a negative number. */
  function IntText(n: int): string
  {
    if n < 0 then "-" + NatText(-n) else NatText(n)
  }

  /** Reads a string of decimal digits, most significant first; it is meant only for digits. */
  function ParseNat(s: string): nat
  {
    if s == [] then 0 else 10 * ParseNat(s[..|s| - 1]) + DigitValue(s[|s| - 1])
  }

  /** Reads back the numerals `IntText` writes: an optional minus sign, then decimal digits. */
  function ParseInt(s: string): int
  {
    if |s| > 0 && s[0] == '-' then -(ParseNat(s[1..]) as int) else ParseNat(s)
  }

  lemma {:induction false} NatTextRoundTrip(n: nat)
    ensures ParseNat(NatText(n)) == n
  {
    if n >= 10 {
      var s := NatText(n);
      assert s[..|s| - 1] == NatText(n / 10);
      NatTextRoundTrip(n / 10);
    }
  }

  /** Turning an integer into text loses nothing: `int(str(n)) == n`. */
  lemma IntTextRoundTrip(n: int)
    ensures ParseInt(IntText(n)) == n
  {
    if n < 0 {
      assert IntText(n)[1..] == NatText(-n);
      NatTextRoundTrip(-n);
    } else {
      assert NatText(n)[0] != '-';
      NatTextRoundTrip(n);
    }
  }

  /** Distinct integers give distinct texts. */
  lemma IntTextInjective(a: int, b: int)
    ensures IntText(a) == IntText(b) ==> a == b
  {
    IntTextRoundTrip(a);
    IntTextRoundTrip(b);
  }

  /**
   * Python's `str()` applied to a cell. A string is left as it is, an integer
   * becomes its decimal numeral and a float its `repr` text.
   */
  function ToText(v: Value): (t: Value)
    ensures IsText(t)
    ensures IsText(v) ==> t == v
    ensures v.Int? ==> ParseInt(t.text) == v.n
    ensures v.Int? ==> |t.text| > 0 && forall i :: 0 <= i < |t.text| ==> IsDigit(t.text[i]) || (i == 0 && t.text[i] == '-')
    ensures v.Num? ==> t.text == v.repr
  {
    match v
    case Str(s) => v
    case Int(n) => IntTextRoundTrip(n); Str(IntText(n))
    case Num(r) => Str(r)
  }

  /** Converting twice is converting once. */
  lemma ToTextIdempotent(v: Value)
    ensures ToText(ToText(v)) == ToText(v)
  {
  }
}
