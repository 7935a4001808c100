/**
 * The few pieces of the Java platform that the logging facade's own logic
 * depends on: null references, 32-bit `int`, `Integer.toString`,
 * `Integer.parseInt` (also behind `new Integer(String)`), `String.startsWith`
 * and `String.equalsIgnoreCase`.
 */
module JavaLang {

  datatype Option<+T> = None | Some(value: T)

  datatype Result<+T, +E> = Ok(value: T) | Err(error: E)

  /** The outcome of a Java method that returns nothing or throws. */
  datatype Outcome<+E> = Pass | Fail(error: E)

  /** A throwable that escapes a call into the facade. */
  datatype Failure =
    | NullPointerException
    | ClassCastException(message: string)
    | UnimplementedError(message: string)
      /** A throwable the source does not catch, described by its toString(). */
    | Uncaught(description: string)

  /** A `java.lang.String` reference: `None` is `null`. */
  type JString = Option<string>

  /** What `StringBuilder.append` and string `+` make of a possibly null string. */
  function Render(s: JString): string
  {
    if s.Some? then s.value else "null"
  }

  const MinInt: int := -0x8000_0000
  const MaxInt: int := 0x7fff_ffff

  /** Java's `int`. */
  type Int32 = x: int | MinInt <= x <= MaxInt

  predicate StartsWith(s: string, prefix: string)
  {
    |prefix| <= |s| && s[..|prefix|] == prefix
  }

  // ---------------------------------------------------------------------------
  // Decimal text of integers
  // ---------------------------------------------------------------------------

  predicate IsDigit(c: char)
  {
    '0' <= c <= '9'
  }

  predicate AllDigits(s: string)
  {
    forall i | 0 <= i < |s| :: IsDigit(s[i])
  }

  function DigitValue(c: char): nat
    requires IsDigit(c)
  {
    c as int - '0' as int
  }

  function DigitChar(d: nat): (c: char)
    requires d < 10
    ensures IsDigit(c) && DigitValue(c) == d
  {
    ('0' as int + d) as char
  }

  /** The number a string of decimal digits denotes (leading zeros allowed). */
  function DigitsValue(s: string): nat
    requires AllDigits(s)
    decreases |s|
  {
    if |s| == 0 then 0 else DigitsValue(s[..|s| - 1]) * 10 + DigitValue(s[|s| - 1])
  }

  /** The decimal digits of `n`, most significant first, with no leading zero. */
  function NatToDecimal(n: nat): (s: string)
    ensures |s| >= 1 && AllDigits(s)
    ensures s[0] == '0' ==> n == 0
    decreases n
  {
    if n < 10 then [DigitChar(n)] else NatToDecimal(n / 10) + [DigitChar(n % 10)]
  }

  /** `Integer.toString(int)`: a minus sign before negative numbers. */
  function IntToString(n: int): (s: string)
    ensures |s| >= 1 && s[0] != '+'
    ensures s[0] == '-' <==> n < 0
  {
    if n < 0 then "-" + NatToDecimal(-n) else NatToDecimal(n)
  }

  /**
   * `Integer.parseInt(String)`: an optional sign, then at least one decimal
   * digit, and a value that fits an `int`; anything else is a
   * `NumberFormatException`, here `None`.
   */
  function ParseInt(s: string): (r: Option<Int32>)
    ensures r.Some? ==> |s| >= 1 && (s[0] == '-' || s[0] == '+' || IsDigit(s[0]))
  {
    if |s| == 0 then None
    else
      var negative := s[0] == '-';
      var digits := if s[0] == '-' || s[0] == '+' then s[1..] else s;
      if |digits| == 0 || !AllDigits(digits) then None
      else
        var magnitude: int := DigitsValue(digits);
        var v := if negative then -magnitude else magnitude;
        if MinInt <= v <= MaxInt then Some(v) else None
  }

  lemma {:induction false} NatToDecimalValue(n: nat)
    ensures DigitsValue(NatToDecimal(n)) == n
    decreases n
  {
    if n >= 10 {
      NatToDecimalValue(n / 10);
      var s := NatToDecimal(n);
      assert s[..|s| - 1] == NatToDecimal(n / 10);
    }
  }

  /** `Integer.parseInt` reads back every `int` that `Integer.toString` writes. */
  lemma ParseIntToString(n: Int32)
    ensures ParseInt(IntToString(n)) == Some(n)
  {
    var s := IntToString(n);
    if n < 0 {
      var m: nat := -(n as int);
      NatToDecimalValue(m);
      assert s[1..] == NatToDecimal(m);
    } else {
      NatToDecimalValue(n);
    }
  }

  // ---------------------------------------------------------------------------
  // Case-insensitive comparison
  // ---------------------------------------------------------------------------

  function AsciiLower(c: char): char
  {
    if 'A' <= c <= 'Z' then (c as int + 32) as char else c
  }

  /** `String.equalsIgnoreCase`, with case folding of ASCII letters. */
  predicate EqualsIgnoreCase(a: string, b: string)
  {
    |a| == |b| && forall i | 0 <= i < |a| :: AsciiLower(a[i]) == AsciiLower(b[i])
  }

  /** `Boolean.toString(boolean)`. */
  function BoolToString(b: bool): string
  {
    if b then "true" else "false"
  }
}
