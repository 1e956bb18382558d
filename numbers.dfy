/**
 * The two integer conversions the configuration parser relies on, as
 * digit-string parsers: `strconv.Atoi` (Go's `int`, 64 bits wide on the
 * platforms the daemon targets) and `strconv.ParseUint(s, 10, 32)`.
 */
module Numbers {
  import opened Wrappers
  import opened AddressShape

  const Uint32Limit: nat := 0x1_0000_0000
  const Int64Limit: nat := 0x8000_0000_0000_0000

  function DigitValue(c: char): (d: nat)
    requires IsDigit(c)
    ensures d < 10
  {
    (c as int) - ('0' as int)
  }

  function DigitChar(d: nat): (c: char)
    requires d < 10
    ensures IsDigit(c) && DigitValue(c) == d
  {
    ('0' as int + d) as char
  }

  /** The value of a string of decimal digits, most significant digit first. */
  function DecimalValue(s: string): nat
    requires AllDigits(s)
    decreases |s|
  {
    if s == [] then 0 else 10 * DecimalValue(s[..|s| - 1]) + DigitValue(s[|s| - 1])
  }

  /** The shortest decimal rendering of `n`. */
  function Decimal(n: nat): (s: string)
    ensures IsNumber(s)
    decreases n
  {
    if n < 10 then [DigitChar(n)] else Decimal(n / 10) + [DigitChar(n % 10)]
  }

  /**
   * `strconv.ParseUint(s, 10, 32)`: one or more decimal digits, no sign, no
   * underscores, and a value that fits in 32 bits; anything else is an error.
   */
  function ParseUint32(s: string): (r: Option<nat>)
    ensures r.Some? ==> r.value < Uint32Limit
  {
    if IsNumber(s) && DecimalValue(s) < Uint32Limit then Some(DecimalValue(s)) else None
  }

  /**
   * `strconv.Atoi(s)` on a 64-bit platform: an optional `+` or `-`, then one
   * or more decimal digits, with a value in [-2^63, 2^63 - 1].
   */
  function Atoi(s: string): (r: Option<int>)
    ensures r.Some? ==> -(Int64Limit as int) <= r.value < Int64Limit
  {
    var negative := |s| > 0 && s[0] == '-';
    var digits := if |s| > 0 && (s[0] == '+' || s[0] == '-') then s[1..] else s;
    if !IsNumber(digits) then None
    else
      var magnitude: int := DecimalValue(digits);
      if negative && magnitude <= Int64Limit then Some(-magnitude)
      else if !negative && magnitude < Int64Limit then Some(magnitude)
      else None
  }

  /** Rendering a number in decimal and reading it back gives the number. */
  lemma {:induction false} DecimalRoundTrip(n: nat)
    ensures DecimalValue(Decimal(n)) == n
    decreases n
  {
    if n >= 10 {
      DecimalRoundTrip(n / 10);
      var s := Decimal(n);
      assert s[..|s| - 1] == Decimal(n / 10);
    }
  }

  /** ParseUint32 accepts exactly the 32-bit values, in their decimal rendering. */
  lemma ParseUint32Decimal(n: nat)
    ensures ParseUint32(Decimal(n)) == if n < Uint32Limit then Some(n) else None
  {
    DecimalRoundTrip(n);
  }

  /** Atoi reads back every 64-bit integer from its signed decimal rendering. */
  lemma AtoiDecimal(i: int)
    requires -(Int64Limit as int) <= i < Int64Limit
    ensures Atoi(if i < 0 then "-" + Decimal(-i) else Decimal(i)) == Some(i)
  {
    if i < 0 {
      DecimalRoundTrip(-i);
      assert ("-" + Decimal(-i))[1..] == Decimal(-i);
    } else {
      DecimalRoundTrip(i);
    }
  }

  /** Atoi refuses the empty string and a bare sign, as strconv does. */
  lemma AtoiRejectsEmpty(s: string)
    requires s == "" || s == "+" || s == "-"
    ensures Atoi(s) == None
  {
  }
}
