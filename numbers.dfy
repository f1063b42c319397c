// Decimal text <-> numbers: the subset of strconv.ParseFloat the cost strings
// use (optional sign, digits, optional fraction), Go's "%.2f" on exact reals
// (round half to even at the cent), and Go's conversion of a duration in
// hours to whole days (truncation toward zero).
module Numbers {
  import opened Wrappers
  import Strings

  predicate IsDigit(c: char) { '0' <= c <= '9' }

  predicate AllDigits(s: string) { forall i :: 0 <= i < |s| ==> IsDigit(s[i]) }

  function DigitChar(d: nat): (c: char)
    requires d < 10
    ensures IsDigit(c)
  {
    ('0' as int + d) as char
  }

  /** The value of a run of decimal digits, most significant first. */
  lemma DigitCharValue(d: nat)
    requires d < 10
    ensures DigitChar(d) as int - '0' as int == d
  {
  }

  function DigitsValue(s: string): nat
    requires AllDigits(s)
  {
    if s == [] then 0
    else DigitsValue(s[..|s| - 1]) * 10 + (s[|s| - 1] as int - '0' as int)
  }

  function Pow10(n: nat): (r: nat)
    ensures r >= 1
  {
    if n == 0 then 1 else 10 * Pow10(n - 1)
  }

  /** Decimal digits of `n` with no leading zeros (strconv.Itoa for a nat). */
  function NatToString(n: nat): (s: string)
    ensures s != [] && AllDigits(s)
  {
    if n < 10 then [DigitChar(n)] else NatToString(n / 10) + [DigitChar(n % 10)]
  }

  lemma {:induction false} NatToStringValue(n: nat)
    ensures DigitsValue(NatToString(n)) == n
  {
    if n >= 10 {
      NatToStringValue(n / 10);
      var s := NatToString(n);
      assert s[..|s| - 1] == NatToString(n / 10);
    }
  }

  function ParseUnsigned(body: string): (r: Option<real>)
    ensures r.Some? ==> r.value >= 0.0
  {
    match Strings.IndexOf(body, '.')
    case None =>
      if body != [] && AllDigits(body) then Some(DigitsValue(body) as real) else None
    case Some(k) =>
      var whole, frac := body[..k], body[k + 1..];
      if AllDigits(whole) && AllDigits(frac) && |whole| + |frac| > 0 then
        var fraction := DigitsValue(frac) as real / Pow10(|frac|) as real;
        assert fraction >= 0.0;
        Some(DigitsValue(whole) as real + fraction)
      else None
  }

  /**
   * strconv.ParseFloat(s, 64) on plain decimal text: an optional sign, digits,
   * and an optional '.' with more digits; None is the error return.
   */
  function ParseFloat(s: string): (r: Option<real>)
    ensures s == [] ==> r.None?
  {
    if |s| > 0 && (s[0] == '-' || s[0] == '+') then
      match ParseUnsigned(s[1..])
      case None => None
      case Some(v) => Some(if s[0] == '-' then -v else v)
    else ParseUnsigned(s)
  }

  /** strconv.ParseFloat with its error ignored: the zero value on failure. */
  function ParseOrZero(s: string): (amount: real)
    ensures ParseFloat(s).None? ==> amount == 0.0
    ensures ParseFloat(s).Some? ==> amount == ParseFloat(s).value
  {
    ParseFloat(s).GetOr(0.0)
  }

  /** Rounds to the nearest integer, ties to the even one. */
  function RoundHalfEven(y: real): (n: int)
    ensures y - 0.5 <= n as real <= y + 0.5
    ensures y >= 0.0 ==> n >= 0
    ensures y.Floor as real == y ==> n == y.Floor
  {
    var f := y.Floor;
    var frac := y - f as real;
    if frac < 0.5 then f
    else if frac > 0.5 then f + 1
    else if f % 2 == 0 then f else f + 1
  }

  function Abs(x: real): (r: real)
    ensures r >= 0.0 && (r == x || r == -x)
  {
    if x < 0.0 then -x else x
  }

  /** The whole cents Go's "%.2f" prints for `x`, sign included. */
  function Cents(x: real): (c: int)
    ensures x - 0.005 <= c as real / 100.0 <= x + 0.005
  {
    var n := RoundHalfEven(Abs(x) * 100.0);
    if x < 0.0 then -n else n
  }

  function CentsText(n: nat): (s: string)
  {
    NatToString(n / 100) + "." + [DigitChar(n / 10 % 10), DigitChar(n % 10)]
  }

  /** fmt's "%.2f": the sign of `x`, then its magnitude rounded to two decimals. */
  function FormatFixed2(x: real): string
  {
    var n := RoundHalfEven(Abs(x) * 100.0);
    (if x < 0.0 then "-" else "") + CentsText(n)
  }

  /** fmt.Sprintf("%.2f %s", amount, unit): how every provider renders a month's total. */
  function FormatTotal(amount: real, unit: string): string
  {
    FormatFixed2(amount) + " " + unit
  }

  lemma CentsTextParses(n: nat)
    ensures ParseUnsigned(CentsText(n)) == Some(n as real / 100.0)
  {
    var whole := NatToString(n / 100);
    var frac := [DigitChar(n / 10 % 10), DigitChar(n % 10)];
    DotSplits(whole, frac);
    NatToStringValue(n / 100);
    TwoDigitsValue(n);
    CentsSum(n);
  }

  /** The '.' after a run of digits is the first one. */
  lemma DotSplits(whole: string, frac: string)
    requires AllDigits(whole)
    ensures Strings.IndexOf(whole + "." + frac, '.') == Some(|whole|)
    ensures (whole + "." + frac)[..|whole|] == whole
    ensures (whole + "." + frac)[|whole| + 1..] == frac
  {
    var body := whole + "." + frac;
    assert body[|whole|] == '.';
    assert body[..|whole|] == whole;
    assert '.' !in whole;
  }

  lemma TwoDigitsValue(n: nat)
    ensures DigitsValue([DigitChar(n / 10 % 10), DigitChar(n % 10)]) == n % 100
  {
    var hi, lo := DigitChar(n / 10 % 10), DigitChar(n % 10);
    DigitCharValue(n / 10 % 10);
    DigitCharValue(n % 10);
    assert [hi, lo][..1] == [hi];
    assert [hi][..0] == [];
    assert DigitsValue([hi]) == n / 10 % 10;
    assert DigitsValue([hi, lo]) == (n / 10 % 10) * 10 + n % 10;
    LastTwoDigits(n);
  }

  lemma LastTwoDigits(n: nat)
    ensures (n / 10 % 10) * 10 + n % 10 == n % 100
  {
    var h, r := n / 100, n % 100;
    assert n == 100 * h + r;
    assert n / 10 == 10 * h + r / 10;
    assert n / 10 % 10 == r / 10;
    assert n % 10 == r % 10;
  }

  lemma CentsSum(n: nat)
    ensures (n / 100) as real + (n % 100) as real / Pow10(2) as real == n as real / 100.0
  {
    assert Pow10(2) == 100;
    assert n == (n / 100) * 100 + n % 100;
  }

  /** Parsing what "%.2f" printed gives back the amount rounded to the cent. */
  lemma FormatFixed2Parses(x: real)
    ensures ParseFloat(FormatFixed2(x)) == Some(Cents(x) as real / 100.0)
  {
    var n := RoundHalfEven(Abs(x) * 100.0);
    var body := CentsText(n);
    CentsTextParses(n);
    assert body[0] == NatToString(n / 100)[0];
    SignedParse(body, n as real / 100.0);
    var v := n as real / 100.0;
    if x < 0.0 {
      calc {
        ParseFloat(FormatFixed2(x));
        { assert FormatFixed2(x) == "-" + body; }
        ParseFloat("-" + body);
        Some(-v);
        { assert Cents(x) == -n; }
        Some(Cents(x) as real / 100.0);
      }
    } else {
      calc {
        ParseFloat(FormatFixed2(x));
        { assert FormatFixed2(x) == body; }
        ParseFloat(body);
        Some(v);
        { assert Cents(x) == n; }
        Some(Cents(x) as real / 100.0);
      }
    }
  }

  /** Digits parse to their value, and with a leading '-' to its negation. */
  lemma SignedParse(body: string, v: real)
    requires body != [] && IsDigit(body[0]) && ParseUnsigned(body) == Some(v)
    ensures ParseFloat(body) == Some(v)
    ensures ParseFloat("-" + body) == Some(-v)
  {
    assert ("-" + body)[1..] == body;
  }

  /** An amount that is already a whole number of cents is printed exactly. */
  lemma CentsExact(x: real)
    requires (x * 100.0).Floor as real == x * 100.0
    ensures Cents(x) as real / 100.0 == x
  {
    var k := (x * 100.0).Floor;
    if x < 0.0 {
      assert Abs(x) * 100.0 == (-k) as real;
      assert (Abs(x) * 100.0).Floor == -k;
    } else {
      assert Abs(x) * 100.0 == k as real;
    }
    assert Cents(x) == k;
  }

  /** Go's int(d.Hours() / 24) for a duration of `seconds`: whole days, toward zero. */
  function WholeDays(seconds: int): (days: int)
    ensures seconds >= 0 ==> 0 <= days * 86400 <= seconds < (days + 1) * 86400
    ensures seconds < 0 ==> (days - 1) * 86400 < seconds <= days * 86400 <= 0
  {
    if seconds >= 0 then seconds / 86400 else -((-seconds) / 86400)
  }

  const SecondsPerDay := 86400

  /** Go's int32(x) conversion: two's-complement wrap-around to 32 bits. */
  function Int32(x: int): (r: int)
    ensures -0x8000_0000 <= r < 0x8000_0000
    ensures (r - x) % 0x1_0000_0000 == 0
    ensures -0x8000_0000 <= x < 0x8000_0000 ==> r == x
  {
    (x + 0x8000_0000) % 0x1_0000_0000 - 0x8000_0000
  }
}
