/** JavaScript's `parseInt(string)` with no radix argument, as the activity
    feed applies it to its `limit` query parameter. `None` stands for NaN. */
module JsParseInt {
  import opened Shared

  /** The value of `c` as a digit in base `radix` (10 or 16). */
  function DigitValue(c: char, radix: nat): Option<nat> {
    if '0' <= c <= '9' then Some(c as int - '0' as int)
    else if radix == 16 && 'a' <= c <= 'f' then Some(c as int - 'a' as int + 10)
    else if radix == 16 && 'A' <= c <= 'F' then Some(c as int - 'A' as int + 10)
    else None
  }

  predicate AllDigits(s: string, radix: nat) {
    forall k :: 0 <= k < |s| ==> DigitValue(s[k], radix).Some?
  }

  /** The length of the longest prefix of `s` made of digits. */
  function DigitRun(s: string, radix: nat): (n: nat)
    ensures n <= |s| && AllDigits(s[..n], radix)
    ensures n < |s| ==> DigitValue(s[n], radix).None?
  {
    if s == [] || DigitValue(s[0], radix).None? then 0
    else
      var n := 1 + DigitRun(s[1..], radix);
      assert forall k :: 1 <= k < n ==> s[..n][k] == s[1..][..n - 1][k - 1];
      n
  }

  /** The number a run of digits denotes, most significant first. */
  function Value(digits: string, radix: nat): nat
    requires AllDigits(digits, radix)
  {
    if digits == [] then 0
    else Value(digits[..|digits| - 1], radix) * radix + DigitValue(digits[|digits| - 1], radix).value
  }

  /** The string with its leading whitespace and line terminators removed. */
  function TrimStart(s: string): (t: string)
    ensures |t| <= |s|
    ensures t != [] ==> !IsJsWhitespace(t[0])
  {
    if s != [] && IsJsWhitespace(s[0]) then TrimStart(s[1..]) else s
  }

  /** The unsigned part: base 16 after a `0x` or `0X`, base 10 otherwise,
      then the longest run of digits; no digit at all is NaN. */
  function ParseMagnitude(u: string): Option<nat> {
    var hex := |u| >= 2 && u[0] == '0' && (u[1] == 'x' || u[1] == 'X');
    var radix := if hex then 16 else 10;
    var w := if hex then u[2..] else u;
    var n := DigitRun(w, radix);
    if n == 0 then None else Some(Value(w[..n], radix))
  }

  /** Skip leading whitespace, then read a number. */
  function ParseInt(s: string): Option<int> {
    ParseTrimmed(TrimStart(s))
  }

  /** An optional sign, then the magnitude. */
  function ParseTrimmed(t: string): Option<int> {
    if t != [] && t[0] == '-' then
      match ParseMagnitude(t[1..])
      case None => None
      case Some(v) => Some(-(v as int))
    else if t != [] && t[0] == '+' then
      match ParseMagnitude(t[1..])
      case None => None
      case Some(v) => Some(v as int)
    else
      match ParseMagnitude(t)
      case None => None
      case Some(v) => Some(v as int)
  }

  function DecimalDigit(d: nat): char
    requires d < 10
  {
    ('0' as int + d) as char
  }

  /** The canonical decimal numeral of `n`. */
  function DecimalString(n: nat): (s: string)
    ensures |s| > 0 && AllDigits(s, 10)
  {
    if n < 10 then [DecimalDigit(n)] else DecimalString(n / 10) + [DecimalDigit(n % 10)]
  }

  lemma {:induction false} DecimalStringValue(n: nat)
    ensures Value(DecimalString(n), 10) == n
  {
    if n >= 10 {
      var s := DecimalString(n);
      assert s[..|s| - 1] == DecimalString(n / 10);
      DecimalStringValue(n / 10);
    }
  }

  /** Only the numeral of zero starts with `0`, so no numeral reads as `0x`. */
  lemma {:induction false} DecimalStringLead(n: nat)
    ensures DecimalString(n)[0] == '0' ==> n == 0
  {
    if n >= 10 {
      DecimalStringLead(n / 10);
      assert DecimalString(n)[0] == DecimalString(n / 10)[0];
    }
  }

  lemma {:induction false} DigitRunOfDigits(s: string, radix: nat)
    requires AllDigits(s, radix)
    ensures DigitRun(s, radix) == |s|
  {
    if s != [] {
      DigitRunOfDigits(s[1..], radix);
    }
  }

  lemma {:induction false} TrimStartSkips(w: string, s: string)
    requires forall k :: 0 <= k < |w| ==> IsJsWhitespace(w[k])
    ensures TrimStart(w + s) == TrimStart(s)
  {
    if w != [] {
      assert (w + s)[0] == w[0];
      assert IsJsWhitespace(w[0]);
      assert (w + s)[1..] == w[1..] + s;
      assert TrimStart(w + s) == TrimStart(w[1..] + s);
      TrimStartSkips(w[1..], s);
    } else {
      assert w + s == s;
    }
  }

  /** A numeral's magnitude is its value. */
  lemma MagnitudeOfNumeral(n: nat)
    ensures ParseMagnitude(DecimalString(n)) == Some(n)
  {
    var d := DecimalString(n);
    DecimalStringValue(n);
    DecimalStringLead(n);
    DigitRunOfDigits(d, 10);
    assert d[..|d|] == d;
  }

  /** No numeral starts with whitespace or a sign. */
  lemma NumeralTrimmed(n: nat)
    ensures var d := DecimalString(n); TrimStart(d) == d && d[0] != '+' && d[0] != '-'
  {
    var d := DecimalString(n);
    assert DigitValue(d[0], 10).Some?;
  }

  /** Leading whitespace does not change what `parseInt` reads. */
  lemma ParseSkipsWhitespace(w: string, s: string)
    requires forall k :: 0 <= k < |w| ==> IsJsWhitespace(w[k])
    ensures ParseInt(w + s) == ParseInt(s)
  {
    TrimStartSkips(w, s);
  }

  /** `parseInt` reads back every decimal numeral, with or without a sign. */
  lemma ParseDecimal(n: nat)
    ensures ParseInt(DecimalString(n)) == Some(n)
  {
    NumeralTrimmed(n);
    MagnitudeOfNumeral(n);
  }

  lemma ParsePlusDecimal(n: nat)
    ensures ParseInt("+" + DecimalString(n)) == Some(n)
  {
    var d := DecimalString(n);
    assert ("+" + d)[1..] == d;
    assert TrimStart("+" + d) == "+" + d;
    MagnitudeOfNumeral(n);
  }

  lemma ParseMinusDecimal(n: nat)
    ensures ParseInt("-" + DecimalString(n)) == Some(-(n as int))
  {
    var d := DecimalString(n);
    assert ("-" + d)[1..] == d;
    assert TrimStart("-" + d) == "-" + d;
    MagnitudeOfNumeral(n);
  }

  /** A bare sign, a sign before a non-digit, and a hexadecimal prefix with
      no hexadecimal digit after it are all NaN. */
  lemma SignOrPrefixAloneIsNaN()
    ensures ParseInt("+").None? && ParseInt("-").None? && ParseInt("-x").None?
    ensures ParseInt("0x").None? && ParseInt("0xg").None? && ParseInt("0X").None?
  {
    assert "+"[1..] == [] && "-"[1..] == [] && "-x"[1..] == "x";
    assert "0x"[2..] == [] && "0xg"[2..] == "g" && "0X"[2..] == [];
  }

  /** A string whose first visible character is neither a sign nor a decimal
      digit is NaN. */
  lemma NotANumber(s: string)
    requires var t := TrimStart(s);
      t == [] || (t[0] != '+' && t[0] != '-' && DigitValue(t[0], 10).None?)
    ensures ParseInt(s).None?
  {
  }
}
