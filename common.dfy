/** Values shared by every handler: optional values, the JavaScript notion of a
    "truthy" string, and the decimal text form of integers (`BigInt.prototype.toString`,
    `BigInt(text)`, `parseInt(text)`). */
module Common {

  datatype Option<+T> = None | Some(value: T) {
    function GetOr(default: T): (r: T)
      ensures Some? ==> r == value
      ensures None? ==> r == default
    {
      match this
      case Some(v) => v
      case None => default
    }
  }

  /** A string-valued field that may be missing (undefined or null): JavaScript treats
      it as truthy exactly when it is present and non-empty. */
  predicate Truthy(s: Option<string>)
  {
    s.Some? && s.value != ""
  }

  /** `s || fallback` on an optional string. */
  function OrElse(s: Option<string>, fallback: string): (r: string)
    ensures Truthy(s) ==> r == s.value
    ensures !Truthy(s) ==> r == fallback
  {
    if Truthy(s) then s.value else fallback
  }

  predicate IsDigit(c: char)
  {
    '0' <= c <= '9'
  }

  predicate AllDigits(s: string)
  {
    forall i :: 0 <= i < |s| ==> IsDigit(s[i])
  }

  function DigitChar(d: nat): (c: char)
    requires d < 10
    ensures IsDigit(c)
  {
    ('0' as int + d) as char
  }

  function DigitValue(c: char): (d: nat)
    requires IsDigit(c)
    ensures d < 10 && DigitChar(d) == c
  {
    c as int - '0' as int
  }

  /** Decimal digits of `n`, most significant first, without leading zeros. */
  function NatToDecimal(n: nat): (s: string)
    ensures |s| >= 1 && AllDigits(s)
    ensures s[0] == '0' ==> n == 0 && s == "0"
    decreases n
  {
    if n < 10 then [DigitChar(n)] else NatToDecimal(n / 10) + [DigitChar(n % 10)]
  }

  /** `BigInt.prototype.toString()`: a leading '-' for negative values. */
  function IntToDecimal(i: int): (s: string)
    ensures |s| >= 1
    ensures i >= 0 ==> AllDigits(s)
    ensures i < 0 ==> s[0] == '-' && |s| >= 2 && AllDigits(s[1..])
  {
    if i < 0 then "-" + NatToDecimal(-i) else NatToDecimal(i)
  }

  /** The value of a string of decimal digits. */
  function DigitsValue(s: string): nat
    requires AllDigits(s)
  {
    if s == [] then 0 else DigitsValue(s[..|s| - 1]) * 10 + DigitValue(s[|s| - 1])
  }

  /** The text forms `BigInt(text)` accepts in this model: an optional '-' then at least one digit. */
  predicate IsIntegerText(s: string)
  {
    (|s| >= 1 && AllDigits(s)) || (|s| >= 2 && s[0] == '-' && AllDigits(s[1..]))
  }

  /** `BigInt(text)`: `None` stands for the SyntaxError thrown on other text. */
  function ParseInteger(s: string): (r: Option<int>)
    ensures r.Some? <==> IsIntegerText(s)
  {
    if |s| >= 1 && AllDigits(s) then Some(DigitsValue(s))
    else if |s| >= 2 && s[0] == '-' && AllDigits(s[1..]) then Some(0 - DigitsValue(s[1..]) as int)
    else None
  }

  /** Reading back the digits of a natural number gives the number. */
  lemma {:induction false} NatDecimalRoundTrip(n: nat)
    ensures DigitsValue(NatToDecimal(n)) == n
    decreases n
  {
    var s := NatToDecimal(n);
    if n >= 10 {
      NatDecimalRoundTrip(n / 10);
      assert s[..|s| - 1] == NatToDecimal(n / 10);
    }
  }

  /** Serialising an integer as decimal text loses nothing: `BigInt(x.toString()) == x`. */
  lemma IntDecimalRoundTrip(i: int)
    ensures ParseInteger(IntToDecimal(i)) == Some(i)
  {
    var s := IntToDecimal(i);
    if i < 0 {
      NatDecimalRoundTrip(-i);
      assert s[1..] == NatToDecimal(-i);
      assert !AllDigits(s) by { assert !IsDigit(s[0]); }
    } else {
      NatDecimalRoundTrip(i);
    }
  }

  /** Distinct integers have distinct decimal texts. */
  lemma IntToDecimalInjective(i: int, j: int)
    requires IntToDecimal(i) == IntToDecimal(j)
    ensures i == j
  {
    IntDecimalRoundTrip(i);
    IntDecimalRoundTrip(j);
  }

  /** Length of the longest prefix of `s` made of decimal digits. */
  function DigitPrefixLength(s: string): (k: nat)
    ensures k <= |s| && AllDigits(s[..k])
    ensures k < |s| ==> !IsDigit(s[k])
  {
    if s == [] || !IsDigit(s[0]) then 0
    else
      var k := 1 + DigitPrefixLength(s[1..]);
      assert s[..k] == [s[0]] + s[1..][..k - 1];
      k
  }

  /** A JavaScript number that is either an integer or NaN. */
  datatype JsNumber = Num(n: int) | NaN

  /** `parseInt(text)`: an optional sign then the longest run of leading digits;
      NaN when there are no digits. */
  function ParseIntPrefix(s: string): (r: JsNumber)
    ensures IsIntegerText(s) ==> r.Num? && Some(r.n) == ParseInteger(s)
    ensures s == [] ==> r == NaN
  {
    if |s| >= 1 && (s[0] == '-' || s[0] == '+') then
      var rest := s[1..];
      var k := DigitPrefixLength(rest);
      if k == 0 then NaN
      else
        assert IsIntegerText(s) ==> rest[..k] == rest;
        if s[0] == '-' then Num(0 - DigitsValue(rest[..k]) as int) else Num(DigitsValue(rest[..k]))
    else
      var k := DigitPrefixLength(s);
      if k == 0 then NaN
      else
        assert IsIntegerText(s) ==> s[..k] == s;
        Num(DigitsValue(s[..k]))
  }

  /** The digit prefix of digits followed by a non-digit is exactly those digits. */
  lemma {:induction false} DigitPrefixOf(d: string, rest: string)
    requires AllDigits(d) && rest != [] && !IsDigit(rest[0])
    ensures DigitPrefixLength(d + rest) == |d|
    decreases |d|
  {
    if d != [] {
      assert (d + rest)[1..] == d[1..] + rest;
      DigitPrefixOf(d[1..], rest);
    } else {
      assert d + rest == rest;
    }
  }

  /** `parseInt` reads the leading digits and ignores whatever follows them:
      `parseInt("42abc") == 42`, and an unsigned text of digits only gives its value. */
  lemma ParseIntStopsAtNonDigit(d: string, rest: string)
    requires d != [] && AllDigits(d)
    requires rest == [] || !IsDigit(rest[0])
    ensures ParseIntPrefix(d + rest) == Num(DigitsValue(d))
  {
    if rest == [] {
      assert d + rest == d;
      assert d[..|d|] == d;
    } else {
      DigitPrefixOf(d, rest);
      assert (d + rest)[..|d|] == d;
    }
  }
}
