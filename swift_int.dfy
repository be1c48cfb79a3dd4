/** Swift's failable `Int(String)` initializer (radix 10) on a 64-bit platform,
    and the canonical decimal rendering it inverts. */
module SwiftInt {

  import opened Wrappers

  const MinInt: int := -0x8000_0000_0000_0000
  const MaxInt: int := 0x7FFF_FFFF_FFFF_FFFF

  /** Representable as a 64-bit `Int`. */
  predicate InIntRange(n: int)
  {
    MinInt <= n <= MaxInt
  }

  predicate IsDigit(c: char)
  {
    '0' <= c <= '9'
  }

  predicate AllDigits(s: string)
  {
    forall i :: 0 <= i < |s| ==> IsDigit(s[i])
  }

  function DigitValue(c: char): (d: nat)
    requires IsDigit(c)
    ensures d < 10
  {
    c as int - '0' as int
  }

  function DigitChar(d: nat): (c: char)
    requires d < 10
    ensures IsDigit(c) && DigitValue(c) == d
  {
    ('0' as int + d) as char
  }

  /** The value of a run of decimal digits, most significant digit first. */
  function DigitsValue(s: string): nat
    requires AllDigits(s)
  {
    if s == [] then 0 else DigitsValue(s[..|s| - 1]) * 10 + DigitValue(s[|s| - 1])
  }

  /** `Int(text)`: an optional `+` or `-`, then one or more ASCII digits and nothing
      else (no blanks, no separators); a value outside the 64-bit range is a failure. */
  function ParseInt(text: string): (r: Option<int>)
    ensures r.Some? ==> InIntRange(r.value)
    ensures r.Some? ==> |text| > 0 && forall i :: 0 < i < |text| ==> IsDigit(text[i])
    ensures r.Some? ==> IsDigit(text[0]) || text[0] == '+' || text[0] == '-'
  {
    var signed := |text| > 0 && (text[0] == '+' || text[0] == '-');
    var digits := if signed then text[1..] else text;
    if digits == [] || !AllDigits(digits) then None
    else
      var magnitude: int := DigitsValue(digits);
      var value := if signed && text[0] == '-' then -magnitude else magnitude;
      if InIntRange(value) then Some(value) else None
  }

  /** Decimal digits of `n`, without sign or leading zeros. */
  function NatToString(n: nat): (s: string)
    ensures |s| > 0 && AllDigits(s) && DigitsValue(s) == n
  {
    if n < 10 then [DigitChar(n)]
    else
      var s := NatToString(n / 10) + [DigitChar(n % 10)];
      assert s[..|s| - 1] == NatToString(n / 10);
      s
  }

  /** The canonical rendering of `n` (Swift's `String(n)`); reading it back with
      `Int(_:)` gives `n` exactly when `n` fits in 64 bits. */
  function IntToString(n: int): (s: string)
    ensures ParseInt(s) == if InIntRange(n) then Some(n) else None
  {
    if n < 0 then
      var s := "-" + NatToString(-n);
      assert s[1..] == NatToString(-n);
      s
    else
      NatToString(n)
  }

  /** A text that holds a colon, such as a second `:` of a location, is not an
      integer. */
  lemma ParseIntRejectsColon(text: string)
    requires ':' in text
    ensures ParseInt(text) == None
  {
    var i :| 0 <= i < |text| && text[i] == ':';
  }

  /** Leading zeros, an explicit `+` and `-0` are accepted; a bare sign, the empty
      text and a leading blank are not. */
  lemma ParseIntExamples()
    ensures ParseInt("007") == Some(7)
    ensures ParseInt("+5") == Some(5)
    ensures ParseInt("-0") == Some(0)
    ensures ParseInt("-") == None
    ensures ParseInt("+") == None
    ensures ParseInt("") == None
    ensures ParseInt(" 5") == None
  {
    assert "007"[..2] == "00" && "00"[..1] == "0" && "0"[..0] == "";
    assert DigitsValue("0") == 0;
    assert DigitsValue("00") == 0;
    assert "+5"[1..] == "5";
    assert "-0"[1..] == "0";
  }

  /** The value of an optional sign followed by digits. */
  function SignedValue(sign: string, digits: string): int
    requires AllDigits(digits)
  {
    if sign == "-" then -(DigitsValue(digits) as int) else DigitsValue(digits)
  }

  /** Every accepted text is an optional sign followed by one or more digits, and
      its value is the signed value of those digits. */
  lemma ParseIntSound(text: string)
    requires ParseInt(text).Some?
    ensures exists sign, digits ::
      (sign == "" || sign == "+" || sign == "-") && digits != [] && AllDigits(digits) &&
      text == sign + digits && ParseInt(text) == Some(SignedValue(sign, digits))
  {
    if text[0] == '+' || text[0] == '-' {
      assert text == text[..1] + text[1..];
      assert SignedValue(text[..1], text[1..]) == ParseInt(text).value;
    } else {
      assert text == "" + text;
    }
  }

  /** Conversely, an optional sign followed by one or more digits whose signed value
      fits in 64 bits is accepted, leading zeros included. */
  lemma ParseIntComplete(sign: string, digits: string)
    requires sign == "" || sign == "+" || sign == "-"
    requires digits != [] && AllDigits(digits) && InIntRange(SignedValue(sign, digits))
    ensures ParseInt(sign + digits) == Some(SignedValue(sign, digits))
  {
    var text := sign + digits;
    if sign == "" {
      assert text == digits;
    } else {
      assert text[0] == sign[0];
      assert text[1..] == digits;
    }
  }

  /** Zeros in front of the digits do not change their value. */
  lemma {:induction false} DigitsValueLeadingZero(digits: string)
    requires AllDigits(digits)
    ensures AllDigits("0" + digits) && DigitsValue("0" + digits) == DigitsValue(digits)
  {
    if digits != [] {
      var n := |digits| - 1;
      assert ("0" + digits)[..n + 1] == "0" + digits[..n];
      DigitsValueLeadingZero(digits[..n]);
    }
  }

  /** A zero inserted after the sign is read back as the same value. */
  lemma ParseIntLeadingZero(n: int)
    requires InIntRange(n)
    ensures ParseInt(if n < 0 then "-0" + NatToString(-n) else "0" + NatToString(n)) == Some(n)
  {
    var m: nat := if n < 0 then -n else n;
    var digits := "0" + NatToString(m);
    DigitsValueLeadingZero(NatToString(m));
    if n < 0 {
      ParseIntComplete("-", digits);
      assert "-" + digits == "-0" + NatToString(-n);
    } else {
      ParseIntComplete("", digits);
      assert "" + digits == digits;
    }
  }

  /** A `+` put before a non-negative value is read back as the same value. */
  lemma ParseIntExplicitPlus(n: nat)
    requires InIntRange(n)
    ensures ParseInt("+" + IntToString(n)) == Some(n)
  {
    ParseIntComplete("+", NatToString(n));
  }

}
