/**
 * The few Python 2 string built-ins the manager relies on: `str(int)`,
 * `int(str)` (base 10) and `str.upper()`, on ASCII text.
 */
module PyText {
  import opened Wrappers

  /** Python 2 `isspace()` in the C locale: space, \t, \n, \v, \f, \r. */
  predicate IsSpace(c: char) {
    c == ' ' || c == '\t' || c == '\n' || c == '\r' || c == '\U{B}' || c == '\U{C}'
  }

  predicate IsDigit(c: char) {
    '0' <= c <= '9'
  }

  predicate AllDigits(s: string) {
    forall i :: 0 <= i < |s| ==> IsDigit(s[i])
  }

  function DigitValue(c: char): (d: nat)
    requires IsDigit(c)
    ensures d < 10
  {
    c as int - '0' as int
  }

  function DigitChar(d: nat): (c: char)
    requires d < 10
    ensures IsDigit(c) && DigitValue(c) == d
  {
    ('0' as int + d) as char
  }

  /** The value of a decimal numeral, most significant digit first. */
  function DigitsValue(s: string): nat
    requires AllDigits(s)
    decreases |s|
  {
    if s == [] then 0 else DigitsValue(s[..|s| - 1]) * 10 + DigitValue(s[|s| - 1])
  }

  /** Python's `str(n)` for a non-negative integer: decimal, no leading zero. */
  function NatToString(n: nat): (s: string)
    ensures s != [] && AllDigits(s)
    ensures |s| > 1 ==> s[0] != '0'
  {
    if n < 10 then [DigitChar(n)] else NatToString(n / 10) + [DigitChar(n % 10)]
  }

  /** Python's `str(i)` for any integer: a minus sign in front of a negative one. */
  function IntToString(i: int): (s: string)
    ensures s != []
    ensures i < 0 <==> s[0] == '-'
    ensures forall k :: 0 <= k < |s| ==> IsDigit(s[k]) || (k == 0 && s[k] == '-')
  {
    if i < 0 then "-" + NatToString(-i) else NatToString(i)
  }

  /** `str(i)` is canonical: after the optional sign come digits without a leading zero. */
  lemma IntToStringCanonical(i: int)
    ensures var s := IntToString(i);
      var digits := if i < 0 then s[1..] else s;
      digits != [] && AllDigits(digits) && (|digits| > 1 ==> digits[0] != '0')
  {
    if i < 0 {
      assert IntToString(i)[1..] == NatToString(-i);
    }
  }

  /** Python's `lstrip()`: drops leading whitespace. */
  function DropLeadingSpace(s: string): string {
    if s != [] && IsSpace(s[0]) then DropLeadingSpace(s[1..]) else s
  }

  /** Python's `rstrip()`: drops trailing whitespace. */
  function DropTrailingSpace(s: string): string {
    if s != [] && IsSpace(s[|s| - 1]) then DropTrailingSpace(s[..|s| - 1]) else s
  }

  /** What `lstrip()` leaves is a suffix of its argument. */
  lemma {:induction false} DropLeadingSpaceSuffix(s: string)
    ensures |DropLeadingSpace(s)| <= |s| && DropLeadingSpace(s) == s[|s| - |DropLeadingSpace(s)|..]
  {
    if s != [] && IsSpace(s[0]) {
      DropLeadingSpaceSuffix(s[1..]);
    }
  }

  /** What `rstrip()` leaves is a prefix of its argument. */
  lemma {:induction false} DropTrailingSpacePrefix(s: string)
    ensures |DropTrailingSpace(s)| <= |s| && DropTrailingSpace(s) == s[..|DropTrailingSpace(s)|]
  {
    if s != [] && IsSpace(s[|s| - 1]) {
      DropTrailingSpacePrefix(s[..|s| - 1]);
    }
  }

  /** The ValueError `int()` raises on a string that is not a base-10 literal. */
  datatype ParseError = InvalidLiteral(literal: string)

  /**
   * Python 2's `int(s)` with base 10: optional whitespace around the
   * literal, an optional sign (which, in Python 2, may be followed by
   * whitespace) and at least one decimal digit.
   */
  function ParseInt(s: string): (r: Result<int, ParseError>)
    ensures r.Err? ==> r.error == InvalidLiteral(s)
  {
    var body := DropTrailingSpace(DropLeadingSpace(s));
    if body != [] && (body[0] == '+' || body[0] == '-') then
      var digits := DropLeadingSpace(body[1..]);
      if digits != [] && AllDigits(digits) then
        var magnitude: int := DigitsValue(digits);
        Ok(if body[0] == '-' then -magnitude else magnitude)
      else
        Err(InvalidLiteral(s))
    else if body != [] && AllDigits(body) then
      Ok(DigitsValue(body))
    else
      Err(InvalidLiteral(s))
  }

  /** A string with no decimal digit in it (the empty one included) is not an integer literal. */
  lemma ParseIntNeedsDigit(s: string)
    requires forall k :: 0 <= k < |s| ==> !IsDigit(s[k])
    ensures ParseInt(s) == Err(InvalidLiteral(s))
  {
    var lead := DropLeadingSpace(s);
    var body := DropTrailingSpace(lead);
    DropLeadingSpaceSuffix(s);
    DropTrailingSpacePrefix(lead);
    if body != [] {
      assert body[0] == s[|s| - |lead|];
      if body[0] == '+' || body[0] == '-' {
        var digits := DropLeadingSpace(body[1..]);
        DropLeadingSpaceSuffix(body[1..]);
        if digits != [] {
          assert digits[0] == body[1..][|body| - 1 - |digits|];
          assert digits[0] == s[|s| - |lead| + |body| - |digits|];
        }
      }
    }
  }

  /** A non-empty run of digits parses to its decimal value. */
  lemma ParseIntOfDigits(s: string)
    requires s != [] && AllDigits(s)
    ensures ParseInt(s) == Ok(DigitsValue(s))
  {
    assert DropLeadingSpace(s) == s;
    assert DropTrailingSpace(s) == s;
  }

  /** `str(n)` read back as a numeral gives `n`. */
  lemma {:induction false} NatToStringValue(n: nat)
    ensures DigitsValue(NatToString(n)) == n
  {
    if n >= 10 {
      NatToStringValue(n / 10);
      var s := NatToString(n);
      assert s[..|s| - 1] == NatToString(n / 10);
    }
  }

  /** `int(str(i)) == i`: formatting an integer and parsing it back is the identity. */
  lemma ParseIntOfIntToString(i: int)
    ensures ParseInt(IntToString(i)) == Ok(i)
  {
    if i < 0 {
      var s := IntToString(i);
      var digits := NatToString(-i);
      NatToStringValue(-i);
      assert DropLeadingSpace(s) == s;
      assert DropTrailingSpace(s) == s;
      assert s[1..] == digits;
      assert DropLeadingSpace(digits) == digits;
    } else {
      NatToStringValue(i);
      ParseIntOfDigits(IntToString(i));
    }
  }

  /** Python 2 `upper()` of one character: ASCII letters only. */
  function UpperChar(c: char): char {
    if 'a' <= c <= 'z' then (c as int - 32) as char else c
  }

  /** Python 2 `str.upper()`, on ASCII letters. */
  function Upper(s: string): (r: string)
    ensures |r| == |s|
    ensures forall i :: 0 <= i < |s| ==> !('a' <= r[i] <= 'z')
    ensures forall i :: 0 <= i < |s| ==> r[i] == s[i] || ('a' <= s[i] <= 'z' && r[i] as int == s[i] as int - 32)
  {
    seq(|s|, i requires 0 <= i < |s| => UpperChar(s[i]))
  }

  /** Upper-casing twice is upper-casing once. */
  lemma UpperIdempotent(s: string)
    ensures Upper(Upper(s)) == Upper(s)
  {
    var u := Upper(s);
    assert forall i :: 0 <= i < |u| ==> Upper(u)[i] == u[i];
  }
}
