/**
 * The two numeric conversions decafcomp.cc relies on: std::stoi for an
 * integer literal (NumberExprAST) and atoi for array sizes and array
 * indices. Both read optional leading white space, an optional sign and
 * the longest run of decimal digits, and ignore what follows.
 */
module Numerals {
  import opened Wrappers
  import opened Failures

  const Int32Min: int := -0x8000_0000
  const Int32Max: int := 0x7fff_ffff

  predicate IsDigit(c: char) {
    '0' <= c <= '9'
  }

  /** isspace in the C locale. */
  predicate IsSpace(c: char) {
    c == ' ' || c == '\t' || c == '\n' || c == '\r' || c == '\U{000B}' || c == '\U{000C}'
  }

  function DigitValue(c: char): nat
    requires IsDigit(c)
  {
    (c as int) - ('0' as int)
  }

  /** The value of a run of decimal digits, most significant first. */
  function DigitsValue(d: string): nat
    requires forall k :: 0 <= k < |d| ==> IsDigit(d[k])
  {
    if d == [] then 0 else DigitsValue(d[..|d| - 1]) * 10 + DigitValue(d[|d| - 1])
  }

  /** The number of white-space characters at the front of s. */
  function SpaceRun(s: string): (n: nat)
    ensures n <= |s|
    ensures forall k :: 0 <= k < n ==> IsSpace(s[k])
    ensures n < |s| ==> !IsSpace(s[n])
  {
    if s != [] && IsSpace(s[0]) then 1 + SpaceRun(s[1..]) else 0
  }

  /** The number of digits at the front of s. */
  function DigitRun(s: string): (n: nat)
    ensures n <= |s|
    ensures forall k :: 0 <= k < n ==> IsDigit(s[k])
    ensures n < |s| ==> !IsDigit(s[n])
  {
    if s != [] && IsDigit(s[0]) then 1 + DigitRun(s[1..]) else 0
  }

  /**
   * The leading integer of s as strtol reads it in base 10: None when no
   * digit follows the white space and the sign.
   */
  function LeadingInt(s: string): (r: Option<int>)
    ensures r.None? <==> (var t := s[SpaceRun(s)..];
                          var u := if t != [] && (t[0] == '+' || t[0] == '-') then t[1..] else t;
                          u == [] || !IsDigit(u[0]))
  {
    var t := s[SpaceRun(s)..];
    var negative := t != [] && t[0] == '-';
    var u := if t != [] && (t[0] == '+' || t[0] == '-') then t[1..] else t;
    var n := DigitRun(u);
    if n == 0 then None
    else
      var m: int := DigitsValue(u[..n]);
      Some(if negative then -m else m)
  }

  /** std::stoi: invalid_argument without digits, out_of_range outside int. */
  function StoI(s: string): (r: Result<int, Error>)
    ensures r.Ok? ==> Int32Min <= r.value <= Int32Max
    ensures r.Ok? <==> LeadingInt(s).Some? && Int32Min <= LeadingInt(s).value <= Int32Max
    ensures r.Fail? ==> (r.error == InvalidArgument <==> LeadingInt(s).None?)
  {
    match LeadingInt(s)
    case None => Fail(InvalidArgument)
    case Some(v) => if Int32Min <= v <= Int32Max then Ok(v) else Fail(OutOfRange)
  }

  /** atoi: 0 without digits; a result outside int is undefined behaviour. */
  function Atoi(s: string): (r: Result<int, Error>)
    ensures r.Ok? ==> Int32Min <= r.value <= Int32Max
    ensures LeadingInt(s).None? ==> r == Ok(0)
    ensures r.Ok? && LeadingInt(s).Some? ==> r.value == LeadingInt(s).value
  {
    match LeadingInt(s)
    case None => Ok(0)
    case Some(v) => if Int32Min <= v <= Int32Max then Ok(v) else Fail(Undefined("atoi overflow"))
  }

  /** A string that starts with a letter (as every tagged rendering "NumberExpr(...)" does) converts to 0. */
  lemma AtoiOfTagged(s: string)
    requires s != [] && (('A' <= s[0] <= 'Z') || ('a' <= s[0] <= 'z') || s[0] == '(')
    ensures Atoi(s) == Ok(0)
  {
    assert SpaceRun(s) == 0;
    assert s[0..] == s;
  }

  // ---------------------------------------------------------------------
  // Decimal rendering, the inverse of the conversions
  // ---------------------------------------------------------------------

  /** The digits of n, most significant first, without leading zeros. */
  function NatDigits(n: nat): (d: string)
    ensures d != [] && forall k :: 0 <= k < |d| ==> IsDigit(d[k])
  {
    if n < 10 then [('0' as int + n) as char]
    else NatDigits(n / 10) + [('0' as int + n % 10) as char]
  }

  /** The decimal form of an integer, with a minus sign when negative. */
  function ToDecimal(v: int): string {
    (if v < 0 then "-" else "") + NatDigits(if v < 0 then -v else v)
  }

  lemma {:induction false} NatDigitsValue(n: nat)
    ensures DigitsValue(NatDigits(n)) == n
  {
    var d := NatDigits(n);
    if n >= 10 {
      NatDigitsValue(n / 10);
      assert d[..|d| - 1] == NatDigits(n / 10);
    }
  }

  lemma {:induction false} DigitRunAll(d: string, rest: string)
    requires forall k :: 0 <= k < |d| ==> IsDigit(d[k])
    requires rest == [] || !IsDigit(rest[0])
    ensures DigitRun(d + rest) == |d|
    decreases |d|
  {
    if d == [] {
      assert d + rest == rest;
    } else {
      var s := d + rest;
      assert s[0] == d[0];
      assert s[1..] == d[1..] + rest;
      DigitRunAll(d[1..], rest);
    }
  }

  /** A run of digits, with or without a minus sign in front, reads as its value. */
  lemma LeadingIntOfSigned(s: string, negative: bool, d: string)
    requires d != [] && forall k :: 0 <= k < |d| ==> IsDigit(d[k])
    requires s == (if negative then "-" else "") + d
    ensures LeadingInt(s) == Some(if negative then -(DigitsValue(d) as int) else DigitsValue(d) as int)
  {
    assert s[0] == '-' || IsDigit(s[0]);
    assert SpaceRun(s) == 0;
    var t := s[SpaceRun(s)..];
    assert t == s;
    var u := if t != [] && (t[0] == '+' || t[0] == '-') then t[1..] else t;
    assert u == d;
    DigitRunAll(d, []);
    assert d + [] == d;
    assert DigitRun(u) == |d|;
    assert u[..DigitRun(u)] == d;
  }

  /** Reading back the decimal form of a number gives the number. */
  lemma LeadingIntOfDecimal(v: int)
    ensures LeadingInt(ToDecimal(v)) == Some(v)
  {
    var a := if v < 0 then -v else v;
    NatDigitsValue(a);
    LeadingIntOfSigned(ToDecimal(v), v < 0, NatDigits(a));
  }

  /** stoi inverts the decimal rendering on every int. */
  lemma StoIRoundTrip(v: int)
    requires Int32Min <= v <= Int32Max
    ensures StoI(ToDecimal(v)) == Ok(v)
  {
    LeadingIntOfDecimal(v);
  }

  /** stoi of the decimal form of a number outside int fails with out_of_range. */
  lemma StoIOutOfRange(v: int)
    requires v < Int32Min || Int32Max < v
    ensures StoI(ToDecimal(v)) == Fail(OutOfRange)
  {
    LeadingIntOfDecimal(v);
  }
}
