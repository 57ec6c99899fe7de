/** Decimal numerals: std::to_string and std::stoi as the program uses them. */
module Decimal {

  const INT_MIN: int := -0x8000_0000
  const INT_MAX: int := 0x7fff_ffff

  predicate IsInt32(n: int) { INT_MIN <= n <= INT_MAX }

  predicate IsDigit(c: char) { '0' <= c <= '9' }

  predicate AllDigits(s: string) { forall i :: 0 <= i < |s| ==> IsDigit(s[i]) }

  function DigitValue(c: char): (d: nat)
    requires IsDigit(c)
    ensures d < 10
  {
    c as int - '0' as int
  }

  function Digit(d: nat): (c: char)
    requires d < 10
    ensures IsDigit(c) && DigitValue(c) == d
  {
    (d + '0' as int) as char
  }

  function NatToString(n: nat): (s: string)
    ensures s != "" && AllDigits(s)
  {
    if n < 10 then [Digit(n)] else NatToString(n / 10) + [Digit(n % 10)]
  }

  /** std::to_string on a signed integer. */
  function ToString(n: int): string {
    if n < 0 then "-" + NatToString(-n) else NatToString(n)
  }

  function DigitsValue(s: string): nat
    requires AllDigits(s)
  {
    if s == "" then 0 else 10 * DigitsValue(s[..|s| - 1]) + DigitValue(s[|s| - 1])
  }

  lemma {:induction false} ValueOfNatToString(n: nat)
    ensures DigitsValue(NatToString(n)) == n
  {
    if n >= 10 {
      ValueOfNatToString(n / 10);
      var s := NatToString(n);
      assert s[..|s| - 1] == NatToString(n / 10);
    } else {
      assert NatToString(n)[..0] == "";
    }
  }

  function Pow10(k: nat): (p: nat)
    ensures p > 0
  {
    if k == 0 then 1 else 10 * Pow10(k - 1)
  }

  /** A number below 10^k prints with at most k digits. */
  lemma {:induction false} NatToStringLength(n: nat, k: nat)
    requires k > 0 && n < Pow10(k)
    ensures |NatToString(n)| <= k
  {
    assert Pow10(1) == 10;
    if n < 10 {
    } else {
      NatToStringLength(n / 10, k - 1);
    }
  }

  lemma ToStringLength(n: int)
    requires IsInt32(n)
    ensures 1 <= |ToString(n)| <= 11
  {
    assert Pow10(10) == 10_000_000_000 by {
      assert Pow10(5) == 100_000;
      assert Pow10(6) == 1_000_000;
      assert Pow10(8) == 100_000_000;
    }
    NatToStringLength(if n < 0 then -n else n, 10);
  }

  /** Numerals consist of digits and a sign, so they contain no other character. */
  lemma ToStringCharacters(n: int, c: char)
    requires !IsDigit(c) && c != '-'
    ensures c !in ToString(n)
  {
    var m := NatToString(if n < 0 then -n else n);
    assert forall i :: 0 <= i < |m| ==> IsDigit(m[i]);
    assert c !in m;
  }

  /** Length of the longest prefix made of digits. */
  function DigitRun(s: string): (k: nat)
    ensures k <= |s| && AllDigits(s[..k])
    ensures k < |s| ==> !IsDigit(s[k])
  {
    if s == "" || !IsDigit(s[0]) then 0 else
      var k := 1 + DigitRun(s[1..]);
      assert s[..k] == [s[0]] + s[1..][..k - 1];
      k
  }

  lemma DigitRunOf(digits: string, rest: string)
    requires AllDigits(digits)
    requires rest == "" || !IsDigit(rest[0])
    ensures DigitRun(digits + rest) == |digits|
    ensures (digits + rest)[..|digits|] == digits
  {
    var s := digits + rest;
    var k := DigitRun(s);
    assert forall i :: 0 <= i < |digits| ==> s[i] == digits[i];
    assert rest != "" ==> s[|digits|] == rest[0];
    assert forall i :: 0 <= i < k ==> s[i] == s[..k][i];
  }

  predicate IsSpace(c: char) {
    c == ' ' || '\t' <= c <= '\r'
  }

  function SkipSpaces(s: string): string {
    if s != "" && IsSpace(s[0]) then SkipSpaces(s[1..]) else s
  }

  datatype Parsed = Value(n: int) | InvalidArgument | OutOfRange

  /** std::stoi: blanks, an optional sign, the longest run of digits, then anything. */
  function Stoi(s: string): Parsed {
    var t := SkipSpaces(s);
    var negative := t != "" && t[0] == '-';
    var u := if t != "" && (t[0] == '-' || t[0] == '+') then t[1..] else t;
    var k := DigitRun(u);
    var magnitude: int := DigitsValue(u[..k]);
    var n := if negative then -magnitude else magnitude;
    if k == 0 then InvalidArgument
    else if IsInt32(n) then Value(n)
    else OutOfRange
  }

  predicate AllSpaces(s: string) { forall i :: 0 <= i < |s| ==> IsSpace(s[i]) }

  lemma {:induction false} SkipSpacesOf(blanks: string, t: string)
    requires AllSpaces(blanks) && (t == "" || !IsSpace(t[0]))
    ensures SkipSpaces(blanks + t) == t
  {
    if blanks == "" {
      assert blanks + t == t;
    } else {
      SkipSpacesOf(blanks[1..], t);
      assert (blanks + t)[1..] == blanks[1..] + t;
    }
  }

  /** What std::stoi accepts: blanks, at most one sign, digits, anything that does not go on with a digit. */
  lemma StoiReads(blanks: string, sign: string, digits: string, rest: string)
    requires AllSpaces(blanks) && (sign == "" || sign == "+" || sign == "-")
    requires digits != "" && AllDigits(digits) && (rest == "" || !IsDigit(rest[0]))
    ensures var magnitude: int := DigitsValue(digits);
      var n := if sign == "-" then -magnitude else magnitude;
      Stoi(blanks + (sign + (digits + rest))) == if IsInt32(n) then Value(n) else OutOfRange
  {
    hide SkipSpaces, DigitsValue, DigitRun;
    var u := digits + rest;
    var t := sign + u;
    assert t[0] == if sign == "" then digits[0] else sign[0];
    SkipSpacesOf(blanks, t);
    DigitRunOf(digits, rest);
    assert sign != "" ==> t[1..] == u;
    assert sign == "" ==> t == u;
  }

  /** Reading back a printed 32-bit number gives that number, whatever follows that is not a digit. */
  lemma StoiOfToString(n: int, rest: string)
    requires IsInt32(n)
    requires rest == "" || !IsDigit(rest[0])
    ensures Stoi(ToString(n) + rest) == Value(n)
  {
    hide Stoi, NatToString, DigitsValue, AllDigits;
    var digits := NatToString(if n < 0 then -n else n);
    var sign := if n < 0 then "-" else "";
    ValueOfNatToString(if n < 0 then -n else n);
    StoiReads("", sign, digits, rest);
    assert ToString(n) + rest == "" + (sign + (digits + rest));
  }

  /** What it rejects: no digit after the blanks and the sign. */
  lemma StoiRejects(blanks: string, sign: string, rest: string)
    requires AllSpaces(blanks) && (sign == "" || sign == "+" || sign == "-")
    requires rest == "" || !IsDigit(rest[0])
    requires sign == "" && rest != "" ==> rest[0] != '+' && rest[0] != '-' && !IsSpace(rest[0])
    ensures Stoi(blanks + (sign + rest)) == InvalidArgument
  {
    hide SkipSpaces, DigitsValue;
    var t := sign + rest;
    SkipSpacesOf(blanks, t);
    assert sign != "" ==> t[0] == sign[0] && t[1..] == rest;
    assert sign == "" ==> t == rest;
    assert DigitRun(rest) == 0;
  }
}
