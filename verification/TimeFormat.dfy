/** TimeManager::timeToStr (src/tools/time_manager.cpp:58-68) and its inverse. */
module TimeFormat {
  import opened Common
  import opened Decimal

  const LONG_MIN: int := -0x8000_0000_0000_0000
  const LONG_MAX: int := 0x7fff_ffff_ffff_ffff

  predicate IsInt64(n: int) { LONG_MIN <= n <= LONG_MAX }

  /** The unit suffixes that setSleepDuration can leave behind (src/tools/time_manager.cpp:12-28). */
  predicate IsUnits(units: string) {
    units == " milliseconds" || units == " seconds" || units == " minutes"
  }

  function Abs(n: int): nat { if n < 0 then -n else n }

  /** C++ division: towards zero. */
  function Quotient(a: int, b: int): int
    requires b > 0
  {
    if a < 0 then -((-a) / b) else a / b
  }

  /** C++ remainder: takes the sign of the dividend. */
  function Remainder(a: int, b: int): int
    requires b > 0
  {
    a - b * Quotient(a, b)
  }

  /** Right-justified output with a fill character, as std::setw and std::setfill. */
  function Padded(s: string, width: nat, fill: char): string {
    if |s| >= width then s else seq(width - |s|, i => fill) + s
  }

  function ThreeDigits(n: nat): string
    requires n < 1000
  {
    [Digit(n / 100), Digit(n / 10 % 10), Digit(n % 10)]
  }

  /** Milliseconds as seconds with three decimals, sign first. */
  function SecondsText(ms: int): string {
    (if ms < 0 then "-" else "") + NatToString(Abs(ms) / 1000) + "." + ThreeDigits(Abs(ms) % 1000)
  }

  function TimeToStr(elapsedMilliseconds: int, units: string): string {
    ToString(Quotient(elapsedMilliseconds, 60000)) + ":" +
    Padded(SecondsText(Remainder(elapsedMilliseconds, 60000)), 2, '0') + units
  }

  lemma RemainderRange(a: int)
    ensures -60000 < Remainder(a, 60000) < 60000
    ensures a == 60000 * Quotient(a, 60000) + Remainder(a, 60000)
  {
  }

  /** The widest formatted time: 16 + 1 + 7 + 13 characters. */
  lemma TimeToStrLength(ms: int, units: string)
    requires IsInt64(ms) && IsUnits(units)
    ensures 0 < |TimeToStr(ms, units)| <= 37
  {
    var q := Quotient(ms, 60000);
    RemainderRange(ms);
    var r := Remainder(ms, 60000);
    assert Pow10(15) == 1_000_000_000_000_000 by {
      assert Pow10(5) == 100_000;
      assert Pow10(10) == 100_000 * Pow10(5);
      assert Pow10(15) == 100_000 * Pow10(10);
    }
    assert Abs(q) < Pow10(15);
    NatToStringLength(Abs(q), 15);
    assert Pow10(2) == 100 by {
      assert Pow10(1) == 10;
    }
    NatToStringLength(Abs(r) / 1000, 2);
  }

  function Signed(negative: bool, n: int): int { if negative then -n else n }

  /** A number with its sign, which zero does not show. */
  function SignedText(negative: bool, n: nat, text: string): string {
    if negative && n > 0 then "-" + text else text
  }

  /** The format by its parts: minutes, a colon, seconds with three decimals, units. A negative time shows its sign at
      the minutes and at the seconds, each unless that part is zero. */
  lemma TimeToStrByParts(negative: bool, minutes: nat, seconds: nat, millis: nat, units: string)
    requires seconds < 60 && millis < 1000
    ensures TimeToStr(Signed(negative, 60000 * minutes + 1000 * seconds + millis), units)
         == SignedText(negative, minutes, NatToString(minutes)) + ":"
            + SignedText(negative, 1000 * seconds + millis, NatToString(seconds) + "." + ThreeDigits(millis)) + units
  {
    hide NatToString, Quotient, Remainder, ThreeDigits, SecondsText, Padded, ToString, SignedText;
    var r := 1000 * seconds + millis;
    SplitTime(negative, minutes, r);
    MinutesByParts(negative, minutes);
    SecondsByParts(negative, seconds, millis);
    NotPadded(SecondsText(Signed(negative, r)));
  }

  lemma MinutesByParts(negative: bool, minutes: nat)
    ensures ToString(Signed(negative, minutes)) == SignedText(negative, minutes, NatToString(minutes))
  {
    hide NatToString;
  }

  lemma SplitTime(negative: bool, minutes: nat, r: nat)
    requires r < 60000
    ensures Quotient(Signed(negative, 60000 * minutes + r), 60000) == Signed(negative, minutes)
    ensures Remainder(Signed(negative, 60000 * minutes + r), 60000) == Signed(negative, r)
  {
  }

  lemma SecondsByParts(negative: bool, seconds: nat, millis: nat)
    requires millis < 1000
    ensures SecondsText(Signed(negative, 1000 * seconds + millis))
         == SignedText(negative, 1000 * seconds + millis, NatToString(seconds) + "." + ThreeDigits(millis))
    ensures |SecondsText(Signed(negative, 1000 * seconds + millis))| >= 2
  {
    hide NatToString;
    var r: int := 1000 * seconds + millis;
    assert Abs(Signed(negative, r)) == r && r / 1000 == seconds && r % 1000 == millis;
    assert "" + NatToString(seconds) == NatToString(seconds);
    var tail := "." + ThreeDigits(millis);
    assert "-" + NatToString(seconds) + "." + ThreeDigits(millis) ==
           "-" + (NatToString(seconds) + "." + ThreeDigits(millis));
  }

  lemma NotPadded(s: string)
    ensures |s| >= 2 ==> Padded(s, 2, '0') == s
  {
  }

  // ---------- decoding ----------

  /** A sign and a run of digits, with what follows them. */
  function ReadNumber(s: string): (bool, nat, string) {
    var negative := s != "" && s[0] == '-';
    var u := if negative then s[1..] else s;
    var k := DigitRun(u);
    (negative, DigitsValue(u[..k]), u[k..])
  }

  /** Elapsed milliseconds back from the text; None when the text has not the shape timeToStr gives. */
  function DecodeTime(s: string): Option<int> {
    var (minutesNegative, minutes, afterMinutes) := ReadNumber(s);
    if afterMinutes == "" then None else
      var (secondsNegative, seconds, afterSeconds) := ReadNumber(afterMinutes[1..]);
      if |afterSeconds| < 4 || !AllDigits(afterSeconds[1..4]) then None else
        Some(60000 * Signed(minutesNegative, minutes)
             + Signed(secondsNegative, 1000 * seconds + DigitsValue(afterSeconds[1..4])))
  }

  lemma ReadDigits(digits: string, rest: string)
    requires digits != "" && AllDigits(digits)
    requires rest == "" || !IsDigit(rest[0])
    ensures ReadNumber(digits + rest) == (false, DigitsValue(digits), rest)
    ensures ReadNumber("-" + digits + rest) == (true, DigitsValue(digits), rest)
  {
    hide DigitsValue, DigitRun;
    var u := digits + rest;
    DigitRunOf(digits, rest);
    assert u[|digits|..] == rest;
    assert u[0] == digits[0];
    assert ("-" + digits + rest)[1..] == u;
  }

  lemma ReadNumberOf(n: int, rest: string)
    requires rest == "" || !IsDigit(rest[0])
    ensures ReadNumber(ToString(n) + rest) == (n < 0, Abs(n), rest)
  {
    ValueOfNatToString(Abs(n));
    ReadDigits(NatToString(Abs(n)), rest);
  }

  lemma ThreeDigitsValue(n: nat)
    requires n < 1000
    ensures AllDigits(ThreeDigits(n)) && DigitsValue(ThreeDigits(n)) == n
  {
    var s := ThreeDigits(n);
    assert s[..2] == [s[0], s[1]] && s[..2][..1] == [s[0]] && s[..2][..1][..0] == "";
    assert DigitsValue([s[0]]) == DigitValue(s[0]);
    assert DigitsValue(s[..2]) == 10 * DigitValue(s[0]) + DigitValue(s[1]);
  }

  lemma ReadSeconds(r: int, rest: string)
    requires -60000 < r < 60000
    ensures ReadNumber(SecondsText(r) + rest)
         == (r < 0, Abs(r) / 1000, "." + ThreeDigits(Abs(r) % 1000) + rest)
  {
    hide ReadNumber, NatToString, ThreeDigits, DigitsValue;
    var tail := "." + ThreeDigits(Abs(r) % 1000) + rest;
    var digits := NatToString(Abs(r) / 1000);
    ValueOfNatToString(Abs(r) / 1000);
    ReadDigits(digits, tail);
    assert SecondsText(r) + rest == (if r < 0 then "-" + digits + tail else digits + tail);
  }

  /** The format loses nothing: for every 64-bit input, negative ones included, the text determines the time. */
  lemma DecodeTimeOfTimeToStr(ms: int, units: string)
    requires IsInt64(ms)
    ensures DecodeTime(TimeToStr(ms, units)) == Some(ms)
  {
    hide ReadNumber, ToString, NatToString, DigitsValue, AllDigits;
    var q := Quotient(ms, 60000);
    var r := Remainder(ms, 60000);
    RemainderRange(ms);
    var afterMinutes := ":" + (SecondsText(r) + units);
    assert TimeToStr(ms, units) == ToString(q) + afterMinutes;
    ReadNumberOf(q, afterMinutes);
    assert afterMinutes[1..] == SecondsText(r) + units;
    ReadSeconds(r, units);
    var afterSeconds := "." + ThreeDigits(Abs(r) % 1000) + units;
    assert afterSeconds[1..4] == ThreeDigits(Abs(r) % 1000);
    ThreeDigitsValue(Abs(r) % 1000);
  }

  /** For fixed units, two times with the same text are the same time. */
  lemma TimeToStrIsInjective(a: int, b: int, units: string)
    requires IsInt64(a) && IsInt64(b)
    requires TimeToStr(a, units) == TimeToStr(b, units)
    ensures a == b
  {
    DecodeTimeOfTimeToStr(a, units);
    DecodeTimeOfTimeToStr(b, units);
  }
}
