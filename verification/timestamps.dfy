/** Timestamps as RFC 3339, section 5.6, writes them, and the instants they stand for. */
module Timestamps {
  import opened Wrappers
  import opened Text

  /** A time with the offset it is written in, in minutes east of UTC. */
  datatype CivilTime = CivilTime(
    year: nat, month: nat, day: nat, hour: nat, minute: nat, second: nat, nanosecond: nat, offset: int)

  predicate LeapYear(year: int) {
    year % 4 == 0 && (year % 100 != 0 || year % 400 == 0)
  }

  function DaysIn(month: nat, year: int): nat {
    if month == 2 then if LeapYear(year) then 29 else 28
    else if month in {4, 6, 9, 11} then 30 else 31
  }

  /** What RFC 3339 can write: a four-digit year and an offset below a day. */
  predicate ValidTime(t: CivilTime) {
    && t.year <= 9999 && 1 <= t.month <= 12 && 1 <= t.day <= DaysIn(t.month, t.year)
    && t.hour <= 23 && t.minute <= 59 && t.second <= 59 && t.nanosecond < 1_000_000_000
    && -1440 < t.offset < 1440
  }

  const UNIX_EPOCH := CivilTime(1970, 1, 1, 0, 0, 0, 0, 0)

  type Time = t: CivilTime | ValidTime(t) witness UNIX_EPOCH

  /** Days before the first of January of a year, counted from year 1. */
  function DaysBeforeYear(year: int): int {
    var y := year - 1;
    365 * y + y / 4 - y / 100 + y / 400
  }

  function DaysBeforeMonth(month: nat, year: int): nat
    requires 1 <= month <= 12
  {
    if month == 1 then 0 else DaysBeforeMonth(month - 1, year) + DaysIn(month - 1, year)
  }

  /** Seconds since year 1 in UTC. */
  function Seconds(t: Time): int {
    var days := DaysBeforeYear(t.year) + DaysBeforeMonth(t.month, t.year) + t.day - 1;
    ((days * 24 + t.hour) * 60 + t.minute - t.offset) * 60 + t.second
  }

  predicate Before(a: Time, b: Time) {
    Seconds(a) < Seconds(b) || (Seconds(a) == Seconds(b) && a.nanosecond < b.nanosecond)
  }

  /** Go's zero time is the first instant of year 1 in UTC. */
  predicate IsZero(t: Time) {
    Seconds(t) == 0 && t.nanosecond == 0
  }

  function Floor(t: Time): Time {
    t.(nanosecond := 0)
  }

  // ----- Writing -----

  function TwoDigits(n: nat): string
    requires n < 100
  {
    [DigitOf(n / 10), DigitOf(n % 10)]
  }

  function FourDigits(n: nat): string
    requires n <= 9999
  {
    TwoDigits(n / 100) + TwoDigits(n % 100)
  }

  function FormatOffset(offset: int): string
    requires -1440 < offset < 1440
  {
    if offset == 0 then "Z"
    else
      var minutes: nat := if offset < 0 then -offset else offset;
      [if offset < 0 then '-' else '+'] + TwoDigits(minutes / 60) + ":" + TwoDigits(minutes % 60)
  }

  /** The part up to the second: always nineteen characters. */
  function FormatSecond(t: Time): (s: string)
    ensures |s| == 19
  {
    FourDigits(t.year) + "-" + TwoDigits(t.month) + "-" + TwoDigits(t.day) + "T"
    + TwoDigits(t.hour) + ":" + TwoDigits(t.minute) + ":" + TwoDigits(t.second)
  }

  /** FormatTimestamp: no fraction is written. */
  function FormatTimestamp(t: Time): string {
    FormatSecond(t) + FormatOffset(t.offset)
  }

  // ----- Reading -----

  function ParseTwo(s: string): Option<nat> {
    if |s| == 2 && AllDigits(s) then Some(ValueOf(s[0]) * 10 + ValueOf(s[1])) else None
  }

  function ParseOffset(s: string): Option<int> {
    if s == "Z" then Some(0)
    else if |s| == 6 && (s[0] == '+' || s[0] == '-') && s[3] == ':' then
      var hours, minutes := ParseTwo(s[1..3]), ParseTwo(s[4..]);
      if hours.None? || minutes.None? || hours.value > 23 || minutes.value > 59 then None
      else
        var offset := hours.value * 60 + minutes.value;
        Some(if s[0] == '-' then -offset else offset)
    else None
  }

  /** Nanoseconds of a fraction, cut off after nine digits. */
  function FractionValue(digits: string, place: nat): nat
    requires AllDigits(digits)
    decreases |digits|
  {
    if digits == "" || place == 0 then 0 else ValueOf(digits[0]) * place + FractionValue(digits[1..], place / 10)
  }

  /** The characters from the second on that belong to the fraction: a point and its digits. */
  function FractionLength(s: string): (n: nat)
    ensures n <= |s|
  {
    if |s| >= 2 && s[0] == '.' && IsDigit(s[1]) then 1 + DigitRun(s[1..]) else 0
  }

  function DigitRun(s: string): (n: nat)
    ensures n <= |s| && AllDigits(s[..n])
  {
    if s == "" || !IsDigit(s[0]) then 0
    else
      assert s[..1 + DigitRun(s[1..])] == [s[0]] + s[1..][..DigitRun(s[1..])];
      1 + DigitRun(s[1..])
  }

  function ParseYear(s: string): Option<nat> {
    if |s| != 4 || ParseTwo(s[..2]).None? || ParseTwo(s[2..]).None? then None
    else Some(ParseTwo(s[..2]).value * 100 + ParseTwo(s[2..]).value)
  }

  /** The separators of the first nineteen characters. */
  predicate Separated(s: string)
    requires |s| == 19
  {
    s[4] == '-' && s[7] == '-' && s[10] == 'T' && s[13] == ':' && s[16] == ':'
  }

  function ParseSecond(s: string, nanosecond: nat, offset: int): Option<CivilTime> {
    if |s| != 19 || !Separated(s) then None
    else
      var year, month, day := ParseYear(s[..4]), ParseTwo(s[5..7]), ParseTwo(s[8..10]);
      var hour, minute, second := ParseTwo(s[11..13]), ParseTwo(s[14..16]), ParseTwo(s[17..19]);
      if year.None? || month.None? || day.None? || hour.None? || minute.None? || second.None? then None
      else Some(CivilTime(year.value, month.value, day.value, hour.value, minute.value, second.value, nanosecond, offset))
  }

  /** ParseTimestamp: an explicit offset is required, a fraction is allowed. */
  function ParseTimestamp(s: string): Option<Time> {
    if |s| < 20 then None
    else
      var n := FractionLength(s[19..]);
      var fraction := if n == 0 then "" else s[20..19 + n];
      var offset := ParseOffset(s[19 + n..]);
      if offset.None? then None
      else
        assert n > 0 ==> fraction == s[20..][..n - 1];
        var parsed := ParseSecond(s[..19], FractionValue(fraction, 100_000_000), offset.value);
        if parsed.None? || !ValidTime(parsed.value) then None else Some(parsed.value)
  }

  // ----- Reading what was written -----

  lemma TwoDigitsAreParsed(n: nat)
    requires n < 100
    ensures ParseTwo(TwoDigits(n)) == Some(n)
    ensures AllDigits(TwoDigits(n))
  {
  }

  lemma OffsetIsParsed(offset: int)
    requires -1440 < offset < 1440
    ensures ParseOffset(FormatOffset(offset)) == Some(offset)
    ensures FractionLength(FormatOffset(offset)) == 0
  {
    if offset != 0 {
      var minutes: nat := if offset < 0 then -offset else offset;
      TwoDigitsAreParsed(minutes / 60);
      TwoDigitsAreParsed(minutes % 60);
      var s := FormatOffset(offset);
      assert s[1..3] == TwoDigits(minutes / 60) && s[4..] == TwoDigits(minutes % 60);
    }
  }

  lemma SecondIsParsed(t: Time, nanosecond: nat, offset: int)
    ensures ParseSecond(FormatSecond(t), nanosecond, offset)
         == Some(CivilTime(t.year, t.month, t.day, t.hour, t.minute, t.second, nanosecond, offset))
  {
    var s := FormatSecond(t);
    TwoDigitsAreParsed(t.year / 100);
    TwoDigitsAreParsed(t.year % 100);
    TwoDigitsAreParsed(t.month);
    TwoDigitsAreParsed(t.day);
    TwoDigitsAreParsed(t.hour);
    TwoDigitsAreParsed(t.minute);
    TwoDigitsAreParsed(t.second);
    assert s[..4] == FourDigits(t.year) && s[..4][..2] == TwoDigits(t.year / 100) && s[..4][2..] == TwoDigits(t.year % 100);
    assert s[5..7] == TwoDigits(t.month) && s[8..10] == TwoDigits(t.day) && s[11..13] == TwoDigits(t.hour);
    assert s[14..16] == TwoDigits(t.minute) && s[17..19] == TwoDigits(t.second);
  }

  /** A written timestamp reads back as the same time to the second, in the same offset. */
  lemma ParseUndoesFormat(t: Time)
    ensures ParseTimestamp(FormatTimestamp(t)) == Some(Floor(t))
  {
    var s := FormatTimestamp(t);
    OffsetIsParsed(t.offset);
    SecondIsParsed(t, 0, t.offset);
    assert s[..19] == FormatSecond(t) && s[19..] == FormatOffset(t.offset);
    assert s[19 + 0..] == FormatOffset(t.offset);
    assert FractionValue("", 100_000_000) == 0;
  }

  predicate TimestampByte(c: char) {
    IsDigit(c) || c in {'-', 'T', ':', 'Z', '+'}
  }

  lemma SecondBytes(t: Time)
    ensures forall c :: c in FormatSecond(t) ==> TimestampByte(c)
  {
    hide IsDigit, DigitOf;
    var s := FormatSecond(t);
    forall n: nat | n < 100
      ensures IsDigit(TwoDigits(n)[0]) && IsDigit(TwoDigits(n)[1])
    {
      TwoDigitsAreParsed(n);
      assert TwoDigits(n)[0] in TwoDigits(n) && TwoDigits(n)[1] in TwoDigits(n);
    }
  }

  lemma OffsetBytes(offset: int)
    requires -1440 < offset < 1440
    ensures forall c :: c in FormatOffset(offset) ==> TimestampByte(c)
    ensures 1 <= |FormatOffset(offset)| <= 6
  {
  }

  /** A written timestamp has nothing to trim and no line break. */
  lemma FormatIsClean(t: Time)
    ensures var s := FormatTimestamp(t);
      && s != "" && Trimmed(s) && |s| <= 25 && !IsNone(s) && '\n' !in s && '\r' !in s
  {
    SecondBytes(t);
    OffsetBytes(t.offset);
    var s := FormatTimestamp(t);
    hide FormatSecond, FormatOffset;
    assert forall c :: c in s ==> TimestampByte(c);
    assert s[0] in s && s[|s| - 1] in s;
    assert |Lower(s)| == |s| > 4;
  }

  /** Cutting to the second keeps the order of instants, but can turn an instant of the zero second into the zero time. */
  lemma FloorKeepsOrder(a: Time, b: Time)
    ensures !Before(b, a) ==> !Before(Floor(b), Floor(a))
    ensures IsZero(Floor(a)) <==> Seconds(a) == 0
  {
  }
}
