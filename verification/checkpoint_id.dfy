/** internal/cli/lifecycle.go: the identifier generated for a checkpoint, and why it is never rejected. */
module CheckpointIDs {
  import opened Wrappers
  import opened Text
  import opened Timestamps

  type Rune = nat
  type Byte = n: nat | n < 256

  const MAX_SLUG_BYTES: nat := 30
  const MAX_MILESTONE_BYTES: nat := 64

  predicate Alphanumeric(c: char) {
    'a' <= c <= 'z' || '0' <= c <= '9'
  }

  /** The milestone pattern: runs of lowercase letters and digits joined by single hyphens. */
  predicate MilestonePattern(s: string)
    decreases |s|
  {
    var i := IndexByte(s, '-');
    && i > 0 && (forall k :: 0 <= k < i ==> Alphanumeric(s[k]))
    && (i < |s| ==> MilestonePattern(s[i + 1..]))
  }

  /** PlanCheckpointAt's check of the trimmed identifier. */
  predicate AcceptedMilestone(id: string) {
    |Trim(id)| <= MAX_MILESTONE_BYTES && MilestonePattern(Trim(id))
  }

  /** The same pattern, character by character. */
  predicate Hyphenated(s: string) {
    && s != "" && s[0] != '-' && s[|s| - 1] != '-'
    && (forall i :: 0 <= i < |s| ==> Alphanumeric(s[i]) || s[i] == '-')
    && (forall i :: 0 < i < |s| ==> s[i - 1] != '-' || s[i] != '-')
  }

  lemma {:induction false} HyphenatedIsPattern(s: string)
    ensures Hyphenated(s) <==> MilestonePattern(s)
    decreases |s|
  {
    var i := IndexByte(s, '-');
    if i < |s| {
      var rest := s[i + 1..];
      HyphenatedIsPattern(rest);
      if Hyphenated(s) {
        assert i < |s| - 1;
        assert rest[0] == s[i + 1] && rest[|rest| - 1] == s[|s| - 1];
        forall k | 0 < k < |rest|
          ensures rest[k - 1] != '-' || rest[k] != '-'
        {
          assert rest[k - 1] == s[i + k] && rest[k] == s[i + 1 + k];
        }
      }
      if MilestonePattern(s) {
        assert rest[|rest| - 1] == s[|s| - 1];
        forall k | 0 <= k < |s|
          ensures Alphanumeric(s[k]) || s[k] == '-'
          ensures k > 0 ==> s[k - 1] != '-' || s[k] != '-'
        {
          if k > i {
            assert s[k] == rest[k - i - 1];
            if k > i + 1 {
              assert s[k - 1] == rest[k - i - 2];
            }
          }
        }
      }
    }
  }

  /** The slug as it grows: no hyphen first, never two in a row. */
  predicate Growing(s: string) {
    && (s != "" ==> s[0] != '-')
    && (forall i :: 0 <= i < |s| ==> Alphanumeric(s[i]) || s[i] == '-')
    && (forall i :: 0 < i < |s| ==> s[i - 1] != '-' || s[i] != '-')
  }

  function HexDigit(n: nat): char
    requires n < 16
  {
    if n < 10 then DigitOf(n) else ('a' as int + n - 10) as char
  }

  function Hex(bytes: seq<Byte>): (s: string)
    ensures |s| == 2 * |bytes|
  {
    if bytes == [] then ""
    else [HexDigit(bytes[0] / 16), HexDigit(bytes[0] % 16)] + Hex(bytes[1..])
  }

  lemma {:induction false} HexIsAlphanumeric(bytes: seq<Byte>)
    ensures forall c :: c in Hex(bytes) ==> Alphanumeric(c)
  {
    if bytes != [] {
      HexIsAlphanumeric(bytes[1..]);
    }
  }

  lemma {:induction false} HexIsInjective(a: seq<Byte>, b: seq<Byte>)
    requires |a| == |b| && Hex(a) == Hex(b)
    ensures a == b
  {
    if a != [] {
      assert Hex(a)[0] == Hex(b)[0] && Hex(a)[1] == Hex(b)[1];
      assert Hex(a)[2..] == Hex(a[1..]) && Hex(b)[2..] == Hex(b[1..]);
      HexIsInjective(a[1..], b[1..]);
      SameHexSameByte(a[0], b[0]);
      assert a == [a[0]] + a[1..] && b == [b[0]] + b[1..];
    }
  }

  lemma SameHexSameByte(a: Byte, b: Byte)
    requires HexDigit(a / 16) == HexDigit(b / 16) && HexDigit(a % 16) == HexDigit(b % 16)
    ensures a == b
  {
    assert a / 16 == b / 16 && a % 16 == b % 16;
  }

  // ----- The time in front -----

  /** A date and time of day in UTC. Converting a time of year 0 or 9999 can leave the four-digit years. */
  datatype UTCTime = UTCTime(year: int, month: nat, day: nat, hour: nat, minute: nat, second: nat) {
    predicate Valid() {
      && -1 <= year <= 10000 && 1 <= month <= 12 && 1 <= day <= DaysIn(month, year)
      && hour <= 23 && minute <= 59 && second <= 59
    }
  }

  /** The same minutes of a day, on the day before, the day or the day after. */
  function InUTC(t: Time): (u: UTCTime)
    ensures u.Valid()
  {
    var minutes := t.hour * 60 + t.minute - t.offset;
    var u := UTCTime(t.year, t.month, t.day, minutes % 1440 / 60, minutes % 60, t.second);
    if minutes < 0 then DayBefore(u) else if minutes >= 1440 then DayAfter(u) else u
  }

  function DayBefore(u: UTCTime): UTCTime {
    if u.day > 1 then u.(day := u.day - 1)
    else if u.month > 1 then u.(month := u.month - 1, day := DaysIn(u.month - 1, u.year))
    else u.(year := u.year - 1, month := 12, day := 31)
  }

  function DayAfter(u: UTCTime): UTCTime {
    if u.day < DaysIn(u.month, u.year) then u.(day := u.day + 1)
    else if u.month < 12 then u.(month := u.month + 1, day := 1)
    else u.(year := u.year + 1, month := 1, day := 1)
  }

  /** Days since the first of January of year 1. */
  function DayNumber(u: UTCTime): int
    requires 1 <= u.month <= 12
  {
    DaysBeforeYear(u.year) + DaysBeforeMonth(u.month, u.year) + u.day - 1
  }

  lemma YearLength(year: int)
    ensures DaysBeforeMonth(12, year) + 31 == DaysBeforeYear(year + 1) - DaysBeforeYear(year)
  {
    MonthsOfYear(year);
    FourthYears(year);
    HundredthYears(year);
    FourHundredthYears(year);
    hide DaysBeforeMonth;
  }

  lemma FourthYears(year: int)
    ensures year / 4 - (year - 1) / 4 == if year % 4 == 0 then 1 else 0
  {
  }

  lemma HundredthYears(year: int)
    ensures year / 100 - (year - 1) / 100 == if year % 100 == 0 then 1 else 0
    ensures year % 100 == 0 ==> year % 4 == 0
  {
    var q, m := year / 100, year % 100;
    assert year == 100 * q + m;
    if m == 0 {
      assert year - 1 == 100 * (q - 1) + 99;
      assert year == 4 * (25 * q);
    } else {
      assert year - 1 == 100 * q + (m - 1);
    }
  }

  lemma FourHundredthYears(year: int)
    ensures year / 400 - (year - 1) / 400 == if year % 400 == 0 then 1 else 0
    ensures year % 400 == 0 ==> year % 100 == 0
  {
    var q, m := year / 400, year % 400;
    assert year == 400 * q + m;
    if m == 0 {
      assert year - 1 == 400 * (q - 1) + 399;
      assert year == 100 * (4 * q);
    } else {
      assert year - 1 == 400 * q + (m - 1);
    }
  }

  lemma MonthsOfYear(year: int)
    ensures DaysBeforeMonth(12, year) == if LeapYear(year) then 335 else 334
  {
    hide LeapYear;
    assert DaysBeforeMonth(2, year) == 31;
    assert DaysBeforeMonth(4, year) == DaysBeforeMonth(2, year) + DaysIn(2, year) + 31;
    assert DaysBeforeMonth(6, year) == DaysBeforeMonth(4, year) + 61;
    assert DaysBeforeMonth(8, year) == DaysBeforeMonth(6, year) + 61;
    assert DaysBeforeMonth(10, year) == DaysBeforeMonth(8, year) + 61;
    assert DaysBeforeMonth(12, year) == DaysBeforeMonth(10, year) + 61;
  }

  lemma DaysFollow(u: UTCTime)
    requires 1 <= u.month <= 12 && 1 <= u.day <= DaysIn(u.month, u.year)
    ensures 1 <= DayBefore(u).month <= 12 && DayNumber(DayBefore(u)) == DayNumber(u) - 1
    ensures 1 <= DayAfter(u).month <= 12 && DayNumber(DayAfter(u)) == DayNumber(u) + 1
    ensures forall v :: v in {DayBefore(u), DayAfter(u)} ==> v.hour == u.hour && v.minute == u.minute && v.second == u.second
  {
    hide DaysBeforeYear, LeapYear;
    YearLength(u.year - 1);
    YearLength(u.year);
  }

  /** The conversion keeps the instant. */
  lemma InUTCIsSameInstant(t: Time)
    ensures var u := InUTC(t); ((DayNumber(u) * 24 + u.hour) * 60 + u.minute) * 60 + u.second == Seconds(t)
  {
    hide DayBefore, DayAfter, DaysBeforeYear, DaysBeforeMonth, LeapYear;
    var minutes := t.hour * 60 + t.minute - t.offset;
    var u := UTCTime(t.year, t.month, t.day, minutes % 1440 / 60, minutes % 60, t.second);
    DaysFollow(u);
    MinutesOfDay(minutes);
    assert Seconds(t) == (DayNumber(u) * 1440 + minutes) * 60 + t.second;
    var shift := if minutes < 0 then -1 else if minutes >= 1440 then 1 else 0;
    assert DayNumber(InUTC(t)) == DayNumber(u) + shift;
  }

  lemma MinutesOfDay(minutes: int)
    requires -1440 < minutes < 2880
    ensures var shift := if minutes < 0 then -1 else if minutes >= 1440 then 1 else 0;
      shift * 1440 + minutes % 1440 / 60 * 60 + minutes % 60 == minutes
  {
    var rest := minutes % 1440;
    assert rest % 60 == minutes % 60;
  }

  /** A year is padded to four digits, behind its sign. */
  function YearText(year: int): string {
    if year < 0 then "-" + Padded(-year) else Padded(year)
  }

  function Padded(n: nat): string {
    if n <= 9999 then FourDigits(n) else Decimal(n)
  }

  /** The layout 20060102t150405. */
  function Stamp(at: UTCTime): (s: string)
    requires at.Valid()
    ensures |s| == if 0 <= at.year <= 9999 then 15 else 16
  {
    assert Decimal(10000) == "10000";
    YearText(at.year) + TwoDigits(at.month) + TwoDigits(at.day) + "t"
    + TwoDigits(at.hour) + TwoDigits(at.minute) + TwoDigits(at.second)
  }

  lemma TwoDigitsAreAlphanumeric(n: nat)
    requires n < 100
    ensures forall c :: c in TwoDigits(n) ==> Alphanumeric(c)
  {
  }

  lemma StampIsAlphanumeric(at: UTCTime)
    requires at.Valid() && at.year >= 0
    ensures forall c :: c in Stamp(at) ==> Alphanumeric(c)
  {
    assert Decimal(10000) == "10000";
    forall n: nat | n < 100
      ensures forall c :: c in TwoDigits(n) ==> Alphanumeric(c)
    {
      TwoDigitsAreAlphanumeric(n);
    }
    hide TwoDigits, Decimal, Alphanumeric;
  }

  predicate Plain(r: Rune) {
    97 <= r <= 122 || 48 <= r <= 57
  }

  /** The slug after one more rune: letters and digits are kept, a run of separators becomes one hyphen. */
  function Extended(slug: string, r: Rune, isSpace: Rune -> bool): string {
    if Plain(r) then slug + [r as char]
    else if (isSpace(r) || r == 45 || r == 95 || r == 47) && slug != "" && slug[|slug| - 1] != '-' then slug + "-"
    else slug
  }

  /** The slug of the runes that are left, cut off as soon as it is long enough. */
  function SlugFrom(slug: string, runes: seq<Rune>, isSpace: Rune -> bool): string
    decreases |runes|
  {
    if runes == [] then slug
    else
      var next := Extended(slug, runes[0], isSpace);
      if |next| >= MAX_SLUG_BYTES then next else SlugFrom(next, runes[1..], isSpace)
  }

  lemma {:induction false} SlugGrows(slug: string, runes: seq<Rune>, isSpace: Rune -> bool)
    requires Growing(slug) && |slug| < MAX_SLUG_BYTES
    ensures Growing(SlugFrom(slug, runes, isSpace)) && |SlugFrom(slug, runes, isSpace)| <= MAX_SLUG_BYTES
    decreases |runes|
  {
    if runes != [] {
      var next := Extended(slug, runes[0], isSpace);
      assert Growing(next);
      if |next| < MAX_SLUG_BYTES {
        SlugGrows(next, runes[1..], isSpace);
      }
    }
  }

  /** A short label of letters and digits is its own slug. */
  lemma {:induction false} PlainLabelIsKept(slug: string, runes: seq<Rune>, isSpace: Rune -> bool)
    requires |slug| + |runes| <= MAX_SLUG_BYTES && forall r :: r in runes ==> Plain(r)
    ensures SlugFrom(slug, runes, isSpace) == slug + seq(|runes|, i requires 0 <= i < |runes| && Plain(runes[i]) => runes[i] as char)
    decreases |runes|
  {
    if runes != [] {
      assert Plain(runes[0]);
      var next := slug + [runes[0] as char];
      if |next| >= MAX_SLUG_BYTES {
        assert |runes| == 1;
      } else {
        PlainLabelIsKept(next, runes[1..], isSpace);
      }
    }
  }

  /** The slug loop over the lowered, trimmed label, with its flag and its length cut-off. */
  method Slug(runes: seq<Rune>, isSpace: Rune -> bool) returns (slug: string)
    ensures slug == SlugFrom("", runes, isSpace)
  {
    hide SlugFrom;
    slug := "";
    var lastHyphen := false;
    assert runes[0..] == runes;
    for i := 0 to |runes|
      invariant |slug| < MAX_SLUG_BYTES
      invariant lastHyphen <==> slug != "" && slug[|slug| - 1] == '-'
      invariant SlugFrom("", runes, isSpace) == SlugFrom(slug, runes[i..], isSpace)
    {
      var current := runes[i];
      SlugUnfolds(slug, runes, i, isSpace);
      if 97 <= current <= 122 || 48 <= current <= 57 {
        slug := slug + [current as char];
        lastHyphen := false;
      } else if (isSpace(current) || current == 45 || current == 95 || current == 47) && |slug| > 0 && !lastHyphen {
        slug := slug + "-";
        lastHyphen := true;
      }
      if |slug| >= MAX_SLUG_BYTES {
        return;
      }
    }
    SlugIsDone(slug, isSpace);
    assert runes[|runes|..] == [];
  }

  lemma SlugUnfolds(slug: string, runes: seq<Rune>, i: nat, isSpace: Rune -> bool)
    requires i < |runes|
    ensures var next := Extended(slug, runes[i], isSpace);
      SlugFrom(slug, runes[i..], isSpace) == if |next| >= MAX_SLUG_BYTES then next else SlugFrom(next, runes[i + 1..], isSpace)
  {
    hide Extended;
    assert runes[i..][1..] == runes[i + 1..];
  }

  lemma SlugIsDone(slug: string, isSpace: Rune -> bool)
    ensures SlugFrom(slug, [], isSpace) == slug
  {
  }

  /** strings.Trim(s, "-"). */
  function TrimHyphens(s: string): string {
    if s != "" && s[0] == '-' then TrimHyphens(s[1..])
    else if s != "" && s[|s| - 1] == '-' then TrimHyphens(s[..|s| - 1])
    else s
  }

  lemma {:induction false} TrimmedSlug(s: string)
    requires Growing(s)
    ensures var t := TrimHyphens(s); |t| <= |s| && (t == "" || Hyphenated(t))
    decreases |s|
  {
    if s != "" && s[|s| - 1] == '-' {
      TrimmedSlug(s[..|s| - 1]);
    }
  }

  function NameOf(slug: string): string {
    if TrimHyphens(slug) == "" then "checkpoint" else TrimHyphens(slug)
  }

  /** Three hyphen-joined parts that fit the pattern fit it together. */
  lemma JoinedParts(a: string, b: string, c: string)
    requires Hyphenated(a) && Hyphenated(b) && Hyphenated(c)
    ensures Hyphenated(a + "-" + b + "-" + c)
  {
    JoinedPair(a, b);
    JoinedPair(a + "-" + b, c);
  }

  lemma JoinedPair(a: string, b: string)
    requires Hyphenated(a) && Hyphenated(b)
    ensures Hyphenated(a + "-" + b)
  {
    var s := a + "-" + b;
    forall i | 0 <= i < |s|
      ensures Alphanumeric(s[i]) || s[i] == '-'
      ensures i > 0 ==> s[i - 1] != '-' || s[i] != '-'
    {
      if i < |a| {
        assert s[i] == a[i];
      } else if i > |a| {
        assert s[i] == b[i - |a| - 1];
        if i > |a| + 1 {
          assert s[i - 1] == b[i - |a| - 2];
        }
      }
    }
  }

  lemma PlainIsHyphenated(s: string)
    requires s != "" && forall c :: c in s ==> Alphanumeric(c)
    ensures Hyphenated(s)
  {
    forall i | 0 <= i < |s|
      ensures Alphanumeric(s[i])
    {
      assert s[i] in s;
    }
  }

  lemma HyphenatedIsTrimmed(s: string)
    requires Hyphenated(s)
    ensures Trim(s) == s
  {
    TrimFacts(s);
  }

  /** The three parts of an identifier. */
  function Joined(stamp: string, name: string, suffix: string): string {
    stamp + "-" + name + "-" + suffix
  }

  lemma JoinedIsAccepted(stamp: string, name: string, suffix: string)
    requires stamp != "" && (forall c :: c in stamp ==> Alphanumeric(c)) && Hyphenated(name)
    requires suffix != "" && (forall c :: c in suffix ==> Alphanumeric(c))
    ensures MilestonePattern(Joined(stamp, name, suffix)) && Trim(Joined(stamp, name, suffix)) == Joined(stamp, name, suffix)
  {
    hide Hyphenated, MilestonePattern, Trim;
    PlainIsHyphenated(stamp);
    PlainIsHyphenated(suffix);
    JoinedParts(stamp, name, suffix);
    HyphenatedIsPattern(Joined(stamp, name, suffix));
    HyphenatedIsTrimmed(Joined(stamp, name, suffix));
  }

  /** An identifier that starts with a sign is rejected. */
  lemma SignIsRejected(id: string)
    requires |id| > 1 && id[0] == '-' && Alphanumeric(id[|id| - 1])
    ensures !AcceptedMilestone(id)
  {
    TrimFacts(id);
  }

  lemma NameIsHyphenated(runes: seq<Rune>, isSpace: Rune -> bool)
    ensures var name := NameOf(SlugFrom("", runes, isSpace)); Hyphenated(name) && |name| <= MAX_SLUG_BYTES
  {
    hide SlugFrom, TrimHyphens;
    SlugGrows("", runes, isSpace);
    TrimmedSlug(SlugFrom("", runes, isSpace));
    PlainIsHyphenated("checkpoint");
  }

  /** generatedCheckpointID, for any label and any time: the time in UTC in front and the random bytes behind. With a
      four-digit UTC year it has at most 63 bytes, and PlanCheckpointAt rejects it exactly for a negative year. */
  method GeneratedCheckpointID(runes: seq<Rune>, isSpace: Rune -> bool, at: Time, random: seq<Byte>)
    returns (id: Option<string>)
    ensures id.Some? <==> |random| >= 8
    ensures id.Some? ==> id.value == Joined(Stamp(InUTC(at)), NameOf(SlugFrom("", runes, isSpace)), Hex(random[..8]))
    ensures id.Some? ==> (AcceptedMilestone(id.value) <==> InUTC(at).year >= 0)
    ensures id.Some? && 0 <= InUTC(at).year <= 9999 ==> |id.value| <= 63 && MilestonePattern(id.value)
    ensures id.Some? ==> |id.value| > 31 && id.value[|id.value| - 16..] == Hex(random[..8])
  {
    hide InUTC, Stamp, TrimHyphens, SlugFrom, Hex, Hyphenated, MilestonePattern, Trim;
    if |random| < 8 {
      return None;
    }
    var slug := Slug(runes, isSpace);
    var name := TrimHyphens(slug);
    if name == "" {
      name := "checkpoint";
    }
    NameIsHyphenated(runes, isSpace);
    var stamp, suffix := Stamp(InUTC(at)), Hex(random[..8]);
    var joined := stamp + "-" + name + "-" + suffix;
    assert joined == Joined(stamp, name, suffix);
    HexIsAlphanumeric(random[..8]);
    if InUTC(at).year >= 0 {
      StampIsAlphanumeric(InUTC(at));
      JoinedIsAccepted(stamp, name, suffix);
    } else {
      NegativeYear(InUTC(at));
      assert joined[|joined| - 1] == suffix[15] && suffix[15] in suffix;
      SignIsRejected(joined);
    }
    assert joined[|joined| - 16..] == suffix;
    return Some(joined);
  }

  lemma NegativeYear(at: UTCTime)
    requires at.Valid() && at.year < 0
    ensures Stamp(at)[0] == '-'
  {
  }

  /** Whatever the labels and times, different random bytes give different identifiers. */
  lemma RandomBytesSeparate(a: string, b: string, x: seq<Byte>, y: seq<Byte>)
    requires |x| == |y| == 8 && |a| >= 16 && |b| >= 16
    requires a[|a| - 16..] == Hex(x) && b[|b| - 16..] == Hex(y) && a == b
    ensures x == y
  {
    HexIsInjective(x, y);
  }
}
