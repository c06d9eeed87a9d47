/** The `Retry-After` reader of src/canonical/retry_after.rs (section 7.1.3 of RFC 7231):
    delay-seconds or an IMF-fixdate, with its civil-date arithmetic in 64-bit integers. */
module RetryAfter {
  import opened Base
  import opened AsciiText

  const U32_MAX: nat := 0xFFFF_FFFF
  const U64_MAX: nat := 0xFFFF_FFFF_FFFF_FFFF
  const I64_MAX: nat := 0x7FFF_FFFF_FFFF_FFFF
  const I64_MIN: int := -0x8000_0000_0000_0000
  const TWO_64: nat := 0x1_0000_0000_0000_0000

  // ----- i64 arithmetic -----

  /** Two's-complement wrap-around, what an unchecked `i64` operation leaves in a release build. */
  function Wrap(x: int): (w: int)
    ensures I64_MIN <= w <= I64_MAX
    ensures I64_MIN <= x <= I64_MAX ==> w == x
  {
    (x - I64_MIN) % TWO_64 + I64_MIN
  }

  /** Division truncates toward zero. */
  function Quot(a: int, b: nat): int
    requires b > 0
  {
    if a >= 0 then a / b else -(-a / b)
  }

  function Checked(x: int): Option<int> {
    if I64_MIN <= x <= I64_MAX then Some(x) else None
  }

  /** Days since 1970-01-01 of a civil date; each operation wraps where it could overflow. */
  function DaysFromCivil(year: int, month: nat, day: nat): Option<int> {
    if !(1 <= month <= 12) || !(1 <= day <= 31) then None
    else Some(DaysFromMarch(if month <= 2 then Wrap(year - 1) else year, DayOfYear(month, day)))
  }

  /** Days from the first of March. */
  function DayOfYear(month: nat, day: nat): int {
    (153 * (if month > 2 then month - 3 else month + 9) + 2) / 5 + day - 1
  }

  function DaysFromMarch(y: int, doy: int): int {
    var era := Quot(y, 400);
    var yoe := Wrap(y - Wrap(era * 400));
    var doe := Wrap(yoe * 365 + Quot(yoe, 4) - Quot(yoe, 100) + doy);
    Wrap(Wrap(Wrap(era * 146097) + doe) - 719468)
  }

  // ----- the calendar it must agree with -----

  predicate Leap(y: int) {
    y % 4 == 0 && (y % 100 != 0 || y % 400 == 0)
  }

  function YearLength(y: int): nat {
    if Leap(y) then 366 else 365
  }

  function MonthLength(y: int, m: nat): nat {
    if m == 2 then (if Leap(y) then 29 else 28)
    else if m == 4 || m == 6 || m == 9 || m == 11 then 30
    else 31
  }

  /** The first day of a year, counted from 1970 year by year in either direction. */
  function YearStart(y: int): int
    decreases if y >= 1970 then y - 1970 else 1970 - y
  {
    if y == 1970 then 0
    else if y > 1970 then YearStart(y - 1) + YearLength(y - 1)
    else YearStart(y + 1) - YearLength(y)
  }

  function MonthStart(y: int, m: nat): nat
    requires 1 <= m <= 12
  {
    if m == 1 then 0 else MonthStart(y, m - 1) + MonthLength(y, m - 1)
  }

  function CivilDays(y: int, m: nat, d: nat): int
    requires 1 <= m <= 12
  {
    YearStart(y) + MonthStart(y, m) + d - 1
  }

  /** Leap days up to the end of a year. */
  function LeapsThrough(y: int): int {
    y / 4 - y / 100 + y / 400
  }

  lemma {:induction false} QuotStep(y: int)
    ensures y / 4 - (y - 1) / 4 == if y % 4 == 0 then 1 else 0
    ensures y / 100 - (y - 1) / 100 == if y % 100 == 0 then 1 else 0
    ensures y / 400 - (y - 1) / 400 == if y % 400 == 0 then 1 else 0
  {
  }

  lemma {:induction false} LeapStep(y: int)
    ensures LeapsThrough(y) - LeapsThrough(y - 1) == if Leap(y) then 1 else 0
  {
    QuotStep(y);
    Multiples(y);
  }

  lemma {:induction false} Multiples(y: int)
    ensures y % 400 == 0 ==> y % 100 == 0
    ensures y % 100 == 0 ==> y % 4 == 0
  {
    var centuries := y / 100;
    assert y == 100 * centuries + y % 100;
    assert y == 4 * (25 * centuries) + y % 100;
  }

  lemma {:induction false} YearStartIs(y: int)
    ensures YearStart(y) == 365 * (y - 1970) + LeapsThrough(y - 1) - 477
    decreases if y >= 1970 then y - 1970 else 1970 - y
  {
    if y > 1970 {
      YearStartIs(y - 1);
      LeapStep(y - 1);
    } else if y < 1970 {
      YearStartIs(y + 1);
      LeapStep(y);
    }
  }

  lemma {:induction false} MonthStartIs(y: int, m: nat)
    requires 1 <= m <= 12
    ensures MonthStart(y, m) ==
      if m <= 2 then (153 * (m + 9) + 2) / 5 - 306
      else (153 * (m - 3) + 2) / 5 + 59 + (if Leap(y) then 1 else 0)
  {
    if m > 1 {
      MonthStartIs(y, m - 1);
    }
  }

  lemma {:induction false} WrapAdd(a: int, b: int)
    ensures Wrap(Wrap(a) + b) == Wrap(a + b)
  {
    var k := (a - I64_MIN) / TWO_64;
    assert Wrap(a) == a - TWO_64 * k;
    var x := a + b - I64_MIN;
    assert x - TWO_64 * k == TWO_64 * (x / TWO_64 - k) + x % TWO_64;
  }

  lemma {:induction false} EraSplits(y: int)
    requires 0 <= y
    ensures
      var era, yoe := y / 400, y - y / 400 * 400;
      && 0 <= yoe <= 399
      && era * 146097 + yoe * 365 + yoe / 4 - yoe / 100 == 365 * y + LeapsThrough(y)
  {
    var era, yoe := y / 400, y - y / 400 * 400;
    assert y == 400 * era + yoe;
    assert y / 4 == 100 * era + yoe / 4;
    assert y / 100 == 4 * era + yoe / 100;
  }

  lemma {:induction false} EraWraps(era: nat, doe: nat)
    ensures Wrap(Wrap(Wrap(era * 146097) + doe) - 719468) == Wrap(era * 146097 + doe - 719468)
  {
    WrapAdd(era * 146097, doe);
    WrapAdd(era * 146097 + doe, -719468);
    hide Wrap;
  }

  /** The wraps of the era arithmetic amount to one. */
  lemma {:induction false} WrapsOnce(y: int, doy: int)
    requires 0 <= y <= I64_MAX && 0 <= doy <= 400
    ensures DaysFromMarch(y, doy) == Wrap(365 * y + LeapsThrough(y) + doy - 719468)
  {
    hide Wrap;
    EraSplits(y);
    hide LeapsThrough;
    var era, yoe := y / 400, y - y / 400 * 400;
    var doe := yoe * 365 + yoe / 4 - yoe / 100 + doy;
    EraWraps(era, doe);
  }

  /** The count from the first of March is the recursive count. */
  lemma {:induction false} CountFromMarch(year: int, month: nat, day: nat)
    requires 1 <= month <= 12
    ensures
      var y := if month <= 2 then year - 1 else year;
      CivilDays(year, month, day) == 365 * y + LeapsThrough(y) + DayOfYear(month, day) - 719468
    ensures year >= 1 && day >= 1 ==> CivilDays(year, month, day) >= I64_MIN
  {
    YearStartIs(year);
    MonthStartIs(year, month);
    LeapStep(year);
    assert year >= 1 ==> LeapsThrough(year - 1) >= 0;
    hide LeapsThrough, YearStart, MonthStart, Leap;
  }

  /** The closed form is the recursive Gregorian count modulo the 64-bit wrap, for every month
      and day of every year from 1 to the last the header's number can hold; so it is that count
      exactly when the count fits. */
  lemma {:induction false} DaysAreCivil(year: int, month: nat, day: nat)
    requires 1 <= year <= I64_MAX && 1 <= month <= 12 && 1 <= day <= 31
    ensures DaysFromCivil(year, month, day) == Some(Wrap(CivilDays(year, month, day)))
    ensures DaysFromCivil(year, month, day) == Some(CivilDays(year, month, day)) <==> CivilDays(year, month, day) <= I64_MAX
  {
    assert 0 <= DayOfYear(month, day) <= 400;
    hide LeapsThrough, DaysFromMarch, CivilDays, DayOfYear, Wrap;
    WrapsOnce(if month <= 2 then year - 1 else year, DayOfYear(month, day));
    CountFromMarch(year, month, day);
  }

  /** The calendar is a calendar: the day after a month's last is the next month's first. */
  lemma {:induction false} MonthsAbut(y: int, m: nat)
    requires 1 <= m <= 12
    ensures
      var (y1, m1) := if m == 12 then (y + 1, 1) else (y, m + 1);
      CivilDays(y1, m1, 1) == CivilDays(y, m, MonthLength(y, m)) + 1
  {
    if m == 12 {
      MonthStartIs(y, 12);
      YearStartIs(y);
      YearStartIs(y + 1);
      LeapStep(y);
      hide YearStart, LeapsThrough;
      assert MonthStart(y + 1, 1) == 0;
    }
  }

  // ----- the two header forms -----

  const MONTHS: seq<string> := ["Jan", "Feb", "Mar", "Apr", "May", "Jun", "Jul", "Aug", "Sep", "Oct", "Nov", "Dec"]

  function MonthName(m: nat): Bytes
    requires 1 <= m <= 12
  {
    Ascii(MONTHS[m - 1])
  }

  function MonthFrom(name: Bytes, m: nat): Option<nat>
    requires 1 <= m <= 13
    decreases 13 - m
  {
    if m == 13 then None else if name == MonthName(m) then Some(m) else MonthFrom(name, m + 1)
  }

  /** The three-letter month abbreviation, 1-based. */
  function MonthNum(name: Bytes): Option<nat> {
    MonthFrom(name, 1)
  }

  const COMMA: Byte := 44
  const GMT: Bytes := [32, 71, 77, 84]

  /** `strip_suffix`. */
  function StripSuffix(s: Bytes, suffix: Bytes): Option<Bytes> {
    if |s| >= |suffix| && s[|s| - |suffix|..] == suffix then Some(s[..|s| - |suffix|]) else None
  }

  /** What follows the first `, `. */
  function AfterComma(s: Bytes): Option<Bytes> {
    if |s| < 2 then None
    else if s[0] == COMMA && s[1] == SPACE then Some(s[2..])
    else AfterComma(s[1..])
  }

  datatype Time = Time(hour: nat, minute: nat, second: nat)

  /** `HH:MM:SS`, exactly three fields in range; a leap second is let through. */
  function ParseTime(s: Bytes): Option<Time> {
    var f := Split(s, COLON);
    if |f| != 3 then None
    else
      match (ParseUnsigned(f[0], U64_MAX), ParseUnsigned(f[1], U64_MAX), ParseUnsigned(f[2], U64_MAX))
      case (Some(h), Some(m), Some(sec)) => if h > 23 || m > 59 || sec > 60 then None else Some(Time(h, m, sec))
      case _ => None
  }

  /** `DD Mon YYYY HH:MM:SS`, exactly four fields. */
  function ParseDateTime(s: Bytes): Option<int> {
    var f := Split(s, SPACE);
    if |f| != 4 then None
    else
      match (ParseUnsigned(f[0], U32_MAX), MonthNum(f[1]), ParseSigned(f[2], I64_MIN, I64_MAX), ParseTime(f[3]))
      case (Some(day), Some(month), Some(year), Some(time)) => Target(year, month, day, time)
      case _ => None
  }

  /** The unix second, if it is neither before 1970 nor beyond an `i64`. */
  function Target(year: int, month: nat, day: nat, time: Time): Option<int> {
    match DaysFromCivil(year, month, day)
    case None => None
    case Some(days) =>
      match Checked(days * 86400)
      case None => None
      case Some(secs) =>
        match Checked(secs + time.hour * 3600 + time.minute * 60 + time.second)
        case None => None
        case Some(total) => if total < 0 then None else Some(total)
  }

  function ParseImfFixdate(s: Bytes): Option<int> {
    match StripSuffix(s, GMT)
    case None => None
    case Some(body) =>
      match AfterComma(body)
      case None => None
      case Some(rest) => ParseDateTime(rest)
  }

  function ParseRetryAfter(header: Bytes, now: nat): Option<nat> {
    var h := Trim(header);
    match ParseUnsigned(h, U32_MAX)
    case Some(secs) => Some(secs)
    case None =>
      match ParseImfFixdate(h)
      case None => None
      case Some(target) => Some(Min(if target > now then target - now else 0, U32_MAX))
  }

  // ----- reading a well-formed date -----

  /** A date as a sender spells it; each number as any text that parses to it. */
  datatype Spelt = Spelt(dayName: Bytes, day: Bytes, month: nat, year: Bytes, hour: Bytes, minute: Bytes, second: Bytes)

  predicate Letters(s: Bytes) {
    s != [] && forall b <- s :: 65 <= b <= 90 || 97 <= b <= 122
  }

  predicate WellSpelt(d: Spelt) {
    && Letters(d.dayName) && 1 <= d.month <= 12
    && ParseUnsigned(d.day, U32_MAX).Some? && ParseUnsigned(d.year, I64_MAX).Some?
    && ParseUnsigned(d.hour, U64_MAX).Some? && ParseUnsigned(d.minute, U64_MAX).Some? && ParseUnsigned(d.second, U64_MAX).Some?
  }

  function Clock(d: Spelt): Bytes {
    d.hour + [COLON] + (d.minute + [COLON] + d.second)
  }

  function DateTime(d: Spelt): Bytes
    requires 1 <= d.month <= 12
  {
    d.day + [SPACE] + (MonthName(d.month) + [SPACE] + (d.year + [SPACE] + Clock(d)))
  }

  function Header(d: Spelt): Bytes
    requires 1 <= d.month <= 12
  {
    d.dayName + [COMMA, SPACE] + DateTime(d) + GMT
  }

  lemma {:induction false} NoSuch(s: Bytes, max: nat, b: Byte)
    requires ParseUnsigned(s, max).Some? && b != 43 && !IsDigitByte(b)
    ensures b !in s
  {
    if b in s {
      NumberBytes(s, max, b);
    }
  }

  lemma {:induction false} ClockHasNoSpace(d: Spelt)
    requires WellSpelt(d)
    ensures SPACE !in Clock(d)
  {
    NoSuch(d.hour, U64_MAX, SPACE);
    NoSuch(d.minute, U64_MAX, SPACE);
    NoSuch(d.second, U64_MAX, SPACE);
    hide ParseUnsigned, Letters, WellSpelt;
  }

  lemma {:induction false} ClockParses(d: Spelt)
    requires WellSpelt(d)
    ensures
      var h, m, s := ParseUnsigned(d.hour, U64_MAX).value, ParseUnsigned(d.minute, U64_MAX).value, ParseUnsigned(d.second, U64_MAX).value;
      ParseTime(Clock(d)) == if h <= 23 && m <= 59 && s <= 60 then Some(Time(h, m, s)) else None
  {
    NoSuch(d.hour, U64_MAX, COLON);
    NoSuch(d.minute, U64_MAX, COLON);
    NoSuch(d.second, U64_MAX, COLON);
    hide ParseUnsigned, Letters, Split;
    ThreeFields(d.hour, d.minute, d.second);
  }

  lemma {:induction false} MonthReadsBack(m: nat)
    requires 1 <= m <= 12
    ensures MonthNum(MonthName(m)) == Some(m) && SPACE !in MonthName(m)
  {
    MonthNamesDiffer();
    MonthFound(m, 1);
  }

  lemma {:induction false} MonthNamesDiffer()
    ensures forall i, j :: 1 <= i < j <= 12 ==> MonthName(i) != MonthName(j)
    ensures forall i :: 1 <= i <= 12 ==> SPACE !in MonthName(i)
  {
    forall i | 1 <= i <= 12
      ensures |MonthName(i)| == 3 && SPACE !in MonthName(i)
      ensures forall k :: 0 <= k < 3 ==> MonthName(i)[k] == MONTHS[i - 1][k] as int
    {
    }
    hide Ascii, MonthName;
    forall i, j | 1 <= i < j <= 12
      ensures MonthName(i) != MonthName(j)
    {
      assert MONTHS[i - 1][0] != MONTHS[j - 1][0] || MONTHS[i - 1][1] != MONTHS[j - 1][1] || MONTHS[i - 1][2] != MONTHS[j - 1][2];
    }
  }

  lemma {:induction false} MonthFound(m: nat, from: nat)
    requires 1 <= from <= m <= 12
    requires forall i, j :: 1 <= i < j <= 12 ==> MonthName(i) != MonthName(j)
    ensures MonthFrom(MonthName(m), from) == Some(m)
    decreases m - from
  {
    hide MonthName;
    if from < m {
      assert MonthName(from) != MonthName(m);
      MonthFound(m, from + 1);
    }
  }

  lemma {:induction false} YearParses(s: Bytes)
    requires ParseUnsigned(s, I64_MAX).Some?
    ensures ParseSigned(s, I64_MIN, I64_MAX) == Some(ParseUnsigned(s, I64_MAX).value)
  {
    NoSuch(s, I64_MAX, 45);
    assert s != [] ==> s[0] in s;
  }

  lemma {:induction false} DateTimeParses(d: Spelt)
    requires WellSpelt(d)
    ensures ParseDateTime(DateTime(d)) ==
      match ParseTime(Clock(d))
      case Some(time) => Target(ParseUnsigned(d.year, I64_MAX).value, d.month, ParseUnsigned(d.day, U32_MAX).value, time)
      case None => None
  {
    NoSuch(d.day, U32_MAX, SPACE);
    NoSuch(d.year, I64_MAX, SPACE);
    MonthReadsBack(d.month);
    ClockHasNoSpace(d);
    YearParses(d.year);
    hide ParseUnsigned, ParseSigned, Letters, Clock, ParseTime, Target, MonthNum, MonthName;
    FourFields(d.day, MonthName(d.month), d.year, Clock(d));
    hide Split;
  }

  lemma {:induction false} ThreeFields(a: Bytes, b: Bytes, c: Bytes)
    requires COLON !in a && COLON !in b && COLON !in c
    ensures Split(a + [COLON] + (b + [COLON] + c), COLON) == [a, b, c]
  {
    hide Split;
    SplitFirst(a, COLON, b + [COLON] + c);
    SplitFirst(b, COLON, c);
    SplitWhole(c, COLON);
  }

  lemma {:induction false} FourFields(a: Bytes, b: Bytes, c: Bytes, d: Bytes)
    requires SPACE !in a && SPACE !in b && SPACE !in c && SPACE !in d
    ensures Split(a + [SPACE] + (b + [SPACE] + (c + [SPACE] + d)), SPACE) == [a, b, c, d]
  {
    hide Split;
    SplitFirst(a, SPACE, b + [SPACE] + (c + [SPACE] + d));
    SplitFirst(b, SPACE, c + [SPACE] + d);
    SplitFirst(c, SPACE, d);
    SplitWhole(d, SPACE);
  }

  lemma {:induction false} CommaFound(name: Bytes, rest: Bytes)
    requires COMMA !in name
    ensures AfterComma(name + [COMMA, SPACE] + rest) == Some(rest)
  {
    var s := name + [COMMA, SPACE] + rest;
    if name == [] {
      assert s[2..] == rest;
    } else {
      assert s[1..] == name[1..] + [COMMA, SPACE] + rest && s[0] in name;
      CommaFound(name[1..], rest);
    }
  }

  lemma {:induction false} HeaderIsNoNumber(d: Spelt)
    requires WellSpelt(d)
    ensures Trim(Header(d)) == Header(d) && ParseUnsigned(Header(d), U32_MAX).None?
  {
    var h := Header(d);
    assert h[0] == d.dayName[0] && d.dayName[0] in d.dayName && Last(h) == 84;
    hide Header, WellSpelt;
    NothingToTrim(h);
    if ParseUnsigned(h, U32_MAX).Some? {
      NumberBytes(h, U32_MAX, h[0]);
    }
  }

  lemma {:induction false} SuffixStrips(body: Bytes, suffix: Bytes)
    ensures StripSuffix(body + suffix, suffix) == Some(body)
  {
    assert (body + suffix)[|body|..] == suffix && (body + suffix)[..|body|] == body;
  }

  lemma {:induction false} HeaderParses(d: Spelt)
    requires WellSpelt(d)
    ensures ParseImfFixdate(Header(d)) == ParseDateTime(DateTime(d))
  {
    assert COMMA !in d.dayName;
    hide DateTime, ParseDateTime, WellSpelt, StripSuffix, AfterComma;
    SuffixStrips(d.dayName + [COMMA, SPACE] + DateTime(d), GMT);
    CommaFound(d.dayName, DateTime(d));
  }

  // ----- what a well-formed date means -----

  /** The fields the reader checks. */
  predicate InRange(d: Spelt)
    requires WellSpelt(d)
  {
    && 1 <= ParseUnsigned(d.day, U32_MAX).value <= 31
    && ParseUnsigned(d.hour, U64_MAX).value <= 23
    && ParseUnsigned(d.minute, U64_MAX).value <= 59
    && ParseUnsigned(d.second, U64_MAX).value <= 60
  }

  /** The month has such a day. */
  predicate RealDay(d: Spelt)
    requires WellSpelt(d)
  {
    1 <= ParseUnsigned(d.day, U32_MAX).value <= MonthLength(ParseUnsigned(d.year, I64_MAX).value, d.month)
  }

  function Days(d: Spelt): int
    requires WellSpelt(d)
  {
    CivilDays(ParseUnsigned(d.year, I64_MAX).value, d.month, ParseUnsigned(d.day, U32_MAX).value)
  }

  function SecondOfDay(d: Spelt): nat
    requires WellSpelt(d)
  {
    ParseUnsigned(d.hour, U64_MAX).value * 3600 + ParseUnsigned(d.minute, U64_MAX).value * 60 + ParseUnsigned(d.second, U64_MAX).value
  }

  /** The Gregorian moment, in unix seconds. */
  function Moment(d: Spelt): int
    requires WellSpelt(d)
  {
    Days(d) * 86400 + SecondOfDay(d)
  }

  /** The moment the wrapped day count gives. */
  function WrappedMoment(d: Spelt): int
    requires WellSpelt(d)
  {
    Wrap(Days(d)) * 86400 + SecondOfDay(d)
  }

  /** The delay to a unix second, never negative, capped at 32 bits. */
  function Until(target: int, now: nat): nat {
    Min(if target > now then target - now else 0, U32_MAX)
  }

  /** The delay a date promises: to its Gregorian moment. A moment before 1970 or beyond 64 bits
      of seconds is none at all, and neither is a day the month does not have or a time field out
      of range. */
  function Promised(d: Spelt, now: nat): Option<nat>
    requires WellSpelt(d)
  {
    if InRange(d) && RealDay(d) && 0 <= Moment(d) <= I64_MAX then Some(Until(Moment(d), now)) else None
  }

  /** Dates so far off that their day count leaves 64 bits and wraps to that of a nearer day. */
  predicate ComesRound(d: Spelt)
    requires WellSpelt(d)
  {
    InRange(d) && Days(d) > I64_MAX && 0 <= WrappedMoment(d) <= I64_MAX
  }

  /** Dates on a day past their month's end, which is taken for a day of the next month. */
  predicate RollsOver(d: Spelt)
    requires WellSpelt(d)
  {
    InRange(d) && !RealDay(d) && 0 <= Moment(d) <= I64_MAX
  }

  /** A well-spelt date from year 1 on is given the delay it promises, except exactly when its
      day count comes round or its day rolls over into the next month. Then no delay is promised
      and one is made up: the distance to the day the wrapped count, or the next month, makes
      of it. */
  lemma {:induction false} DateMeansItsDelay(d: Spelt, now: nat)
    requires WellSpelt(d) && ParseUnsigned(d.year, I64_MAX).value >= 1
    ensures ParseRetryAfter(Header(d), now) == Promised(d, now) <==> !ComesRound(d) && !RollsOver(d)
    ensures ComesRound(d) || RollsOver(d) ==>
      Promised(d, now) == None && ParseRetryAfter(Header(d), now) == Some(Until(WrappedMoment(d), now))
    ensures RollsOver(d) ==> WrappedMoment(d) == Moment(d)
  {
    hide Header, WellSpelt, ParseUnsigned, ParseRetryAfter, InRange, RealDay, Days, Moment, WrappedMoment, Until;
    DateIsItsTarget(d, now);
    MomentFromYearOne(d);
  }

  /** Where a day past its month's end lands. */
  lemma {:induction false} DayRollsOver(y: int, m: nat, day: nat)
    requires 1 <= m <= 12 && MonthLength(y, m) < day <= 31
    ensures
      var rest := day - MonthLength(y, m);
      m < 12 && 1 <= rest <= MonthLength(y, m + 1) && CivilDays(y, m, day) == CivilDays(y, m + 1, rest)
  {
    assert m < 12;
    assert MonthStart(y, m + 1) == MonthStart(y, m) + MonthLength(y, m);
    hide YearStart;
  }

  /** A real date now past is told to retry at once, unless it is before 1970 or (with a clock
      itself beyond 63 bits) beyond 64 bits of seconds: then it is no delay at all. */
  lemma {:induction false} PastDateRetriesAtOnce(d: Spelt, now: nat)
    requires WellSpelt(d) && ParseUnsigned(d.year, I64_MAX).value >= 1
    requires InRange(d) && RealDay(d) && Moment(d) <= now <= U64_MAX
    ensures ParseRetryAfter(Header(d), now) == if 0 <= Moment(d) <= I64_MAX then Some(0) else None
  {
    hide Header, CivilDays, WellSpelt, ParseUnsigned, ParseRetryAfter, Wrap, RealDay, InRange, Days, SecondOfDay;
    DateMeansItsDelay(d, now);
    MomentFromYearOne(d);
  }

  /** From year 1 on the wrap matters exactly when the day count has left 64 bits, and then the
      moment has too. */
  lemma {:induction false} MomentFromYearOne(d: Spelt)
    requires WellSpelt(d) && ParseUnsigned(d.year, I64_MAX).value >= 1
    ensures InRange(d) && Days(d) <= I64_MAX ==> WrappedMoment(d) == Moment(d)
    ensures Days(d) > I64_MAX ==> Moment(d) > I64_MAX
  {
    hide CivilDays, ParseUnsigned, Wrap, SecondOfDay;
    if InRange(d) {
      CountFromMarch(ParseUnsigned(d.year, I64_MAX).value, d.month, ParseUnsigned(d.day, U32_MAX).value);
    }
  }

  /** What the reader makes of any well-spelt date. */
  lemma {:induction false} DateIsItsTarget(d: Spelt, now: nat)
    requires WellSpelt(d) && ParseUnsigned(d.year, I64_MAX).value >= 1
    ensures ParseRetryAfter(Header(d), now) ==
      if InRange(d) && 0 <= WrappedMoment(d) <= I64_MAX then Some(Until(WrappedMoment(d), now)) else None
  {
    hide Header, ParseImfFixdate, WellSpelt, ParseUnsigned, Days, SecondOfDay, InRange, Wrap, Trim;
    HeaderIsNoNumber(d);
    FixdateIs(d);
  }

  lemma {:induction false} FixdateIs(d: Spelt)
    requires WellSpelt(d) && ParseUnsigned(d.year, I64_MAX).value >= 1
    ensures ParseImfFixdate(Header(d)) ==
      if InRange(d) && 0 <= WrappedMoment(d) <= I64_MAX then Some(WrappedMoment(d)) else None
  {
    hide Header, ParseImfFixdate, ParseDateTime, DateTime, Clock, ParseTime, CivilDays, Letters, ParseUnsigned,
         Target, Wrap;
    HeaderParses(d);
    DateTimeParses(d);
    ClockParses(d);
    var time := ParseTime(Clock(d));
    if time.Some? {
      TargetIs(ParseUnsigned(d.year, I64_MAX).value, d.month, ParseUnsigned(d.day, U32_MAX).value, time.value);
    }
  }

  lemma {:induction false} TargetIs(year: int, month: nat, day: nat, time: Time)
    requires 1 <= year <= I64_MAX && 1 <= month <= 12 && time.hour <= 23 && time.minute <= 59 && time.second <= 60
    ensures
      var target := Wrap(CivilDays(year, month, day)) * 86400 + (time.hour * 3600 + time.minute * 60 + time.second);
      Target(year, month, day, time) == if 1 <= day <= 31 && 0 <= target <= I64_MAX then Some(target) else None
  {
    hide YearStart, MonthStart, LeapsThrough;
    if 1 <= day <= 31 {
      DaysAreCivil(year, month, day);
      hide DaysFromCivil, CivilDays, Wrap;
    }
  }

  // ----- three dates that are not given what the header's comment promises -----

  /** A spelling of a date by its numbers. */
  function InDigits(dayName: Bytes, day: nat, month: nat, year: nat, hour: nat): Spelt {
    Spelt(dayName, Digits(day), month, Digits(year), Digits(hour), Digits(0), Digits(0))
  }

  lemma {:induction false} DigitsRead(dayName: Bytes, day: nat, month: nat, year: nat, hour: nat)
    requires Letters(dayName) && 1 <= day <= 31 && 1 <= month <= 12 && 1 <= year <= I64_MAX && hour <= 23
    ensures
      var d := InDigits(dayName, day, month, year, hour);
      && WellSpelt(d) && ParseUnsigned(d.year, I64_MAX).value == year && InRange(d)
      && (RealDay(d) <==> day <= MonthLength(year, month))
      && Days(d) == CivilDays(year, month, day) && SecondOfDay(d) == hour * 3600
  {
    DigitsParse(day, U32_MAX);
    DigitsParse(year, I64_MAX);
    DigitsParse(hour, U64_MAX);
    DigitsParse(0, U64_MAX);
    hide Digits, ParseUnsigned, Letters, CivilDays, MonthLength;
  }

  /** A day in the year 50505469855535079 is 2^64 days after the epoch: a header naming one in
      the morning of it is told to come back in an hour. */
  lemma {:induction false} FabricatedDelay(dayName: Bytes)
    requires Letters(dayName)
    ensures
      var d := InDigits(dayName, 22, 2, 50505469855535079, 1);
      WellSpelt(d) && RealDay(d) && ParseRetryAfter(Header(d), 0) == Some(3600) && Promised(d, 0) == None
  {
    hide Header, ParseRetryAfter, CivilDays, WellSpelt, InRange, RealDay, Days, SecondOfDay, InDigits, Letters,
         ParseUnsigned;
    DigitsRead(dayName, 22, 2, 50505469855535079, 1);
    FarDay();
    assert Wrap(TWO_64) == 0;
    DateMeansItsDelay(InDigits(dayName, 22, 2, 50505469855535079, 1), 0);
  }

  lemma {:induction false} FarDay()
    ensures CivilDays(50505469855535079, 2, 22) == TWO_64
  {
    YearStartIs(50505469855535079);
    hide YearStart;
    assert MonthStart(50505469855535079, 2) == 31;
  }

  /** There is no 31 February; a header naming it is answered with the delay to 3 March. */
  lemma {:induction false} UnrealDayIsAnswered(dayName: Bytes)
    requires Letters(dayName)
    ensures
      var d := InDigits(dayName, 31, 2, 2030, 0);
      && WellSpelt(d) && !RealDay(d) && Promised(d, 0) == None
      && ParseRetryAfter(Header(d), 0) == Some(Until(CivilDays(2030, 3, 3) * 86400, 0)) == Some(1898726400)
  {
    hide Header, ParseRetryAfter, CivilDays, WellSpelt, InRange, RealDay, Days, SecondOfDay, InDigits, Letters,
         ParseUnsigned;
    DigitsRead(dayName, 31, 2, 2030, 0);
    DayRollsOver(2030, 2, 31);
    ThirdOfMarch();
    DateMeansItsDelay(InDigits(dayName, 31, 2, 2030, 0), 0);
  }

  lemma {:induction false} ThirdOfMarch()
    ensures CivilDays(2030, 3, 3) * 86400 == 1898726400
  {
    YearStartIs(2030);
    hide YearStart;
    assert MonthStart(2030, 3) == 59;
  }

  /** A date long past, but before 1970, is no delay at all rather than none to wait. */
  lemma {:induction false} Before1970IsNoDelay(dayName: Bytes, now: nat)
    requires Letters(dayName) && now <= U64_MAX
    ensures
      var d := InDigits(dayName, 31, 12, 1969, 0);
      WellSpelt(d) && RealDay(d) && Moment(d) == -86400 && ParseRetryAfter(Header(d), now) == None
  {
    hide Header, ParseRetryAfter, CivilDays, WellSpelt, InRange, RealDay, Days, SecondOfDay, InDigits, Letters,
         ParseUnsigned;
    DigitsRead(dayName, 31, 12, 1969, 0);
    LastOf1969();
    PastDateRetriesAtOnce(InDigits(dayName, 31, 12, 1969, 0), now);
  }

  lemma {:induction false} LastOf1969()
    ensures CivilDays(1969, 12, 31) == -1
  {
    MonthsAbut(1969, 12);
    assert CivilDays(1970, 1, 1) == 0;
  }

  /** Bare seconds pass through whatever the clock says, unless they overflow 32 bits. */
  lemma {:induction false} SecondsPassThrough(n: nat, now: nat)
    ensures ParseRetryAfter(Digits(n), now) == if n <= U32_MAX then Some(n) else None
  {
    DigitsReadBack(n);
    DigitsParse(n, U32_MAX);
    var s := Digits(n);
    assert s[0] in s && Last(s) in s;
    NothingToTrim(s);
    if |s| >= 4 {
      assert s[|s| - 4..][0] == s[|s| - 4] && s[|s| - 4] in s;
    }
  }
}
