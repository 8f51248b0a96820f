// From milliseconds since the Unix epoch to RFC 3339 text: the civil date by nested divisions against the
// calendar of section 5.7 and Appendix C of RFC 3339, and the fixed-width text of section 5.6.

module Calendar {
  import opened Common

  datatype Date = Date(year: int, month: int, day: int)

  const MILLIS_PER_DAY := 86_400_000

  /** The largest timestamp that has a text, the last millisecond of the year 9999. */
  const LAST_TIMESTAMP := 253_402_300_799_999

  // ---------------------------------------------------------------- the calendar

  predicate IsLeap(year: int) { year % 4 == 0 && (year % 100 != 0 || year % 400 == 0) }

  function DaysInYear(year: int): int { if IsLeap(year) then 366 else 365 }

  function DaysInMonth(year: int, month: int): int {
    if month == 2 then if IsLeap(year) then 29 else 28
    else if month == 4 || month == 6 || month == 9 || month == 11 then 30
    else 31
  }

  predicate ValidDate(d: Date) {
    1 <= d.month <= 12 && 1 <= d.day <= DaysInMonth(d.year, d.month)
  }

  function DaysBeforeYear(year: int): int
    requires year >= 1970
    decreases year
  {
    if year == 1970 then 0 else DaysBeforeYear(year - 1) + DaysInYear(year - 1)
  }

  function DaysBeforeMonth(year: int, month: int): int
    requires 1 <= month <= 13
    decreases month
  {
    if month == 1 then 0 else DaysBeforeMonth(year, month - 1) + DaysInMonth(year, month - 1)
  }

  /** The number of days since 1970-01-01, counted month by month and year by year. */
  function DayNumber(d: Date): int
    requires ValidDate(d) && d.year >= 1970
  {
    DaysBeforeYear(d.year) + DaysBeforeMonth(d.year, d.month) + d.day - 1
  }

  /** The calendar successor of a date. */
  function NextDate(d: Date): Date {
    if d.day < DaysInMonth(d.year, d.month) then Date(d.year, d.month, d.day + 1)
    else if d.month < 12 then Date(d.year, d.month + 1, 1)
    else Date(d.year + 1, 1, 1)
  }

  predicate Earlier(a: Date, b: Date) {
    || a.year < b.year
    || (a.year == b.year && (a.month < b.month || (a.month == b.month && a.day < b.day)))
  }

  lemma {:induction false} MonthsFillYear(year: int, month: int, later: int)
    requires 1 <= month < later <= 13
    ensures DaysBeforeMonth(year, month) + DaysInMonth(year, month) <= DaysBeforeMonth(year, later)
    ensures DaysBeforeMonth(year, 13) == DaysInYear(year)
    decreases later
  {
    if later > month + 1 { MonthsFillYear(year, month, later - 1); }
    assert DaysBeforeMonth(year, 3) == DaysBeforeMonth(year, 2) + DaysInMonth(year, 2);
    assert DaysBeforeMonth(year, 5) == DaysBeforeMonth(year, 3) + 61;
    assert DaysBeforeMonth(year, 7) == DaysBeforeMonth(year, 5) + 61;
    assert DaysBeforeMonth(year, 9) == DaysBeforeMonth(year, 7) + 62;
    assert DaysBeforeMonth(year, 11) == DaysBeforeMonth(year, 9) + 61;
    assert DaysBeforeMonth(year, 13) == DaysBeforeMonth(year, 11) + 61;
  }

  lemma {:induction false} YearsAddUp(year: int, later: int)
    requires 1970 <= year < later
    ensures DaysBeforeYear(year) + DaysInYear(year) <= DaysBeforeYear(later)
    decreases later
  {
    if later > year + 1 { YearsAddUp(year, later - 1); }
  }

  lemma WithinYear(d: Date)
    requires ValidDate(d) && d.year >= 1970
    ensures DaysBeforeYear(d.year) <= DayNumber(d) < DaysBeforeYear(d.year) + DaysInYear(d.year)
  {
    MonthsFillYear(d.year, d.month, 13);
    if d.month > 1 { MonthsFillYear(d.year, 1, d.month); }
  }

  lemma EarlierHasSmallerNumber(a: Date, b: Date)
    requires ValidDate(a) && ValidDate(b) && a.year >= 1970 && b.year >= 1970 && Earlier(a, b)
    ensures DayNumber(a) < DayNumber(b)
  {
    WithinYear(a);
    WithinYear(b);
    if a.year < b.year {
      YearsAddUp(a.year, b.year);
    } else if a.month < b.month {
      MonthsFillYear(a.year, a.month, b.month);
    }
  }

  /** Day numbers order dates, so different dates have different numbers. */
  lemma DayNumberOrdersDates(a: Date, b: Date)
    requires ValidDate(a) && ValidDate(b) && a.year >= 1970 && b.year >= 1970
    ensures Earlier(a, b) <==> DayNumber(a) < DayNumber(b)
    ensures a == b <==> DayNumber(a) == DayNumber(b)
  {
    if Earlier(a, b) { EarlierHasSmallerNumber(a, b); }
    if Earlier(b, a) { EarlierHasSmallerNumber(b, a); }
    assert Earlier(a, b) || Earlier(b, a) || a == b;
  }

  lemma NextDateIsNextNumber(d: Date)
    requires ValidDate(d) && d.year >= 1970
    ensures ValidDate(NextDate(d)) && NextDate(d).year >= 1970
    ensures DayNumber(NextDate(d)) == DayNumber(d) + 1
  {
    MonthsFillYear(d.year, d.month, 13);
    assert DaysBeforeMonth(d.year, d.month + 1) == DaysBeforeMonth(d.year, d.month) + DaysInMonth(d.year, d.month);
  }

  // ---------------------------------------------------------------- the conversion by divisions

  function YearOfEra(dayOfEra: int): int {
    (dayOfEra - dayOfEra / 1_460 + dayOfEra / 36_524 - dayOfEra / 146_096) / 365
  }

  // The date of a day counted from 1 March.
  function FromMarchYear(marchYear: int, dayOfYear: int): Date {
    var monthPrime := (5 * dayOfYear + 2) / 153;
    var day := dayOfYear - (153 * monthPrime + 2) / 5 + 1;
    var month := monthPrime + (if monthPrime < 10 then 3 else -9);
    Date(marchYear + (if month <= 2 then 1 else 0), month, day)
  }

  function FromEra(era: int, dayOfEra: int): Date {
    var yearOfEra := YearOfEra(dayOfEra);
    FromMarchYear(yearOfEra + era * 400, dayOfEra - (365 * yearOfEra + yearOfEra / 4 - yearOfEra / 100))
  }

  // The division of the source truncates; every dividend here is non-negative.
  function CivilDate(days: nat): Date {
    var z := days + 719_468;
    var era := z / 146_097;
    FromEra(era, z - era * 146_097)
  }

  // A day of a 400-year era as centuries, four-year cycles, years and days, years starting in March.
  lemma EraParts(dayOfEra: int) returns (c: int, q: int, y: int, r: int)
    requires 0 <= dayOfEra < 146_097
    ensures dayOfEra == 36_524 * c + 1_461 * q + 365 * y + r
    ensures 0 <= c <= 3 && 0 <= q <= 24 && 0 <= y <= 3 && 0 <= r <= 365
    ensures r == 365 ==> y == 3 && (q < 24 || c == 3)
  {
    c := if dayOfEra / 36_524 == 4 then 3 else dayOfEra / 36_524;
    var rest := dayOfEra - 36_524 * c;
    q := rest / 1_461;
    var days := rest - 1_461 * q;
    y := if days / 365 == 4 then 3 else days / 365;
    r := days - 365 * y;
  }

  lemma YearOfEraParts(dayOfEra: int, c: int, q: int, y: int, r: int)
    requires dayOfEra == 36_524 * c + 1_461 * q + 365 * y + r
    requires 0 <= c <= 3 && 0 <= q <= 24 && 0 <= y <= 3 && 0 <= r <= 365
    requires r == 365 ==> y == 3 && (q < 24 || c == 3)
    ensures YearOfEra(dayOfEra) == 100 * c + 4 * q + y
  {
    var carry := 24 * c + q + 365 * y + r;
    var e := if carry >= 1_460 then 1 else 0;
    assert dayOfEra == 1_460 * (25 * c + q) + carry;
    assert dayOfEra / 1_460 == 25 * c + q + e;
    assert dayOfEra / 36_524 - dayOfEra / 146_096 == c;
    assert 0 <= r - e < 365;
    var n := 36_500 * c + 1_460 * q + 365 * y + r - e;
    assert n == 365 * (100 * c + 4 * q + y) + (r - e);
  }

  // Everything the conversion computes, relative to the year that starts in March.
  ghost predicate MarchYear(dayOfEra: int, yearOfEra: int, dayOfYear: int) {
    && 0 <= yearOfEra < 400
    && 0 <= dayOfYear <= 365
    && dayOfEra == 365 * yearOfEra + yearOfEra / 4 - yearOfEra / 100 + dayOfYear
    && (dayOfYear == 365 ==> (yearOfEra + 1) % 4 == 0 && ((yearOfEra + 1) % 100 != 0 || yearOfEra == 399))
  }

  lemma DayOfEraSplits(dayOfEra: int)
    requires 0 <= dayOfEra < 146_097
    ensures var y := YearOfEra(dayOfEra); MarchYear(dayOfEra, y, dayOfEra - (365 * y + y / 4 - y / 100))
  {
    var c, q, y, r := EraParts(dayOfEra);
    YearOfEraParts(dayOfEra, c, q, y, r);
    var year := 100 * c + 4 * q + y;
    assert year / 100 == c;
    assert year / 4 == 25 * c + q;
    if r == 365 { assert (year + 1) % 4 == 0; }
  }

  function Leaps(year: int): int { year / 4 - year / 100 + year / 400 }

  lemma FourStep(year: int)
    ensures year / 4 == (year - 1) / 4 + if year % 4 == 0 then 1 else 0
  {}

  lemma CenturyStep(year: int)
    ensures year / 100 == (year - 1) / 100 + if year % 100 == 0 then 1 else 0
  {}

  lemma EraStep(year: int)
    ensures year / 400 == (year - 1) / 400 + if year % 400 == 0 then 1 else 0
  {}

  lemma Multiples(year: int)
    ensures year % 100 == 0 ==> year % 4 == 0
    ensures year % 400 == 0 ==> year % 100 == 0
  {
    if year % 100 == 0 { assert year == 4 * (25 * (year / 100)); }
    if year % 400 == 0 { assert year == 100 * (4 * (year / 400)); }
  }

  lemma LeapStep(year: int)
    ensures Leaps(year) == Leaps(year - 1) + if IsLeap(year) then 1 else 0
  {
    FourStep(year);
    CenturyStep(year);
    EraStep(year);
    Multiples(year);
  }

  lemma {:induction false} DaysBeforeYearCounts(year: int)
    requires year >= 1970
    ensures DaysBeforeYear(year) == 365 * (year - 1970) + Leaps(year - 1) - 477
    decreases year
  {
    if year > 1970 {
      DaysBeforeYearCounts(year - 1);
      LeapStep(year - 1);
    }
  }

  lemma MonthsFromMarch(year: int)
    ensures DaysBeforeMonth(year, 1) == 0 && DaysBeforeMonth(year, 2) == 31
    ensures var march := 59 + if IsLeap(year) then 1 else 0;
      && DaysBeforeMonth(year, 3) == march && DaysBeforeMonth(year, 4) == march + 31
      && DaysBeforeMonth(year, 5) == march + 61 && DaysBeforeMonth(year, 6) == march + 92
      && DaysBeforeMonth(year, 7) == march + 122 && DaysBeforeMonth(year, 8) == march + 153
      && DaysBeforeMonth(year, 9) == march + 184 && DaysBeforeMonth(year, 10) == march + 214
      && DaysBeforeMonth(year, 11) == march + 245 && DaysBeforeMonth(year, 12) == march + 275
  {
    assert DaysBeforeMonth(year, 2) == 31;
    assert DaysBeforeMonth(year, 4) == DaysBeforeMonth(year, 3) + 31;
    assert DaysBeforeMonth(year, 6) == DaysBeforeMonth(year, 5) + 31;
    assert DaysBeforeMonth(year, 8) == DaysBeforeMonth(year, 7) + 31;
    assert DaysBeforeMonth(year, 10) == DaysBeforeMonth(year, 9) + 30;
  }

  // The month that a day of the March year falls in, and how far into the January year.
  lemma MonthOfMarchYear(marchYear: int, dayOfYear: int)
    requires 0 <= dayOfYear <= 365
    requires dayOfYear == 365 ==> IsLeap(marchYear + 1)
    ensures var d := FromMarchYear(marchYear, dayOfYear);
      && ValidDate(d)
      && d.year == marchYear + (if d.month <= 2 then 1 else 0)
      && (d.month <= 2 <==> dayOfYear >= 306)
      && DaysBeforeMonth(d.year, d.month) + d.day - 1
         == (if d.month <= 2 then dayOfYear - 306 else dayOfYear + 59 + (if IsLeap(marchYear) then 1 else 0))
  {
    MonthsFromMarch(marchYear);
    MonthsFromMarch(marchYear + 1);
    var m := (5 * dayOfYear + 2) / 153;
    assert 0 <= m <= 11 && 153 * m <= 5 * dayOfYear + 2 < 153 * m + 153;
    MonthOffsets(m);
  }

  lemma MonthOffsets(m: int)
    requires 0 <= m <= 11
    ensures (153 * m + 2) / 5 == [0, 31, 61, 92, 122, 153, 184, 214, 245, 275, 306, 337][m]
  {}

  lemma LeapEra(era: int, yearOfEra: int)
    requires 0 <= yearOfEra < 400
    ensures Leaps(400 * era + yearOfEra) == 97 * era + yearOfEra / 4 - yearOfEra / 100
    ensures (yearOfEra + 1) % 4 == 0 && ((yearOfEra + 1) % 100 != 0 || yearOfEra == 399)
            ==> IsLeap(400 * era + yearOfEra + 1)
  {
    assert (400 * era + yearOfEra) / 4 == 100 * era + yearOfEra / 4;
    assert (400 * era + yearOfEra) / 100 == 4 * era + yearOfEra / 100;
    assert (400 * era + yearOfEra) / 400 == era;
    var next := yearOfEra + 1;
    assert (400 * era + next) % 4 == next % 4;
    assert (400 * era + next) % 100 == next % 100;
    if next == 400 { assert (400 * era + next) % 400 == 0; }
  }

  lemma MarchYearSum(era: int, year: int, fours: int, centuries: int, dayOfEra: int)
    ensures 365 * (year + era * 400) + (97 * era + fours - centuries) + (dayOfEra - (365 * year + fours - centuries))
         == era * 146_097 + dayOfEra
  {}

  lemma MarchYearParts(era: int, dayOfEra: int, year: int, dayOfYear: int)
    requires MarchYear(dayOfEra, year, dayOfYear)
    ensures dayOfYear == 365 ==> IsLeap(year + era * 400 + 1)
    ensures 365 * (year + era * 400) + Leaps(year + era * 400) + dayOfYear == era * 146_097 + dayOfEra
  {
    LeapEra(era, year);
    assert year + era * 400 == 400 * era + year;
    MarchYearSum(era, year, year / 4, year / 100, dayOfEra);
  }

  lemma MarchYearOfEra(era: int, dayOfEra: int) returns (year: int, dayOfYear: int)
    requires 0 <= dayOfEra < 146_097
    ensures MarchYear(dayOfEra, year, dayOfYear)
    ensures FromEra(era, dayOfEra) == FromMarchYear(year + era * 400, dayOfYear)
  {
    DayOfEraSplits(dayOfEra);
    year := YearOfEra(dayOfEra);
    dayOfYear := dayOfEra - (365 * year + year / 4 - year / 100);
  }

  lemma EraOfDay(days: nat) returns (era: int, dayOfEra: int)
    ensures 0 <= dayOfEra < 146_097 && era * 146_097 + dayOfEra == days + 719_468
    ensures CivilDate(days) == FromEra(era, dayOfEra)
  {
    var z := days + 719_468;
    era := z / 146_097;
    dayOfEra := z - era * 146_097;
  }

  lemma MarchYearIsLate(marchYear: int, dayOfYear: int, days: nat)
    requires 0 <= dayOfYear <= 365
    requires 365 * marchYear + Leaps(marchYear) + dayOfYear == days + 719_468
    ensures marchYear >= 1970 || (marchYear == 1969 && dayOfYear >= 306)
  {
    if marchYear <= 1968 { LeapsGrow(marchYear, 1968); }
  }

  lemma {:induction false} LeapsGrow(year: int, later: int)
    requires year <= later
    ensures Leaps(year) <= Leaps(later)
    decreases later - year
  {
    if year < later {
      LeapsGrow(year, later - 1);
      LeapStep(later);
    }
  }

  lemma NumberOfMarchDay(d: Date, marchYear: int, dayOfYear: int)
    requires ValidDate(d) && d.year >= 1970 && d.year == marchYear + (if d.month <= 2 then 1 else 0)
    requires DaysBeforeMonth(d.year, d.month) + d.day - 1
      == (if d.month <= 2 then dayOfYear - 306 else dayOfYear + 59 + (if IsLeap(marchYear) then 1 else 0))
    ensures DayNumber(d) == 365 * marchYear + Leaps(marchYear) + dayOfYear - 719_468
  {
    DaysBeforeYearCounts(d.year);
    LeapStep(marchYear);
  }

  lemma MarchDate(marchYear: int, dayOfYear: int, days: nat)
    requires 0 <= dayOfYear <= 365 && (dayOfYear == 365 ==> IsLeap(marchYear + 1))
    requires 365 * marchYear + Leaps(marchYear) + dayOfYear == days + 719_468
    ensures var d := FromMarchYear(marchYear, dayOfYear); ValidDate(d) && d.year >= 1970 && DayNumber(d) == days
  {
    MarchYearIsLate(marchYear, dayOfYear, days);
    MonthOfMarchYear(marchYear, dayOfYear);
    NumberOfMarchDay(FromMarchYear(marchYear, dayOfYear), marchYear, dayOfYear);
  }

  lemma EraDate(era: int, dayOfEra: int, days: nat)
    requires 0 <= dayOfEra < 146_097 && era * 146_097 + dayOfEra == days + 719_468
    ensures var d := FromEra(era, dayOfEra); ValidDate(d) && d.year >= 1970 && DayNumber(d) == days
  {
    var year, dayOfYear := MarchYearOfEra(era, dayOfEra);
    MarchYearParts(era, dayOfEra, year, dayOfYear);
    MarchDate(year + era * 400, dayOfYear, days);
  }

  /** Every day since the epoch gets a valid date, and its day number is that day again. */
  lemma CivilDateIsTheDay(days: nat)
    ensures ValidDate(CivilDate(days)) && CivilDate(days).year >= 1970
    ensures DayNumber(CivilDate(days)) == days
  {
    var era, dayOfEra := EraOfDay(days);
    EraDate(era, dayOfEra, days);
  }

  /** Conversely, the conversion finds every date again from its day number. */
  lemma DateOfDayNumber(d: Date)
    requires ValidDate(d) && d.year >= 1970
    ensures DayNumber(d) >= 0 && CivilDate(DayNumber(d)) == d
  {
    WithinYear(d);
    if d.year > 1970 { YearsAddUp(1970, d.year); }
    CivilDateIsTheDay(DayNumber(d));
    DayNumberOrdersDates(CivilDate(DayNumber(d)), d);
  }

  /** The next day is the calendar successor. */
  lemma NextDayIsNextDate(days: nat)
    ensures CivilDate(days + 1) == NextDate(CivilDate(days))
  {
    CivilDateIsTheDay(days);
    CivilDateIsTheDay(days + 1);
    NextDateIsNextNumber(CivilDate(days));
    DayNumberOrdersDates(CivilDate(days + 1), NextDate(CivilDate(days)));
  }

  // ---------------------------------------------------------------- days and times of day

  datatype Moment = Moment(date: Date, hour: int, minute: int, second: int, millis: int)

  predicate ValidMoment(m: Moment) {
    && ValidDate(m.date) && m.date.year >= 1970
    && 0 <= m.hour < 24 && 0 <= m.minute < 60 && 0 <= m.second < 60 && 0 <= m.millis < 1000
  }

  function MomentOf(ts: nat): Moment {
    var dayMillis := ts % MILLIS_PER_DAY;
    Moment(CivilDate(ts / MILLIS_PER_DAY), dayMillis / 3_600_000, dayMillis % 3_600_000 / 60_000,
           dayMillis % 60_000 / 1_000, dayMillis % 1_000)
  }

  function MillisOfDay(m: Moment): int {
    m.hour * 3_600_000 + m.minute * 60_000 + m.second * 1_000 + m.millis
  }

  function MillisOf(m: Moment): int
    requires ValidMoment(m)
  {
    DayNumber(m.date) * MILLIS_PER_DAY + MillisOfDay(m)
  }

  lemma TimeParts(dayMillis: int)
    requires 0 <= dayMillis < MILLIS_PER_DAY
    ensures var (h, m, s, ms) := (dayMillis / 3_600_000, dayMillis % 3_600_000 / 60_000, dayMillis % 60_000 / 1_000,
                                  dayMillis % 1_000);
      && 0 <= h < 24 && 0 <= m < 60 && 0 <= s < 60 && 0 <= ms < 1000
      && dayMillis == h * 3_600_000 + m * 60_000 + s * 1_000 + ms
  {
    var h, rest := dayMillis / 3_600_000, dayMillis % 3_600_000;
    var m, tail := rest / 60_000, rest % 60_000;
    assert dayMillis == 60_000 * (60 * h + m) + tail;
    assert dayMillis % 60_000 == tail;
    var s, ms := tail / 1_000, tail % 1_000;
    assert dayMillis == 1_000 * (3_600 * h + 60 * m + s) + ms;
    assert dayMillis % 1_000 == ms;
  }

  lemma TimeOfParts(h: int, m: int, s: int, ms: int)
    requires 0 <= h < 24 && 0 <= m < 60 && 0 <= s < 60 && 0 <= ms < 1000
    ensures var dayMillis := h * 3_600_000 + m * 60_000 + s * 1_000 + ms;
      && 0 <= dayMillis < MILLIS_PER_DAY
      && dayMillis / 3_600_000 == h && dayMillis % 3_600_000 / 60_000 == m && dayMillis % 60_000 / 1_000 == s
      && dayMillis % 1_000 == ms
  {
    var dayMillis := h * 3_600_000 + m * 60_000 + s * 1_000 + ms;
    TimeParts(dayMillis);
    assert dayMillis / 3_600_000 == h;
    assert dayMillis % 3_600_000 == m * 60_000 + s * 1_000 + ms;
    assert (m * 60_000 + s * 1_000 + ms) / 60_000 == m;
  }

  lemma MomentOfTimestamp(ts: nat)
    ensures ValidMoment(MomentOf(ts)) && MillisOf(MomentOf(ts)) == ts
  {
    TimeParts(ts % MILLIS_PER_DAY);
    CivilDateIsTheDay(ts / MILLIS_PER_DAY);
  }

  lemma TimestampOfMoment(m: Moment)
    requires ValidMoment(m)
    ensures MillisOf(m) >= 0 && MomentOf(MillisOf(m)) == m
  {
    TimeOfParts(m.hour, m.minute, m.second, m.millis);
    DateOfDayNumber(m.date);
    var ts := MillisOf(m);
    assert ts / MILLIS_PER_DAY == DayNumber(m.date) && ts % MILLIS_PER_DAY == MillisOfDay(m);
  }

  // ---------------------------------------------------------------- fixed-width text

  predicate IsDigit(c: char) { '0' <= c <= '9' }

  function Digit(n: int): char
    requires 0 <= n <= 9
  {
    n as char + '0'
  }

  function DigitValue(c: char): nat
    requires IsDigit(c)
  {
    c as int - '0' as int
  }

  function Pow10(width: nat): nat {
    if width == 0 then 1 else 10 * Pow10(width - 1)
  }

  /** A number with leading zeroes to a fixed width. */
  function Pad(n: nat, width: nat): (s: string)
    ensures |s| == width && forall i | 0 <= i < |s| :: IsDigit(s[i])
  {
    if width == 0 then [] else Pad(n / 10, width - 1) + [Digit(n % 10)]
  }

  function Number(s: string): nat
    requires forall i | 0 <= i < |s| :: IsDigit(s[i])
  {
    if s == [] then 0 else Number(s[..|s| - 1]) * 10 + DigitValue(s[|s| - 1])
  }

  lemma {:induction false} NumberOfPad(n: nat, width: nat)
    requires n < Pow10(width)
    ensures Number(Pad(n, width)) == n
    decreases width
  {
    if width > 0 {
      NumberOfPad(n / 10, width - 1);
      assert Pad(n, width)[..width - 1] == Pad(n / 10, width - 1);
    }
  }

  lemma {:induction false} PadOfNumber(s: string)
    requires forall i | 0 <= i < |s| :: IsDigit(s[i])
    ensures Number(s) < Pow10(|s|) && Pad(Number(s), |s|) == s
    decreases |s|
  {
    if s != [] {
      PadOfNumber(s[..|s| - 1]);
      assert s == s[..|s| - 1] + [s[|s| - 1]];
    }
  }

  /** The text of a timestamp; None where the source reports an error. */
  function ToRfc3339Utc(ts: int): Option<string> {
    if ts < 0 then None
    else
      MomentOfTimestamp(ts);
      var m := MomentOf(ts);
      if m.date.year > 9999 then None
      else Some(Pad(m.date.year, 4) + "-" + Pad(m.date.month, 2) + "-" + Pad(m.date.day, 2) + "T"
                + (Pad(m.hour, 2) + ":" + Pad(m.minute, 2) + ":" + Pad(m.second, 2) + "." + (Pad(m.millis, 3) + "Z")))
  }

  // Widths of the numbers and the characters after them: the grammar of section 5.6 of RFC 3339, with a
  // three-digit fraction and in UTC.
  const LAYOUT: seq<(nat, char)> := [(4, '-'), (2, '-'), (2, 'T'), (2, ':'), (2, ':'), (2, '.'), (3, 'Z')]

  function Render(layout: seq<(nat, char)>, fields: seq<nat>): string
    requires |layout| == |fields|
  {
    if layout == [] then []
    else Pad(fields[0], layout[0].0) + [layout[0].1] + Render(layout[1..], fields[1..])
  }

  function Scan(layout: seq<(nat, char)>, text: string): (r: Option<seq<nat>>)
    ensures r.Some? ==> |r.value| == |layout|
    decreases |layout|
  {
    if layout == [] then if text == [] then Some([]) else None
    else
      var width := layout[0].0;
      if |text| <= width || (exists i | 0 <= i < width :: !IsDigit(text[i])) || text[width] != layout[0].1 then None
      else
        match Scan(layout[1..], text[width + 1..])
        case None => None
        case Some(rest) => Some([Number(text[..width])] + rest)
  }

  ghost predicate Fit(layout: seq<(nat, char)>, fields: seq<nat>) {
    |fields| == |layout| && forall i | 0 <= i < |fields| :: fields[i] < Pow10(layout[i].0)
  }

  lemma {:induction false} ScanOfRender(layout: seq<(nat, char)>, fields: seq<nat>)
    requires Fit(layout, fields)
    ensures Scan(layout, Render(layout, fields)) == Some(fields)
    decreases |layout|
  {
    if layout != [] {
      var width := layout[0].0;
      var text := Render(layout, fields);
      NumberOfPad(fields[0], width);
      assert text[..width] == Pad(fields[0], width);
      assert text[width + 1..] == Render(layout[1..], fields[1..]);
      ScanOfRender(layout[1..], fields[1..]);
      assert [fields[0]] + fields[1..] == fields;
    }
  }

  lemma {:induction false} RenderOfScan(layout: seq<(nat, char)>, text: string)
    requires Scan(layout, text).Some?
    ensures Render(layout, Scan(layout, text).value) == text && Fit(layout, Scan(layout, text).value)
    decreases |layout|
  {
    if layout != [] {
      var width := layout[0].0;
      PadOfNumber(text[..width]);
      RenderOfScan(layout[1..], text[width + 1..]);
      assert Scan(layout, text).value[1..] == Scan(layout[1..], text[width + 1..]).value;
      assert text == text[..width] + [text[width]] + text[width + 1..];
    }
  }

  function Fields(m: Moment): (r: seq<nat>)
    requires ValidMoment(m)
    ensures |r| == 7
  {
    [m.date.year, m.date.month, m.date.day, m.hour, m.minute, m.second, m.millis]
  }

  lemma TextIsRendered(ts: nat)
    requires ToRfc3339Utc(ts).Some?
    ensures ValidMoment(MomentOf(ts)) && ToRfc3339Utc(ts).value == Render(LAYOUT, Fields(MomentOf(ts)))
  {
    MomentOfTimestamp(ts);
    RenderUnfolds(Fields(MomentOf(ts)));
  }

  lemma RenderStep(f: seq<nat>, k: nat)
    requires |f| == 7 && k < 7
    ensures Render(LAYOUT[k..], f[k..]) == Pad(f[k], LAYOUT[k].0) + [LAYOUT[k].1] + Render(LAYOUT[k + 1..], f[k + 1..])
  {
    assert LAYOUT[k..][1..] == LAYOUT[k + 1..] && f[k..][1..] == f[k + 1..];
  }

  lemma Regroup(a: string, x: string, b: string, y: string, c: string, z: string, t: string)
    ensures a + x + (b + y + (c + z + t)) == a + x + b + y + c + z + t
  {}

  lemma RenderLast(f: seq<nat>)
    requires |f| == 7
    ensures Render(LAYOUT[6..], f[6..]) == Pad(f[6], 3) + "Z"
  {
    RenderStep(f, 6);
    assert LAYOUT[7..] == [];
  }

  lemma RenderTime(f: seq<nat>)
    requires |f| == 7
    ensures Render(LAYOUT[3..], f[3..])
         == Pad(f[3], 2) + ":" + Pad(f[4], 2) + ":" + Pad(f[5], 2) + "." + (Pad(f[6], 3) + "Z")
  {
    RenderStep(f, 3);
    RenderStep(f, 4);
    RenderStep(f, 5);
    RenderLast(f);
    Regroup(Pad(f[3], 2), ":", Pad(f[4], 2), ":", Pad(f[5], 2), ".", Render(LAYOUT[6..], f[6..]));
  }

  lemma RenderUnfolds(f: seq<nat>)
    requires |f| == 7
    ensures Render(LAYOUT, f) == Pad(f[0], 4) + "-" + Pad(f[1], 2) + "-" + Pad(f[2], 2) + "T"
                                 + (Pad(f[3], 2) + ":" + Pad(f[4], 2) + ":" + Pad(f[5], 2) + "." + (Pad(f[6], 3) + "Z"))
  {
    RenderTime(f);
    RenderStep(f, 0);
    RenderStep(f, 1);
    RenderStep(f, 2);
    Regroup(Pad(f[0], 4), "-", Pad(f[1], 2), "-", Pad(f[2], 2), "T", Render(LAYOUT[3..], f[3..]));
    assert LAYOUT[0..] == LAYOUT && f[0..] == f;
  }

  // ---------------------------------------------------------------- reading the text back

  /** The timestamp that a text of the layout stands for; leap seconds and years before 1970 have none. */
  function ParseRfc3339(text: string): Option<int> {
    match Scan(LAYOUT, text)
    case None => None
    case Some(f) =>
      var m := Moment(Date(f[0], f[1], f[2]), f[3], f[4], f[5], f[6]);
      if ValidMoment(m) then Some(MillisOf(m)) else None
  }

  lemma FieldsFit(m: Moment)
    requires ValidMoment(m)
    ensures m.date.year <= 9999 <==> Fit(LAYOUT, Fields(m))
  {
    assert Pow10(2) == 100 && Pow10(3) == 1000 && Pow10(4) == 10_000;
    if Fit(LAYOUT, Fields(m)) { assert Fields(m)[0] < Pow10(LAYOUT[0].0); }
  }

  lemma LastDay()
    ensures DayNumber(Date(9999, 12, 31)) == 2_932_896
  {
    DaysBeforeYearCounts(9999);
    MonthsFromMarch(9999);
  }

  /** A timestamp has a text exactly up to the end of the year 9999. */
  lemma TextExistsExactlyInRange(ts: int)
    ensures ToRfc3339Utc(ts).Some? <==> 0 <= ts <= LAST_TIMESTAMP
  {
    if ts >= 0 {
      var days := ts / MILLIS_PER_DAY;
      CivilDateIsTheDay(days);
      LastDay();
      DayNumberOrdersDates(Date(9999, 12, 31), CivilDate(days));
      assert days > 2_932_896 <==> ts > LAST_TIMESTAMP;
    }
  }

  /** The text parses back to the same millisecond. */
  lemma TextParsesBack(ts: int)
    requires 0 <= ts <= LAST_TIMESTAMP
    ensures ToRfc3339Utc(ts).Some? && ParseRfc3339(ToRfc3339Utc(ts).value) == Some(ts)
  {
    TextExistsExactlyInRange(ts);
    TextIsRendered(ts);
    MomentOfTimestamp(ts);
    FieldsFit(MomentOf(ts));
    ScanOfRender(LAYOUT, Fields(MomentOf(ts)));
  }

  /** Conversely, every text that reads as a timestamp is the text of that timestamp. */
  lemma ParsedTextIsTheText(text: string)
    requires ParseRfc3339(text).Some?
    ensures ToRfc3339Utc(ParseRfc3339(text).value) == Some(text)
  {
    var f := Scan(LAYOUT, text).value;
    var m := Moment(Date(f[0], f[1], f[2]), f[3], f[4], f[5], f[6]);
    RenderOfScan(LAYOUT, text);
    assert Fields(m) == f;
    FieldsFit(m);
    TimestampOfMoment(m);
    TextIsRendered(MillisOf(m));
  }

  // ---------------------------------------------------------------- the order of texts

  predicate LexLess(s: string, t: string)
    decreases |s|
  {
    t != [] && (s == [] || s[0] < t[0] || (s[0] == t[0] && LexLess(s[1..], t[1..])))
  }

  lemma {:induction false} LexOfParts(a: string, b: string, x: string, y: string)
    requires |a| == |b|
    ensures LexLess(a + x, b + y) <==> LexLess(a, b) || (a == b && LexLess(x, y))
    decreases |a|
  {
    if a == [] {
      assert a + x == x && b + y == y;
    } else {
      assert (a + x)[1..] == a[1..] + x && (b + y)[1..] == b[1..] + y;
      LexOfParts(a[1..], b[1..], x, y);
      assert a == [a[0]] + a[1..] && b == [b[0]] + b[1..];
    }
  }

  lemma {:induction false} PadKeepsOrder(n: nat, m: nat, width: nat)
    requires n < Pow10(width) && m < Pow10(width)
    ensures LexLess(Pad(n, width), Pad(m, width)) <==> n < m
    ensures Pad(n, width) == Pad(m, width) <==> n == m
    decreases width
  {
    NumberOfPad(n, width);
    NumberOfPad(m, width);
    if width > 0 {
      PadKeepsOrder(n / 10, m / 10, width - 1);
      var (p, q) := ([Digit(n % 10)], [Digit(m % 10)]);
      LexOfParts(Pad(n / 10, width - 1), Pad(m / 10, width - 1), p, q);
      assert LexLess(p, q) <==> n % 10 < m % 10;
    }
  }

  predicate FieldsLess(f: seq<nat>, g: seq<nat>)
    requires |f| == |g|
    decreases |f|
  {
    f != [] && (f[0] < g[0] || (f[0] == g[0] && FieldsLess(f[1..], g[1..])))
  }

  lemma {:induction false} RenderKeepsOrder(layout: seq<(nat, char)>, f: seq<nat>, g: seq<nat>)
    requires Fit(layout, f) && Fit(layout, g)
    ensures LexLess(Render(layout, f), Render(layout, g)) <==> FieldsLess(f, g)
    decreases |layout|
  {
    if layout != [] {
      var (width, c) := layout[0];
      var (x, y) := (Render(layout[1..], f[1..]), Render(layout[1..], g[1..]));
      RenderKeepsOrder(layout[1..], f[1..], g[1..]);
      PadKeepsOrder(f[0], g[0], width);
      assert Pad(f[0], width) + [c] + x == Pad(f[0], width) + ([c] + x);
      assert Pad(g[0], width) + [c] + y == Pad(g[0], width) + ([c] + y);
      LexOfParts(Pad(f[0], width), Pad(g[0], width), [c] + x, [c] + y);
      assert ([c] + x)[1..] == x && ([c] + y)[1..] == y;
    }
  }

  lemma {:induction false} FirstDifferenceDecides(f: seq<nat>, g: seq<nat>, i: nat)
    requires |f| == |g| && i < |f| && f[..i] == g[..i] && f[i] != g[i]
    ensures FieldsLess(f, g) <==> f[i] < g[i]
    decreases |f|
  {
    if i > 0 {
      assert f[0] == f[..i][0] && g[0] == g[..i][0];
      assert f[1..][..i - 1] == f[..i][1..] && g[1..][..i - 1] == g[..i][1..];
      FirstDifferenceDecides(f[1..], g[1..], i - 1);
    }
  }

  lemma {:induction false} NotLessThanItself(f: seq<nat>)
    ensures !FieldsLess(f, f)
    decreases |f|
  {
    if f != [] { NotLessThanItself(f[1..]); }
  }

  lemma MillisOfDayOrder(a: Moment, b: Moment)
    requires ValidMoment(a) && ValidMoment(b) && MillisOfDay(a) < MillisOfDay(b)
    ensures || a.hour < b.hour
            || (a.hour == b.hour && (|| a.minute < b.minute
                                     || (a.minute == b.minute && (|| a.second < b.second
                                                                  || (a.second == b.second && a.millis < b.millis)))))
  {}

  // The first field in which two moments differ is ordered as they are.
  lemma FirstDifferentField(a: Moment, b: Moment) returns (i: nat)
    requires ValidMoment(a) && ValidMoment(b) && MillisOf(a) < MillisOf(b)
    ensures i < 7 && Fields(a)[..i] == Fields(b)[..i] && Fields(a)[i] < Fields(b)[i]
  {
    var f, g := Fields(a), Fields(b);
    DayNumberOrdersDates(a.date, b.date);
    TimeOfParts(a.hour, a.minute, a.second, a.millis);
    TimeOfParts(b.hour, b.minute, b.second, b.millis);
    if a.date != b.date {
      assert DayNumber(a.date) < DayNumber(b.date);
      i := if f[0] < g[0] then 0 else if f[1] < g[1] then 1 else 2;
    } else {
      MillisOfDayOrder(a, b);
      i := if f[3] < g[3] then 3 else if f[4] < g[4] then 4 else if f[5] < g[5] then 5 else 6;
    }
  }

  lemma FieldsOrderMoments(a: Moment, b: Moment)
    requires ValidMoment(a) && ValidMoment(b)
    ensures FieldsLess(Fields(a), Fields(b)) <==> MillisOf(a) < MillisOf(b)
  {
    if MillisOf(a) < MillisOf(b) {
      var i := FirstDifferentField(a, b);
      FirstDifferenceDecides(Fields(a), Fields(b), i);
    } else if MillisOf(b) < MillisOf(a) {
      var i := FirstDifferentField(b, a);
      FirstDifferenceDecides(Fields(a), Fields(b), i);
    } else {
      TimestampOfMoment(a);
      TimestampOfMoment(b);
      NotLessThanItself(Fields(a));
    }
  }

  /** The lexicographic order of texts is the numeric order of timestamps (section 5.1 of RFC 3339). */
  lemma TextsAreOrderedAsTimestamps(a: int, b: int)
    requires 0 <= a <= LAST_TIMESTAMP && 0 <= b <= LAST_TIMESTAMP
    ensures ToRfc3339Utc(a).Some? && ToRfc3339Utc(b).Some?
    ensures LexLess(ToRfc3339Utc(a).value, ToRfc3339Utc(b).value) <==> a < b
  {
    TextExistsExactlyInRange(a);
    TextExistsExactlyInRange(b);
    TextIsRendered(a);
    TextIsRendered(b);
    MomentOfTimestamp(a);
    MomentOfTimestamp(b);
    FieldsFit(MomentOf(a));
    FieldsFit(MomentOf(b));
    RenderKeepsOrder(LAYOUT, Fields(MomentOf(a)), Fields(MomentOf(b)));
    FieldsOrderMoments(MomentOf(a), MomentOf(b));
  }
}
