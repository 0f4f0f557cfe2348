/** Dates with a zone: their ISO text, and what becomes of them when they are stored and read back in UTC. */
module Dates {
  /** Seconds east of UTC, less than a day. */
  type Offset = x: int | -86400 < x < 86400

  /** A naive date is stored as if it had the offset that the default time zone gives it. */
  datatype Zone = Aware(offset: Offset) | Naive(assumed: Offset)

  datatype Calendar = Calendar(year: int, month: int, day: int)

  datatype DateTime = DateTime(on: Calendar, second: nat, micro: nat, zone: Zone)

  predicate Leap(year: int) { year % 4 == 0 && (year % 100 != 0 || year % 400 == 0) }

  function DaysIn(year: int, month: int): int {
    if month == 2 then (if Leap(year) then 29 else 28)
    else if month == 4 || month == 6 || month == 9 || month == 11 then 30 else 31
  }

  predicate OnCalendar(c: Calendar) { 1 <= c.month <= 12 && 1 <= c.day <= DaysIn(c.year, c.month) }

  /** `second` counts from midnight. */
  predicate Sane(d: DateTime) { OnCalendar(d.on) && d.second < 86400 && d.micro < 1000000 }

  type Date = d: DateTime | Sane(d) witness DateTime(Calendar(2025, 1, 1), 0, 0, Aware(0))

  function NextDay(c: Calendar): (r: Calendar)
    requires OnCalendar(c)
    ensures OnCalendar(r)
  {
    if c.day < DaysIn(c.year, c.month) then c.(day := c.day + 1)
    else if c.month < 12 then Calendar(c.year, c.month + 1, 1)
    else Calendar(c.year + 1, 1, 1)
  }

  function PreviousDay(c: Calendar): (r: Calendar)
    requires OnCalendar(c)
    ensures OnCalendar(r)
  {
    if c.day > 1 then c.(day := c.day - 1)
    else if c.month > 1 then Calendar(c.year, c.month - 1, DaysIn(c.year, c.month - 1))
    else Calendar(c.year - 1, 12, 31)
  }

  function OffsetOf(zone: Zone): Offset { if zone.Aware? then zone.offset else zone.assumed }

  /** The date as it is read back: the same instant in UTC. */
  function InUtc(d: Date): Date {
    var second := d.second - OffsetOf(d.zone);
    if second < 0 then DateTime(PreviousDay(d.on), second + 86400, d.micro, Aware(0))
    else if second >= 86400 then DateTime(NextDay(d.on), second - 86400, d.micro, Aware(0))
    else DateTime(d.on, second, d.micro, Aware(0))
  }

  // ---------- the instant stays ----------

  /** Days of the year before the month. */
  function DaysBefore(year: int, month: int): int
    decreases month
  {
    if month <= 1 then 0 else DaysBefore(year, month - 1) + DaysIn(year, month - 1)
  }

  function LeapYearsBefore(year: int): int { (year - 1) / 4 - (year - 1) / 100 + (year - 1) / 400 }

  function DayNumber(c: Calendar): int {
    365 * (c.year - 1) + LeapYearsBefore(c.year) + DaysBefore(c.year, c.month) + c.day
  }

  /** Microseconds on the time line. */
  function Instant(d: Date): int {
    (DayNumber(d.on) * 86400 + d.second - OffsetOf(d.zone)) * 1000000 + d.micro
  }

  lemma LeapYears(year: int)
    ensures LeapYearsBefore(year + 1) == LeapYearsBefore(year) + if Leap(year) then 1 else 0
  {
    Fourths(year);
    Hundredths(year);
    FourHundredths(year);
    Multiples(year);
    assert LeapYearsBefore(year + 1) == year / 4 - year / 100 + year / 400;
  }

  lemma Multiples(n: int)
    ensures n % 400 == 0 ==> n % 100 == 0
    ensures n % 100 == 0 ==> n % 4 == 0
  {
    HundredTimes(4 * (n / 400));
    FourTimes(25 * (n / 100));
  }

  lemma HundredTimes(k: int)
    ensures (100 * k) % 100 == 0
  {
  }

  lemma FourTimes(k: int)
    ensures (4 * k) % 4 == 0
  {
  }

  lemma Fourths(n: int)
    ensures n / 4 == (n - 1) / 4 + if n % 4 == 0 then 1 else 0
  {
  }

  lemma Hundredths(n: int)
    ensures n / 100 == (n - 1) / 100 + if n % 100 == 0 then 1 else 0
  {
  }

  lemma FourHundredths(n: int)
    ensures n / 400 == (n - 1) / 400 + if n % 400 == 0 then 1 else 0
  {
  }

  lemma YearLength(year: int)
    ensures DaysBefore(year, 12) + 31 == if Leap(year) then 366 else 365
  {
    assert DaysBefore(year, 3) == 31 + DaysIn(year, 2);
    assert DaysBefore(year, 6) == DaysBefore(year, 3) + 92;
    assert DaysBefore(year, 9) == DaysBefore(year, 6) + 92;
    assert DaysBefore(year, 12) == DaysBefore(year, 9) + 91;
  }

  lemma NextDayNumber(c: Calendar)
    requires OnCalendar(c)
    ensures DayNumber(NextDay(c)) == DayNumber(c) + 1
  {
    if c.day == DaysIn(c.year, c.month) && c.month == 12 {
      LeapYears(c.year);
      YearLength(c.year);
    }
  }

  lemma NextOfPrevious(c: Calendar)
    requires OnCalendar(c)
    ensures NextDay(PreviousDay(c)) == c
  {
  }

  /** Reading back changes how a date is written, not the instant it means, and reading back again changes nothing. */
  lemma InUtcKeepsInstant(d: Date)
    ensures Instant(InUtc(d)) == Instant(d) && InUtc(d).zone == Aware(0) && InUtc(InUtc(d)) == InUtc(d)
  {
    NextDayNumber(d.on);
    NextDayNumber(PreviousDay(d.on));
    NextOfPrevious(d.on);
  }

  // ---------- ISO text ----------

  function Digit(n: nat): char { (n % 10 + '0' as int) as char }

  function Two(n: nat): string { [Digit(n / 10), Digit(n)] }

  function Six(n: nat): string { Two(n / 10000) + Two(n / 100) + Two(n) }

  function YearText(year: int): string {
    if year < 0 then "-" + Two(-year / 100) + Two(-year) else Two(year / 100) + Two(year)
  }

  function Clock(second: nat): string { Two(second / 3600) + ":" + Two(second / 60 % 60) + ":" + Two(second % 60) }

  function Fraction(micro: nat): string { if micro == 0 then "" else "." + Six(micro) }

  function ZoneText(zone: Zone): string {
    if zone.Naive? then ""
    else
      var size := Size(zone.offset);
      [if zone.offset < 0 then '-' else '+'] + Two(size / 3600) + ":" + Two(size / 60 % 60)
      + if size % 60 == 0 then "" else ":" + Two(size % 60)
  }

  /** `isoformat()` */
  function IsoText(d: Date): string {
    YearText(d.on.year) + "-" + Two(d.on.month) + "-" + Two(d.on.day) + "T" + Clock(d.second) + Fraction(d.micro)
    + ZoneText(d.zone)
  }

  function Tail(s: string): string
    requires |s| >= 6
  {
    s[|s| - 6..]
  }

  lemma TailOf(s: string, end: string)
    requires |end| >= 6
    ensures Tail(s + end) == Tail(end)
  {
  }

  lemma TwoZeros(n: nat)
    requires n < 100
    ensures Two(n) == "00" <==> n == 0
  {
    if Two(n) == "00" {
      assert Digit(n / 10) == '0' && Digit(n) == '0';
      assert n / 10 == 0 && n % 10 == 0;
    }
  }

  lemma Parts(size: nat)
    requires size < 86400
    ensures size / 3600 < 24 && size / 60 % 60 < 60
    ensures size == 0 <==> size / 3600 == 0 && size / 60 % 60 == 0 && size % 60 == 0
  {
  }

  function Size(offset: Offset): nat { if offset < 0 then -offset else offset }

  /** An offset of whole minutes. */
  lemma MinutesEnd(sign: char, hours: nat, minutes: nat)
    requires hours < 100 && minutes < 100
    ensures var text := [sign] + Two(hours) + ":" + Two(minutes);
      |text| == 6 && (text == "+00:00" <==> sign == '+' && hours == 0 && minutes == 0)
  {
    var text, utc := [sign] + Two(hours) + ":" + Two(minutes), "+00:00";
    TwoZeros(hours);
    TwoZeros(minutes);
    assert text[1..3] == Two(hours) && text[4..6] == Two(minutes) && text[0] == sign;
    assert utc[1..3] == "00" && utc[4..6] == "00" && utc[0] == '+';
    if sign == '+' && hours == 0 && minutes == 0 { assert text == utc; }
  }

  /** Only an offset of zero ends in the text of UTC. */
  lemma ZoneEnds(zone: Zone)
    requires zone.Aware?
    ensures |ZoneText(zone)| >= 6 && (Tail(ZoneText(zone)) == "+00:00" <==> zone.offset == 0)
  {
    var size, sign := Size(zone.offset), if zone.offset < 0 then '-' else '+';
    var minutes := [sign] + Two(size / 3600) + ":" + Two(size / 60 % 60);
    Parts(size);
    MinutesEnd(sign, size / 3600, size / 60 % 60);
    if size % 60 == 0 {
      assert ZoneText(zone) == minutes + "" == minutes;
    } else {
      assert ZoneText(zone) == minutes + (":" + Two(size % 60));
      assert Tail(ZoneText(zone))[0] == ':';
    }
  }

  lemma ClockEnds(second: nat, micro: nat)
    ensures |Clock(second) + Fraction(micro)| >= 6 && Tail(Clock(second) + Fraction(micro)) != "+00:00"
  {
    if micro == 0 {
      assert Tail(Clock(second) + Fraction(micro))[0] == ':';
    } else {
      TailOf(Clock(second), Fraction(micro));
      assert Tail(Fraction(micro))[0] == Digit(micro / 10000 / 10);
    }
  }

  function Front(d: Date): string { YearText(d.on.year) + "-" + Two(d.on.month) + "-" + Two(d.on.day) + "T" }

  lemma IsoEnds(d: Date)
    ensures |IsoText(d)| >= 6 && (Tail(IsoText(d)) == "+00:00" <==> d.zone == Aware(0))
  {
    var front, clock := Front(d), Clock(d.second) + Fraction(d.micro);
    ClockEnds(d.second, d.micro);
    assert IsoText(d) == front + clock + ZoneText(d.zone);
    if d.zone.Aware? {
      ZoneEnds(d.zone);
      TailOf(front + clock, ZoneText(d.zone));
    } else {
      assert IsoText(d) == front + clock;
      TailOf(front, clock);
    }
  }

  /** A date prints like one that was read back exactly when it is given in UTC, and then it is read back as it is. */
  lemma PrintsInUtcIff(d: Date, e: Date)
    requires IsoText(d) == IsoText(InUtc(e))
    ensures d.zone == Aware(0) && InUtc(d) == d
  {
    IsoEnds(d);
    IsoEnds(InUtc(e));
  }

  /** A date is read back as it was printed exactly when it is given in UTC. */
  lemma ReadsBackIff(d: Date)
    ensures IsoText(InUtc(d)) == IsoText(d) <==> d.zone == Aware(0)
  {
    if IsoText(InUtc(d)) == IsoText(d) { PrintsInUtcIff(d, d); }
  }

  // ---------- the text tells dates apart ----------

  lemma DigitTells(a: nat, b: nat)
    requires Digit(a) == Digit(b)
    ensures a % 10 == b % 10
  {
  }

  lemma TwoTells(a: nat, b: nat)
    requires a < 100 && b < 100 && Two(a) == Two(b)
    ensures a == b
  {
    assert Two(a)[0] == Two(b)[0] && Two(a)[1] == Two(b)[1];
    DigitTells(a / 10, b / 10);
    DigitTells(a, b);
  }

  lemma TwoEnds(n: nat)
    ensures Two(n) == Two(n % 100)
  {
    assert n % 100 % 10 == n % 10 && n % 100 / 10 == n / 10 % 10;
  }

  lemma PairsTell(a: string, b: string, c: string, d: string)
    requires |a| == |c| && a + b == c + d
    ensures a == c && b == d
  {
    assert a == (a + b)[..|a|] == c && b == (a + b)[|a|..] == d;
  }

  lemma SixTells(a: nat, b: nat)
    requires a < 1000000 && b < 1000000 && Six(a) == Six(b)
    ensures a == b
  {
    PairsTell(Two(a / 10000) + Two(a / 100), Two(a), Two(b / 10000) + Two(b / 100), Two(b));
    PairsTell(Two(a / 10000), Two(a / 100), Two(b / 10000), Two(b / 100));
    DigitsTell(a, b);
  }

  lemma DigitsTell(a: nat, b: nat)
    requires a < 1000000 && b < 1000000
    requires Two(a / 10000) == Two(b / 10000) && Two(a / 100) == Two(b / 100) && Two(a) == Two(b)
    ensures a == b
  {
    TwoEnds(a / 100);
    TwoEnds(b / 100);
    TwoEnds(a);
    TwoEnds(b);
    TwoTells(a / 10000, b / 10000);
    TwoTells(a / 100 % 100, b / 100 % 100);
    TwoTells(a % 100, b % 100);
    InPairs(a);
    InPairs(b);
  }

  lemma InPairs(n: nat)
    ensures n == 10000 * (n / 10000) + 100 * (n / 100 % 100) + n % 100
  {
    assert n / 100 / 100 == n / 10000;
  }

  lemma InSixties(n: nat)
    ensures n == 3600 * (n / 3600) + 60 * (n / 60 % 60) + n % 60
  {
    assert n / 60 / 60 == n / 3600;
  }

  lemma ClockTells(a: nat, b: nat)
    requires a < 86400 && b < 86400 && Clock(a) == Clock(b)
    ensures a == b
  {
    Parts(a);
    Parts(b);
    PairsTell(Two(a / 3600) + ":" + Two(a / 60 % 60) + ":", Two(a % 60),
              Two(b / 3600) + ":" + Two(b / 60 % 60) + ":", Two(b % 60));
    PairsTell(Two(a / 3600) + ":" + Two(a / 60 % 60), ":", Two(b / 3600) + ":" + Two(b / 60 % 60), ":");
    PairsTell(Two(a / 3600) + ":", Two(a / 60 % 60), Two(b / 3600) + ":", Two(b / 60 % 60));
    PairsTell(Two(a / 3600), ":", Two(b / 3600), ":");
    TwoTells(a / 3600, b / 3600);
    TwoTells(a / 60 % 60, b / 60 % 60);
    TwoTells(a % 60, b % 60);
    InSixties(a);
    InSixties(b);
  }

  /** The years a date can have. */
  predicate InYears(d: Date) { 1 <= d.on.year <= 9999 }

  lemma YearTells(a: int, b: int)
    requires 1 <= a <= 9999 && 1 <= b <= 9999 && YearText(a) == YearText(b)
    ensures a == b
  {
    assert YearText(a)[..2] == Two(a / 100) && YearText(b)[..2] == Two(b / 100);
    assert YearText(a)[2..] == Two(a) && YearText(b)[2..] == Two(b);
    TwoEnds(a);
    TwoEnds(b);
    TwoTells(a / 100, b / 100);
    TwoTells(a % 100, b % 100);
  }

  /** Year, month, day and clock stand at fixed places; the fraction, if any, and the zone follow. */
  lemma IsoParts(d: Date)
    requires InYears(d)
    ensures var text := IsoText(d);
      && |text| >= 19 && text[..4] == YearText(d.on.year) && text[5..7] == Two(d.on.month)
      && text[8..10] == Two(d.on.day) && text[11..19] == Clock(d.second)
      && text[19..] == Fraction(d.micro) + ZoneText(d.zone)
  {
    var date := YearText(d.on.year) + "-" + Two(d.on.month) + "-" + Two(d.on.day) + "T";
    assert |date| == 11 && |Clock(d.second)| == 8;
    assert IsoText(d) == date + Clock(d.second) + (Fraction(d.micro) + ZoneText(d.zone));
    assert date[..4] == YearText(d.on.year) && date[5..7] == Two(d.on.month) && date[8..10] == Two(d.on.day);
  }

  lemma FractionTells(a: nat, b: nat, end: string)
    requires a < 1000000 && b < 1000000 && Fraction(a) + end == Fraction(b) + end
    ensures a == b
  {
    assert |Fraction(a)| == |Fraction(b)|;
    assert Fraction(a) == (Fraction(a) + end)[..|Fraction(a)|] == Fraction(b);
    if a != 0 && b != 0 {
      assert Fraction(a)[1..] == Six(a) && Fraction(b)[1..] == Six(b);
      SixTells(a, b);
    }
  }

  lemma DayTells(a: Date, b: Date)
    requires InYears(a) && InYears(b) && IsoText(a) == IsoText(b)
    ensures a.on == b.on && a.second == b.second
  {
    IsoParts(a);
    IsoParts(b);
    YearTells(a.on.year, b.on.year);
    TwoTells(a.on.month, b.on.month);
    TwoTells(a.on.day, b.on.day);
    ClockTells(a.second, b.second);
  }

  /** A date prints like one that was read back exactly when it is that very date in UTC. */
  lemma PrintsLikeIff(d: Date, e: Date)
    requires InYears(d) && InYears(InUtc(e))
    ensures IsoText(d) == IsoText(InUtc(e)) <==> d == InUtc(e)
  {
    var utc: Date := InUtc(e);
    if IsoText(d) == IsoText(utc) {
      PrintsInUtcIff(d, e);
      DayTells(d, utc);
      IsoParts(d);
      IsoParts(utc);
      FractionTells(d.micro, utc.micro, ZoneText(Aware(0)));
    }
  }
}
