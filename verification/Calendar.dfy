/** The civil calendar behind every date of the platform: days since 1970-01-01,
    their text, and the strict parsers that accept exactly the text of a real
    day or instant. */
module Calendar {
  import opened Prelude

  const DAY := 86_400

  // ---- the Gregorian calendar, stated independently of the era arithmetic ----

  datatype Civil = Civil(year: int, month: int, day: int)

  predicate IsLeap(y: int) { y % 4 == 0 && (y % 100 != 0 || y % 400 == 0) }

  function MonthLength(y: int, m: int): int {
    if m == 2 then (if IsLeap(y) then 29 else 28)
    else if m == 4 || m == 6 || m == 9 || m == 11 then 30
    else 31
  }

  predicate IsReal(c: Civil) { 1 <= c.month <= 12 && 1 <= c.day <= MonthLength(c.year, c.month) }

  function NextDay(c: Civil): Civil {
    if c.day < MonthLength(c.year, c.month) then c.(day := c.day + 1)
    else if c.month < 12 then Civil(c.year, c.month + 1, 1)
    else Civil(c.year + 1, 1, 1)
  }

  predicate Before(a: Civil, b: Civil) {
    a.year < b.year || (a.year == b.year && (a.month < b.month || (a.month == b.month && a.day < b.day)))
  }

  // ---- the era arithmetic ----------------------------------------------------

  /** Day within the shifted year that starts on 1 March. */
  function DayOfShiftedYear(m: int, d: int): int {
    (153 * (if m > 2 then m - 3 else m + 9) + 2) / 5 + d - 1
  }

  /** First day of year `yoe` within its era. */
  function EraYearStart(yoe: int): int { yoe * 365 + yoe / 4 - yoe / 100 }

  function ShiftedYear(c: Civil): int { if c.month <= 2 then c.year - 1 else c.year }

  function DaysFromCivil(c: Civil): int {
    var y := ShiftedYear(c);
    var doe := EraYearStart(y % 400) + DayOfShiftedYear(c.month, c.day);
    y / 400 * 146_097 + doe - 719_468
  }

  /** Year of the era for a day of the era. */
  function YearOfEra(doe: int): int {
    (doe - doe / 1460 + doe / 36_524 - doe / 146_096) / 365
  }

  /** The civil date of day `doy` of year `yoe` of an era. */
  function FromShiftedYear(era: int, yoe: int, doy: int): Civil {
    var mp := (5 * doy + 2) / 153;
    var day := doy - (153 * mp + 2) / 5 + 1;
    var month := if mp < 10 then mp + 3 else mp - 9;
    Civil(yoe + era * 400 + (if month <= 2 then 1 else 0), month, day)
  }

  function CivilFromDays(days: int): Civil {
    var z := days + 719_468;
    var doe := z % 146_097;
    var yoe := YearOfEra(doe);
    FromShiftedYear(z / 146_097, yoe, doe - EraYearStart(yoe))
  }

  /** Length of the shifted year `yoe` of an era: it ends with the February of
      the next civil year. */
  function EraYearLength(yoe: int): int {
    if yoe == 399 then 366
    else if (yoe + 1) % 4 == 0 && (yoe + 1) % 100 != 0 then 366
    else 365
  }

  /** The heart of the inverse: the corrections by 1460, 36 524 and 146 096 find
      the year of the era exactly. */
  lemma EraYearSplits(yoe: int, doy: int)
    requires 0 <= yoe < 400 && 0 <= doy < EraYearLength(yoe)
    ensures YearOfEra(EraYearStart(yoe) + doy) == yoe
    ensures 0 <= EraYearStart(yoe) + doy < 146_097
  {
    var c, r := yoe / 100, yoe % 100;
    var q, k := r / 4, r % 4;
    assert yoe / 4 == 25 * c + q;
    var doe := EraYearStart(yoe) + doy;
    assert doe == 36_524 * c + 1461 * q + 365 * k + doy;
    EraCorrections(c, q, k, doy);
  }

  lemma EraCorrections(c: int, q: int, k: int, doy: int)
    requires 0 <= c < 4 && 0 <= q < 25 && 0 <= k < 4
    requires 0 <= doy <= 365 && (doy == 365 ==> k == 3 && (q < 24 || c == 3))
    ensures YearOfEra(36_524 * c + 1461 * q + 365 * k + doy) == 100 * c + 4 * q + k
    ensures 0 <= 36_524 * c + 1461 * q + 365 * k + doy < 146_097
  {
    var doe := 36_524 * c + 1461 * q + 365 * k + doy;
    var last := if doe == 146_096 then 1 else 0;
    assert doe / 146_096 == last;
    assert doe / 36_524 == c + last;
    var over := if q + 24 * c + 365 * k + doy >= 1460 then 1 else 0;
    assert doe / 1460 == 25 * c + q + over;
    assert (365 * (100 * c + 4 * q + k) + doy - over) / 365 == 100 * c + 4 * q + k;
  }

  /** Every day of an era lies in exactly one of its years. */
  lemma EraYearCovers(doe: int) returns (yoe: int)
    requires 0 <= doe < 146_097
    ensures 0 <= yoe < 400 && 0 <= doe - EraYearStart(yoe) < EraYearLength(yoe)
  {
    var c := if doe == 146_096 then 3 else doe / 36_524;
    var e := doe - 36_524 * c;
    var q := e / 1461;
    var f := e % 1461;
    var k := if f == 1460 then 3 else f / 365;
    yoe := 100 * c + 4 * q + k;
    assert yoe / 4 == 25 * c + q;
    assert yoe / 100 == c;
  }

  /** The month arithmetic: 153 days in every five shifted months. */
  lemma MonthSplits(c: Civil)
    requires IsReal(c)
    ensures var doy := DayOfShiftedYear(c.month, c.day);
            && 0 <= doy < EraYearLength(ShiftedYear(c) % 400)
            && FromShiftedYear(ShiftedYear(c) / 400, ShiftedYear(c) % 400, doy) == c
  {
    var y := ShiftedYear(c);
    ShiftedMonth(c.month, c.day);
    LeapPeriod(y % 400 + 1, y / 400);
    assert y + 1 == 400 * (y / 400) + (y % 400 + 1);
  }

  lemma ShiftedMonth(m: int, d: int)
    requires 1 <= m <= 12 && 1 <= d <= 31 && (m in {4, 6, 9, 11} ==> d <= 30) && (m == 2 ==> d <= 29)
    ensures var doy, mp := DayOfShiftedYear(m, d), (if m > 2 then m - 3 else m + 9);
            && (5 * doy + 2) / 153 == mp && doy - (153 * mp + 2) / 5 + 1 == d
            && 0 <= doy <= 365 && (doy == 365 <==> m == 2 && d == 29)
  {}

  /** Leap years repeat every era. */
  lemma LeapPeriod(e: int, t: int)
    ensures IsLeap(400 * t + e) == IsLeap(e)
  {
    assert (400 * t + e) % 4 == e % 4 by { Same4(400 * t + e, e, 100 * t); }
    assert (400 * t + e) % 100 == e % 100 by { Same100(400 * t + e, e, 4 * t); }
    assert (400 * t + e) % 400 == e % 400 by { Same400(400 * t + e, e, t); }
  }

  lemma Same4(a: int, b: int, k: int)
    requires a == b + 4 * k
    ensures a % 4 == b % 4
  {}

  lemma Same100(a: int, b: int, k: int)
    requires a == b + 100 * k
    ensures a % 100 == b % 100
  {}

  lemma Same400(a: int, b: int, k: int)
    requires a == b + 400 * k
    ensures a % 400 == b % 400
  {}

  lemma DaysSplit(era: int, doe: int)
    requires 0 <= doe < 146_097
    ensures (era * 146_097 + doe) / 146_097 == era && (era * 146_097 + doe) % 146_097 == doe
  {}

  /** Reading a real date's day number back gives the date. */
  lemma CivilRoundTrip(c: Civil)
    requires IsReal(c)
    ensures CivilFromDays(DaysFromCivil(c)) == c
  {
    hide IsReal, FromShiftedYear, YearOfEra, EraYearStart, EraYearLength, DayOfShiftedYear, ShiftedYear;
    var y := ShiftedYear(c);
    var doy := DayOfShiftedYear(c.month, c.day);
    MonthSplits(c);
    EraYearSplits(y % 400, doy);
    DaysSplit(y / 400, EraYearStart(y % 400) + doy);
  }

  lemma ShiftedDateIsReal(era: int, yoe: int, doy: int)
    requires 0 <= yoe < 400 && 0 <= doy < EraYearLength(yoe)
    ensures var c := FromShiftedYear(era, yoe, doy);
            && IsReal(c) && ShiftedYear(c) == era * 400 + yoe
            && DayOfShiftedYear(c.month, c.day) == doy
  {
    ShiftedDay(doy);
    LeapPeriod(yoe + 1, era);
    assert era * 400 + yoe + 1 == 400 * era + (yoe + 1);
  }

  lemma ShiftedDay(doy: int)
    requires 0 <= doy <= 365
    ensures var mp := (5 * doy + 2) / 153;
            var m, d := (if mp < 10 then mp + 3 else mp - 9), doy - (153 * mp + 2) / 5 + 1;
            && 0 <= mp < 12 && DayOfShiftedYear(m, d) == doy
            && 1 <= d <= 31 && (m in {4, 6, 9, 11} ==> d <= 30)
            && (m == 2 ==> d <= 29) && (m == 2 && d == 29 <==> doy == 365)
  {}

  /** Every day number is the number of a real date, and that date is the one
      the era arithmetic reads. */
  lemma DaysRoundTrip(days: int)
    ensures IsReal(CivilFromDays(days)) && DaysFromCivil(CivilFromDays(days)) == days
  {
    hide IsReal, FromShiftedYear, YearOfEra, EraYearStart, EraYearLength, DayOfShiftedYear, ShiftedYear;
    var z := days + 719_468;
    var era, doe := z / 146_097, z % 146_097;
    var yoe := EraYearCovers(doe);
    var doy := doe - EraYearStart(yoe);
    EraYearSplits(yoe, doy);
    ShiftedDateIsReal(era, yoe, doy);
    YearSplits(era, yoe);
  }

  lemma YearSplits(era: int, yoe: int)
    requires 0 <= yoe < 400
    ensures (era * 400 + yoe) / 400 == era && (era * 400 + yoe) % 400 == yoe
  {}

  /** The day after a date has the next day number: the arithmetic counts the
      days of the Gregorian calendar one by one. */
  lemma NextDayIsOneMore(c: Civil)
    requires IsReal(c)
    ensures IsReal(NextDay(c)) && DaysFromCivil(NextDay(c)) == DaysFromCivil(c) + 1
  {
    hide EraYearStart, IsLeap, EraYearLength;
    var n := NextDay(c);
    if c.month == 2 && n.month == 3 {
      var y := c.year;
      assert ShiftedYear(n) == y && ShiftedYear(c) == y - 1;
      YearLength(y - 1);
    } else {
      assert ShiftedYear(n) == ShiftedYear(c);
      assert DayOfShiftedYear(n.month, n.day) == DayOfShiftedYear(c.month, c.day) + 1;
    }
  }

  /** Consecutive shifted years start `EraYearLength` days apart. */
  lemma YearLength(y: int)
    ensures (y + 1) / 400 * 146_097 + EraYearStart((y + 1) % 400)
         == y / 400 * 146_097 + EraYearStart(y % 400) + EraYearLength(y % 400)
    ensures EraYearLength(y % 400) == (if IsLeap(y + 1) then 366 else 365)
  {
    var era, yoe := y / 400, y % 400;
    assert IsLeap(y + 1) == IsLeap(yoe + 1) by {
      LeapPeriod(yoe + 1, era);
      assert y + 1 == 400 * era + (yoe + 1);
    }
    if yoe < 399 {
      YearSplits(era, yoe + 1);
      assert y + 1 == era * 400 + (yoe + 1);
      assert (yoe + 1) / 4 == yoe / 4 + (if (yoe + 1) % 4 == 0 then 1 else 0);
      assert (yoe + 1) / 100 == yoe / 100 + (if (yoe + 1) % 100 == 0 then 1 else 0);
    } else {
      YearSplits(era + 1, 0);
      assert y + 1 == (era + 1) * 400 + 0;
    }
  }

  /** Day numbers order dates as the calendar does. */
  lemma {:induction false} DaysMonotone(a: Civil, b: Civil)
    requires IsReal(a) && IsReal(b)
    ensures Before(a, b) <==> DaysFromCivil(a) < DaysFromCivil(b)
  {
    if Before(a, b) { LaterIsMore(a, b); }
    if Before(b, a) { LaterIsMore(b, a); }
  }

  /** Walking day by day from `a` reaches `b`: the calendar skips nothing. */
  lemma {:induction false} LaterIsMore(a: Civil, b: Civil)
    requires IsReal(a) && IsReal(b) && Before(a, b)
    ensures DaysFromCivil(a) < DaysFromCivil(b)
    decreases 372 * b.year + 31 * b.month + b.day - 372 * a.year - 31 * a.month - a.day
  {
    hide DaysFromCivil;
    NextDayIsOneMore(a);
    if NextDay(a) != b {
      LaterIsMore(NextDay(a), b);
    }
  }

  // ---- text ------------------------------------------------------------------

  const EPOCH := Civil(1970, 1, 1)
  const AFTER_LAST := Civil(10_000, 1, 1)
  /** The first second past 9999-12-31. */
  const SPAN_END := 253_402_300_800

  /** The days the four-digit text can name. */
  predicate InSpan(c: Civil) { IsReal(c) && 1970 <= c.year <= 9999 }

  lemma SpanEnds()
    ensures DaysFromCivil(EPOCH) == 0 && DaysFromCivil(AFTER_LAST) * DAY == SPAN_END
  {
    DayCounted(EPOCH, 4, 369, 306);
    DayCounted(AFTER_LAST, 24, 399, 306);
  }

  lemma DayCounted(c: Civil, era: int, yoe: int, doy: int)
    requires ShiftedYear(c) == era * 400 + yoe && 0 <= yoe < 400 && DayOfShiftedYear(c.month, c.day) == doy
    ensures DaysFromCivil(c) == era * 146_097 + EraYearStart(yoe) + doy - 719_468
  {
    assert ShiftedYear(c) / 400 == era && ShiftedYear(c) % 400 == yoe;
    hide EraYearStart, DayOfShiftedYear, ShiftedYear;
  }

  function DateText(c: Civil): string
    requires IsReal(c) && c.year >= 0
  {
    Padded(c.year, 4) + "-" + Padded(c.month, 2) + "-" + Padded(c.day, 2)
  }

  function ClockText(tod: nat): string {
    Padded(tod / 3600, 2) + ":" + Padded(tod % 3600 / 60, 2) + ":" + Padded(tod % 60, 2)
  }

  function Rfc3339FromUnix(secs: nat): string {
    YearOfInstant(secs);
    DateText(CivilFromDays(secs / DAY)) + "T" + ClockText(secs % DAY) + "Z"
  }

  /** The UTC day of an instant: what stands before the clock. */
  function DayFromUnix(secs: int): (day: string)
    ensures |day| == 10
  {
    var text := Rfc3339FromUnix(if secs < 0 then 0 else secs);
    text[..10]
  }

  function Digits(s: string, lo: nat, hi: nat): Option<nat>
    requires lo < hi <= |s|
  {
    if AllDigits(s[lo..hi]) then Some(NumberOf(s[lo..hi])) else None
  }

  /** Strict `YYYY-MM-DD`: the civil arithmetic takes any numbers, so writing
      the day back is what rejects the dates that do not exist. */
  function ParseDay(s: string): Option<int> {
    if |s| != 10 || s[4] != '-' || s[7] != '-' then None
    else
      match (Digits(s, 0, 4), Digits(s, 5, 7), Digits(s, 8, 10))
      case (Some(y), Some(m), Some(d)) =>
        var secs := DaysFromCivil(Civil(y, m, d)) * DAY;
        if DayFromUnix(secs) == s then Some(secs) else None
      case _ => None
  }

  function ParseRfc3339Utc(s: string): Option<int> {
    if |s| != 20 || s[10] != 'T' || s[13] != ':' || s[16] != ':' || s[19] != 'Z' then None
    else
      match (ParseDay(s[..10]), Digits(s, 11, 13), Digits(s, 14, 16), Digits(s, 17, 19))
      case (Some(day), Some(h), Some(m), Some(sec)) =>
        if h > 23 || m > 59 || sec > 59 then None else Some(day + h * 3600 + m * 60 + sec)
      case _ => None
  }

  lemma YearOfInstant(secs: int)
    ensures var c := CivilFromDays(secs / DAY);
            IsReal(c) && (c.year >= 1970 <==> secs >= 0) && (c.year < 10_000 <==> secs < SPAN_END)
  {
    var c := CivilFromDays(secs / DAY);
    DaysRoundTrip(secs / DAY);
    SpanEnds();
    DaysMonotone(c, EPOCH);
    DaysMonotone(c, AFTER_LAST);
  }

  /** A date of the span is ten characters whose fields read back. */
  lemma DateTextFields(c: Civil)
    requires InSpan(c)
    ensures var s := DateText(c);
            && |s| == 10 && s[4] == '-' && s[7] == '-'
            && Digits(s, 0, 4) == Some(c.year) && Digits(s, 5, 7) == Some(c.month) && Digits(s, 8, 10) == Some(c.day)
  {
    assert Pow10(4) == 10_000 && Pow10(2) == 100;
    hide NumberOf, Padded, Pow10;
    var y, m, d := Padded(c.year, 4), Padded(c.month, 2), Padded(c.day, 2);
    FieldWidth(c.year, 4);
    FieldWidth(c.month, 2);
    FieldWidth(c.day, 2);
    var s := DateText(c);
    assert s == y + "-" + m + "-" + d;
    assert s[0..4] == y && s[5..7] == m && s[8..10] == d;
  }

  lemma FieldWidth(n: nat, width: nat)
    requires 1 <= width && n < Pow10(width)
    ensures |Padded(n, width)| == width && NumberOf(Padded(n, width)) == n
  {
    PaddedWidth(n, width);
    NumberOfPadded(n, width);
  }

  /** Past the year 9999 the fifth character is a digit, so no such text is a day. */
  lemma LongYear(c: Civil)
    requires IsReal(c) && c.year >= 10_000
    ensures |DateText(c)| > 10 && IsDigit(DateText(c)[4])
  {
    assert Pow10(4) == 10_000;
    PaddedWidth(c.year, 4);
    assert DateText(c)[4] == Padded(c.year, 4)[4];
  }

  lemma DayTextOfInstant(secs: int)
    requires 0 <= secs
    ensures secs < SPAN_END ==> InSpan(CivilFromDays(secs / DAY)) && DayFromUnix(secs) == DateText(CivilFromDays(secs / DAY))
    ensures secs >= SPAN_END ==> IsDigit(DayFromUnix(secs)[4])
  {
    YearOfInstant(secs);
    var c := CivilFromDays(secs / DAY);
    if secs < SPAN_END {
      DateTextFields(c);
      assert Rfc3339FromUnix(secs)[..10] == DateText(c);
    } else {
      LongYear(c);
    }
  }

  lemma DateWithinSpan(c: Civil)
    requires InSpan(c)
    ensures var days := DaysFromCivil(c);
            0 <= days * DAY < SPAN_END && days * DAY / DAY == days && CivilFromDays(days) == c
  {
    CivilRoundTrip(c);
    SpanEnds();
    DaysMonotone(c, EPOCH);
    DaysMonotone(c, AFTER_LAST);
  }

  lemma ParseDayAccepts(c: Civil)
    requires InSpan(c)
    ensures ParseDay(DateText(c)) == Some(DaysFromCivil(c) * DAY)
    ensures 0 <= DaysFromCivil(c) * DAY < SPAN_END
  {
    var s, secs := DateText(c), DaysFromCivil(c) * DAY;
    DateWithinSpan(c);
    assert DayFromUnix(secs) == s by { DayTextOfInstant(secs); }
    DateTextFields(c);
    assert Civil(c.year, c.month, c.day) == c;
  }

  /** The strict parser accepts exactly the texts of the real days of the span,
      and yields their midnight. */
  lemma ParseDayExact(s: string)
    ensures ParseDay(s).Some? <==> exists c :: InSpan(c) && s == DateText(c)
    ensures forall c :: InSpan(c) && s == DateText(c) ==> ParseDay(s) == Some(DaysFromCivil(c) * DAY)
  {
    forall c | InSpan(c) && s == DateText(c) ensures ParseDay(s) == Some(DaysFromCivil(c) * DAY) {
      ParseDayAccepts(c);
    }
    if ParseDay(s).Some? {
      var secs := ParseDay(s).value;
      DayTextOfInstant(if secs < 0 then 0 else secs);
      assert DayFromUnix(secs) == s;
    }
  }

  /** Parsing undoes formatting, up to the time of day, for exactly the instants
      of the span. */
  lemma ParseDayInvertsDayFromUnix(secs: int)
    ensures ParseDay(DayFromUnix(secs)) == Some(secs / DAY * DAY) <==> 0 <= secs < SPAN_END
  {
    hide DaysFromCivil, CivilFromDays, Padded;
    DayTextOfInstant(if secs < 0 then 0 else secs);
    if 0 <= secs < SPAN_END {
      DaysRoundTrip(secs / DAY);
      ParseDayAccepts(CivilFromDays(secs / DAY));
    } else if secs < 0 {
      assert DayFromUnix(secs) == DayFromUnix(0);
      SpanEnds();
      CivilRoundTrip(EPOCH);
      ParseDayAccepts(EPOCH);
      assert 0 / DAY == 0;
    }
  }

  /** A full timestamp reads back to its second. */
  lemma TimestampRoundTrip(secs: int)
    requires 0 <= secs < SPAN_END
    ensures ParseRfc3339Utc(Rfc3339FromUnix(secs)) == Some(secs)
  {
    var day, clock := DayFromUnix(secs), ClockText(secs % DAY);
    assert Rfc3339FromUnix(secs) == day + "T" + clock + "Z" by { DayTextOfInstant(secs); }
    ParseDayInvertsDayFromUnix(secs);
    ClockReads(secs % DAY);
    StampReads(day, clock);
  }

  /** The clock part of a timestamp, read by itself. */
  function ParseClock(s: string): Option<int> {
    if |s| != 8 || s[2] != ':' || s[5] != ':' then None
    else
      match (Digits(s, 0, 2), Digits(s, 3, 5), Digits(s, 6, 8))
      case (Some(h), Some(m), Some(sec)) =>
        if h > 23 || m > 59 || sec > 59 then None else Some(h * 3600 + m * 60 + sec)
      case _ => None
  }

  /** A text reads as a timestamp exactly if it is the one written for some second of the
      span, and then as that second. */
  lemma TimestampExact(s: string)
    ensures ParseRfc3339Utc(s).Some? <==> exists secs: nat :: secs < SPAN_END && s == Rfc3339FromUnix(secs)
    ensures forall secs: nat :: secs < SPAN_END && s == Rfc3339FromUnix(secs) ==> ParseRfc3339Utc(s) == Some(secs)
  {
    hide ParseRfc3339Utc, Rfc3339FromUnix;
    if ParseRfc3339Utc(s).Some? {
      var secs := WrittenFor(s);
    }
    forall secs: nat | secs < SPAN_END && s == Rfc3339FromUnix(secs) ensures ParseRfc3339Utc(s) == Some(secs) {
      TimestampRoundTrip(secs);
    }
  }

  lemma WrittenFor(s: string) returns (secs: nat)
    requires ParseRfc3339Utc(s).Some?
    ensures secs < SPAN_END && s == Rfc3339FromUnix(secs)
  {
    hide ParseDay, ParseClock, CivilFromDays, DaysFromCivil, DateText, ClockText;
    var day, clock := s[..10], s[11..19];
    assert |s| == 20 && s == day + "T" + clock + "Z" by { StampParts(s); }
    StampReads(day, clock);
    hide ParseRfc3339Utc;
    ParseDayExact(day);
    var c :| InSpan(c) && day == DateText(c);
    DateWithinSpan(c);
    ParseDayAccepts(c);
    var tod := ClockWritten(clock);
    var days := DaysFromCivil(c);
    secs := days * DAY + tod;
    assert secs / DAY == days && secs % DAY == tod;
    CivilRoundTrip(c);
    YearOfInstant(secs);
  }

  lemma StampParts(s: string)
    requires ParseRfc3339Utc(s).Some?
    ensures |s| == 20 && s == s[..10] + "T" + s[11..19] + "Z"
  {
    hide ParseDay, AllDigits, NumberOf;
  }

  lemma ClockWritten(s: string) returns (tod: nat)
    requires ParseClock(s).Some?
    ensures tod < DAY && ParseClock(s) == Some(tod) && s == ClockText(tod)
  {
    var (h, m, x) := (NumberOf(s[0..2]), NumberOf(s[3..5]), NumberOf(s[6..8]));
    tod := h * 3600 + m * 60 + x;
    assert tod / 3600 == h && tod % 3600 / 60 == m && tod % 60 == x;
    FieldWritten(s[0..2]);
    FieldWritten(s[3..5]);
    FieldWritten(s[6..8]);
    hide NumberOf, Padded, AllDigits;
    assert s == s[0..2] + ":" + s[3..5] + ":" + s[6..8];
  }

  lemma FieldWritten(s: string)
    requires |s| == 2 && AllDigits(s)
    ensures s == Padded(NumberOf(s), 2) && NumberOf(s) < 100
  {
    var n := NumberOf(s);
    assert s == [s[0], s[1]];
    assert NumberOf(s[..1]) == DigitValue(s[0]) by { assert s[..1] == [s[0]] && [s[0]][..0] == []; }
    assert Pow10(2) == 100;
    FieldWidth(n, 2);
    NumberOfInjective(s, Padded(n, 2));
  }

  /** A timestamp is read as its day and its clock. */
  lemma StampReads(day: string, clock: string)
    requires |day| == 10
    ensures var s := day + "T" + clock + "Z";
            ParseRfc3339Utc(s) == (match (ParseDay(day), ParseClock(clock))
                                   case (Some(d), Some(c)) => Some(d + c)
                                   case _ => None)
  {
    hide ParseDay, AllDigits, NumberOf;
    var s := day + "T" + clock + "Z";
    assert s[..10] == day;
    if |clock| == 8 {
      assert s[11..13] == clock[0..2] && s[14..16] == clock[3..5] && s[17..19] == clock[6..8];
      assert s[13] == clock[2] && s[16] == clock[5] && s[19] == 'Z';
      assert Digits(s, 11, 13) == Digits(clock, 0, 2);
      assert Digits(s, 14, 16) == Digits(clock, 3, 5);
      assert Digits(s, 17, 19) == Digits(clock, 6, 8);
    }
  }

  lemma ClockReads(tod: nat)
    requires tod < DAY
    ensures ParseClock(ClockText(tod)) == Some(tod)
  {
    ClockFields(tod);
    ClockSplits(tod);
  }

  lemma ClockSplits(tod: nat)
    requires tod < DAY
    ensures tod == tod / 3600 * 3600 + tod % 3600 / 60 * 60 + tod % 60
    ensures tod / 3600 <= 23 && tod % 3600 / 60 <= 59
  {}

  lemma ClockFields(tod: nat)
    requires tod < DAY
    ensures var s := ClockText(tod);
            && |s| == 8 && s[2] == ':' && s[5] == ':'
            && Digits(s, 0, 2) == Some(tod / 3600) && Digits(s, 3, 5) == Some(tod % 3600 / 60)
            && Digits(s, 6, 8) == Some(tod % 60)
  {
    FieldWidth(tod / 3600, 2);
    FieldWidth(tod % 3600 / 60, 2);
    FieldWidth(tod % 60, 2);
    var h, m, x := Padded(tod / 3600, 2), Padded(tod % 3600 / 60, 2), Padded(tod % 60, 2);
    var s := ClockText(tod);
    assert s[0..2] == h && s[3..5] == m && s[6..8] == x;
  }

  /** Day texts compare as strings exactly as the days they name. */
  lemma DateTextOrder(a: Civil, b: Civil)
    requires InSpan(a) && InSpan(b)
    ensures LexLess(DateText(a), DateText(b)) <==> DaysFromCivil(a) < DaysFromCivil(b)
  {
    hide DaysFromCivil, Padded;
    assert LexLess(DateText(a), DateText(b)) <==> Before(a, b) by {
      var ma, mb, da, db := Padded(a.month, 2), Padded(b.month, 2), Padded(a.day, 2), Padded(b.day, 2);
      var ra, rb := "-" + (ma + ("-" + (da + ""))), "-" + (mb + ("-" + (db + "")));
      assert DateText(a) == Padded(a.year, 4) + ra && DateText(b) == Padded(b.year, 4) + rb;
      PaddedOrder(a.year, b.year, 4, ra, rb);
      FieldOrder("-", "-", ma + ("-" + (da + "")), mb + ("-" + (db + "")));
      PaddedOrder(a.month, b.month, 2, "-" + (da + ""), "-" + (db + ""));
      FieldOrder("-", "-", da + "", db + "");
      PaddedOrder(a.day, b.day, 2, "", "");
    }
    DaysMonotone(a, b);
  }

  /** Zero-filled numbers of one width compare as numbers; equal ones pass the
      comparison on to what follows. */
  lemma PaddedOrder(m: nat, n: nat, width: nat, rest: string, rest': string)
    requires 1 <= width && m < Pow10(width) && n < Pow10(width)
    ensures LexLess(Padded(m, width) + rest, Padded(n, width) + rest')
       <==> m < n || (m == n && LexLess(rest, rest'))
  {
    var f, g := Padded(m, width), Padded(n, width);
    FieldWidth(m, width);
    FieldWidth(n, width);
    FieldOrder(f, g, rest, rest');
    DigitsOrder(f, g);
    LexTotal(f, f);
  }

  /** Fields of one width compare first; equal ones pass the comparison on. */
  lemma {:induction false} FieldOrder(f: string, g: string, rest: string, rest': string)
    requires |f| == |g|
    ensures LexLess(f + rest, g + rest') <==> LexLess(f, g) || (f == g && LexLess(rest, rest'))
  {
    if f == [] {
      assert f + rest == rest && g + rest' == rest';
    } else {
      FieldOrder(f[1..], g[1..], rest, rest');
      assert (f + rest)[1..] == f[1..] + rest && (g + rest')[1..] == g[1..] + rest';
      assert f == [f[0]] + f[1..] && g == [g[0]] + g[1..];
    }
  }

  /** Runs of digits of one width compare as the numbers they write. */
  lemma {:induction false} DigitsOrder(f: string, g: string)
    requires |f| == |g| && AllDigits(f) && AllDigits(g)
    ensures LexLess(f, g) <==> NumberOf(f) < NumberOf(g)
  {
    if f != [] {
      DigitsOrder(f[1..], g[1..]);
      LeadingDigit(f);
      LeadingDigit(g);
      LeadingWeighs(DigitValue(f[0]), DigitValue(g[0]), Pow10(|f| - 1), NumberOf(f[1..]), NumberOf(g[1..]));
    }
  }

  lemma AtLeast(d: int, p: int)
    requires d >= 1 && p > 0
    ensures d * p >= p
  {}

  lemma LeadingWeighs(a: int, b: int, p: int, x: int, y: int)
    requires 0 <= x < p && 0 <= y < p
    ensures a * p + x < b * p + y <==> a < b || (a == b && x < y)
  {
    if a < b {
      AtLeast(b - a, p);
      assert b * p == a * p + (b - a) * p;
    } else if b < a {
      AtLeast(a - b, p);
      assert a * p == b * p + (a - b) * p;
    }
  }

  /** The first digit weighs more than all that follow. */
  lemma {:induction false} LeadingDigit(s: string)
    requires s != [] && AllDigits(s)
    ensures NumberOf(s) == DigitValue(s[0]) * Pow10(|s| - 1) + NumberOf(s[1..])
    ensures NumberOf(s[1..]) < Pow10(|s| - 1)
  {
    var n := |s| - 1;
    if n == 0 {
      assert s[..0] == [];
    } else {
      LeadingDigit(s[..n]);
      assert s[..n][1..] == s[1..][..n - 1] && s[1..][n - 1] == s[n];
      LastDigits(s);
      hide NumberOf, Pow10;
      Shifted(DigitValue(s[0]), Pow10(n - 1), NumberOf(s[1..][..n - 1]), DigitValue(s[n]));
    }
  }

  lemma LastDigits(s: string)
    requires |s| > 1 && AllDigits(s)
    ensures var n := |s| - 1;
            && NumberOf(s) == 10 * NumberOf(s[..n]) + DigitValue(s[n])
            && NumberOf(s[1..]) == 10 * NumberOf(s[1..][..n - 1]) + DigitValue(s[n])
            && Pow10(n) == 10 * Pow10(n - 1) && 0 <= DigitValue(s[n]) < 10
  {}

  lemma Shifted(lead: int, p: int, rest: int, digit: int)
    requires rest < p && digit < 10
    ensures 10 * (lead * p + rest) + digit == lead * (10 * p) + (10 * rest + digit) && 10 * rest + digit < 10 * p
  {}
}
