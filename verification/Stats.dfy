/** The admin dashboard: day ranges over dated events, the daily chart, the
    per-quest table and the funnel. */
module Stats {
  import opened Prelude
  import opened Calendar

  datatype StatEvent = StatEvent(quest: string, at: int)

  datatype Events = Events(purchases: seq<StatEvent>, starts: seq<StatEvent>, finishes: seq<StatEvent>)

  // ---- day ranges -----------------------------------------------------------------

  /** An inclusive range of UTC days with its bounds in seconds. */
  datatype DayRange = DayRange(from: string, to: string, start: int, end: int)

  function NewRange(from: string, to: string): Option<DayRange> {
    match (ParseDay(from), ParseDay(to))
    case (Some(start), Some(last)) => if start < last + DAY then Some(DayRange(from, to, start, last + DAY)) else None
    case _ => None
  }

  predicate Contains(r: DayRange, at: int) { r.start <= at < r.end }

  function LenDays(r: DayRange): int { (r.end - r.start) / DAY }

  /** The window of the same length immediately before. */
  function Prev(r: DayRange): DayRange {
    var start := r.start - LenDays(r) * DAY;
    DayRange(DayFromUnix(start), DayFromUnix(r.start - DAY), start, r.start)
  }

  /** Whole days, at least one. */
  predicate WholeDays(r: DayRange) { r.start < r.end && r.start % DAY == 0 && r.end % DAY == 0 }

  /** A range is accepted exactly when both days are real dates of the span in
      order, and it holds exactly the instants of those days. */
  lemma RangeExact(from: string, to: string)
    ensures NewRange(from, to).Some? <==>
            exists a, b :: InSpan(a) && InSpan(b) && from == DateText(a) && to == DateText(b)
                        && DaysFromCivil(a) <= DaysFromCivil(b)
  {
    hide DaysFromCivil, DateText, ParseDay, IsReal;
    ParseDayExact(from);
    ParseDayExact(to);
    if NewRange(from, to).Some? {
      var a :| InSpan(a) && from == DateText(a);
      var b :| InSpan(b) && to == DateText(b);
      Ordered(DaysFromCivil(a), DaysFromCivil(b));
    }
    if a, b :| InSpan(a) && InSpan(b) && from == DateText(a) && to == DateText(b) && DaysFromCivil(a) <= DaysFromCivil(b) {
      Ordered(DaysFromCivil(a), DaysFromCivil(b));
    }
  }

  lemma Ordered(a: int, b: int)
    ensures a * DAY < b * DAY + DAY <==> a <= b
  {}

  lemma RangeHolds(a: Civil, b: Civil)
    requires InSpan(a) && InSpan(b) && DaysFromCivil(a) <= DaysFromCivil(b)
    ensures NewRange(DateText(a), DateText(b)).Some?
    ensures var r := NewRange(DateText(a), DateText(b)).value;
            && WholeDays(r) && r.start >= 0 && LenDays(r) == DaysFromCivil(b) - DaysFromCivil(a) + 1
            && forall at :: Contains(r, at) <==> DaysFromCivil(a) <= at / DAY <= DaysFromCivil(b)
  {
    hide DaysFromCivil, DateText, ParseDay, IsReal;
    ParseDayAccepts(a);
    ParseDayAccepts(b);
    Ordered(DaysFromCivil(a), DaysFromCivil(b));
    RangeOfDays(NewRange(DateText(a), DateText(b)).value, DaysFromCivil(a), DaysFromCivil(b));
  }

  lemma RangeOfDays(r: DayRange, a: int, b: int)
    requires r.start == a * DAY && r.end == b * DAY + DAY && a <= b
    ensures WholeDays(r) && LenDays(r) == b - a + 1
    ensures forall at :: Contains(r, at) <==> a <= at / DAY <= b
  {
    assert b * DAY + DAY - a * DAY == (b - a + 1) * DAY;
  }

  /** The comparison window is adjacent, disjoint and of the same length. */
  lemma PrevWindow(r: DayRange)
    requires WholeDays(r)
    ensures var p := Prev(r);
            && WholeDays(p) && LenDays(p) == LenDays(r) && p.end == r.start
            && forall at :: Contains(p, at) <==> r.start - (r.end - r.start) <= at < r.start
  {
    hide DayFromUnix;
    Shifted(r.start, r.end, LenDays(r));
  }

  lemma Shifted(start: int, end: int, days: int)
    requires start % DAY == 0 && end % DAY == 0 && start <= end && days == (end - start) / DAY
    ensures end - start == days * DAY && (start - days * DAY) % DAY == 0
    ensures (start - (start - days * DAY)) / DAY == days
  {}

  /** Its labels name it — they read back as the same window — exactly when it does
      not reach back before 1970, where the label of the first day is clipped. */
  lemma PrevLabels(r: DayRange)
    requires WholeDays(r) && 0 <= r.start && r.end <= SPAN_END
    ensures NewRange(Prev(r).from, Prev(r).to) == Some(Prev(r)) <==> Prev(r).start >= 0
  {
    hide ParseDay, DayFromUnix, LenDays;
    var p := Prev(r);
    assert WholeDays(p) && p.start < r.start by { PrevWindow(r); }
    assert (r.start - DAY) % DAY == 0 && p.start <= r.start - DAY by { DayBefore(r.start, p.start); }
    if p.start < 0 {
      Clipped(p.start);
    } else {
      LabelReads(p.start);
      LabelReads(r.start - DAY);
    }
  }

  lemma LabelReads(secs: int)
    requires 0 <= secs < SPAN_END && secs % DAY == 0
    ensures ParseDay(DayFromUnix(secs)) == Some(secs)
  {
    hide ParseDay, DayFromUnix;
    ParseDayInvertsDayFromUnix(secs);
  }

  lemma DayBefore(start: int, prev: int)
    requires start % DAY == 0 && prev % DAY == 0 && prev < start
    ensures (start - DAY) % DAY == 0 && prev <= start - DAY
  {}

  lemma ClippedText(secs: int)
    requires secs < 0
    ensures DayFromUnix(secs) == DayFromUnix(0)
  {
    hide DateText, CivilFromDays;
  }

  lemma Clipped(secs: int)
    requires secs < 0
    ensures ParseDay(DayFromUnix(secs)) == Some(0)
  {
    hide ParseDay, DayFromUnix;
    ClippedText(secs);
    LabelReads(0);
  }

  // ---- counters ------------------------------------------------------------------------

  predicate Counted(e: StatEvent, r: DayRange, quest: Option<string>) {
    Contains(r, e.at) && (quest.None? || e.quest == quest.value)
  }

  function CountIn(events: seq<StatEvent>, r: DayRange, quest: Option<string>): nat {
    if events == [] then 0
    else CountIn(events[..|events| - 1], r, quest) + (if Counted(events[|events| - 1], r, quest) then 1 else 0)
  }

  datatype Totals = Totals(purchased: nat, started: nat, finished: nat)

  function TotalsIn(ev: Events, r: DayRange, quest: Option<string>): Totals {
    Totals(CountIn(ev.purchases, r, quest), CountIn(ev.starts, r, quest), CountIn(ev.finishes, r, quest))
  }

  // ---- the daily chart ------------------------------------------------------------------

  datatype DailyPoint = DailyPoint(date: string, started: nat, finished: nat)

  /** The events of one day within the range. */
  function CountDay(events: seq<StatEvent>, r: DayRange, day: int): nat {
    if events == [] then 0
    else
      var e := events[|events| - 1];
      CountDay(events[..|events| - 1], r, day) + (if Contains(r, e.at) && e.at / DAY == day then 1 else 0)
  }

  method CountByDay(events: seq<StatEvent>, r: DayRange) returns (byDay: map<int, nat>)
    ensures forall day :: (if day in byDay then byDay[day] else 0) == CountDay(events, r, day)
  {
    byDay := map[];
    var i := 0;
    while i < |events|
      invariant 0 <= i <= |events|
      invariant forall day :: (if day in byDay then byDay[day] else 0) == CountDay(events[..i], r, day)
    {
      assert events[..i + 1][..i] == events[..i];
      if Contains(r, events[i].at) {
        var day := events[i].at / DAY;
        byDay := byDay[day := (if day in byDay then byDay[day] else 0) + 1];
      }
      i := i + 1;
    }
    assert events[..i] == events;
  }

  /** One point per day of the range, in order, with that day's counts; the columns
      add up to the period's counters. */
  method DailySeries(ev: Events, r: DayRange) returns (points: seq<DailyPoint>)
    requires WholeDays(r)
    ensures |points| == LenDays(r)
    ensures forall i :: 0 <= i < |points| ==>
              && points[i].date == DayFromUnix(r.start + i * DAY)
              && points[i].started == CountDay(ev.starts, r, r.start / DAY + i)
              && points[i].finished == CountDay(ev.finishes, r, r.start / DAY + i)
    ensures Sum(Map(StartedOn, points)) == TotalsIn(ev, r, None).started
    ensures Sum(Map(FinishedOn, points)) == TotalsIn(ev, r, None).finished
  {
    hide DayFromUnix, CountDay;
    var started := CountByDay(ev.starts, r);
    var finished := CountByDay(ev.finishes, r);
    points := [];
    var i := 0;
    while i < LenDays(r)
      invariant 0 <= i <= LenDays(r) && |points| == i
      invariant forall j :: 0 <= j < i ==>
                  && points[j].date == DayFromUnix(r.start + j * DAY)
                  && points[j].started == CountDay(ev.starts, r, r.start / DAY + j)
                  && points[j].finished == CountDay(ev.finishes, r, r.start / DAY + j)
    {
      var secs := r.start + i * DAY;
      var day := secs / DAY;
      DayIndex(r.start, i);
      points := points + [DailyPoint(DayFromUnix(secs), if day in started then started[day] else 0,
                                     if day in finished then finished[day] else 0)];
      i := i + 1;
    }
    ChartAddsUp(ev, r, points);
  }

  lemma DayIndex(start: int, i: int)
    ensures (start + i * DAY) / DAY == start / DAY + i
  {}

  function StartedOn(p: DailyPoint): int { p.started }
  function FinishedOn(p: DailyPoint): int { p.finished }

  /** The counts of the first `n` days together. */
  function DaysTotal(events: seq<StatEvent>, r: DayRange, n: nat): nat {
    if n == 0 then 0 else DaysTotal(events, r, n - 1) + CountDay(events, r, r.start / DAY + n - 1)
  }

  lemma {:induction false} DaysTotalOfLast(events: seq<StatEvent>, r: DayRange, n: nat)
    requires events != []
    ensures var e := events[|events| - 1];
            DaysTotal(events, r, n) == DaysTotal(events[..|events| - 1], r, n)
            + (if Contains(r, e.at) && r.start / DAY <= e.at / DAY < r.start / DAY + n then 1 else 0)
  {
    if n > 0 { DaysTotalOfLast(events, r, n - 1); }
  }

  /** Every event of the range falls on exactly one of its days. */
  lemma {:induction false} DaysAddUp(events: seq<StatEvent>, r: DayRange)
    requires WholeDays(r)
    ensures DaysTotal(events, r, LenDays(r)) == CountIn(events, r, None)
  {
    if events == [] {
      NoEvents(r, LenDays(r));
    } else {
      var e := events[|events| - 1];
      DaysAddUp(events[..|events| - 1], r);
      DaysTotalOfLast(events, r, LenDays(r));
      OnSomeDay(r.start, r.end, e.at);
    }
  }

  lemma {:induction false} NoEvents(r: DayRange, n: nat)
    ensures DaysTotal([], r, n) == 0
  {
    if n > 0 { NoEvents(r, n - 1); }
  }

  lemma OnSomeDay(start: int, end: int, at: int)
    requires start < end && start % DAY == 0 && end % DAY == 0
    ensures start <= at < end <==> start / DAY <= at / DAY < start / DAY + (end - start) / DAY
  {}

  /** A column of points whose values are the days' counts adds up to their total. */
  lemma {:induction false} ColumnAddsUp(points: seq<DailyPoint>, column: DailyPoint -> int, events: seq<StatEvent>, r: DayRange)
    requires forall i :: 0 <= i < |points| ==> column(points[i]) == CountDay(events, r, r.start / DAY + i)
    ensures Sum(Map(column, points)) == DaysTotal(events, r, |points|)
  {
    if points != [] {
      var n := |points| - 1;
      ColumnAddsUp(points[..n], column, events, r);
      assert points == points[..n] + [points[n]];
      MapConcat(column, points[..n], [points[n]]);
      assert Map(column, [points[n]]) == [column(points[n])];
      SumConcat(Map(column, points[..n]), [column(points[n])]);
    }
  }

  /** The columns of the chart add up to the period's counters. */
  lemma ChartAddsUp(ev: Events, r: DayRange, points: seq<DailyPoint>)
    requires WholeDays(r) && |points| == LenDays(r)
    requires forall i :: 0 <= i < |points| ==>
               && points[i].started == CountDay(ev.starts, r, r.start / DAY + i)
               && points[i].finished == CountDay(ev.finishes, r, r.start / DAY + i)
    ensures Sum(Map(StartedOn, points)) == TotalsIn(ev, r, None).started
    ensures Sum(Map(FinishedOn, points)) == TotalsIn(ev, r, None).finished
  {
    hide CountDay;
    ColumnAddsUp(points, StartedOn, ev.starts, r);
    ColumnAddsUp(points, FinishedOn, ev.finishes, r);
    DaysAddUp(ev.starts, r);
    DaysAddUp(ev.finishes, r);
  }
}
