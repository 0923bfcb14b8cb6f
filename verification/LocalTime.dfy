/** The schedule of an announcement, from its stored date and time to the stamp it
    shows. */
module LocalTime {
  import opened Prelude
  import opened Calendar
  import opened Schedule

  /** The start of every announcement with a date and a time lies at the offset the EU
      rule gives it, unless that time falls in the hour skipped in spring. */
  lemma ScheduleOffsetExact(date: string, time: string, duration: Option<int>)
    ensures var s := ScheduleOf(Some(date), Some(time), false, duration);
            s.Some? ==>
              (EuOffset(s.value.startUtc) == s.value.offsetMin
               <==> !InSkippedHour(ParseDay(date).value / DAY, MinuteOfDay(time).value))
  {
    hide CivilFromDays, UtcOffsetMin, EuOffset, MinuteOfDay, ParseDay;
    if ScheduleOf(Some(date), Some(time), false, duration).Some? {
      var c := ParsedDayIsMidnight(date);
      OffsetIsEuOffset(ParseDay(date).value / DAY, MinuteOfDay(time).value);
    }
  }

  /** The local stamp of the start shows the given day, the time in two digits
      each, and the offset of the city. */
  lemma StartLocalShowsTheGiven(date: string, time: string, utc3: bool, duration: Option<int>)
    ensures var s := ScheduleOf(Some(date), Some(time), utc3, duration);
            s.Some? ==>
              && s.value.offsetMin in {60, 120, 180} && (utc3 <==> s.value.offsetMin == 180)
              && LocalStamp(s.value.startUtc, s.value.offsetMin)
                 == date + "T" + HourMinute(MinuteOfDay(time).value) + ":00" + "+0"
                    + [DigitChar(s.value.offsetMin / 60)] + ":00"
  {
    hide DaysFromCivil, CivilFromDays, ParseDay, MinuteOfDay, Rfc3339FromUnix, HourMinute, LastSunday, DayFromUnix, WithOffset;
    if ScheduleOf(Some(date), Some(time), utc3, duration).Some? {
      var s := ScheduleOf(Some(date), Some(time), utc3, duration).value;
      var minute := MinuteOfDay(time).value;
      var c := ParsedDayIsMidnight(date);
      var local := DaysFromCivil(c) * DAY + minute * 60;
      assert s.startUtc + s.offsetMin * 60 == local;
      var shown := date + "T" + HourMinute(minute) + ":00";
      assert shown + "Z" == date + "T" + (HourMinute(minute) + ":00") + "Z";
      LocalInstant(c, minute);
      StampText(Rfc3339FromUnix(local), s.offsetMin, shown);
    }
  }

  /** An announcement has a schedule exactly if its date is a real day and its time a time of
      day. It starts when the city's clock shows them, and ends after the length its text
      names, or after three hours. */
  lemma ScheduleExactly(date: Option<string>, time: Option<string>, utc3: bool, duration: Option<int>)
    ensures var s := ScheduleOf(date, time, utc3, duration);
            && (s.Some? <==> date.Some? && time.Some? && ParseDay(date.value).Some? && MinuteOfDay(time.value).Some?)
            && (s.Some? ==>
                  && s.value.startUtc + s.value.offsetMin * 60 == ParseDay(date.value).value + MinuteOfDay(time.value).value * 60
                  && (duration.Some? ==> s.value.endUtc == s.value.startUtc + 60 * duration.value)
                  && (duration.None? ==> s.value.endUtc == s.value.startUtc + 3 * 3600))
  {
    hide ParseDay, MinuteOfDay, UtcOffsetMin, DaysFromCivil;
    if date.Some? && ParseDay(date.value).Some? { var c := ParsedDayIsMidnight(date.value); }
  }
}
