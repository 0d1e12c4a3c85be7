/**
 * The due-selection predicate of the reminder query (reminder.php:24-37):
 * the ON conditions of the join and the WHERE clause, evaluated on one
 * candidate combination of table rows against the clock of the run.
 *
 * Dates are day numbers and instants are minutes, `day * 1440 + minuteOfDay`.
 * MySQL's DAYOFWEEK(CURDATE()) and WEEK($currentDate, 1), the week of PHP's
 * current date, are inputs of the clock.
 */
module DueSelection {
  import opened Schema

  /** The seconds of the current minute. */
  type Second = s: int | 0 <= s < 60

  /**
   * The clock of one run: today's day number, the current time to the second,
   * today's DAYOFWEEK (1 = Sunday ... 7 = Saturday) and the Monday-first week
   * number WEEK($currentDate, 1) of PHP's current date.
   */
  datatype Clock = Clock(day: int, time: TimeOfDay, second: Second, weekday: int, week: nat)

  /** The current instant in seconds, as `new DateTime()` reads it. */
  function NowSeconds(clk: Clock): int
  {
    (clk.day * MinutesPerDay + MinuteOfDay(clk.time)) * 60 + clk.second
  }

  /** The remind time of the run: now cut to the minute ('Y-m-d H:i:00'), the seconds dropped. */
  function RemindInstant(clk: Clock): (t: int)
    ensures t * 60 <= NowSeconds(clk) < t * 60 + 60
    ensures t == NowSeconds(clk) / 60
  {
    clk.day * MinutesPerDay + clk.time.hour * 60 + clk.time.minute
  }

  /** Days after today at which the CASE-chosen date plus INTERVAL (dayOfWeek - DAYOFWEEK) DAY lands. */
  function DayOffset(weekday: int, dayOfWeek: int): (d: int)
    ensures 1 <= weekday <= 7 && 1 <= dayOfWeek <= 7 ==>
              0 <= d <= 6 && d == (dayOfWeek - weekday) % 7 && (d == 0 <==> weekday == dayOfWeek)
  {
    (if weekday <= dayOfWeek then 0 else 7) + (dayOfWeek - weekday)
  }

  /** The DAYOFWEEK of the day `days` after a day whose DAYOFWEEK is `weekday`. */
  function WeekdayAfter(weekday: int, days: int): int
  {
    (weekday - 1 + days) % 7 + 1
  }

  /** The occurrence is never before today and falls on the schedule's weekday. */
  lemma OccurrenceWeekday(weekday: int, dayOfWeek: int)
    requires 1 <= weekday <= 7 && 1 <= dayOfWeek <= 7
    ensures 0 <= DayOffset(weekday, dayOfWeek) <= 6
    ensures WeekdayAfter(weekday, DayOffset(weekday, dayOfWeek)) == dayOfWeek
  {
    var d := DayOffset(weekday, dayOfWeek);
    assert weekday - 1 + d == dayOfWeek - 1 + (if weekday <= dayOfWeek then 0 else 7);
  }

  /**
   * The instant of the class this week (or next week), in minutes: within the
   * seven days from the start of today, at the lesson's start time.
   */
  function OccurrenceInstant(c: Candidate, clk: Clock): (t: int)
    ensures 1 <= clk.weekday <= 7 && 1 <= c.schedule.dayOfWeek <= 7 ==>
              clk.day * MinutesPerDay <= t < (clk.day + 7) * MinutesPerDay
    ensures t % MinutesPerDay == MinuteOfDay(c.lesson.startTime)
  {
    (clk.day + DayOffset(clk.weekday, c.schedule.dayOfWeek)) * MinutesPerDay
      + MinuteOfDay(c.lesson.startTime)
  }

  /** The odd/even filter on WEEK($currentDate, 1). */
  function ParityPasses(oddEven: string, week: nat): (b: bool)
    ensures oddEven == "all" ==> b
    ensures oddEven == "odd" ==> (b <==> week % 2 == 1)
    ensures oddEven == "even" ==> (b <==> week % 2 == 0)
    ensures oddEven != "all" && oddEven != "odd" && oddEven != "even" ==> !b
  {
    oddEven == "all" || (oddEven == "odd" && week % 2 == 1) || (oddEven == "even" && week % 2 == 0)
  }

  /**
   * Over consecutive week numbers an odd or even schedule alternates; "all"
   * passes always. WEEK(date, 1) does not step by one at New Year (week 53 of
   * one year can be followed by week 1 of the next), so there an odd schedule
   * can pass two calendar weeks running.
   */
  lemma ParityAlternates(oddEven: string, week: nat)
    ensures ParityPasses("all", week)
    ensures oddEven == "odd" || oddEven == "even" ==>
              ParityPasses(oddEven, week) != ParityPasses(oddEven, week + 1)
    ensures ParityPasses("odd", week) != ParityPasses("even", week)
  {
  }

  /** The ON conditions of the join (reminder.php:22-25): one user and one course throughout. */
  predicate Joined(c: Candidate)
    ensures Joined(c) ==> c.lesson.userId == c.wechat.userId && c.schedule.courseId == c.setting.courseId
  {
    && c.setting.courseId == c.course.id
    && c.schedule.courseId == c.course.id
    && c.lesson.period == c.schedule.startPeriod
    && c.lesson.periodType == c.schedule.periodType
    && c.lesson.userId == c.setting.userId
    && c.wechat.userId == c.setting.userId
    && c.wechat.subscribe == 1
  }

  /**
   * The join conditions and the WHERE clause, as written (reminder.php:26-37).
   * With valid weekdays and a non-negative lead time, a due class is today and
   * started `remindBefore` minutes before the current minute.
   */
  predicate IsDue(c: Candidate, clk: Clock)
    ensures IsDue(c, clk) && 1 <= clk.weekday <= 7 && 1 <= c.schedule.dayOfWeek <= 7
            && c.setting.remindBefore >= 0 ==>
              && c.schedule.dayOfWeek == clk.weekday
              && MinuteOfDay(c.lesson.startTime) + c.setting.remindBefore == MinuteOfDay(clk.time)
  {
    && Joined(c)
    && c.setting.isActive == 1
    && OccurrenceInstant(c, clk) == RemindInstant(clk) - c.setting.remindBefore
    && ParityPasses(c.schedule.oddEven, clk.week)
  }

  /** A candidate is selected only if its setting is active, its user subscribed, and its lesson time is the user's entry for the start period. */
  lemma DueNeedsActiveSubscribedLesson(c: Candidate, clk: Clock)
    requires IsDue(c, clk)
    ensures c.setting.isActive == 1 && c.wechat.subscribe == 1
    ensures c.lesson.period == c.schedule.startPeriod
    ensures c.lesson.periodType == c.schedule.periodType
    ensures c.lesson.userId == c.setting.userId
  {
  }

  /** The week range and the period count never take part in the selection. */
  lemma DueIgnoresWeekRange(c: Candidate, clk: Clock, startWeek: int, endWeek: int, periodCount: int)
    ensures IsDue(c, clk) ==
            IsDue(c.(schedule := c.schedule.(startWeek := startWeek, endWeek := endWeek,
                                             periodCount := periodCount)), clk)
  {
  }

  /**
   * With a non-negative lead time, the query as written matches exactly when the
   * class is today and started `remindBefore` minutes ago: the reminder is late.
   */
  lemma DueMeansStartedAlready(c: Candidate, clk: Clock)
    requires 1 <= clk.weekday <= 7 && 1 <= c.schedule.dayOfWeek <= 7
    requires c.setting.remindBefore >= 0
    ensures IsDue(c, clk) <==>
              && Joined(c) && c.setting.isActive == 1
              && ParityPasses(c.schedule.oddEven, clk.week)
              && c.schedule.dayOfWeek == clk.weekday
              && MinuteOfDay(c.lesson.startTime) + c.setting.remindBefore == MinuteOfDay(clk.time)
  {
    var d := DayOffset(clk.weekday, c.schedule.dayOfWeek);
    var s := MinuteOfDay(c.lesson.startTime);
    var m := MinuteOfDay(clk.time);
    assert OccurrenceInstant(c, clk) - RemindInstant(clk) == d * MinutesPerDay + s - m;
    if d > 0 {
      assert d * MinutesPerDay + s - m > -c.setting.remindBefore;
    }
  }

  /** Minute granularity with no window: the same day one minute earlier or later never matches too. */
  lemma DueIsExactMinute(c: Candidate, clk: Clock, other: Clock)
    requires IsDue(c, clk)
    requires other.day == clk.day && other.weekday == clk.weekday
    requires RemindInstant(other) != RemindInstant(clk)
    ensures !IsDue(c, other)
  {
  }

  /** The candidates of the join that the query returns, in order. */
  function Select(cs: seq<Candidate>, clk: Clock): (r: seq<Candidate>)
    ensures |r| <= |cs|
    ensures forall c :: c in r <==> c in cs && IsDue(c, clk)
  {
    if |cs| == 0 then []
    else
      var rest := Select(cs[1..], clk);
      assert forall c :: c in cs <==> c == cs[0] || c in cs[1..];
      if IsDue(cs[0], clk) then [cs[0]] + rest else rest
  }

  /** Selection keeps the order of the join: it distributes over concatenation. */
  lemma {:induction false} SelectAppend(a: seq<Candidate>, b: seq<Candidate>, clk: Clock)
    ensures Select(a + b, clk) == Select(a, clk) + Select(b, clk)
  {
    if |a| == 0 {
      assert a + b == b;
    } else {
      assert (a + b)[1..] == a[1..] + b;
      SelectAppend(a[1..], b, clk);
    }
  }

  // ---------------------------------------------------------------------------
  // The evidently intended comparison: the reminder instant is the occurrence
  // minus the lead time, i.e. occurrence = now + remindBefore.

  /**
   * The selection with the comparison the column name `remind_before` calls
   * for: with a non-negative lead time the class has not started yet.
   */
  predicate IsDueIntended(c: Candidate, clk: Clock)
    ensures IsDueIntended(c, clk) && c.setting.remindBefore >= 0 ==>
              OccurrenceInstant(c, clk) >= RemindInstant(clk)
  {
    && Joined(c)
    && c.setting.isActive == 1
    && OccurrenceInstant(c, clk) - c.setting.remindBefore == RemindInstant(clk)
    && ParityPasses(c.schedule.oddEven, clk.week)
  }

  /**
   * The intended comparison fires `remindBefore` minutes before the class, the
   * day before when that crosses midnight; it is the as-written predicate with
   * the lead time negated.
   */
  lemma IntendedFiresBeforeStart(c: Candidate, clk: Clock)
    requires 1 <= clk.weekday <= 7 && 1 <= c.schedule.dayOfWeek <= 7
    ensures IsDueIntended(c, clk) <==>
              IsDue(c.(setting := c.setting.(remindBefore := -c.setting.remindBefore)), clk)
    ensures IsDueIntended(c, clk) && c.setting.remindBefore >= 0 ==>
              OccurrenceInstant(c, clk) >= RemindInstant(clk)
    ensures IsDueIntended(c, clk) ==>
              DayOffset(clk.weekday, c.schedule.dayOfWeek) * MinutesPerDay
                + MinuteOfDay(c.lesson.startTime) - MinuteOfDay(clk.time)
              == c.setting.remindBefore
  {
  }

  /** A Wednesday 08:00-08:45 class with a 15-minute lead time, every week. */
  function WednesdayCandidate(): Candidate
  {
    Candidate(
      ReminderSetting(1, 7, 1, 15),
      Course(7, "Math", "Li", "A101"),
      CourseSchedule(7, 4, 1, 1, 1, 16, "all", 0),
      LessonTime(1, 1, 0, HourMinute(8, 0), HourMinute(8, 45)),
      WechatUser(1, "openid-1", 1))
  }

  /** A Wednesday (DAYOFWEEK 4) at hh:mm, in an even week. */
  function WednesdayAt(hh: int, mm: int): Clock
    requires 0 <= hh < 24 && 0 <= mm < 60
  {
    Clock(100, HourMinute(hh, mm), 0, 4, 10)
  }

  /** As written, the 07:45 tick does not remind of the 08:00 class; the 08:15 tick does. */
  lemma WednesdayScenarioAsWritten()
    ensures !IsDue(WednesdayCandidate(), WednesdayAt(7, 45))
    ensures IsDue(WednesdayCandidate(), WednesdayAt(8, 15))
  {
  }

  /** With the intended comparison the 07:45 tick reminds, and an odd-only schedule is skipped in an even week. */
  lemma WednesdayScenarioIntended()
    ensures IsDueIntended(WednesdayCandidate(), WednesdayAt(7, 45))
    ensures !IsDueIntended(WednesdayCandidate(), WednesdayAt(8, 15))
    ensures !IsDueIntended(
              WednesdayCandidate().(schedule := WednesdayCandidate().schedule.(oddEven := "odd")),
              WednesdayAt(7, 45))
  {
  }
}
