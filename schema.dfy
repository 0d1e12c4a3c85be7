/**
 * The rows of the tables the reminder script reads, and the typed result row
 * of its SELECT list (reminder.php:16-25).
 */
module Schema {
  import opened Sequences

  /** An hour/minute pair as read from a `TIME` column. */
  datatype HourMinute = HourMinute(hour: int, minute: int)

  /**
   * A clock time within one day. A MySQL `TIME` can also hold 24:00 and more
   * (PHP's `new DateTime('24:00:00')` rolls over to 00:00 of the next day);
   * such values are not modelled.
   */
  type TimeOfDay = t: HourMinute | 0 <= t.hour < 24 && 0 <= t.minute < 60
    witness HourMinute(0, 0)

  const MinutesPerDay := 1440

  /** Minutes elapsed since midnight. */
  function MinuteOfDay(t: TimeOfDay): (m: int)
    ensures 0 <= m < MinutesPerDay
    ensures m / 60 == t.hour && m % 60 == t.minute
  {
    t.hour * 60 + t.minute
  }

  /** A row of `reminder_settings`. */
  datatype ReminderSetting = ReminderSetting(
    userId: int, courseId: int, isActive: int, remindBefore: int)

  /** A row of `courses`. */
  datatype Course = Course(
    id: int, courseName: string, teacherName: string, location: string)

  /** A row of `course_schedules`; `dayOfWeek` uses MySQL DAYOFWEEK numbering (1 = Sunday). */
  datatype CourseSchedule = CourseSchedule(
    courseId: int, dayOfWeek: int, startPeriod: int, periodCount: int,
    startWeek: int, endWeek: int, oddEven: string, periodType: int)

  /** A row of `lesson_times`: the clock times of one period for one user. */
  datatype LessonTime = LessonTime(
    userId: int, period: int, periodType: int, startTime: TimeOfDay, endTime: TimeOfDay)

  /** A row of `wechat_users`. */
  datatype WechatUser = WechatUser(userId: int, openid: string, subscribe: int)

  /** One combination of rows from the five joined tables, before ON and WHERE are applied. */
  datatype Candidate = Candidate(
    setting: ReminderSetting, course: Course, schedule: CourseSchedule,
    lesson: LessonTime, wechat: WechatUser)

  /** One row of the query result, with the columns of the SELECT list. */
  datatype CourseRow = CourseRow(
    courseId: int, courseName: string, teacherName: string, location: string,
    dayOfWeek: int, startPeriod: int, periodCount: int, startWeek: int, endWeek: int,
    oddEven: string, startTime: TimeOfDay, endTime: TimeOfDay, periodType: int,
    userId: int, remindBefore: int, openid: string)

  /**
   * The SELECT list: which table each result column comes from. On a joined
   * combination the user and course columns agree with every table they key.
   */
  function Project(c: Candidate): (r: CourseRow)
    ensures c.lesson.userId == c.setting.userId && c.wechat.userId == c.setting.userId ==>
              r.userId == c.lesson.userId && r.userId == c.wechat.userId
    ensures c.setting.courseId == c.course.id && c.schedule.courseId == c.course.id ==>
              r.courseId == c.setting.courseId && r.courseId == c.schedule.courseId
  {
    CourseRow(
      c.course.id, c.course.courseName, c.course.teacherName, c.course.location,
      c.schedule.dayOfWeek, c.schedule.startPeriod, c.schedule.periodCount,
      c.schedule.startWeek, c.schedule.endWeek, c.schedule.oddEven,
      c.lesson.startTime, c.lesson.endTime, c.lesson.periodType,
      c.setting.userId, c.setting.remindBefore, c.wechat.openid)
  }

  /** The projection of every candidate, in order. */
  function ProjectAll(cs: seq<Candidate>): seq<CourseRow>
  {
    Map(Project, cs)
  }
}
