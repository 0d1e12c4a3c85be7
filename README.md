# Course reminder: due selection and dispatch

This project models `reminder.php` of a WeChat course-reminder service in Dafny. The script runs once a minute from cron, and it does three things:

- It selects the course schedules whose reminder is due now. This is a SQL join of `reminder_settings`, `courses`, `course_schedules`, `lesson_times` and `wechat_users` with a date/time `WHERE` clause.
- For each selected row it builds a six-field WeChat template message and calls the messaging channel.
- It appends a `sent` or `failed` row to `reminder_logs`, then answers with a JSON summary (`sent_count`, `total_courses`, `errors`), or with an error when the query itself fails.

Modules, one per file:

- `Wrappers` / `Sequences` (`wrappers.dfy`): `Option`, `Result`, and an order-preserving `Map` over sequences.
- `Schema` (`schema.dfy`): the table rows, clock times within a day, and the SELECT list as a projection of one joined combination.
- `DueSelection` (`due_selection.dfy`): the ON and WHERE conditions as `IsDue`, and `Select`, the filter over the join. Dates are day numbers and instants are `day * 1440 + minuteOfDay`. MySQL `DAYOFWEEK(CURDATE())` (1 = Sunday) and `WEEK($currentDate, 1)` of PHP's current date are inputs carried by `Clock`.
- `Payload` (`payload.dfy`): the template data, the `HH:MM-HH:MM` time range, and its parser.
- `ErrorText` (`error_text.dfy`): the byte strings of a failed send. PHP strings are bytes, and the Chinese prefix of an error line is written as its UTF-8 bytes. This module also holds the 255-byte truncation and a parser that reads an error line back.
- `Dispatch` (`dispatch.dfy`): the `reminder_logs` table as the class `LogStore`, which is only appended to. The messaging channel is the class `MessageChannel`, which records each call. It also holds the `foreach` loop as the method `Dispatch`, the whole invocation as `RunOnce`, and lemmas about what a run produces.

The channel's behaviour is an input with one entry per selected row: `None` means `sendTemplateMessage` returned, and `Some(message)` means it threw an exception with that message.

Points where the model departs from the literal text:

- The parentheses of the date expression at reminder.php:27-34 do not balance. `DATE_ADD(` is never closed and `STR_TO_DATE` has no format. The model uses the evident reading: the date the `CASE` picks, at the lesson's `start_time`, shifted by `day_of_week - DAYOFWEEK(CURDATE())` days.
- The comparison is modelled as written: occurrence = now − `remind_before`. This fires `remind_before` minutes *after* the class starts (see Findings). The selection, `Select` and `RunOnce` all use this as-written predicate.
- Week-range bounds (`start_week`, `end_week`) are fetched but never checked by the code. The model does not check them either, and `DueIgnoresWeekRange` proves they play no part. Enforcing them would change what the script does.
- The odd/even filter reads the week number of today's date, `WEEK($currentDate, 1)`, even when the `CASE` rolls the occurrence over into next week, as the query does.

## Model

| member | source | states |
|---|---|---|
| `Schema.MinuteOfDay` | reminder.php:18-32 | a lesson's `start_time` is a minute within the day, and hour and minute can be read back from it |
| `Schema.Project` | reminder.php:16-20 | a returned row's `user_id` is the one all three user-keyed tables joined on, and its `course_id` is the one setting and schedule joined on |
| `DueSelection.RemindInstant` | reminder.php:12-13 | `Y-m-d H:i:00` truncates now to its minute: the remind minute is the whole number of minutes in the current instant, seconds 0–59 dropped |
| `DueSelection.DayOffset` | reminder.php:29-33 | for weekdays in 1..7, the CASE date plus the `INTERVAL` lands `(day_of_week − DAYOFWEEK) mod 7` days ahead, which lies in [0,6] and is 0 exactly when today is that weekday |
| `DueSelection.OccurrenceWeekday` | reminder.php:29-33 | the occurrence date is never before today and falls on the schedule's `day_of_week`, including across the week boundary |
| `DueSelection.OccurrenceInstant` | reminder.php:27-33 | for valid weekdays the occurrence lies in the seven days starting today, and it is always at the lesson's `start_time` within its day |
| `DueSelection.ParityPasses` | reminder.php:35-37 | `all` always passes; `odd` passes iff `WEEK` is odd; `even` passes iff it is even; any other value never passes |
| `DueSelection.ParityAlternates` | reminder.php:35-37 | on consecutive week numbers an `odd` or `even` schedule toggles, and for any week number exactly one of `odd`/`even` passes; `WEEK(date, 1)` restarts at New Year (week 53 can be followed by week 1, both odd), so the toggle is not claimed across calendar weeks there |
| `DueSelection.Joined` | reminder.php:22-25 | a joined combination's lesson time and WeChat account belong to the same user, and its schedule belongs to the setting's course |
| `DueSelection.IsDue` | reminder.php:26-37 | with valid weekdays and a non-negative lead time, a selected row's class is on today's weekday and its start minute plus `remind_before` is the current minute of the day |
| `DueSelection.DueNeedsActiveSubscribedLesson` | reminder.php:22-26 | a selected combination has `is_active = 1` and `subscribe = 1`, and its lesson time is the user's entry for the schedule's start period and period type |
| `DueSelection.DueIgnoresWeekRange` | reminder.php:16-37 | changing `start_week`, `end_week` or `period_count` never changes whether a row is due |
| `DueSelection.DueMeansStartedAlready` | reminder.php:27-34 | for a non-negative `remind_before` and valid weekdays, a row is due iff the join, active-flag and parity conditions hold, the class is today, and it started exactly `remind_before` minutes before the current minute |
| `DueSelection.DueIsExactMinute` | reminder.php:34 | the match is a single minute with no window: on the same day, a different remind minute never matches as well |
| `DueSelection.Select` | reminder.php:15-44 | the query returns no more rows than the join, and a combination is returned iff it is in the join and due |
| `DueSelection.SelectAppend` | reminder.php:21-44 | the selection filters row by row and keeps the join's order: it distributes over concatenation |
| `DueSelection.WednesdayScenarioAsWritten` | reminder.php:27-34 | for a Wednesday 08:00 class with a 15-minute lead, the 07:45 tick does not select it and the 08:15 tick does |
| `DueSelection.IsDueIntended` | reminder.php:34 | with the corrected comparison and a non-negative lead time, the class occurrence is never before the remind minute |
| `DueSelection.IntendedFiresBeforeStart` | reminder.php:34 | the corrected comparison is the as-written one with the lead time negated; it fires `remind_before` minutes before the occurrence, and the day before when that crosses midnight |
| `DueSelection.WednesdayScenarioIntended` | reminder.php:34-37 | with the corrected comparison the 07:45 tick selects the 08:00 class and the 08:15 tick does not; an `odd` schedule is skipped in an even week |
| `ErrorText.Truncate` | reminder.php:95 | the logged `error_message` has min(255, length) bytes, is a prefix of the exception message, and equals it iff the message has 255 bytes or fewer |
| `ErrorText.ErrorLine` | reminder.php:87 | an `errors` entry starts with the bytes of `课程ID `, ends with the full exception message, and is longer than prefix, separator and message together |
| `ErrorText.ErrorLineRoundTrip` | reminder.php:87 | an `errors` entry can be read back into the course id (sign included) and the full, untruncated exception message |
| `Payload.TimeRange` | reminder.php:55-61 | `keyword2` is 11 characters, with `:` at indexes 2 and 8 and `-` at index 5 |
| `Payload.TimeRangeRoundTrip` | reminder.php:55-61 | reading the `H:i-H:i` string back recovers both start and end hour/minute pairs |
| `Payload.ParsedTimeRangeIsFormatted` | reminder.php:61 | the parser accepts only strings the formatter writes, so format and parse are exact inverses |
| `Payload.BuildPayload` | reminder.php:58-65 | the message has exactly the keys `first`, `keyword1`–`keyword4`, `remark` in that order, all coloured `#173177`; `first` is 课程提醒, `remark` is 请提前做好准备！, and keyword1/3/4 are the course name, location and teacher unchanged |
| `Payload.PayloadTimesRecoverable` | reminder.php:55-65 | the `keyword2` value of a built message is 11 characters with `-` at index 5, and parses back to the class's start and end times |
| `Dispatch.LogStore.Insert` | reminder.php:78-84 | an insert appends exactly one row to `reminder_logs` and changes nothing else |
| `Dispatch.MessageChannel.SendTemplateMessage` | reminder.php:68-73 | each call is recorded once, with the recipient's openid and the template data, and the call throws exactly what the channel answered |
| `Dispatch.LogFor` | reminder.php:78-97 | a row's log entry is `sent` iff the send returned; it has an `error_message` iff the send threw, and that message is a prefix of the exception's of at most 255 bytes |
| `Dispatch.ProcessCourse` | reminder.php:53-98 | one course gets one channel call with its own message, and one log row: `sent`, or `failed` with the truncated message |
| `Dispatch.Dispatch` | reminder.php:49-106 | the loop appends the run's log rows and messages to what was there before, and returns `sent_count`, `total_courses = count($courses)` and the `errors` list of the specification functions |
| `Dispatch.RunOnce` | reminder.php:8-113 | a failed query yields `status: error` with its message and writes nothing; otherwise the selected rows are dispatched and the summary is returned |
| `Dispatch.OneLogEntryPerRow` | reminder.php:75-97 | every row gets exactly one log entry, in row order. It carries the row's user and course and the run's minute-truncated remind time. Its status is `sent` iff the send returned; a failed entry carries the first 255 bytes of the message |
| `Dispatch.SentCountCountsSuccesses` | reminder.php:75-103 | `sent_count` equals the number of sends that returned |
| `Dispatch.CountsAddUp` | reminder.php:49-106 | `sent_count + count(errors) = total_courses`, and `count(errors)` is the number of failed sends |
| `Dispatch.LogsCompose` | reminder.php:52-99 | the logs of a batch are those of its first part followed by those of the rest: a failure never stops later rows, and a row given twice is logged twice |
| `Dispatch.SentComposes` | reminder.php:52-99 | the sent count of a batch is the sum over its parts |
| `Dispatch.ErrorsCompose` | reminder.php:52-99 | the error list of a batch is the lists of its parts, concatenated |
| `Dispatch.FailuresAreReported` | reminder.php:86-87 | every failed course has its error line, with the full message, in `errors` |
| `Dispatch.ReportsAreFailures` | reminder.php:86-87 | every line in `errors` belongs to a failed course and carries that course's message |
| `Dispatch.AllSent` | reminder.php:68-84 | when every send returns, every course counts as sent and `errors` is empty |
| `Dispatch.OneFailureIsolated` | reminder.php:52-99 | with N courses of which only course k fails, `sent_count = N − 1` and `errors` is the single line for course k |

## Left out

- Database plumbing: `getDB`, `prepare`, `bind_param`, `execute` and `fetch_all`. The join is given as a sequence of candidate row combinations, and the ON and WHERE conditions are the predicate `IsDue` over one combination. When a join has several matching `lesson_times` rows, each is its own combination, as in SQL.
- `WeChatService` and `sendTemplateMessage`: includes/wechat.php is not part of this model. The call's exception, or its return, is an input per row. The template id and jump URL are placeholders and are not modelled. A return value that signals failure without throwing counts as sent, because the source only catches exceptions.
- The `WeChatService` constructor (reminder.php:47) throwing is not modelled. It would give the same top-level error as a failed query.
- MySQL `DAYOFWEEK` and `WEEK(date, 1)` are not computed from a calendar date. They are inputs of `Clock`, and no Gregorian calendar is modelled.
- The clocks: timezones are not modelled, nor is a mismatch between PHP's `new DateTime()` and SQL's `CURDATE()`. The parity week comes from PHP's clock (`$currentDate`, bound at reminder.php:40-41) and `DAYOFWEEK` from SQL's `CURDATE()` (reminder.php:30, 33); `Clock` merges the two, so today's date, the remind time and both inputs come from one reading.
- The `send_time` column (SQL `NOW()` at insert time) is not modelled: it is a clock reading.
- Time values: `start_time`/`end_time` are hour/minute pairs within one day. Non-zero seconds in a `TIME` value are not modelled; in SQL they can never equal a `:00` instant. A `TIME` outside 00:00–23:59 is not modelled either. MySQL `TIME` can hold such values, and PHP's `new DateTime` rolls a `24:xx` value over to the next day instead of rejecting it.
- SQL semantics beyond exact comparison are not modelled: `NULL` columns, and the case- and trailing-space-insensitive collation that `odd_even = 'odd'` may use.
- A log insert that throws after `sent_count++` (reminder.php:75-84) is not modelled. Whether it throws depends on the mysqli error-reporting mode. Log writes are assumed to succeed.
- PHP `Error` throwables are not modelled. `catch (Exception $e)` does not catch them.
- `header`, `json_encode`, `http_response_code`: HTTP and JSON framing. The response is `SuccessResponse(summary)` or `ErrorResponse(message)`.
- Enforcement of the week range (`start_week`/`end_week`) is not modelled, because the source does not check it.
- Concurrency: the script is one sequential run per invocation.
- `Dispatch.RunOnce` requires one channel answer per selected row. That is a property of how the model's input is laid out, not a demand of the source.

## Findings

| source | as written | input that shows it | evidently intended | confidence | as-written member | corrected member |
|---|---|---|---|---|---|---|
| reminder.php:34 | `occurrence = DATE_SUB(now, INTERVAL remind_before MINUTE)`, so the reminder fires `remind_before` minutes after the class starts | Wednesday 08:00–08:45 class, `remind_before = 15`: the 07:45 tick selects nothing, and the 08:15 tick sends the "get ready in advance" message, mid-class | `DATE_SUB(occurrence, INTERVAL remind_before MINUTE) = now`, i.e. occurrence = now + `remind_before` | high, not executed | `DueSelection.IsDue`, shown by `DueSelection.WednesdayScenarioAsWritten` and `DueSelection.DueMeansStartedAlready` | `DueSelection.IsDueIntended`, proved by `DueSelection.IntendedFiresBeforeStart` and `DueSelection.WednesdayScenarioIntended` |

The corrected predicate is a drop-in replacement for `IsDue` in `Select`. The dispatch part of the model is independent of which one is used. `Select` and `RunOnce` keep the as-written predicate, because that is what the script runs.
