/**
 * The dispatch loop of the reminder script (reminder.php:8-113): for every
 * selected course row it builds the template message, calls the messaging
 * channel, and appends one row to `reminder_logs`, `sent` or `failed`; the
 * run answers with a summary, or with an error when the query fails.
 *
 * The channel's answer for each call is an input: `None` when the call
 * returns, `Some(message)` when it throws an exception with that message.
 */
module Dispatch {
  import opened Wrappers
  import opened Schema
  import opened DueSelection
  import opened ErrorText
  import opened Payload
  import opened Sequences

  datatype Status = Sent | Failed

  /** A row of `reminder_logs` (user_id, course_id, remind_time, status, error_message). */
  datatype LogEntry = LogEntry(
    userId: int, courseId: int, remindTime: int, status: Status, errorMessage: Option<seq<byte>>)

  /** One call of the channel: the recipient's openid and the template data. */
  datatype TemplateMessage = TemplateMessage(openid: string, data: TemplateData)

  /** The JSON body of a completed run: sent_count, total_courses, errors. */
  datatype Summary = Summary(sentCount: nat, totalCourses: nat, errors: seq<seq<byte>>)

  /** `status: success` with the summary, or `status: error` with the exception's message. */
  datatype Response = SuccessResponse(summary: Summary) | ErrorResponse(message: seq<byte>)

  /** The `reminder_logs` table, to which the script only ever appends. */
  class LogStore {
    var rows: seq<LogEntry>

    constructor ()
      ensures rows == []
    {
      rows := [];
    }

    /** INSERT INTO reminder_logs. */
    method Insert(entry: LogEntry)
      modifies this
      ensures rows == old(rows) + [entry]
    {
      rows := rows + [entry];
    }
  }

  /** The messaging channel, seen as the record of the calls made to it. */
  class MessageChannel {
    var sent: seq<TemplateMessage>

    constructor ()
      ensures sent == []
    {
      sent := [];
    }

    /** `sendTemplateMessage`: records the call; `reply` is the exception it throws, if any. */
    method SendTemplateMessage(openid: string, data: TemplateData, reply: Option<seq<byte>>)
      returns (thrown: Option<seq<byte>>)
      modifies this
      ensures sent == old(sent) + [TemplateMessage(openid, data)]
      ensures thrown == reply
    {
      sent := sent + [TemplateMessage(openid, data)];
      thrown := reply;
    }
  }

  // ---------------------------------------------------------------------------
  // What a run over `rows` with channel answers `replies` produces.

  /**
   * The log row written for one course: `sent` exactly when the send returned,
   * and an error message, never over 255 bytes, exactly when it failed.
   */
  function LogFor(row: CourseRow, reply: Option<seq<byte>>, remindTime: int): (e: LogEntry)
    ensures (e.status == Sent) == reply.None?
    ensures e.errorMessage.Some? == reply.Some?
    ensures e.errorMessage.Some? ==>
              |e.errorMessage.value| <= MaxErrorBytes && e.errorMessage.value <= reply.value
  {
    match reply
    case None => LogEntry(row.userId, row.courseId, remindTime, Sent, None)
    case Some(m) => LogEntry(row.userId, row.courseId, remindTime, Failed, Some(Truncate(m)))
  }

  function LogsFor(rows: seq<CourseRow>, replies: seq<Option<seq<byte>>>, remindTime: int): seq<LogEntry>
    requires |rows| == |replies|
  {
    if |rows| == 0 then []
    else LogsFor(rows[..|rows| - 1], replies[..|rows| - 1], remindTime)
           + [LogFor(rows[|rows| - 1], replies[|rows| - 1], remindTime)]
  }

  /** The channel call made for one course. */
  function MessageFor(row: CourseRow): TemplateMessage
  {
    TemplateMessage(row.openid, BuildPayload(row))
  }

  function MessagesFor(rows: seq<CourseRow>): seq<TemplateMessage>
  {
    Map(MessageFor, rows)
  }

  function SentCount(replies: seq<Option<seq<byte>>>): nat
  {
    if |replies| == 0 then 0
    else SentCount(replies[..|replies| - 1]) + (if replies[|replies| - 1].None? then 1 else 0)
  }

  /** The entry a course adds to `errors`: none when sent, one line when the send threw. */
  function ErrorOf(row: CourseRow, reply: Option<seq<byte>>): seq<seq<byte>>
  {
    match reply
    case None => []
    case Some(m) => [ErrorLine(row.courseId, m)]
  }

  function ErrorsFor(rows: seq<CourseRow>, replies: seq<Option<seq<byte>>>): seq<seq<byte>>
    requires |rows| == |replies|
  {
    if |rows| == 0 then []
    else ErrorsFor(rows[..|rows| - 1], replies[..|rows| - 1]) + ErrorOf(rows[|rows| - 1], replies[|rows| - 1])
  }

  function ExpectedSummary(rows: seq<CourseRow>, replies: seq<Option<seq<byte>>>): Summary
    requires |rows| == |replies|
  {
    Summary(SentCount(replies), |rows|, ErrorsFor(rows, replies))
  }

  /** One more row extends the logs written after `logs0` by that row's entry. */
  lemma LogsStep(logs0: seq<LogEntry>, rows: seq<CourseRow>, replies: seq<Option<seq<byte>>>,
                 i: nat, remindTime: int)
    requires |rows| == |replies| && i < |rows|
    ensures logs0 + LogsFor(rows[..i], replies[..i], remindTime) + [LogFor(rows[i], replies[i], remindTime)]
            == logs0 + LogsFor(rows[..i + 1], replies[..i + 1], remindTime)
  {
    assert rows[..i + 1][..i] == rows[..i];
    assert replies[..i + 1][..i] == replies[..i];
  }

  /** One more row extends the calls made after `sent0` by that row's message. */
  lemma MessagesStep(sent0: seq<TemplateMessage>, rows: seq<CourseRow>, i: nat)
    requires i < |rows|
    ensures sent0 + MessagesFor(rows[..i]) + [MessageFor(rows[i])] == sent0 + MessagesFor(rows[..i + 1])
  {
    assert rows[..i + 1][..i] == rows[..i];
  }

  lemma SummaryStep(rows: seq<CourseRow>, replies: seq<Option<seq<byte>>>, i: nat)
    requires |rows| == |replies| && i < |rows|
    ensures SentCount(replies[..i + 1]) == SentCount(replies[..i]) + (if replies[i].None? then 1 else 0)
    ensures ErrorsFor(rows[..i + 1], replies[..i + 1])
            == ErrorsFor(rows[..i], replies[..i]) + ErrorOf(rows[i], replies[i])
  {
    assert rows[..i + 1][..i] == rows[..i];
    assert replies[..i + 1][..i] == replies[..i];
  }

  // ---------------------------------------------------------------------------
  // The loop.

  /**
   * The body of the `try` for one course (reminder.php:53-98): send; then count
   * it and log `sent`, or, when the send threw, add an error line and log
   * `failed`.
   */
  method ProcessCourse(store: LogStore, channel: MessageChannel, course: CourseRow,
                       reply: Option<seq<byte>>, remindTime: int,
                       sentCount: nat, errors: seq<seq<byte>>)
    returns (sentCount': nat, errors': seq<seq<byte>>)
    modifies store, channel
    ensures sentCount' == sentCount + (if reply.None? then 1 else 0)
    ensures errors' == errors + ErrorOf(course, reply)
    ensures store.rows == old(store.rows) + [LogFor(course, reply, remindTime)]
    ensures channel.sent == old(channel.sent) + [MessageFor(course)]
  {
    var data := BuildPayload(course);
    var thrown := channel.SendTemplateMessage(course.openid, data, reply);
    match thrown {
      case None =>
        sentCount', errors' := sentCount + 1, errors;
        store.Insert(LogEntry(course.userId, course.courseId, remindTime, Sent, None));
      case Some(message) =>
        sentCount', errors' := sentCount, errors + [ErrorLine(course.courseId, message)];
        store.Insert(LogEntry(course.userId, course.courseId, remindTime, Failed,
                              Some(Truncate(message))));
    }
  }

  /** The `foreach` over the selected courses (reminder.php:49-106). */
  method Dispatch(store: LogStore, channel: MessageChannel, courses: seq<CourseRow>,
                  replies: seq<Option<seq<byte>>>, remindTime: int)
    returns (summary: Summary)
    requires |replies| == |courses|
    modifies store, channel
    ensures store.rows == old(store.rows) + LogsFor(courses, replies, remindTime)
    ensures channel.sent == old(channel.sent) + MessagesFor(courses)
    ensures summary == ExpectedSummary(courses, replies)
  {
    ghost var logs0, sent0 := store.rows, channel.sent;
    var sentCount: nat := 0;
    var errors: seq<seq<byte>> := [];
    var i: nat := 0;
    while i < |courses|
      invariant i <= |courses|
      invariant store.rows == logs0 + LogsFor(courses[..i], replies[..i], remindTime)
      invariant channel.sent == sent0 + MessagesFor(courses[..i])
      invariant sentCount == SentCount(replies[..i])
      invariant errors == ErrorsFor(courses[..i], replies[..i])
    {
      var course := courses[i];
      sentCount, errors := ProcessCourse(store, channel, course, replies[i], remindTime,
                                         sentCount, errors);
      LogsStep(logs0, courses, replies, i, remindTime);
      MessagesStep(sent0, courses, i);
      SummaryStep(courses, replies, i);
      i := i + 1;
    }
    assert courses[..i] == courses && replies[..i] == replies;
    summary := Summary(sentCount, |courses|, errors);
  }

  /** One invocation: select the due courses, dispatch them, answer with the summary. */
  method RunOnce(store: LogStore, channel: MessageChannel,
                 fetched: Result<seq<Candidate>, seq<byte>>, clk: Clock,
                 replies: seq<Option<seq<byte>>>)
    returns (response: Response)
    requires fetched.Success? ==> |replies| == |Select(fetched.value, clk)|
    modifies store, channel
    ensures fetched.Failure? ==>
              && response == ErrorResponse(fetched.error)
              && store.rows == old(store.rows) && channel.sent == old(channel.sent)
    ensures fetched.Success? ==>
              var courses := ProjectAll(Select(fetched.value, clk));
              && response == SuccessResponse(ExpectedSummary(courses, replies))
              && store.rows == old(store.rows) + LogsFor(courses, replies, RemindInstant(clk))
              && channel.sent == old(channel.sent) + MessagesFor(courses)
  {
    match fetched {
      case Failure(message) =>
        response := ErrorResponse(message);
      case Success(candidates) =>
        var courses := ProjectAll(Select(candidates, clk));
        var summary := Dispatch(store, channel, courses, replies, RemindInstant(clk));
        response := SuccessResponse(summary);
    }
  }

  // ---------------------------------------------------------------------------
  // Properties of a run.

  /**
   * Every row gets exactly one log entry, in row order, carrying the row's
   * user and course, the run's remind time, status `sent` exactly when the
   * send returned, and otherwise the first 255 bytes of the exception message.
   */
  lemma {:induction false} OneLogEntryPerRow(rows: seq<CourseRow>, replies: seq<Option<seq<byte>>>,
                                             remindTime: int)
    requires |rows| == |replies|
    ensures var logs := LogsFor(rows, replies, remindTime);
            && |logs| == |rows|
            && forall i :: 0 <= i < |rows| ==>
                 && logs[i].userId == rows[i].userId
                 && logs[i].courseId == rows[i].courseId
                 && logs[i].remindTime == remindTime
                 && (logs[i].status == Sent <==> replies[i].None?)
                 && (replies[i].None? ==> logs[i].errorMessage.None?)
                 && (replies[i].Some? ==> logs[i].errorMessage == Some(Truncate(replies[i].value)))
  {
    if |rows| > 0 {
      var n := |rows| - 1;
      OneLogEntryPerRow(rows[..n], replies[..n], remindTime);
    }
  }

  /** `sent_count` is the number of calls that returned. */
  lemma {:induction false} SentCountCountsSuccesses(replies: seq<Option<seq<byte>>>)
    ensures SentCount(replies) == multiset(replies)[None]
  {
    if |replies| > 0 {
      var n := |replies| - 1;
      assert replies == replies[..n] + [replies[n]];
      SentCountCountsSuccesses(replies[..n]);
    }
  }

  /** Every course is either counted as sent or has one error entry. */
  lemma {:induction false} CountsAddUp(rows: seq<CourseRow>, replies: seq<Option<seq<byte>>>)
    requires |rows| == |replies|
    ensures SentCount(replies) + |ErrorsFor(rows, replies)| == |rows|
    ensures |ErrorsFor(rows, replies)| == |replies| - multiset(replies)[None]
  {
    assert SentCount(replies) + |ErrorsFor(rows, replies)| == |rows| by {
      if |rows| > 0 {
        var n := |rows| - 1;
        CountsAddUp(rows[..n], replies[..n]);
        assert |ErrorOf(rows[n], replies[n])| == (if replies[n].None? then 0 else 1);
      }
    }
    SentCountCountsSuccesses(replies);
  }

  /**
   * A run over a batch writes the logs of its first part followed by those of
   * the rest: what happens to a row does not depend on the rows before it, so a
   * failure never stops the later rows, and a row given twice is logged twice.
   */
  lemma {:induction false} LogsCompose(a: seq<CourseRow>, ra: seq<Option<seq<byte>>>,
                                       b: seq<CourseRow>, rb: seq<Option<seq<byte>>>,
                                       remindTime: int)
    requires |a| == |ra| && |b| == |rb|
    ensures LogsFor(a + b, ra + rb, remindTime) == LogsFor(a, ra, remindTime) + LogsFor(b, rb, remindTime)
  {
    if |b| > 0 {
      var n := |b| - 1;
      assert (a + b)[..|a| + n] == a + b[..n];
      assert (ra + rb)[..|a| + n] == ra + rb[..n];
      LogsCompose(a, ra, b[..n], rb[..n], remindTime);
    } else {
      assert a + b == a && ra + rb == ra;
    }
  }

  lemma {:induction false} SentComposes(ra: seq<Option<seq<byte>>>, rb: seq<Option<seq<byte>>>)
    ensures SentCount(ra + rb) == SentCount(ra) + SentCount(rb)
  {
    if |rb| > 0 {
      var n := |rb| - 1;
      assert (ra + rb)[..|ra| + n] == ra + rb[..n];
      SentComposes(ra, rb[..n]);
    } else {
      assert ra + rb == ra;
    }
  }
  lemma {:induction false} ErrorsCompose(a: seq<CourseRow>, ra: seq<Option<seq<byte>>>,
                                           b: seq<CourseRow>, rb: seq<Option<seq<byte>>>)
    requires |a| == |ra| && |b| == |rb|
    ensures ErrorsFor(a + b, ra + rb) == ErrorsFor(a, ra) + ErrorsFor(b, rb)
  {
    if |b| > 0 {
      var n := |b| - 1;
      assert (a + b)[..|a| + n] == a + b[..n];
      assert (ra + rb)[..|a| + n] == ra + rb[..n];
      ErrorsCompose(a, ra, b[..n], rb[..n]);
    } else {
      assert a + b == a && ra + rb == ra;
    }
  }

  /** Every failed course has its line, with the full message, in the `errors` list. */
  lemma {:induction false} FailuresAreReported(rows: seq<CourseRow>, replies: seq<Option<seq<byte>>>, i: nat)
    requires |rows| == |replies| && i < |rows| && replies[i].Some?
    ensures ErrorLine(rows[i].courseId, replies[i].value) in ErrorsFor(rows, replies)
  {
    var n := |rows| - 1;
    if i < n {
      FailuresAreReported(rows[..n], replies[..n], i);
    }
  }

  /** Every line of the `errors` list belongs to a failed course and carries its message. */
  lemma {:induction false} ReportsAreFailures(rows: seq<CourseRow>, replies: seq<Option<seq<byte>>>, e: seq<byte>)
    requires |rows| == |replies| && e in ErrorsFor(rows, replies)
    ensures exists i :: 0 <= i < |rows| && replies[i].Some? && e == ErrorLine(rows[i].courseId, replies[i].value)
  {
    var n := |rows| - 1;
    if e in ErrorsFor(rows[..n], replies[..n]) {
      ReportsAreFailures(rows[..n], replies[..n], e);
      var j :| 0 <= j < n && replies[..n][j].Some? && e == ErrorLine(rows[..n][j].courseId, replies[..n][j].value);
      assert replies[j] == replies[..n][j] && rows[j] == rows[..n][j];
    } else {
      assert replies[n].Some? && e == ErrorLine(rows[n].courseId, replies[n].value);
    }
  }

  /** When every call returns, every course counts as sent and there are no errors. */
  lemma {:induction false} AllSent(rows: seq<CourseRow>, replies: seq<Option<seq<byte>>>)
    requires |rows| == |replies|
    requires forall i :: 0 <= i < |replies| ==> replies[i].None?
    ensures SentCount(replies) == |rows| && ErrorsFor(rows, replies) == []
  {
    if |rows| > 0 {
      var n := |rows| - 1;
      AllSent(rows[..n], replies[..n]);
    }
  }

  /** With only course k failing, every other course counts as sent. */
  lemma {:induction false} OneFailureSent(rows: seq<CourseRow>, replies: seq<Option<seq<byte>>>, k: nat)
    requires |rows| == |replies| && k < |rows| && replies[k].Some?
    requires forall i :: 0 <= i < |replies| && i != k ==> replies[i].None?
    ensures SentCount(replies) == |rows| - 1
  {
    var n := |rows| - 1;
    if n == k {
      AllSent(rows[..n], replies[..n]);
    } else {
      OneFailureSent(rows[..n], replies[..n], k);
    }
  }

  /** With only course k failing, course k's line is the only error. */
  lemma {:induction false} OneFailureErrors(rows: seq<CourseRow>, replies: seq<Option<seq<byte>>>, k: nat,
                                            message: seq<byte>)
    requires |rows| == |replies| && k < |rows| && replies[k] == Some(message)
    requires forall i :: 0 <= i < |replies| && i != k ==> replies[i].None?
    ensures ErrorsFor(rows, replies) == [ErrorLine(rows[k].courseId, message)]
  {
    var n := |rows| - 1;
    if n == k {
      AllSent(rows[..n], replies[..n]);
    } else {
      OneFailureErrors(rows[..n], replies[..n], k, message);
    }
  }

  /**
   * With N courses of which only course k fails, the summary reports N - 1
   * sent and one error entry naming course k with its full message.
   */
  lemma OneFailureIsolated(rows: seq<CourseRow>, replies: seq<Option<seq<byte>>>, k: nat, message: seq<byte>)
    requires |rows| == |replies| && k < |rows|
    requires replies[k] == Some(message)
    requires forall i :: 0 <= i < |replies| && i != k ==> replies[i].None?
    ensures SentCount(replies) == |rows| - 1
    ensures ErrorsFor(rows, replies) == [ErrorLine(rows[k].courseId, message)]
  {
    OneFailureSent(rows, replies, k);
    OneFailureErrors(rows, replies, k, message);
  }
}
