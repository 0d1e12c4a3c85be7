/**
 * The template message data sent for one course (reminder.php:55-65): six
 * fields, each a value and a colour, with the class's time range written as
 * `H:i-H:i` (two-digit hour and minute, as PHP's DateTime::format gives them).
 */
module Payload {
  import opened Wrappers
  import opened Schema
  import opened Sequences

  /** One template field: its text and its display colour. */
  datatype Field = Field(value: string, color: string)

  /** The template data, keyed in insertion order like a PHP array. */
  type TemplateData = seq<(string, Field)>

  const Color := "#173177"
  /** 课程提醒: "course reminder". */
  const Title := "课程提醒"
  /** 请提前做好准备！: "please get ready in advance!". */
  const Remark := "请提前做好准备！"

  /** The keys of the template, in the order the array literal lists them. */
  const FieldKeys: seq<string> := ["first", "keyword1", "keyword2", "keyword3", "keyword4", "remark"]

  predicate IsDigitChar(c: char)
  {
    '0' <= c <= '9'
  }

  function DigitChar(n: int): (c: char)
    requires 0 <= n < 10
    ensures IsDigitChar(c) && c as int - '0' as int == n
  {
    (n + '0' as int) as char
  }

  /** A number below 100 as two digits, zero-padded. */
  function Pad2(n: int): (s: string)
    requires 0 <= n < 100
    ensures |s| == 2 && IsDigitChar(s[0]) && IsDigitChar(s[1])
    ensures ReadPair(s[0], s[1]) == n
  {
    [DigitChar(n / 10), DigitChar(n % 10)]
  }

  /** The value of two decimal digits. */
  function ReadPair(a: char, b: char): int
    requires IsDigitChar(a) && IsDigitChar(b)
  {
    (a as int - '0' as int) * 10 + (b as int - '0' as int)
  }

  /** `format('H:i')`. */
  function HourMinuteText(t: TimeOfDay): string
  {
    Pad2(t.hour) + ":" + Pad2(t.minute)
  }

  /** The `keyword2` value: start and end time joined by a dash. */
  function TimeRange(start: TimeOfDay, end: TimeOfDay): (r: string)
    ensures |r| == 11 && r[2] == ':' && r[5] == '-' && r[8] == ':'
  {
    HourMinuteText(start) + "-" + HourMinuteText(end)
  }

  /** Reads `HH:MM` at position `at` of `s`, if it is a valid clock time there. */
  function ReadHourMinute(s: string, at: nat): Option<TimeOfDay>
    requires at + 5 <= |s|
  {
    if !(IsDigitChar(s[at]) && IsDigitChar(s[at + 1]) && s[at + 2] == ':'
         && IsDigitChar(s[at + 3]) && IsDigitChar(s[at + 4]))
    then None
    else
      var h := ReadPair(s[at], s[at + 1]);
      var m := ReadPair(s[at + 3], s[at + 4]);
      if h < 24 && m < 60 then Some(HourMinute(h, m)) else None
  }

  /** Reads a time range string back into its start and end times. */
  function ParseTimeRange(s: string): Option<(TimeOfDay, TimeOfDay)>
  {
    if |s| != 11 || s[5] != '-' then None
    else
      match (ReadHourMinute(s, 0), ReadHourMinute(s, 6))
      case (Some(start), Some(end)) => Some((start, end))
      case _ => None
  }

  /** Parsing the time range recovers both hour/minute pairs. */
  lemma TimeRangeRoundTrip(start: TimeOfDay, end: TimeOfDay)
    ensures ParseTimeRange(TimeRange(start, end)) == Some((start, end))
  {
    var r := TimeRange(start, end);
    assert r[0..2] == Pad2(start.hour) && r[3..5] == Pad2(start.minute);
    assert r[6..8] == Pad2(end.hour) && r[9..11] == Pad2(end.minute);
    assert ReadHourMinute(r, 0) == Some(start);
    assert ReadHourMinute(r, 6) == Some(end);
  }

  /** The parser accepts only strings the formatter writes: it is the exact inverse. */
  lemma ParsedTimeRangeIsFormatted(s: string)
    requires ParseTimeRange(s).Some?
    ensures TimeRange(ParseTimeRange(s).value.0, ParseTimeRange(s).value.1) == s
  {
  }

  /** The keys of the template data, in order. */
  function Keys(data: TemplateData): seq<string>
  {
    Map((entry: (string, Field)) => entry.0, data)
  }

  /** The value stored under `key`, as PHP's `$data[$key]['value']` reads it. */
  function Lookup(data: TemplateData, key: string): Option<Field>
  {
    if |data| == 0 then None
    else if data[0].0 == key then Some(data[0].1)
    else Lookup(data[1..], key)
  }

  /** When no earlier entry has the same key, an entry is what a lookup of its key finds. */
  lemma {:induction false} LookupFindsFirst(data: TemplateData, i: nat)
    requires i < |data|
    requires forall j :: 0 <= j < i ==> data[j].0 != data[i].0
    ensures Lookup(data, data[i].0) == Some(data[i].1)
  {
    if i > 0 {
      LookupFindsFirst(data[1..], i - 1);
    }
  }

  /** The message data for one selected course row. */
  function BuildPayload(row: CourseRow): (data: TemplateData)
    ensures Keys(data) == FieldKeys
    ensures forall i :: 0 <= i < |data| ==> data[i].1.color == Color
    ensures Lookup(data, "first") == Some(Field(Title, Color))
    ensures Lookup(data, "keyword1") == Some(Field(row.courseName, Color))
    ensures Lookup(data, "keyword2") == Some(Field(TimeRange(row.startTime, row.endTime), Color))
    ensures Lookup(data, "keyword3") == Some(Field(row.location, Color))
    ensures Lookup(data, "keyword4") == Some(Field(row.teacherName, Color))
    ensures Lookup(data, "remark") == Some(Field(Remark, Color))
  {
    var data := [
      ("first", Field(Title, Color)),
      ("keyword1", Field(row.courseName, Color)),
      ("keyword2", Field(TimeRange(row.startTime, row.endTime), Color)),
      ("keyword3", Field(row.location, Color)),
      ("keyword4", Field(row.teacherName, Color)),
      ("remark", Field(Remark, Color)) ];
    LookupFindsFirst(data, 2);
    LookupFindsFirst(data, 3);
    LookupFindsFirst(data, 4);
    LookupFindsFirst(data, 5);
    data
  }

  /** The `keyword2` field of a message is 11 characters and gives back the class's start and end times. */
  lemma PayloadTimesRecoverable(row: CourseRow)
    ensures Lookup(BuildPayload(row), "keyword2").Some?
    ensures var v := Lookup(BuildPayload(row), "keyword2").value.value;
              |v| == 11 && v[5] == '-' && ParseTimeRange(v) == Some((row.startTime, row.endTime))
  {
    TimeRangeRoundTrip(row.startTime, row.endTime);
  }
}
