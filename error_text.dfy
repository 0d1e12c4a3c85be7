/**
 * The byte strings of a failed send (reminder.php:87, 95): the error line
 * collected for the run summary and the exception message cut to 255 bytes
 * for the `error_message` column. PHP strings are byte strings.
 */
module ErrorText {
  import opened Wrappers

  newtype byte = x: int | 0 <= x < 256

  /** `substr($message, 0, 255)` keeps at most this many bytes. */
  const MaxErrorBytes := 255

  /** The logged error message: the first min(255, |message|) bytes. */
  function Truncate(message: seq<byte>): (r: seq<byte>)
    ensures |r| == if |message| <= MaxErrorBytes then |message| else MaxErrorBytes
    ensures r <= message
    ensures r == message <==> |message| <= MaxErrorBytes
  {
    if |message| <= MaxErrorBytes then message else message[..MaxErrorBytes]
  }

  /** UTF-8 bytes of "课程ID " (course id), which opens an error line. */
  const Prefix: seq<byte> := [0xE8, 0xAF, 0xBE, 0xE7, 0xA8, 0x8B, 0x49, 0x44, 0x20]

  /** UTF-8 bytes of " 发送失败: " (failed to send), between the id and the message. */
  const Separator: seq<byte> :=
    [0x20, 0xE5, 0x8F, 0x91, 0xE9, 0x80, 0x81, 0xE5, 0xA4, 0xB1, 0xE8, 0xB4, 0xA5, 0x3A, 0x20]

  const Minus: byte := 0x2D

  predicate IsDigit(b: byte)
  {
    0x30 <= b <= 0x39
  }

  /** The decimal digits of a natural number, without leading zeros. */
  function Digits(n: nat): (s: seq<byte>)
    ensures 0 < |s|
    ensures forall i :: 0 <= i < |s| ==> IsDigit(s[i])
    ensures |s| > 1 ==> s[0] != 0x30
  {
    if n < 10 then [(0x30 + n) as byte] else Digits(n / 10) + [(0x30 + n % 10) as byte]
  }

  /** The value of a string of decimal digits. */
  function DigitsValue(s: seq<byte>): nat
    requires forall i :: 0 <= i < |s| ==> IsDigit(s[i])
  {
    if |s| == 0 then 0
    else
      assert IsDigit(s[|s| - 1]);
      DigitsValue(s[..|s| - 1]) * 10 + (s[|s| - 1] as int - 0x30) as nat
  }

  /** Reading the digits back gives the number. */
  lemma {:induction false} DigitsRoundTrip(n: nat)
    ensures DigitsValue(Digits(n)) == n
  {
    if n >= 10 {
      var s := Digits(n);
      assert s[..|s| - 1] == Digits(n / 10);
      DigitsRoundTrip(n / 10);
    }
  }

  /** PHP's interpolation of an integer into a string. */
  function IntText(n: int): (s: seq<byte>)
    ensures 0 < |s|
  {
    if n < 0 then [Minus] + Digits(-n) else Digits(n)
  }

  /** The entry of the summary's `errors` list for one failed course: it opens with the prefix and ends with the whole message. */
  function ErrorLine(courseId: int, message: seq<byte>): (line: seq<byte>)
    ensures |line| > |Prefix| + |Separator| + |message|
    ensures line[..|Prefix|] == Prefix
    ensures line[|line| - |message|..] == message
  {
    Prefix + IntText(courseId) + Separator + message
  }

  /** The length of the run of digits at the start of `s`. */
  function DigitSpan(s: seq<byte>): (k: nat)
    ensures k <= |s|
    ensures forall i :: 0 <= i < k ==> IsDigit(s[i])
    ensures k < |s| ==> !IsDigit(s[k])
  {
    if |s| == 0 || !IsDigit(s[0]) then 0 else 1 + DigitSpan(s[1..])
  }

  /** Reads an error line back into the course id and the full message. */
  function ParseErrorLine(line: seq<byte>): Option<(int, seq<byte>)>
  {
    if |line| < |Prefix| || line[..|Prefix|] != Prefix then None
    else ParseIdAndMessage(line[|Prefix|..])
  }

  /** Reads an optionally signed decimal id followed by the separator and the message. */
  function ParseIdAndMessage(rest: seq<byte>): Option<(int, seq<byte>)>
  {
    if |rest| > 0 && rest[0] == Minus then
      match ParseUnsigned(rest[1..])
      case None => None
      case Some(p) => Some((-p.0, p.1))
    else ParseUnsigned(rest)
  }

  /** Reads a decimal number followed by the separator and the message. */
  function ParseUnsigned(body: seq<byte>): Option<(int, seq<byte>)>
  {
    var k := DigitSpan(body);
    var tail := body[k..];
    if k == 0 || |tail| < |Separator| || tail[..|Separator|] != Separator then None
    else Some((DigitsValue(body[..k]), tail[|Separator|..]))
  }

  lemma {:induction false} DigitSpanOfDigits(d: seq<byte>, t: seq<byte>)
    requires forall i :: 0 <= i < |d| ==> IsDigit(d[i])
    requires |t| > 0 && !IsDigit(t[0])
    ensures DigitSpan(d + t) == |d|
  {
    if |d| > 0 {
      assert (d + t)[1..] == d[1..] + t;
      DigitSpanOfDigits(d[1..], t);
    }
  }

  lemma UnsignedRoundTrip(n: nat, message: seq<byte>)
    ensures ParseUnsigned(Digits(n) + Separator + message) == Some((n, message))
  {
    var d := Digits(n);
    var t := Separator + message;
    var body := d + t;
    assert body == Digits(n) + Separator + message;
    DigitSpanOfDigits(d, t);
    assert body[..|d|] == d;
    assert body[|d|..] == t;
    assert t[..|Separator|] == Separator;
    assert t[|Separator|..] == message;
    DigitsRoundTrip(n);
  }

  lemma IdRoundTrip(courseId: int, message: seq<byte>)
    ensures ParseIdAndMessage(IntText(courseId) + Separator + message) == Some((courseId, message))
  {
    if courseId < 0 {
      NegativeIdRoundTrip(-courseId, message);
    } else {
      var d := Digits(courseId);
      UnsignedRoundTrip(courseId, message);
      assert (d + Separator + message)[0] == d[0];
    }
  }

  lemma NegativeIdRoundTrip(n: nat, message: seq<byte>)
    requires n > 0
    ensures ParseIdAndMessage([Minus] + Digits(n) + Separator + message) == Some((-(n as int), message))
  {
    var body := Digits(n) + Separator + message;
    var rest := [Minus] + Digits(n) + Separator + message;
    assert rest == [Minus] + body;
    assert rest[1..] == body;
    UnsignedRoundTrip(n, message);
  }

  /** An error line carries the course id and the full, untruncated message. */
  lemma ErrorLineRoundTrip(courseId: int, message: seq<byte>)
    ensures ParseErrorLine(ErrorLine(courseId, message)) == Some((courseId, message))
  {
    var rest := IntText(courseId) + Separator + message;
    var line := Prefix + rest;
    assert ErrorLine(courseId, message) == line;
    assert line[..|Prefix|] == Prefix;
    assert line[|Prefix|..] == rest;
    IdRoundTrip(courseId, message);
  }
}
