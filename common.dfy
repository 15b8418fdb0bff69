/**
 * Shared vocabulary of the alarm pipeline: optional values, results carrying the
 * .NET exceptions the code throws, nullable strings, alarm levels and messages,
 * clock units, and the event record that rules are evaluated against.
 */
module Common {

  datatype Option<T> = None | Some(value: T)

  /** The exceptions the modelled code raises, each with the message .NET gives it. */
  datatype Exception =
    | ArgumentOutOfRange
    | ArgumentNull(paramName: string)
    | Argument(text: string)
    | NullReference(text: string)
    | IndexOutOfRange
    | Format(text: string)
    | General(text: string)    // a plain System.Exception
    | External(text: string)   // thrown by code outside the model (a channel, the table service)
    | LeaseLost(text: string)  // the event hub's LeaseLostException

  const DefaultNullReferenceText := "Object reference not set to an instance of an object."

  function ExceptionMessage(e: Exception): string
  {
    match e
    case ArgumentOutOfRange => "Specified argument was out of the range of valid values."
    case ArgumentNull(p) => "Value cannot " + "be null." + "\r\n" + "Parameter " + "name: " + p
    case Argument(t) => t
    case NullReference(t) => t
    case IndexOutOfRange => "Index was outside the bounds of the array."
    case Format(t) => t
    case General(t) => t
    case External(t) => t
    case LeaseLost(t) => t
  }

  datatype Result<T> = Ok(value: T) | Err(error: Exception)

  /** Concatenation regroups; stated once so that proofs about long texts need not rediscover it. */
  lemma AppendAssoc<T>(a: seq<T>, b: seq<T>, c: seq<T>)
    ensures (a + b) + c == a + (b + c)
  {
  }

  lemma Pair<T>(a: T, b: T)
    ensures [a] + [b] == [a, b]
  {
  }

  /** A C# string reference, which may be null. */
  type NString = Option<string>

  /** Interpolation and concatenation render a null string as the empty string. */
  function NullToEmpty(s: NString): string
  {
    if s.Some? then s.value else ""
  }

  predicate IsNullOrEmpty(s: NString)
  {
    s.None? || s.value == ""
  }

  /** char.IsWhiteSpace: the Unicode space separators plus the line/paragraph separators and the C0/C1 controls 9-13 and 0x85. */
  predicate IsWhiteSpace(c: char)
  {
    ('\U{9}' <= c <= '\U{D}') || c == ' ' || c == '\U{85}' || c == '\U{A0}' || c == '\U{1680}'
    || ('\U{2000}' <= c <= '\U{200A}') || c == '\U{2028}' || c == '\U{2029}' || c == '\U{202F}'
    || c == '\U{205F}' || c == '\U{3000}'
  }

  predicate IsNullOrWhiteSpace(s: NString)
  {
    s.None? || forall i :: 0 <= i < |s.value| ==> IsWhiteSpace(s.value[i])
  }

  predicate IsDigit(c: char)
  {
    '0' <= c <= '9'
  }

  /** Decimal rendering of a natural number, as int.ToString() in the invariant culture. */
  function NatToString(n: nat): (r: string)
    ensures |r| >= 1
  {
    if n < 10 then [Digit(n)] else NatToString(n / 10) + [Digit(n % 10)]
  }

  /** The rendering is all digits, with a leading zero only for zero itself. */
  lemma {:induction false} NatToStringDigits(n: nat)
    ensures var r := NatToString(n);
      && (forall i :: 0 <= i < |r| ==> IsDigit(r[i]))
      && (r[0] == '0' <==> n == 0)
      && (n < 10 ==> |r| == 1)
  {
    if n >= 10 {
      NatToStringDigits(n / 10);
    }
  }

  function Digit(d: nat): (c: char)
    requires d < 10
    ensures IsDigit(c) && (c == '0' <==> d == 0)
  {
    "0123456789"[d]
  }

  function IntToString(i: int): string
  {
    if i < 0 then "-" + NatToString(-i) else NatToString(i)
  }

  /** Left-pads with zeros to the given width. */
  function PadDigits(n: nat, width: nat): (r: string)
    ensures |r| >= width
    ensures 1 <= width && n < Pow10(width) ==> |r| == width
  {
    var s := NatToString(n);
    assert 1 <= width && n < Pow10(width) ==> |s| <= width by {
      if 1 <= width && n < Pow10(width) { NatToStringLength(n, width); }
    }
    if |s| >= width then s else Zeros(width - |s|) + s
  }

  function Zeros(k: nat): (r: string)
    ensures |r| == k
  {
    if k == 0 then "" else "0" + Zeros(k - 1)
  }

  function Pow10(k: nat): (r: nat)
    ensures r >= 1
  {
    if k == 0 then 1 else 10 * Pow10(k - 1)
  }

  lemma {:induction false} NatToStringLength(n: nat, k: nat)
    requires n < Pow10(k) && k >= 1
    ensures |NatToString(n)| <= k
  {
    if n >= 10 {
      assert n / 10 < Pow10(k - 1);
      NatToStringLength(n / 10, k - 1);
    }
  }

  // Clock units: DateTime and TimeSpan count 100-nanosecond ticks.
  const TicksPerMillisecond: int := 10_000
  const TicksPerSecond: int := 10_000_000
  const TicksPerMinute: int := 600_000_000
  const TicksPerHour: int := 36_000_000_000
  const TicksPerDay: int := 864_000_000_000

  /** TimeSpan.ToString() ("c" format): [-][d.]hh:mm:ss[.fffffff]. */
  function TimeSpanText(t: int): string
  {
    var a: nat := if t < 0 then -t else t;
    var days := a / TicksPerDay;
    var hours := a % TicksPerDay / TicksPerHour;
    var minutes := a % TicksPerHour / TicksPerMinute;
    var seconds := a % TicksPerMinute / TicksPerSecond;
    var fraction := a % TicksPerSecond;
    (if t < 0 then "-" else "")
    + (if days > 0 then NatToString(days) + "." else "")
    + PadDigits(hours, 2) + ":" + PadDigits(minutes, 2) + ":" + PadDigits(seconds, 2)
    + (if fraction > 0 then "." + PadDigits(fraction, 7) else "")
  }

  /** A C# uint. */
  type UInt32 = x: int | 0 <= x < 0x1_0000_0000

  /** double.ToString() of an interval given in ticks, read as milliseconds (at most four decimals). */
  function MillisecondsText(ticks: int): string
  {
    var a: nat := if ticks < 0 then -ticks else ticks;
    var whole := a / TicksPerMillisecond;
    var fraction := a % TicksPerMillisecond;
    (if ticks < 0 then "-" else "") + NatToString(whole)
    + (if fraction == 0 then "" else "." + TrimZeros(PadDigits(fraction, 4)))
  }

  /** Drops trailing '0' characters. */
  function TrimZeros(s: string): string
  {
    if |s| > 0 && s[|s| - 1] == '0' then TrimZeros(s[..|s| - 1]) else s
  }

  /** The largest System.Timers.Timer interval, Int32.MaxValue milliseconds, in ticks. */
  const MaxTimerTicks: int := 2147483647 * 10_000

  /**
   * The ArgumentException `new Timer(interval)` throws for an interval that is not
   * positive or whose rounded-up value exceeds Int32.MaxValue milliseconds.
   */
  function TimerIntervalError(ticks: int): (r: Option<Exception>)
    ensures r.None? <==> 0 < ticks <= MaxTimerTicks
  {
    if 0 < ticks <= MaxTimerTicks then None
    else Some(Argument("Invalid value '" + MillisecondsText(ticks) + "' for parameter 'interval'."))
  }

  /** The AlarmLevel enum, kept as its integer code so that values outside the three names exist. */
  datatype AlarmLevel = AlarmLevel(code: int)

  const High := AlarmLevel(0)
  const Medium := AlarmLevel(10)
  const Low := AlarmLevel(20)

  /** Enum.ToString(): the member name, or the number for an undefined value. */
  function LevelName(l: AlarmLevel): string
  {
    if l == High then "High"
    else if l == Medium then "Medium"
    else if l == Low then "Low"
    else IntToString(l.code)
  }

  datatype AlarmMessage = AlarmMessage(
    level: AlarmLevel,
    origin: NString,
    message: NString,
    exceptionMessage: NString,
    storageID: NString)

  /** The outcome an event reports; Neutral is the default of a fresh event. */
  datatype OperationResult = Neutral | Failure | Success

  /**
   * What a rule looks at in an incoming event: the operation name, the reported
   * result, the message of the caught exception (None when no exception was
   * attached), the application (tenant) name and the event's storage ID.
   */
  datatype Event = Event(
    operationName: NString,
    result: OperationResult,
    caughtException: Option<string>,
    tenant: NString,
    id: NString)

  /** ApplicationInfo: the reporting application's name (the host's friendly name when constructed without one). */
  datatype ApplicationInfo = ApplicationInfo(applicationName: NString)

  /** The partition key events get when their application name is blank (spelling as in the constructors). */
  const UnknownApplication: string := "Unkown application"

  /** TimeStampedMessage<T>. */
  datatype Stamped<T> = Stamped(timeStamp: int, message: T)

  /** Run state shared by the engine and its analyzers. */
  datatype State = Running | ShuttingDown | Stopped

  function ResultName(r: OperationResult): string
  {
    match r
    case Neutral => "Neutral"
    case Failure => "Failure"
    case Success => "Success"
  }

  function StateName(s: State): string
  {
    match s
    case Running => "Running"
    case ShuttingDown => "ShuttingDown"
    case Stopped => "Stopped"
  }
}
