/** Shared vocabulary of the QueryPush model: optional values, the exceptions
    the services raise and catch, failure-compatible results, and the
    fixed-width integer and timestamp constants of the .NET runtime. */
module Base {

  /** A value that may be absent: C#'s `null` / `Nullable<T>`. */
  datatype Option<+T> = None | Some(value: T) {
    function GetOr(default: T): T {
      match this
      case Some(v) => v
      case None => default
    }
  }

  /** The exception classes the services raise or let pass through. */
  datatype ExceptionKind =
    | InvalidOperation
    | HttpRequest
    | Validation
    | Format
    | ArgumentOutOfRange
    | IO
    | Other(className: string)
  {
    /** What `exception.GetType().Name` shows in an alert. */
    function TypeName(): string {
      match this
      case InvalidOperation => "InvalidOperationException"
      case HttpRequest => "HttpRequestException"
      case Validation => "ValidationException"
      case Format => "FormatException"
      case ArgumentOutOfRange => "ArgumentOutOfRangeException"
      case IO => "IOException"
      case Other(n) => n
    }
  }

  datatype Exception = Exception(kind: ExceptionKind, message: string, stackTrace: Option<string>)

  function Raise(kind: ExceptionKind, message: string): Exception {
    Exception(kind, message, None)
  }

  /** Either a value or the exception that was thrown instead. */
  datatype Result<+T> = Ok(value: T) | Err(error: Exception) {
    predicate IsFailure() { Err? }

    function PropagateFailure<U>(): Result<U>
      requires Err?
    {
      Err(error)
    }

    function Extract(): T
      requires Ok?
    {
      value
    }
  }

  datatype Unit = Unit

  /** A `DateTime`, as its tick count (100 ns units since 0001-01-01). */
  type Time = int

  const TicksPerMillisecond: int := 10000
  const TicksPerMinute: int := 600000000
  const TicksPerDay: int := 864000000000
  /** `DateTime.MaxValue.Ticks`. */
  const MaxTicks: int := 3155378975999999999

  predicate IsDateTime(t: Time) { 0 <= t <= MaxTicks }

  /** `DateTime.Add` of a tick count: it raises when the result falls outside
      the `DateTime` range. */
  function AddTicks(t: Time, ticks: int): (r: Result<Time>)
    ensures r.Ok? <==> IsDateTime(t + ticks)
    ensures r.Ok? ==> r.value - t == ticks
  {
    if IsDateTime(t + ticks) then Ok(t + ticks)
    else Err(Raise(ArgumentOutOfRange, "The added or subtracted value results in an un-representable DateTime."))
  }

  /** `int.MaxValue`, the largest 32-bit signed integer. */
  const IntMax: int := 2147483647
  const IntMin: int := -2147483648

  predicate InInt32(x: int) { IntMin <= x <= IntMax }
}
