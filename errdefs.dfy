/**
 * Go error values as the services see them.
 *
 * A Go `error` is modelled by what the code asks of it: its `Error()` text,
 * the sentinels of `errdefs` that `errors.Is` finds in its chain, and the
 * typed errors that `errors.As` (or `status.FromError`) can extract from it.
 * A nil error is `None` in an `Option<GoError>`.
 */
module Errdefs {
  import opened Wrappers

  /** The four sentinel errors of `errdefs`. */
  datatype Sentinel = NotFound | InvalidArgument | AlreadyExists | Unavailable

  /** The text of each sentinel (`errors.New("...")`). */
  function SentinelText(s: Sentinel): string {
    match s
    case NotFound => "not found"
    case InvalidArgument => "invalid argument"
    case AlreadyExists => "already exists"
    case Unavailable => "unavailable"
  }

  /** A gRPC status code: `codes.Code` is a `uint32`. */
  newtype Code = n: int | 0 <= n < 0x1_0000_0000

  const OK: Code := 0
  const Canceled: Code := 1
  const Unknown: Code := 2
  const InvalidArgumentCode: Code := 3
  const DeadlineExceeded: Code := 4
  const NotFoundCode: Code := 5
  const AlreadyExistsCode: Code := 6
  const PermissionDenied: Code := 7
  const ResourceExhausted: Code := 8
  const FailedPrecondition: Code := 9
  const Aborted: Code := 10
  const OutOfRange: Code := 11
  const Unimplemented: Code := 12
  const Internal: Code := 13
  const UnavailableCode: Code := 14
  const DataLoss: Code := 15
  const Unauthenticated: Code := 16

  /** Decimal rendering of a natural number. */
  function DecimalText(n: nat): (r: string)
    ensures |r| > 0
    decreases n
  {
    var d := ['0', '1', '2', '3', '4', '5', '6', '7', '8', '9'][n % 10];
    if n < 10 then [d] else DecimalText(n / 10) + [d]
  }

  /** `codes.Code.String()`. */
  function CodeName(c: Code): (r: string)
    ensures |r| > 0
  {
    if c == OK then "OK"
    else if c == Canceled then "Canceled"
    else if c == Unknown then "Unknown"
    else if c == InvalidArgumentCode then "InvalidArgument"
    else if c == DeadlineExceeded then "DeadlineExceeded"
    else if c == NotFoundCode then "NotFound"
    else if c == AlreadyExistsCode then "AlreadyExists"
    else if c == PermissionDenied then "PermissionDenied"
    else if c == ResourceExhausted then "ResourceExhausted"
    else if c == FailedPrecondition then "FailedPrecondition"
    else if c == Aborted then "Aborted"
    else if c == OutOfRange then "OutOfRange"
    else if c == Unimplemented then "Unimplemented"
    else if c == Internal then "Internal"
    else if c == UnavailableCode then "Unavailable"
    else if c == DataLoss then "DataLoss"
    else if c == Unauthenticated then "Unauthenticated"
    else "Code(" + DecimalText(c as nat) + ")"
  }

  /** What `status.FromError` recovers from a gRPC status error. */
  datatype GrpcStatus = GrpcStatus(code: Code, message: string)

  datatype GoError = GoError(
    text: string,                 // err.Error()
    wraps: set<Sentinel>,         // the sentinels errors.Is finds in the chain
    minioCode: Option<string>,    // Code of a minio.ErrorResponse in the chain
    credentialsFailure: bool,     // a credentials.ErrorResponse is in the chain
    noRows: bool,                 // errors.Is(err, pgx.ErrNoRows)
    pgCode: Option<string>,       // Code of a *pgconn.PgError in the chain
    status: Option<GrpcStatus>)   // set when err is a gRPC status error

  /** `errors.New(text)`: an error with nothing in its chain. */
  function Plain(text: string): GoError {
    GoError(text, {}, None, false, false, None, None)
  }

  /** The sentinel itself. */
  function SentinelError(s: Sentinel): GoError {
    GoError(SentinelText(s), {s}, None, false, false, None, None)
  }

  /** `fmt.Errorf(prefix + "%w", sentinel)`. */
  function Wrapf(prefix: string, s: Sentinel): GoError {
    GoError(prefix + SentinelText(s), {s}, None, false, false, None, None)
  }

  /** `fmt.Errorf("%w: " + middle + "%v", sentinel, err)`: `%v` keeps only the text of err. */
  function Annotate(s: Sentinel, middle: string, err: GoError): GoError {
    GoError(SentinelText(s) + ": " + middle + err.text, {s}, None, false, false, None, None)
  }

  /** `status.Error(code, message)` for a code other than OK. */
  function StatusError(code: Code, message: string): GoError {
    GoError("rpc error: code = " + CodeName(code) + " desc = " + message, {}, None, false, false, None,
            Some(GrpcStatus(code, message)))
  }

  /** The `uuid.UUID` type, known by its canonical `String()` form. */
  datatype Uuid = Uuid(text: string)
}
