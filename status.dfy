/** Status values in the style of `absl::Status` and `StatusOr<T>`, with the
    canonical status codes, and an Option type standing for nullable pointers
    and `std::optional`. */
module StatusTypes {

  /** `std::optional<T>`, and also a possibly-null pointer (None is null). */
  datatype Option<T> = None | Some(value: T)

  newtype byte = x: int | 0 <= x < 256

  /** The canonical codes of `absl::StatusCode`. */
  datatype Code =
    | Ok | Cancelled | Unknown | InvalidArgument | DeadlineExceeded | NotFound
    | AlreadyExists | PermissionDenied | ResourceExhausted | FailedPrecondition
    | Aborted | OutOfRange | Unimplemented | Internal | Unavailable | DataLoss
    | Unauthenticated

  /** A status: its code and its payloads, keyed by type URL. The message text
      is not modelled. */
  datatype Status = Status(code: Code, payloads: map<string, seq<byte>>)

  /** A status that is not OK, the only kind a failed `StatusOr` can hold. */
  type ErrorStatus = s: Status | s.code != Ok witness Status(Unknown, map[])

  /** The OK status carries no payloads (`SetPayload` on an OK status is a no-op). */
  const OkStatus: Status := Status(Ok, map[])

  predicate IsOk(s: Status) {
    s.code == Ok
  }

  /** `StatusOr<T>`: a value or a non-OK status. */
  datatype StatusOr<T> = Value(value: T) | Error(status: ErrorStatus)

  /** `StatusOr<T>::status()`: OK for a value, the stored status otherwise. */
  function StatusOf<T>(r: StatusOr<T>): (s: Status)
    ensures IsOk(s) <==> r.Value?
    ensures r.Value? ==> s.payloads == map[]
  {
    match r
    case Value(_) => OkStatus
    case Error(e) => e
  }

  /** `Status::GetPayload(url).has_value()`. */
  predicate HasPayload(s: Status, url: string) {
    url in s.payloads
  }

  /** The status a failed `TF_RET_CHECK` returns. */
  const InternalError: ErrorStatus := Status(Internal, map[])
}
