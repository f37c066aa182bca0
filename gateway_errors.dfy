/**
 * The API gateway's translation of gRPC errors from the back-end services
 * into HTTP error responses (`handleGRPCError`, `mapGRPCCodeToHTTP`). The
 * `http.ResponseWriter` is a recorder of what was written; JSON encoding is
 * not part of this model.
 */
module GatewayErrors {
  import opened Wrappers
  import opened Errdefs
  import opened StoringTransport

  /** `mapGRPCCodeToHTTP`: the HTTP status and the error code name for a gRPC code. */
  function MapGrpcCodeToHttp(c: Code): (r: (int, string))
    ensures r.0 == 200 <==> c == OK
    ensures 200 <= r.0 < 600 && |r.1| > 0
  {
    if c == OK then (200, "OK")
    else if c == Canceled then (408, "CANCELLED")
    else if c == Unknown then (500, "UNKNOWN")
    else if c == InvalidArgumentCode then (400, "INVALID_ARGUMENT")
    else if c == DeadlineExceeded then (504, "DEADLINE_EXCEEDED")
    else if c == NotFoundCode then (404, "NOT_FOUND")
    else if c == AlreadyExistsCode then (409, "ALREADY_EXISTS")
    else if c == PermissionDenied then (403, "PERMISSION_DENIED")
    else if c == ResourceExhausted then (429, "RESOURCE_EXHAUSTED")
    else if c == FailedPrecondition then (400, "FAILED_PRECONDITION")
    else if c == Aborted then (409, "ABORTED")
    else if c == OutOfRange then (400, "OUT_OF_RANGE")
    else if c == Unimplemented then (501, "UNIMPLEMENTED")
    else if c == Internal then (500, "INTERNAL")
    else if c == UnavailableCode then (503, "UNAVAILABLE")
    else if c == DataLoss then (500, "DATA_LOSS")
    else if c == Unauthenticated then (401, "UNAUTHENTICATED")
    else (500, "INTERNAL")
  }

  /**
   * Only OK is a success; every other code is a client error (4xx) or a
   * server error (5xx), and codes outside the table are internal errors.
   */
  lemma {:induction false} HttpStatusClasses(c: Code)
    ensures c != OK ==> 400 <= MapGrpcCodeToHttp(c).0 < 600
    ensures c > Unauthenticated ==> MapGrpcCodeToHttp(c) == (500, "INTERNAL")
    ensures MapGrpcCodeToHttp(c).0 == 400 <==> c in {InvalidArgumentCode, FailedPrecondition, OutOfRange}
    ensures MapGrpcCodeToHttp(c).0 == 404 <==> c == NotFoundCode
    ensures MapGrpcCodeToHttp(c).0 == 409 <==> c in {AlreadyExistsCode, Aborted}
    ensures MapGrpcCodeToHttp(c).0 == 503 <==> c == UnavailableCode
  {
  }

  datatype ErrorResponse = ErrorResponse(error: string, message: string, code: string)
  datatype HttpReply = HttpReply(contentType: string, status: int, body: ErrorResponse)

  /** What `handleGRPCError` writes for an error, or nothing for nil. */
  function GrpcErrorReply(err: Option<GoError>): (r: Option<HttpReply>)
    ensures r.None? <==> err.None?
    ensures r.Some? ==> r.value.contentType == "application/json" && r.value.body.error != ""
    ensures err.Some? && err.value.status.None? ==>
      r == Some(HttpReply("application/json", 500, ErrorResponse("Internal server error", "", "")))
    ensures err.Some? && err.value.status.Some? ==>
      var st := err.value.status.value;
      && r.value.status == MapGrpcCodeToHttp(st.code).0
      && r.value.body.code == MapGrpcCodeToHttp(st.code).1
      && r.value.body.error == r.value.body.message
      && r.value.body.message == (if st.message == "" then CodeName(st.code) else st.message)
  {
    match err
    case None => None
    case Some(e) =>
      match e.status
      case None => Some(HttpReply("application/json", 500, ErrorResponse("Internal server error", "", "")))
      case Some(st) =>
        var (httpStatus, errorCode) := MapGrpcCodeToHttp(st.code);
        var errorMessage := if st.message == "" then CodeName(st.code) else st.message;
        Some(HttpReply("application/json", httpStatus, ErrorResponse(errorMessage, errorMessage, errorCode)))
  }

  /**
   * A back-end error, mapped by the services' `mapError` and relayed by
   * gRPC, reaches the client as: 404 for "not found", 400 for "invalid
   * argument", 409 for "already exists", 503 for "unavailable" and 500
   * otherwise, with the back-end error's text as the message.
   */
  lemma {:induction false} BackendErrorToHttp(e: GoError)
    requires e.text != ""
    ensures var reply := GrpcErrorReply(MapError(Some(e))).value;
      && reply.body.message == e.text
      && (NotFound in e.wraps ==> reply.status == 404)
      && (NotFound !in e.wraps && InvalidArgument in e.wraps ==> reply.status == 400)
      && (e.wraps == {AlreadyExists} ==> reply.status == 409)
      && (e.wraps == {Unavailable} ==> reply.status == 503)
      && (e.wraps == {} ==> reply.status == 500)
  {
    MapErrorTable(e);
  }

  /** The part of an `http.ResponseWriter` that `handleGRPCError` uses. */
  class ResponseRecorder {
    var headers: map<string, string>
    var status: Option<int>
    var body: seq<ErrorResponse>

    constructor ()
      ensures headers == map[] && status == None && body == []
    {
      headers := map[];
      status := None;
      body := [];
    }
  }

  /** `handleGRPCError(w, err)`. */
  method HandleGrpcError(w: ResponseRecorder, err: Option<GoError>)
    modifies w
    ensures err.None? ==> w.headers == old(w.headers) && w.status == old(w.status) && w.body == old(w.body)
    ensures err.Some? ==>
      var reply := GrpcErrorReply(err).value;
      && w.headers == old(w.headers)["Content-Type" := reply.contentType]
      && w.status == Some(reply.status)
      && w.body == old(w.body) + [reply.body]
  {
    if err.None? {
      return;
    }
    w.headers := w.headers["Content-Type" := "application/json"];
    var e := err.value;
    if e.status.None? {
      w.status := Some(500);
      w.body := w.body + [ErrorResponse("Internal server error", "", "")];
      return;
    }
    var st := e.status.value;
    var (httpStatus, errorCode) := MapGrpcCodeToHttp(st.code);
    var errorMessage := st.message;
    if errorMessage == "" {
      errorMessage := CodeName(st.code);
    }
    w.status := Some(httpStatus);
    w.body := w.body + [ErrorResponse(errorMessage, errorMessage, errorCode)];
  }
}
