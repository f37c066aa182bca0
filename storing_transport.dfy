/**
 * The storing service's gRPC handlers: each parses the UUID of its request,
 * calls the use case, and turns a use-case error into a gRPC status with
 * `mapError`.
 */
module StoringTransport {
  import opened Wrappers
  import opened Errdefs
  import opened Paths
  import opened StoringPgdb
  import opened StoringMinio
  import opened StoringUsecase

  /** `mapError`: the first sentinel found, in a fixed order, picks the code; the message is the error's text. */
  function MapError(err: Option<GoError>): (r: Option<GoError>)
    ensures r == None <==> err == None
    ensures err.Some? ==> r.value.status.Some? && r.value.status.value.message == err.value.text
    ensures err.Some? ==> r.value.status.value.code != OK
  {
    match err
    case None => None
    case Some(e) =>
      if NotFound in e.wraps then Some(StatusError(NotFoundCode, e.text))
      else if InvalidArgument in e.wraps then Some(StatusError(InvalidArgumentCode, e.text))
      else if AlreadyExists in e.wraps then Some(StatusError(AlreadyExistsCode, e.text))
      else if Unavailable in e.wraps then Some(StatusError(UnavailableCode, e.text))
      else Some(StatusError(Internal, e.text))
  }

  /** The gRPC code of each sentinel. */
  function SentinelCode(s: Sentinel): Code {
    match s
    case NotFound => NotFoundCode
    case InvalidArgument => InvalidArgumentCode
    case AlreadyExists => AlreadyExistsCode
    case Unavailable => UnavailableCode
  }

  /**
   * First match wins: each code is chosen exactly when its sentinel is in
   * the chain and no sentinel earlier in the order is, and Internal exactly
   * when the chain holds none of them.
   */
  lemma {:induction false} MapErrorTable(e: GoError)
    ensures var c := MapError(Some(e)).value.status.value.code;
      && (c == NotFoundCode <==> NotFound in e.wraps)
      && (c == InvalidArgumentCode <==> NotFound !in e.wraps && InvalidArgument in e.wraps)
      && (c == AlreadyExistsCode <==> NotFound !in e.wraps && InvalidArgument !in e.wraps && AlreadyExists in e.wraps)
      && (c == UnavailableCode <==> e.wraps == {Unavailable})
      && (c == Internal <==> e.wraps == {})
  {
    var c := MapError(Some(e)).value.status.value.code;
    assert forall s :: s in e.wraps ==> s == NotFound || s == InvalidArgument || s == AlreadyExists || s == Unavailable;
    if c == UnavailableCode {
      assert forall s :: s in e.wraps ==> s == Unavailable;
    }
    if c == Internal {
      assert forall s :: s !in e.wraps;
    }
  }

  /** An error wrapping exactly one sentinel gets that sentinel's code. */
  lemma {:induction false} MapSentinelError(prefix: string, s: Sentinel)
    ensures MapError(Some(Wrapf(prefix, s))) == Some(StatusError(SentinelCode(s), prefix + SentinelText(s)))
  {
  }

  /** `uuid.Parse`: the id, or the text of its error. */
  type UuidParser = string -> Result<Uuid, string>

  /** The error of a request whose UUID does not parse: `status.Errorf(codes.InvalidArgument, err.Error())`. */
  function BadUuid(message: string): GoError {
    StatusError(InvalidArgumentCode, message)
  }

  datatype UploadTaskResponse = UploadTaskResponse(fileId: string, uploadUrl: Url)
  datatype GetTaskResponse = GetTaskResponse(fileId: string, filename: string, url: Url, uploadedBy: string, uploadedAt: int)

  /** The `UploadTask` handler. */
  method UploadTask(svc: StoringService, parse: UuidParser, filename: string, uploadedBy: string,
                    newId: Result<Uuid, GoError>, now: int)
    returns (r: Result<UploadTaskResponse, GoError>)
    modifies svc, svc.repo
    ensures parse(uploadedBy).Failure? ==>
      r == Failure(BadUuid(parse(uploadedBy).error)) && svc.launched == old(svc.launched) && svc.repo.rows == old(svc.repo.rows)
    ensures r.Failure? ==> r.error.status.Some? && r.error.status.value.code != OK
    ensures r.Success? ==>
      (&& parse(uploadedBy).Success? && newId.Success?
       && r.value.fileId == newId.value.text
       && PresignedPutObject(svc.minio, ObjectKey(newId.value, filename)).Success?
       && r.value.uploadUrl == PresignedPutObject(svc.minio, ObjectKey(newId.value, filename)).value
       && |svc.launched| == |old(svc.launched)| + 1
       && svc.launched[|svc.launched| - 1] == Launch(newId.value.text, ObjectKey(newId.value, filename), filename))
    ensures parse(uploadedBy).Success? ==> (r.Success? <==> |svc.launched| == |old(svc.launched)| + 1)
    ensures parse(uploadedBy).Success? ==>
      if newId.Failure? then
        r == Failure(MapError(Some(Wrapf("failed to generate uuid: ", InvalidArgument))).value)
      else if Ext(filename) == "" then
        r == Failure(MapError(Some(Wrapf("invalid file extension: ", InvalidArgument))).value)
      else if svc.repo.insertFault.Some? then
        r == Failure(MapError(Some(HandleDbError(svc.repo.insertFault).value)).value)
      else if FindTask(old(svc.repo.rows), newId.value).Some? then
        r == Failure(MapError(Some(SentinelError(AlreadyExists))).value)
      else
        match PresignedPutObject(svc.minio, ObjectKey(newId.value, filename))
        case Failure(_) => r == Failure(MapError(Some(Wrapf("failed to generate upload url: ", Unavailable))).value)
        case Success(url) => r == Success(UploadTaskResponse(newId.value.text, url))
  {
    var parsed := parse(uploadedBy);
    if parsed.Failure? {
      return Failure(BadUuid(parsed.error));
    }
    var res := svc.UploadTask(filename, parsed.value, newId, now);
    if res.Failure? {
      return Failure(MapError(Some(res.error)).value);
    }
    return Success(UploadTaskResponse(res.value.id.text, res.value.url));
  }

  /** The `GetTask` handler. */
  function GetTask(svc: StoringService, parse: UuidParser, fileId: string): (r: Result<GetTaskResponse, GoError>)
    reads svc.repo
    ensures parse(fileId).Failure? ==> r == Failure(BadUuid(parse(fileId).error))
    ensures parse(fileId).Success? && svc.GetTask(parse(fileId).value).Failure? ==>
      r == Failure(MapError(Some(svc.GetTask(parse(fileId).value).error)).value)
    ensures r.Failure? ==> r.error.status.Some? && r.error.status.value.code != OK
    ensures r.Success? ==> parse(fileId).Success? && r.value.fileId == parse(fileId).value.text
    ensures parse(fileId).Success? && svc.GetTask(parse(fileId).value).Success? ==>
      var t := svc.GetTask(parse(fileId).value).value;
      r == Success(GetTaskResponse(t.id.text, t.filename, t.url, t.uploadedBy.text, t.createdAt))
  {
    match parse(fileId)
    case Failure(msg) => Failure(BadUuid(msg))
    case Success(id) =>
      match svc.GetTask(id)
      case Failure(e) => Failure(MapError(Some(e)).value)
      case Success(t) => Success(GetTaskResponse(t.id.text, t.filename, t.url, t.uploadedBy.text, t.createdAt))
  }

  /** The `GetFileContent` handler. */
  function GetFileContent(svc: StoringService, parse: UuidParser, fileId: string): (r: Result<string, GoError>)
    reads svc.repo
    ensures parse(fileId).Failure? ==> r == Failure(BadUuid(parse(fileId).error))
    ensures parse(fileId).Success? ==>
      match svc.GetFileContent(parse(fileId).value)
      case Failure(e) => r == Failure(MapError(Some(e)).value)
      case Success(bytes) => r == Success(bytes)
    ensures r.Failure? ==> r.error.status.Some? && r.error.status.value.code != OK
  {
    match parse(fileId)
    case Failure(msg) => Failure(BadUuid(msg))
    case Success(id) =>
      match svc.GetFileContent(id)
      case Failure(e) => Failure(MapError(Some(e)).value)
      case Success(bytes) => Success(bytes)
  }

  /** A request with an unparsable id is answered without looking at the service's state. */
  lemma {:induction false} BadIdIgnoresService(a: StoringService, b: StoringService, parse: UuidParser, fileId: string)
    requires parse(fileId).Failure?
    ensures GetTask(a, parse, fileId) == GetTask(b, parse, fileId)
    ensures GetFileContent(a, parse, fileId) == GetFileContent(b, parse, fileId)
  {
  }
}
