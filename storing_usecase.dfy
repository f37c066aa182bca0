/**
 * The storing service's use cases: uploading a task (validation, the task
 * row, the presigned upload URL and the start of the upload watcher),
 * looking a task up, reading a stored file, and the watcher that polls the
 * object store until the upload appears and then asks the analysis service
 * to analyse it.
 */
module StoringUsecase {
  import opened Wrappers
  import opened Errdefs
  import opened Paths
  import opened StoringPgdb
  import opened StoringMinio

  datatype TaskMetadata = TaskMetadata(id: Uuid, filename: string, uploadedBy: Uuid, createdAt: int)
  /** A task as the use cases return it; `url` is the parsed URL, not the text of its `String()`. */
  datatype Task = Task(id: Uuid, filename: string, url: Url, uploadedBy: Uuid, createdAt: int)

  // ---------------------------------------------------------------------------
  // Object keys
  // ---------------------------------------------------------------------------

  /** The key of a task's object: the task id followed by the extension of its file name. */
  function ObjectKey(id: Uuid, filename: string): (r: string)
    ensures |r| >= |id.text| && r[..|id.text|] == id.text
    ensures '.' !in LastElement(filename) <==> r == id.text
    ensures r != id.text ==> r[|id.text|] == '.'
  {
    ExtEmptyIff(filename);
    id.text + Ext(filename)
  }

  /**
   * The key starts with the id and goes on with the extension, which (when
   * there is one) is '.' followed by the rest of the file name's last element.
   */
  lemma {:induction false} ObjectKeyShape(id: Uuid, filename: string)
    ensures var key := ObjectKey(id, filename);
      && key[..|id.text|] == id.text
      && key[|id.text|..] == Ext(filename)
      && (Ext(filename) != "" ==> key[|id.text|] == '.' && key[|id.text|..] == filename[|filename| - |Ext(filename)|..])
      && (Ext(filename) == "" <==> '.' !in LastElement(filename))
  {
    ExtShape(filename);
    ExtEmptyIff(filename);
  }

  // ---------------------------------------------------------------------------
  // The task repository (a table with the task id as its primary key)
  // ---------------------------------------------------------------------------

  /** `pgx.ErrNoRows`. */
  function NoRowsError(): GoError {
    GoError("no rows in result set", {}, None, false, true, None, None)
  }

  /** A `*pgconn.PgError` with the given SQLSTATE code. */
  function PgError(code: string): GoError {
    GoError("ERROR (SQLSTATE " + code + ")", {}, None, false, false, Some(code), None)
  }

  predicate UniqueIds(rows: seq<TaskMetadata>) {
    forall i, j :: 0 <= i < j < |rows| ==> rows[i].id != rows[j].id
  }

  /** The row with the given id, if any. */
  function FindTask(rows: seq<TaskMetadata>, id: Uuid): (r: Option<TaskMetadata>)
    ensures r.Some? ==> r.value in rows && r.value.id == id
    ensures r.None? ==> forall i :: 0 <= i < |rows| ==> rows[i].id != id
  {
    if rows == [] then None
    else if rows[|rows| - 1].id == id then Some(rows[|rows| - 1])
    else FindTask(rows[..|rows| - 1], id)
  }

  /** With unique ids, a stored row is found by its id. */
  lemma {:induction false} FindStoredTask(rows: seq<TaskMetadata>, row: TaskMetadata)
    requires UniqueIds(rows) && row in rows
    ensures FindTask(rows, row.id) == Some(row)
  {
    var last := rows[|rows| - 1];
    if last != row {
      var init := rows[..|rows| - 1];
      assert row in init by {
        var k :| 0 <= k < |rows| && rows[k] == row;
        assert k < |rows| - 1;
        assert init[k] == row;
      }
      var k :| 0 <= k < |init| && init[k] == row;
      assert last.id != row.id by {
        assert rows[k] == row;
      }
      FindStoredTask(init, row);
    }
  }

  /** The storing repository over the `tasks` table; database faults are injected. */
  class TaskRepository {
    var rows: seq<TaskMetadata>
    const insertFault: Option<GoError>
    const queryFault: Option<GoError>

    constructor (insertFault: Option<GoError>, queryFault: Option<GoError>)
      ensures rows == [] && this.insertFault == insertFault && this.queryFault == queryFault
    {
      rows := [];
      this.insertFault := insertFault;
      this.queryFault := queryFault;
    }

    /**
     * `CreateTask`: insert the row, or fail with the translated database
     * error; an id already in the table violates the primary key.
     */
    method CreateTask(row: TaskMetadata) returns (r: Result<TaskMetadata, GoError>)
      modifies this
      ensures insertFault.Some? ==> r == Failure(HandleDbError(insertFault).value) && rows == old(rows)
      ensures insertFault.None? && FindTask(old(rows), row.id).Some? ==>
        r == Failure(SentinelError(AlreadyExists)) && rows == old(rows)
      ensures insertFault.None? && FindTask(old(rows), row.id).None? ==> r == Success(row) && rows == old(rows) + [row]
      ensures UniqueIds(old(rows)) ==> UniqueIds(rows)
    {
      if insertFault.Some? {
        return Failure(HandleDbError(insertFault).value);
      }
      if FindTask(rows, row.id).Some? {
        return Failure(HandleDbError(Some(PgError(UniqueViolation))).value);
      }
      rows := rows + [row];
      return Success(row);
    }

    /** `GetTask`: the row with the id, "not found" when there is none, or the translated database error. */
    function GetTask(id: Uuid): (r: Result<TaskMetadata, GoError>)
      reads this
      ensures queryFault.Some? ==> r == Failure(HandleDbError(queryFault).value)
      ensures queryFault.None? && r.Success? ==> r.value in rows && r.value.id == id
      ensures queryFault.None? && r.Failure? ==> r.error == SentinelError(NotFound) && forall i :: 0 <= i < |rows| ==> rows[i].id != id
    {
      if queryFault.Some? then Failure(HandleDbError(queryFault).value)
      else match FindTask(rows, id)
        case Some(row) => Success(row)
        case None => Failure(HandleDbError(Some(NoRowsError())).value)
    }
  }

  // ---------------------------------------------------------------------------
  // checkFileExists
  // ---------------------------------------------------------------------------

  /** The outcome of `StatObject`. */
  datatype StatResult = StatOk | StatFailed(err: GoError)

  /** A stat error that says the object is not there (yet). */
  predicate MissingObject(e: GoError) {
    e.minioCode == Some("NoSuchKey") || e.minioCode == Some("NotFound")
  }

  /** `checkFileExists`: (exists, err). */
  function CheckFileExists(stat: StatResult): (r: (bool, Option<GoError>))
    ensures !(r.0 && r.1.Some?)
    ensures r.0 <==> stat.StatOk?
    ensures r.1.Some? <==> stat.StatFailed? && !MissingObject(stat.err)
    ensures r.1.Some? ==> r.1.value == stat.err
  {
    match stat
    case StatOk => (true, None)
    case StatFailed(e) => if MissingObject(e) then (false, None) else (false, Some(e))
  }

  // ---------------------------------------------------------------------------
  // The upload watcher (startAnalysisAsync)
  // ---------------------------------------------------------------------------

  const MaxRetries: nat := 30
  /** Milliseconds slept after a check that did not find the object. */
  const RetryInterval: nat := 2000
  /** Milliseconds after which the watcher's context expires. */
  const Timeout: nat := 300000

  /** One existence check as the environment answers it: its result and how long it took. */
  datatype Poll = Poll(stat: StatResult, millis: nat)

  datatype WatchEnd = Found | TimedOut | RetriesExhausted
  datatype WatchOutcome = WatchOutcome(end: WatchEnd, checks: nat)

  /** The object was seen by a check. */
  predicate Seen(p: Poll) {
    CheckFileExists(p.stat).0
  }

  /** Milliseconds elapsed before the i-th attempt: each earlier attempt took its check and a sleep. */
  function Elapsed(polls: seq<Poll>, i: nat): nat
    requires i <= |polls|
  {
    if i == 0 then 0 else Elapsed(polls, i - 1) + polls[i - 1].millis + RetryInterval
  }

  /** The watcher's run from attempt i on. */
  function Watch(polls: seq<Poll>, i: nat): (r: WatchOutcome)
    requires i <= MaxRetries <= |polls|
    ensures i <= r.checks <= MaxRetries
    ensures r.end == Found ==> r.checks > i && Seen(polls[r.checks - 1])
    ensures r.end == RetriesExhausted ==> r.checks == MaxRetries
    decreases MaxRetries - i
  {
    if i == MaxRetries then WatchOutcome(RetriesExhausted, MaxRetries)
    else if Elapsed(polls, i) >= Timeout then WatchOutcome(TimedOut, i)
    else if Seen(polls[i]) then WatchOutcome(Found, i + 1)
    else Watch(polls, i + 1)
  }

  /**
   * What a run from attempt i does: it checks at most `MaxRetries` times in
   * all; it finds the object only on the first check that sees it, made
   * before the deadline; it gives up on the deadline only after it passed;
   * and exhausting the attempts means no check saw the object.
   */
  lemma {:induction false} WatchFrom(polls: seq<Poll>, i: nat)
    requires i <= MaxRetries <= |polls|
    ensures var o := Watch(polls, i);
      && i <= o.checks <= MaxRetries
      && (forall k :: i <= k < o.checks && (o.end != Found || k < o.checks - 1) ==> !Seen(polls[k]))
      && (forall k :: i <= k < o.checks ==> Elapsed(polls, k) < Timeout)
      && (o.end == Found ==> o.checks > i && Seen(polls[o.checks - 1]))
      && (o.end == TimedOut ==> Elapsed(polls, o.checks) >= Timeout && o.checks < MaxRetries)
      && (o.end == RetriesExhausted ==> o.checks == MaxRetries)
    decreases MaxRetries - i
  {
    if i < MaxRetries && Elapsed(polls, i) < Timeout && !Seen(polls[i]) {
      WatchFrom(polls, i + 1);
    }
  }

  /** The watcher finds the object exactly on the first check that sees it, if that check is before the deadline. */
  lemma {:induction false} FirstSightingFound(polls: seq<Poll>, j: nat)
    requires MaxRetries <= |polls| && j < MaxRetries
    requires Seen(polls[j]) && Elapsed(polls, j) < Timeout
    requires forall k :: 0 <= k < j ==> !Seen(polls[k])
    ensures Watch(polls, 0) == WatchOutcome(Found, j + 1)
  {
    WatchFrom(polls, 0);
    ElapsedMonotone(polls, j);
    var o := Watch(polls, 0);
    if o.end == TimedOut {
      ElapsedMonotoneBetween(polls, o.checks, j);
    }
  }

  lemma {:induction false} ElapsedMonotoneBetween(polls: seq<Poll>, a: nat, b: nat)
    requires a <= b <= |polls|
    ensures Elapsed(polls, a) <= Elapsed(polls, b)
    decreases b - a
  {
    if a < b {
      ElapsedMonotoneBetween(polls, a, b - 1);
    }
  }

  lemma {:induction false} ElapsedMonotone(polls: seq<Poll>, j: nat)
    requires j <= |polls|
    ensures forall k :: 0 <= k <= j ==> Elapsed(polls, k) <= Elapsed(polls, j)
  {
    forall k | 0 <= k <= j
      ensures Elapsed(polls, k) <= Elapsed(polls, j)
    {
      ElapsedMonotoneBetween(polls, k, j);
    }
  }

  /** With checks of bounded duration, attempt i starts at most i * (bound + interval) ms in. */
  lemma {:induction false} ElapsedBound(polls: seq<Poll>, i: nat, bound: nat)
    requires i <= |polls|
    requires forall k :: 0 <= k < i ==> polls[k].millis <= bound
    ensures Elapsed(polls, i) <= i * (bound + RetryInterval)
  {
    if i > 0 {
      ElapsedBound(polls, i - 1, bound);
    }
  }

  /**
   * When each check takes at most 8 seconds the 30 attempts are used up
   * before the five-minute deadline, so the watcher never times out.
   */
  lemma {:induction false} FastChecksNeverTimeOut(polls: seq<Poll>)
    requires MaxRetries <= |polls|
    requires forall k :: 0 <= k < MaxRetries ==> polls[k].millis <= 8000
    ensures Watch(polls, 0).end != TimedOut
  {
    WatchFrom(polls, 0);
    var o := Watch(polls, 0);
    if o.end == TimedOut {
      ElapsedBound(polls, o.checks, 8000);
    }
  }

  /** A check that reports an error neither ends the watch nor triggers analysis. */
  lemma {:induction false} CheckErrorContinues(polls: seq<Poll>, i: nat)
    requires i < MaxRetries <= |polls|
    requires polls[i].stat.StatFailed? && Elapsed(polls, i) < Timeout
    ensures Watch(polls, i) == Watch(polls, i + 1)
  {
  }

  /** The analysis service as the watcher sees it: the calls it received, and its fixed reply. */
  datatype AnalysisCall = AnalysisCall(taskId: string, objectKey: string)

  class AnalysisClient {
    var calls: seq<AnalysisCall>
    const reply: Result<bool, GoError>

    constructor (reply: Result<bool, GoError>)
      ensures calls == [] && this.reply == reply
    {
      calls := [];
      this.reply := reply;
    }

    /** `AnalyseTask(ctx, taskId, objectKey)`. */
    method AnalyseTask(taskId: string, objectKey: string) returns (status: bool, err: Option<GoError>)
      modifies this
      ensures calls == old(calls) + [AnalysisCall(taskId, objectKey)]
      ensures reply.Success? ==> status == reply.value && err == None
      ensures reply.Failure? ==> !status && err == Some(reply.error)
    {
      calls := calls + [AnalysisCall(taskId, objectKey)];
      match reply
      case Success(b) => status, err := b, None;
      case Failure(e) => status, err := false, Some(e);
    }
  }

  /** A watcher `UploadTask` started. */
  datatype Launch = Launch(taskId: string, objectKey: string, filename: string)

  /** What `GetObject` followed by `io.ReadAll` gives for an object key. */
  datatype ObjectRead = GetFailed(err: GoError) | ReadFailed(err: GoError) | Content(bytes: string)

  // ---------------------------------------------------------------------------
  // The service
  // ---------------------------------------------------------------------------

  class StoringService {
    const repo: TaskRepository
    const minio: Presigner
    const objects: string -> ObjectRead
    const analysisClient: AnalysisClient
    /** The watchers started so far, in order. */
    var launched: seq<Launch>

    constructor (repo: TaskRepository, minio: Presigner, objects: string -> ObjectRead, analysisClient: AnalysisClient)
      ensures this.repo == repo && this.minio == minio && this.objects == objects
      ensures this.analysisClient == analysisClient && launched == []
    {
      this.repo := repo;
      this.minio := minio;
      this.objects := objects;
      this.analysisClient := analysisClient;
      launched := [];
    }

    /**
     * `UploadTask`. `newId` is what `uuid.NewV7` returns and `now` the
     * creation time. The watcher is started (recorded in `launched`) only
     * when the task row was created and the upload URL presigned.
     */
    method UploadTask(filename: string, uploadedBy: Uuid, newId: Result<Uuid, GoError>, now: int)
      returns (r: Result<Task, GoError>)
      modifies this, repo
      ensures newId.Failure? ==>
        r == Failure(Wrapf("failed to generate uuid: ", InvalidArgument)) && repo.rows == old(repo.rows) && launched == old(launched)
      ensures newId.Success? && Ext(filename) == "" ==>
        r == Failure(Wrapf("invalid file extension: ", InvalidArgument)) && repo.rows == old(repo.rows) && launched == old(launched)
      ensures newId.Success? && Ext(filename) != "" ==>
        var row := TaskMetadata(newId.value, filename, uploadedBy, now);
        var key := ObjectKey(newId.value, filename);
        if repo.insertFault.Some? then
          r == Failure(HandleDbError(repo.insertFault).value) && repo.rows == old(repo.rows) && launched == old(launched)
        else if FindTask(old(repo.rows), row.id).Some? then
          r == Failure(SentinelError(AlreadyExists)) && repo.rows == old(repo.rows) && launched == old(launched)
        else
          && repo.rows == old(repo.rows) + [row]
          && match PresignedPutObject(minio, key)
             case Failure(_) =>
               r == Failure(Wrapf("failed to generate upload url: ", Unavailable)) && launched == old(launched)
             case Success(url) =>
               r == Success(Task(row.id, filename, url, uploadedBy, now)) &&
               launched == old(launched) + [Launch(row.id.text, key, filename)]
      ensures r.Failure? ==> launched == old(launched)
      ensures UniqueIds(old(repo.rows)) ==> UniqueIds(repo.rows)
    {
      if newId.Failure? {
        return Failure(Wrapf("failed to generate uuid: ", InvalidArgument));
      }
      var id := newId.value;
      var extension := Ext(filename);
      if extension == "" {
        return Failure(Wrapf("invalid file extension: ", InvalidArgument));
      }
      var created := repo.CreateTask(TaskMetadata(id, filename, uploadedBy, now));
      if created.Failure? {
        return Failure(created.error);
      }
      var metaData := created.value;
      var objectKey := id.text + extension;
      var uploadUrl := PresignedPutObject(minio, objectKey);
      if uploadUrl.Failure? {
        return Failure(Wrapf("failed to generate upload url: ", Unavailable));
      }
      launched := launched + [Launch(id.text, objectKey, metaData.filename)];
      return Success(Task(metaData.id, metaData.filename, uploadUrl.value, metaData.uploadedBy, metaData.createdAt));
    }

    /** `GetTask`: the task with a presigned download URL for its object. */
    function GetTask(fileId: Uuid): (r: Result<Task, GoError>)
      reads repo
      ensures repo.GetTask(fileId).Failure? ==> r == Failure(repo.GetTask(fileId).error)
      ensures repo.GetTask(fileId).Success? ==>
        var meta := repo.GetTask(fileId).value;
        if PresignedGetObject(minio, ObjectKey(fileId, meta.filename)).Failure? then
          r == Failure(Wrapf("failed to generate download url: ", Unavailable))
        else
          && r.Success? && r.value.id == fileId && r.value.filename == meta.filename
          && r.value.url == PresignedGetObject(minio, ObjectKey(fileId, meta.filename)).value
          && r.value.url.host == minio.externalEndpoint
          && r.value.uploadedBy == meta.uploadedBy && r.value.createdAt == meta.createdAt
    {
      match repo.GetTask(fileId)
      case Failure(e) => Failure(e)
      case Success(meta) =>
        var objectKey := fileId.text + Ext(meta.filename);
        match PresignedGetObject(minio, objectKey)
        case Failure(_) => Failure(Wrapf("failed to generate download url: ", Unavailable))
        case Success(url) => Success(Task(meta.id, meta.filename, url, meta.uploadedBy, meta.createdAt))
    }

    /** `GetFileContent`: the bytes stored under the task's object key. */
    function GetFileContent(fileId: Uuid): (r: Result<string, GoError>)
      reads repo
      ensures repo.GetTask(fileId).Failure? ==> r == Failure(repo.GetTask(fileId).error)
      ensures repo.GetTask(fileId).Success? ==>
        match objects(ObjectKey(fileId, repo.GetTask(fileId).value.filename))
        case GetFailed(_) => r == Failure(Wrapf("failed to get file from storage: ", Unavailable))
        case ReadFailed(_) => r == Failure(Wrapf("failed to read file content: ", Unavailable))
        case Content(bytes) => r == Success(bytes)
    {
      match repo.GetTask(fileId)
      case Failure(e) => Failure(e)
      case Success(meta) =>
        var objectKey := fileId.text + Ext(meta.filename);
        match objects(objectKey)
        case GetFailed(_) => Failure(Wrapf("failed to get file from storage: ", Unavailable))
        case ReadFailed(_) => Failure(Wrapf("failed to read file content: ", Unavailable))
        case Content(bytes) => Success(bytes)
    }

    /**
     * `startAnalysisAsync`, run to completion: `polls` answers the existence
     * checks in order. Analysis is requested once, with the watcher's own task
     * id and key, exactly when the watch ends by finding the object.
     */
    method StartAnalysisAsync(taskId: string, objectKey: string, filename: string, polls: seq<Poll>)
      returns (outcome: WatchOutcome)
      requires MaxRetries <= |polls|
      modifies analysisClient
      ensures outcome == Watch(polls, 0)
      ensures analysisClient.calls ==
        old(analysisClient.calls) + (if outcome.end == Found then [AnalysisCall(taskId, objectKey)] else [])
    {
      var elapsed := 0;
      var i := 0;
      while i < MaxRetries
        invariant 0 <= i <= MaxRetries
        invariant elapsed == Elapsed(polls, i)
        invariant Watch(polls, 0) == Watch(polls, i)
        invariant analysisClient.calls == old(analysisClient.calls)
        decreases MaxRetries - i
      {
        if elapsed >= Timeout {
          return WatchOutcome(TimedOut, i);
        }
        var (fileExists, err) := CheckFileExists(polls[i].stat);
        if err.None? && fileExists {
          var status, callErr := analysisClient.AnalyseTask(taskId, objectKey);
          return WatchOutcome(Found, i + 1);
        }
        elapsed := elapsed + polls[i].millis + RetryInterval;
        i := i + 1;
      }
      return WatchOutcome(RetriesExhausted, MaxRetries);
    }
  }

  /** Whatever the polls, a watch checks at most 30 times and calls analysis at most once. */
  method WatchOnce(service: StoringService, launch: Launch, polls: seq<Poll>) returns (outcome: WatchOutcome)
    requires MaxRetries <= |polls|
    modifies service.analysisClient
    ensures outcome.checks <= MaxRetries
    ensures |service.analysisClient.calls| <= |old(service.analysisClient.calls)| + 1
    ensures outcome.end == Found ==>
      (&& |service.analysisClient.calls| == |old(service.analysisClient.calls)| + 1
       && service.analysisClient.calls[|service.analysisClient.calls| - 1] == AnalysisCall(launch.taskId, launch.objectKey))
    ensures outcome.end != Found ==> service.analysisClient.calls == old(service.analysisClient.calls)
  {
    outcome := service.StartAnalysisAsync(launch.taskId, launch.objectKey, launch.filename, polls);
    WatchFrom(polls, 0);
  }
}
