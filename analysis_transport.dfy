/**
 * The analysis service's gRPC handlers. They parse the task id, call the
 * use case and map its errors with the same `mapError` switch as the
 * storing service (`StoringTransport.MapError`).
 */
module AnalysisTransport {
  import opened Wrappers
  import opened Errdefs
  import opened AnalysisUsecase
  import opened StoringTransport

  datatype AnalyseTaskResponse = AnalyseTaskResponse(status: bool)
  datatype GetReportResponse = GetReportResponse(taskId: string, isPlagiarism: bool, plagiarismPercentage: real)

  /** The `AnalyseTask` handler: `now` is the time the report is stamped with. */
  method AnalyseTask(svc: AnalysisService, parse: UuidParser, taskId: string, objectKey: string, now: int)
    returns (r: Result<AnalyseTaskResponse, GoError>)
    modifies svc.repo
    ensures parse(taskId).Failure? ==>
      r == Failure(BadUuid(parse(taskId).error)) && svc.repo.rows == old(svc.repo.rows)
    ensures parse(taskId).Success? ==>
      var verdict := Verdict(svc.store, svc.comparator, parse(taskId).value, objectKey, now);
      && (verdict.Failure? ==> r == Failure(MapError(Some(verdict.error)).value))
      && (verdict.Success? && svc.repo.insertFault.Some? ==> r == Failure(MapError(svc.repo.insertFault).value))
      && (verdict.Success? && svc.repo.insertFault.None? ==>
            r == Success(AnalyseTaskResponse(true)) && svc.repo.rows == old(svc.repo.rows) + [verdict.value])
    ensures r.Failure? ==> r.error.status.Some? && r.error.status.value.code != OK
  {
    var parsed := parse(taskId);
    if parsed.Failure? {
      return Failure(BadUuid(parsed.error));
    }
    var status, err := svc.AnalyseTask(parsed.value, objectKey, now);
    if err.Some? {
      return Failure(MapError(err).value);
    }
    return Success(AnalyseTaskResponse(status));
  }

  /** The `GetReport` handler; the percentage's narrowing to `float32` is not modelled. */
  method GetReport(svc: AnalysisService, parse: UuidParser, taskId: string) returns (r: Result<GetReportResponse, GoError>)
    ensures parse(taskId).Failure? ==> r == Failure(BadUuid(parse(taskId).error))
    ensures parse(taskId).Success? && svc.repo.queryFault.Some? ==> r == Failure(MapError(svc.repo.queryFault).value)
    ensures parse(taskId).Success? && svc.repo.queryFault.None? ==>
      (r.Failure? <==> forall i :: 0 <= i < |svc.repo.rows| ==> svc.repo.rows[i].taskId != parse(taskId).value)
    ensures parse(taskId).Success? && svc.repo.queryFault.None? && r.Failure? ==>
      r == Failure(StatusError(NotFoundCode, "not found"))
    ensures r.Success? ==>
      (&& parse(taskId).Success?
       && r.value.taskId == parse(taskId).value.text
       && exists i :: 0 <= i < |svc.repo.rows| && svc.repo.rows[i].taskId == parse(taskId).value &&
            svc.repo.rows[i].isPlagiarism == r.value.isPlagiarism &&
            svc.repo.rows[i].plagiarismPercentage == r.value.plagiarismPercentage)
    ensures r.Failure? ==> r.error.status.Some? && r.error.status.value.code != OK
  {
    var parsed := parse(taskId);
    if parsed.Failure? {
      return Failure(BadUuid(parsed.error));
    }
    var report := svc.GetReport(parsed.value);
    if report.Failure? {
      return Failure(MapError(Some(report.error)).value);
    }
    var rep := report.value;
    return Success(GetReportResponse(rep.taskId.text, rep.isPlagiarism, rep.plagiarismPercentage));
  }
}
