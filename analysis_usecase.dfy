/**
 * The analysis service's use case: scan the corpus for the document most
 * similar to the target, classify the target against an inclusive 50%
 * threshold, and persist one report.
 *
 * The object store is an `ObjectStore` snapshot, the comparator is the
 * `FileComparator` interface as a function that may fail, and the report
 * table is an insert-only list with no uniqueness constraint.
 */
module AnalysisUsecase {
  import opened Wrappers
  import opened Errdefs
  import opened AnalysisMinio
  import Comparator
  import opened Unicode

  const PlagiarismThreshold: real := 50.0

  datatype Report = Report(taskId: Uuid, isPlagiarism: bool, plagiarismPercentage: real, createdAt: int)

  /** The `FileComparator` interface: a score for two contents, or an error. */
  type Compare = (string, string) -> Result<real, GoError>

  /** The error the model gives for contents outside the ASCII text it models. */
  const NonAsciiContent: GoError := Plain("content is not ASCII text")

  /**
   * One comparison of `TextComparator`. Go's comparator never fails; the
   * model scores exactly the pairs of ASCII contents, where its character
   * classes agree with Go's, with `CompareFiles`' score, and declines the
   * rest, so every score it reports is the one Go computes and a pair it
   * declines is skipped.
   */
  function CompareText(file1: string, file2: string): (r: Result<real, GoError>)
    ensures r.Success? <==> IsAscii(file1) && IsAscii(file2)
    ensures r.Success? ==> r.value == Comparator.Score(file1, file2) && 0.0 <= r.value <= 100.0
  {
    Comparator.SimilarityBounds(Comparator.Normalized(file1), Comparator.Normalized(file2));
    if IsAscii(file1) && IsAscii(file2) then Success(Comparator.Score(file1, file2)) else Failure(NonAsciiContent)
  }

  /** The `TextComparator` the service is built with: a percentage in [0, 100] that ignores argument order. */
  function TextComparator(): (r: Compare)
    ensures forall file1, file2 :: r(file1, file2).Success? <==> IsAscii(file1) && IsAscii(file2)
    ensures forall file1, file2 :: r(file1, file2).Success? ==>
      r(file1, file2).value == Comparator.Score(file1, file2) && 0.0 <= r(file1, file2).value <= 100.0
    ensures forall file1, file2 :: r(file1, file2) == r(file2, file1)
  {
    assert forall file1, file2 :: CompareText(file1, file2) == CompareText(file2, file1) by {
      forall file1, file2 ensures CompareText(file1, file2) == CompareText(file2, file1) {
        Comparator.SimilaritySymmetric(Comparator.Normalized(file1), Comparator.Normalized(file2));
      }
    }
    CompareText
  }

  // ---------------------------------------------------------------------------
  // filterKeys
  // ---------------------------------------------------------------------------

  /** `keys` with every occurrence of `target` removed, the rest in order. */
  function Without(keys: seq<string>, target: string): seq<string> {
    if keys == [] then []
    else Without(keys[..|keys| - 1], target) + (if keys[|keys| - 1] == target then [] else [keys[|keys| - 1]])
  }

  method FilterKeys(allKeys: seq<string>, target: string) returns (filteredKeys: seq<string>)
    ensures filteredKeys == Without(allKeys, target)
    ensures forall k :: k in filteredKeys <==> k in allKeys && k != target
    ensures multiset(filteredKeys) == multiset(allKeys)[target := 0]
  {
    filteredKeys := [];
    for i := 0 to |allKeys|
      invariant filteredKeys == Without(allKeys[..i], target)
    {
      assert allKeys[..i + 1][..i] == allKeys[..i];
      if allKeys[i] != target {
        filteredKeys := filteredKeys + [allKeys[i]];
      }
    }
    assert allKeys[..|allKeys|] == allKeys;
    WithoutCounts(allKeys, target);
  }

  /** Filtering removes every copy of the target and keeps every other key as often as it occurs. */
  lemma {:induction false} WithoutCounts(keys: seq<string>, target: string)
    ensures multiset(Without(keys, target)) == multiset(keys)[target := 0]
    ensures forall k :: k in Without(keys, target) <==> k in keys && k != target
    decreases |keys|
  {
    if keys != [] {
      var init, last := keys[..|keys| - 1], keys[|keys| - 1];
      WithoutCounts(init, target);
      assert keys == init + [last];
      assert multiset(keys) == multiset(init) + multiset{last};
    }
    forall k ensures k in Without(keys, target) <==> k in keys && k != target {
      assert k in Without(keys, target) <==> k in multiset(Without(keys, target));
      assert k in keys <==> k in multiset(keys);
    }
  }

  /** Filtering keeps the order: it distributes over concatenation. */
  lemma {:induction false} WithoutAppend(a: seq<string>, b: seq<string>, target: string)
    ensures Without(a + b, target) == Without(a, target) + Without(b, target)
    decreases |b|
  {
    if b == [] {
      assert a + b == a;
    } else {
      var b' := b[..|b| - 1];
      assert (a + b)[..|a + b| - 1] == a + b';
      WithoutAppend(a, b', target);
    }
  }

  // ---------------------------------------------------------------------------
  // The scan
  // ---------------------------------------------------------------------------

  /** The score of one candidate, or None when fetching or comparing it fails. */
  function CandidateScore(target: string, key: string, store: ObjectStore, compare: Compare): Option<real> {
    match GetFile(store, key)
    case Failure(_) => None
    case Success(other) =>
      match compare(target, other)
      case Failure(_) => None
      case Success(p) => Some(p)
  }

  /** The running maximum after scanning `keys` in order, starting from 0. */
  function MaxScore(target: string, keys: seq<string>, store: ObjectStore, compare: Compare): (r: real)
    ensures r >= 0.0
  {
    if keys == [] then 0.0
    else
      var m := MaxScore(target, keys[..|keys| - 1], store, compare);
      match CandidateScore(target, keys[|keys| - 1], store, compare)
      case None => m
      case Some(p) => if p > m then p else m
  }

  /** One more candidate: the running maximum takes its score when it succeeds and is larger. */
  lemma {:induction false} MaxScoreStep(target: string, keys: seq<string>, i: nat, store: ObjectStore, compare: Compare)
    requires i < |keys|
    ensures var m := MaxScore(target, keys[..i], store, compare);
      MaxScore(target, keys[..i + 1], store, compare) ==
        match CandidateScore(target, keys[i], store, compare)
        case None => m
        case Some(p) => if p > m then p else m
  {
    assert keys[..i + 1][..i] == keys[..i];
  }

  /** The maximum is max(0, scores of the candidates that succeed). */
  lemma {:induction false} MaxScoreIsMaximum(target: string, keys: seq<string>, store: ObjectStore, compare: Compare)
    ensures MaxScore(target, keys, store, compare) >= 0.0
    ensures forall k :: k in keys && CandidateScore(target, k, store, compare).Some? ==>
              CandidateScore(target, k, store, compare).value <= MaxScore(target, keys, store, compare)
    ensures MaxScore(target, keys, store, compare) == 0.0 ||
            exists k :: k in keys && CandidateScore(target, k, store, compare) == Some(MaxScore(target, keys, store, compare))
    decreases |keys|
  {
    if keys != [] {
      var init := keys[..|keys| - 1];
      MaxScoreIsMaximum(target, init, store, compare);
      assert keys == init + [keys[|keys| - 1]];
    }
  }

  /** The maximum depends only on which keys that succeed are scanned: order and failures do not matter. */
  lemma {:induction false} MaxScoreDeterminedBySuccesses(target: string, a: seq<string>, b: seq<string>, store: ObjectStore, compare: Compare)
    requires forall k :: CandidateScore(target, k, store, compare).Some? ==> (k in a <==> k in b)
    ensures MaxScore(target, a, store, compare) == MaxScore(target, b, store, compare)
  {
    MaxScoreIsMaximum(target, a, store, compare);
    MaxScoreIsMaximum(target, b, store, compare);
  }

  /** Scanning the candidates in any other order gives the same maximum. */
  lemma {:induction false} MaxScoreOrderIndependent(target: string, a: seq<string>, b: seq<string>, store: ObjectStore, compare: Compare)
    requires multiset(a) == multiset(b)
    ensures MaxScore(target, a, store, compare) == MaxScore(target, b, store, compare)
  {
    forall k | CandidateScore(target, k, store, compare).Some? ensures k in a <==> k in b {
      assert k in a <==> k in multiset(a);
      assert k in b <==> k in multiset(b);
    }
    MaxScoreDeterminedBySuccesses(target, a, b, store, compare);
  }

  /** A candidate that cannot be fetched or compared is skipped without affecting the others. */
  lemma {:induction false} FailedCandidateSkipped(target: string, a: seq<string>, k: string, b: seq<string>, store: ObjectStore, compare: Compare)
    requires CandidateScore(target, k, store, compare).None?
    ensures MaxScore(target, a + [k] + b, store, compare) == MaxScore(target, a + b, store, compare)
  {
    MaxScoreDeterminedBySuccesses(target, a + [k] + b, a + b, store, compare);
  }

  /** When no candidate succeeds (an empty corpus in particular), the maximum is 0. */
  lemma {:induction false} NoSuccessScoresZero(target: string, keys: seq<string>, store: ObjectStore, compare: Compare)
    requires forall k :: k in keys ==> CandidateScore(target, k, store, compare).None?
    ensures MaxScore(target, keys, store, compare) == 0.0
  {
    MaxScoreIsMaximum(target, keys, store, compare);
  }

  /** With the text comparator every percentage lies in [0, 100]. */
  lemma {:induction false} TextComparatorBounds(target: string, keys: seq<string>, store: ObjectStore)
    ensures 0.0 <= MaxScore(target, keys, store, TextComparator()) <= 100.0
  {
    var compare := TextComparator();
    MaxScoreIsMaximum(target, keys, store, compare);
    var m := MaxScore(target, keys, store, compare);
    if m != 0.0 {
      var k :| k in keys && CandidateScore(target, k, store, compare) == Some(m);
      assert compare(target, GetFile(store, k).value) == Success(m);
    }
  }

  // ---------------------------------------------------------------------------
  // The outcome of one analysis
  // ---------------------------------------------------------------------------

  /** The report `AnalyseTask` asks the repository to insert, or the error it stops with before that. */
  function Verdict(store: ObjectStore, compare: Compare, taskId: Uuid, objectKey: string, now: int): (r: Result<Report, GoError>)
    ensures r.Success? <==> GetAllKeys(store).Success? && GetFile(store, objectKey).Success?
    ensures r.Success? ==>
      && r.value.taskId == taskId && r.value.createdAt == now && r.value.plagiarismPercentage >= 0.0
      && (r.value.isPlagiarism <==> r.value.plagiarismPercentage >= PlagiarismThreshold)
  {
    match GetAllKeys(store)
    case Failure(e) => Failure(e)
    case Success(allKeys) =>
      match GetFile(store, objectKey)
      case Failure(e) => Failure(e)
      case Success(targetFile) =>
        var m := MaxScore(targetFile, Without(allKeys, objectKey), store, compare);
        Success(Report(taskId, m >= PlagiarismThreshold, m, now))
  }

  /** A failed listing stops the analysis before any file is read; a failed target read stops it next. */
  lemma {:induction false} VerdictErrors(store: ObjectStore, compare: Compare, taskId: Uuid, objectKey: string, now: int)
    ensures GetAllKeys(store).Failure? ==>
      Verdict(store, compare, taskId, objectKey, now) == Failure(GetAllKeys(store).error)
    ensures GetAllKeys(store).Success? && GetFile(store, objectKey).Failure? ==>
      Verdict(store, compare, taskId, objectKey, now) == Failure(GetFile(store, objectKey).error)
    ensures GetAllKeys(store).Success? && objectKey !in store.objects ==>
      Verdict(store, compare, taskId, objectKey, now).Failure? &&
      Verdict(store, compare, taskId, objectKey, now).error.wraps == {NotFound}
  {
  }

  /** The report is for the task, its percentage is the maximum over the other keys, and the threshold is inclusive. */
  lemma {:induction false} VerdictReport(store: ObjectStore, compare: Compare, taskId: Uuid, objectKey: string, now: int)
    requires Verdict(store, compare, taskId, objectKey, now).Success?
    ensures var r := Verdict(store, compare, taskId, objectKey, now).value;
      && r.taskId == taskId && r.createdAt == now
      && r.plagiarismPercentage >= 0.0
      && (r.isPlagiarism <==> r.plagiarismPercentage >= 50.0)
      && forall k :: (k in GetAllKeys(store).value && k != objectKey
                      && CandidateScore(GetFile(store, objectKey).value, k, store, compare).Some?) ==>
           CandidateScore(GetFile(store, objectKey).value, k, store, compare).value <= r.plagiarismPercentage
  {
    var allKeys := GetAllKeys(store).value;
    var target := GetFile(store, objectKey).value;
    WithoutCounts(allKeys, objectKey);
    MaxScoreIsMaximum(target, Without(allKeys, objectKey), store, compare);
  }

  /** A candidate with the target's own ASCII text, long enough to have 3-grams, makes the maximum exactly 100. */
  lemma {:induction false} DuplicateScoresHundred(target: string, candidates: seq<string>, otherKey: string, store: ObjectStore)
    requires otherKey in candidates
    requires IsAscii(target)
    requires GetFile(store, otherKey) == Success(target)
    requires |Comparator.Normalized(target)| >= Comparator.NGramLength
    ensures MaxScore(target, candidates, store, TextComparator()) == 100.0
  {
    var compare := TextComparator();
    Comparator.SelfScore(target);
    assert CandidateScore(target, otherKey, store, compare) == Some(100.0);
    MaxScoreIsMaximum(target, candidates, store, compare);
    TextComparatorBounds(target, candidates, store);
  }

  /** A document stored under another key with the same ASCII text is reported as 100% plagiarism. */
  lemma {:induction false} DuplicateIsPlagiarism(store: ObjectStore, taskId: Uuid, objectKey: string, otherKey: string, now: int)
    requires store.listing.Success? && otherKey in store.listing.value && otherKey != objectKey
    requires objectKey in store.objects && otherKey in store.objects
    requires store.objects[objectKey].Success? && store.objects[otherKey] == store.objects[objectKey]
    requires IsAscii(store.objects[objectKey].value)
    requires |Comparator.Normalized(store.objects[objectKey].value)| >= Comparator.NGramLength
    ensures Verdict(store, TextComparator(), taskId, objectKey, now)
         == Success(Report(taskId, true, 100.0, now))
  {
    var allKeys := store.listing.value;
    var target := store.objects[objectKey].value;
    assert GetAllKeys(store) == Success(allKeys);
    assert GetFile(store, objectKey) == Success(target);
    assert GetFile(store, otherKey) == Success(target);
    WithoutCounts(allKeys, objectKey);
    DuplicateScoresHundred(target, Without(allKeys, objectKey), otherKey, store);
  }

  // ---------------------------------------------------------------------------
  // The report table and the service
  // ---------------------------------------------------------------------------

  /**
   * The report table: rows are only ever appended, with no uniqueness
   * constraint on the task id. `insertFault` and `queryFault` are the errors
   * the database returns (already classified), if it fails.
   */
  class ReportRepository {
    var rows: seq<Report>
    const insertFault: Option<GoError>
    const queryFault: Option<GoError>

    constructor (rows: seq<Report>, insertFault: Option<GoError>, queryFault: Option<GoError>)
      ensures this.rows == rows && this.insertFault == insertFault && this.queryFault == queryFault
    {
      this.rows := rows;
      this.insertFault := insertFault;
      this.queryFault := queryFault;
    }

    method CreateReport(report: Report) returns (err: Option<GoError>)
      modifies this
      ensures err == insertFault
      ensures rows == if insertFault.None? then old(rows) + [report] else old(rows)
    {
      err := insertFault;
      if insertFault.None? {
        rows := rows + [report];
      }
    }

    /** An unordered single-row select: any row of the task may come back. */
    method GetReport(taskId: Uuid) returns (r: Result<Report, GoError>)
      ensures queryFault.Some? ==> r == Failure(queryFault.value)
      ensures queryFault.None? && r.Success? ==> r.value in rows && r.value.taskId == taskId
      ensures queryFault.None? ==> (r.Failure? <==> forall i :: 0 <= i < |rows| ==> rows[i].taskId != taskId)
      ensures queryFault.None? && r.Failure? ==> r.error == SentinelError(NotFound)
    {
      if queryFault.Some? {
        return Failure(queryFault.value);
      }
      if i :| 0 <= i < |rows| && rows[i].taskId == taskId {
        return Success(rows[i]);
      }
      return Failure(SentinelError(NotFound));
    }
  }

  class AnalysisService {
    const repo: ReportRepository
    const store: ObjectStore
    const comparator: Compare

    constructor (repo: ReportRepository, store: ObjectStore, comparator: Compare)
      ensures this.repo == repo && this.store == store && this.comparator == comparator
    {
      this.repo := repo;
      this.store := store;
      this.comparator := comparator;
    }

    method AnalyseTask(taskId: Uuid, objectKey: string, now: int) returns (ok: bool, err: Option<GoError>)
      modifies repo
      ensures Verdict(store, comparator, taskId, objectKey, now).Failure? ==>
        !ok && err == Some(Verdict(store, comparator, taskId, objectKey, now).error) && repo.rows == old(repo.rows)
      ensures Verdict(store, comparator, taskId, objectKey, now).Success? ==>
        && (ok <==> repo.insertFault.None?)
        && err == repo.insertFault
        && repo.rows == if ok then old(repo.rows) + [Verdict(store, comparator, taskId, objectKey, now).value]
                        else old(repo.rows)
    {
      var listed := GetAllKeys(store);
      if listed.Failure? {
        return false, Some(listed.error);
      }
      var otherKeys := FilterKeys(listed.value, objectKey);
      var fetched := GetFile(store, objectKey);
      if fetched.Failure? {
        return false, Some(fetched.error);
      }
      var targetFile := fetched.value;

      var maxPlagiarism := 0.0;
      for i := 0 to |otherKeys|
        invariant maxPlagiarism == MaxScore(targetFile, otherKeys[..i], store, comparator)
        invariant repo.rows == old(repo.rows)
      {
        MaxScoreStep(targetFile, otherKeys, i, store, comparator);
        var key := otherKeys[i];
        var otherFile := GetFile(store, key);
        if otherFile.Success? {
          var percentage := comparator(targetFile, otherFile.value);
          if percentage.Success? && percentage.value > maxPlagiarism {
            maxPlagiarism := percentage.value;
          }
        }
      }
      assert otherKeys[..|otherKeys|] == otherKeys;

      var isPlagiarism := maxPlagiarism >= PlagiarismThreshold;
      var createErr := repo.CreateReport(Report(taskId, isPlagiarism, maxPlagiarism, now));
      if createErr.Some? {
        return false, createErr;
      }
      return true, None;
    }

    /** Forwards the repository's answer unchanged. */
    method GetReport(taskId: Uuid) returns (r: Result<Report, GoError>)
      ensures repo.queryFault.Some? ==> r == Failure(repo.queryFault.value)
      ensures repo.queryFault.None? && r.Success? ==> r.value in repo.rows && r.value.taskId == taskId
      ensures repo.queryFault.None? ==> (r.Failure? <==> forall i :: 0 <= i < |repo.rows| ==> repo.rows[i].taskId != taskId)
      ensures repo.queryFault.None? && r.Failure? ==> r.error == SentinelError(NotFound)
    {
      r := repo.GetReport(taskId);
    }
  }

  /** Two analyses of one task leave two reports: nothing deduplicates them. */
  method AnalyseTwice(service: AnalysisService, taskId: Uuid, objectKey: string, now: int)
    requires service.repo.insertFault.None?
    requires Verdict(service.store, service.comparator, taskId, objectKey, now).Success?
    modifies service.repo
    ensures var v := Verdict(service.store, service.comparator, taskId, objectKey, now).value;
      service.repo.rows == old(service.repo.rows) + [v, v]
  {
    var ok1, err1 := service.AnalyseTask(taskId, objectKey, now);
    var ok2, err2 := service.AnalyseTask(taskId, objectKey, now);
  }
}
