/**
 * The gateway's client of the analysis service: the object key it sends for
 * a task, and the `AnalyseTask` request built from it. `filepath.Ext` on the
 * gateway's Unix host separates path elements with '/', as `path.Ext` does.
 */
module GatewayAnalysis {
  import opened Errdefs
  import opened Paths
  import StoringUsecase

  /** `makeObjectKey`: the id followed by the file name's extension. */
  function MakeObjectKey(id: string, filename: string): (r: string)
    ensures |r| >= |id| && r[..|id|] == id
    ensures '.' !in LastElement(filename) <==> r == id
    ensures r != id ==> r[|id|] == '.'
  {
    ExtEmptyIff(filename);
    id + Ext(filename)
  }

  datatype AnalyzeTaskRequest = AnalyzeTaskRequest(taskId: string, objectKey: string)

  /** The request `AnalyseTask(ctx, taskId, filename)` sends. */
  function AnalyseTaskRequest(taskId: string, filename: string): (r: AnalyzeTaskRequest)
    ensures r.taskId == taskId
    ensures |r.objectKey| >= |taskId| && r.objectKey[..|taskId|] == taskId
  {
    AnalyzeTaskRequest(taskId, MakeObjectKey(taskId, filename))
  }

  /**
   * The key is the id alone when the last element of the file name has no
   * '.', and otherwise the id followed by a suffix of the file name that
   * starts with '.' and contains no other '.'.
   */
  lemma {:induction false} MakeObjectKeyShape(id: string, filename: string)
    ensures '.' !in LastElement(filename) ==> MakeObjectKey(id, filename) == id
    ensures '.' in LastElement(filename) ==>
      var ext := MakeObjectKey(id, filename)[|id|..];
      && |ext| > 0 && ext[0] == '.' && ext == filename[|filename| - |ext|..]
      && forall i :: 1 <= i < |ext| ==> ext[i] != '.'
  {
    ExtEmptyIff(filename);
    ExtShape(filename);
    assert MakeObjectKey(id, filename)[|id|..] == Ext(filename);
  }

  /** For the same task id and original file name, the gateway and the storing service agree on the key. */
  lemma {:induction false} KeyAgreesWithStoring(id: Uuid, filename: string)
    ensures MakeObjectKey(id.text, filename) == StoringUsecase.ObjectKey(id, filename)
    ensures AnalyseTaskRequest(id.text, filename).objectKey == StoringUsecase.ObjectKey(id, filename)
  {
  }
}
