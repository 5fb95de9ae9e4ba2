// The ISS tracker panel: it runs one workflow and digs the satellite data
// out of whatever shape the workflow's reply takes.

module ISSTrackerWorkflow {
  import opened Common
  import WorqhatService

  const DefaultWorkflowId: string := "6075d63f-b858-4af1-8857-cccba66576e4"

  /** The reply fields tried in turn for the satellite data. */
  const ExtractionKeys: seq<string> := ["httpResponse", "satelliteData", "data", "result"]

  /** The first key of `keys` whose field of `v` is truthy, if there is one. */
  function FirstTruthyKey(v: Value, keys: seq<string>): (r: Option<nat>)
    ensures r.Some? ==> r.value < |keys| && Truthy(Get(v, keys[r.value]))
    ensures r.Some? ==> forall j :: 0 <= j < r.value ==> !Truthy(Get(v, keys[j]))
    ensures r.None? ==> forall j :: 0 <= j < |keys| ==> !Truthy(Get(v, keys[j]))
  {
    if keys == [] then None
    else if Truthy(Get(v, keys[0])) then Some(0)
    else match FirstTruthyKey(v, keys[1..])
      case None => None
      case Some(i) => Some(i + 1)
  }

  /** The data extracted from a successful reply's `data`. */
  function ExtractIssData(data: Value): (r: Value)
    ensures Truthy(data) ==> Truthy(r)
    ensures (exists k :: k in ExtractionKeys && Truthy(Get(data, k))) ==>
      exists i :: 0 <= i < |ExtractionKeys| && r == Get(data, ExtractionKeys[i]) && Truthy(r)
                  && forall j :: 0 <= j < i ==> !Truthy(Get(data, ExtractionKeys[j]))
    ensures (forall k :: k in ExtractionKeys ==> !Truthy(Get(data, k))) ==> r == data
  {
    match FirstTruthyKey(data, ExtractionKeys)
    case Some(i) => Get(data, ExtractionKeys[i])
    case None => data
  }

  /** A reply whose `httpResponse` is truthy yields exactly that field. */
  lemma HttpResponseWins(data: Value)
    requires Truthy(Get(data, "httpResponse"))
    ensures ExtractIssData(data) == Get(data, "httpResponse")
  {
    assert ExtractionKeys[0] == "httpResponse";
  }

  class ISSTracker {
    var workflowId: string
    var result: Value
    var executionId: Value
    var issData: Value

    constructor()
      ensures workflowId == DefaultWorkflowId && result == Null && executionId == Str("") && issData == Null
    {
      workflowId, result, executionId, issData := DefaultWorkflowId, Null, Str(""), Null;
    }

    method SetWorkflowId(id: string)
      modifies this
      ensures workflowId == id && result == old(result) && executionId == old(executionId) && issData == old(issData)
    {
      workflowId := id;
    }

    /**
     * `executeISSWorkflow` once `runWorkflow(workflowId, …)` resolved to
     * `response`; `called` tells whether the workflow was run at all.
     */
    method ExecuteISSWorkflow(response: WorqhatService.ExecutionResponse) returns (called: bool)
      modifies this
      ensures workflowId == old(workflowId)
      ensures called <==> !IsBlank(old(workflowId))
      ensures !called ==> result == old(result) && executionId == old(executionId) && issData == old(issData)
      ensures called && response.success ==>
        result == response.data && executionId == Or(response.executionId, Str(""))
        && issData == ExtractIssData(response.data)
      ensures called && !response.success ==>
        result == Obj(["error"], map["error" := response.error]) && executionId == old(executionId)
        && issData == Null
    {
      if IsBlank(workflowId) {
        return false;
      }
      called := true;
      if response.success {
        result := response.data;
        executionId := Or(response.executionId, Str(""));
        issData := ExtractIssData(response.data);
      } else {
        result := Obj(["error"], map["error" := response.error]);
        issData := Null;
      }
    }

    /** `clearResults` */
    method ClearResults()
      modifies this
      ensures result == Null && executionId == Str("") && issData == Null && workflowId == old(workflowId)
    {
      result, executionId, issData := Null, Str(""), Null;
    }
  }
}
