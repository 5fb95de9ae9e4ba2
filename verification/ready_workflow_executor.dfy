// The ready-made workflow runner: its editable payload, the last result and
// a short history of successful runs, newest first.

module ReadyWorkflowExecutor {
  import opened Common
  import WorqhatService

  const WorkflowId: string := "6075d63f-b858-4af1-8857-cccba66576e4"
  const HistoryLimit: nat := 5

  /** A payload object; each key maps to its string value. */
  type Payload = map<string, string>

  function MakePayload(id: string, norad: string, objectId: string): (p: Payload)
    ensures p.Keys == {"ID", "NORAD_CAT_ID", "OBJECT_ID"}
    ensures p["ID"] == id && p["NORAD_CAT_ID"] == norad && p["OBJECT_ID"] == objectId
  {
    map["ID" := id, "NORAD_CAT_ID" := norad, "OBJECT_ID" := objectId]
  }

  const DefaultPayload: Payload := MakePayload("satellite-test-1", "25544", "ISS")

  datatype HistoryEntry = HistoryEntry(id: Value, payload: Payload, result: Value, timestamp: string, success: bool)

  /** The `result` panel: a run's data, or its error. */
  datatype RunResult =
    | Ran(data: Value, executionId: Value, timestamp: string)
    | Failed(error: Value, timestamp: string)

  /** The history after a successful run: the new entry, then at most four older ones. */
  function Record(history: seq<HistoryEntry>, entry: HistoryEntry): (r: seq<HistoryEntry>)
    ensures |r| == 1 + (if |history| < HistoryLimit then |history| else HistoryLimit - 1)
    ensures r[0] == entry
    ensures r[1..] == history[..|r| - 1]
    ensures |history| < HistoryLimit ==> r == [entry] + history
  {
    [entry] + Take(history, 4)
  }

  /** A run that keeps recording drops the oldest entry once five are held. */
  lemma RecordAtCapacity(history: seq<HistoryEntry>, entry: HistoryEntry)
    requires |history| == HistoryLimit
    ensures Record(history, entry) == [entry] + history[..HistoryLimit - 1]
  {
  }

  /** `useQuickPayload(type)` at time `now`; unknown types fall back to the test preset. */
  function QuickPayload(kind: string, now: int): (p: Payload)
    ensures p.Keys == {"ID", "NORAD_CAT_ID", "OBJECT_ID"}
    ensures kind == "iss" ==>
      p["ID"] == "iss-tracking-1" && p["NORAD_CAT_ID"] == "25544" && p["OBJECT_ID"] == "ISS"
    ensures kind == "hubble" ==>
      p["ID"] == "hubble-tracking-1" && p["NORAD_CAT_ID"] == "20580" && p["OBJECT_ID"] == "HUBBLE"
    ensures kind != "iss" && kind != "hubble" ==>
      p["ID"] == "test-execution-" + IntToString(now) && p["NORAD_CAT_ID"] == "test-norad"
      && p["OBJECT_ID"] == "TEST-SATELLITE"
  {
    if kind == "iss" then MakePayload("iss-tracking-1", "25544", "ISS")
    else if kind == "hubble" then MakePayload("hubble-tracking-1", "20580", "HUBBLE")
    else MakePayload("test-execution-" + IntToString(now), "test-norad", "TEST-SATELLITE")
  }

  /** Whether `id?.slice(0, 8)` returns rather than throws: only `null`,
      `undefined`, strings and arrays get past it. */
  predicate ToastCanSlice(id: Value) {
    id.Undefined? || id.Null? || id.Str? || id.Arr?
  }

  class Executor {
    var executing: bool
    var result: Option<RunResult>
    var history: seq<HistoryEntry>
    var payload: Payload

    /** At most five runs are remembered. */
    predicate Valid()
      reads this
    {
      |history| <= HistoryLimit
    }

    constructor()
      ensures Valid() && !executing && result == None && history == [] && payload == DefaultPayload
    {
      executing, result, history, payload := false, None, [], DefaultPayload;
    }

    /**
     * `executeYourWorkflow` once `executeWorkflow(WorkflowId, payload)`
     * resolved to `response`; `nowMs` and `nowIso` are the clock and
     * `typeErrorText` the engine's message for calling a missing `slice`.
     * The success toast reads `response.executionId?.slice(0, 8)`, which
     * throws for an id that is neither nullish, a string nor an array; the
     * `catch` then replaces the result, while the history entry stays.
     */
    method ExecuteYourWorkflow(response: WorqhatService.ExecutionResponse, nowMs: int, nowIso: string, typeErrorText: string)
      requires Valid()
      modifies this
      ensures Valid()
      ensures !executing && payload == old(payload)
      ensures response.success ==>
        var entry := HistoryEntry(Or(response.executionId, Str(IntToString(nowMs))), old(payload), response.data, nowIso, true);
        history == Record(old(history), entry)
      ensures response.success && ToastCanSlice(response.executionId) ==>
        result == Some(Ran(response.data, response.executionId, nowIso))
      ensures response.success && !ToastCanSlice(response.executionId) ==>
        result == Some(Failed(Str(typeErrorText), nowIso))
      ensures !response.success ==>
        result == Some(Failed(response.error, nowIso)) && history == old(history)
    {
      executing := true;
      result := None;
      if response.success {
        result := Some(Ran(response.data, response.executionId, nowIso));
        var entry := HistoryEntry(Or(response.executionId, Str(IntToString(nowMs))), payload, response.data, nowIso, true);
        history := Record(history, entry);
        if !ToastCanSlice(response.executionId) {
          // the toast threw: the `catch` block's result
          result := Some(Failed(Str(typeErrorText), nowIso));
        }
      } else {
        result := Some(Failed(response.error, nowIso));
      }
      executing := false;
    }

    /** `updatePayloadField(field, value)` */
    method UpdatePayloadField(field: string, value: string)
      modifies this
      ensures payload == old(payload)[field := value]
      ensures field in payload && payload[field] == value
      ensures forall k :: k in old(payload) && k != field ==> k in payload && payload[k] == old(payload)[k]
      ensures executing == old(executing) && result == old(result) && history == old(history)
    {
      payload := payload[field := value];
    }

    /** `useQuickPayload(type)` */
    method UseQuickPayload(kind: string, now: int)
      modifies this
      ensures payload == QuickPayload(kind, now)
      ensures executing == old(executing) && result == old(result) && history == old(history)
    {
      payload := QuickPayload(kind, now);
    }
  }
}
