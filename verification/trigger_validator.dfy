/** Validation of workflow-trigger requests, responses and flow ids. Each
    validator collects error messages in the order of its checks and reports
    `valid` exactly when none was collected. */
module TriggerValidator {
  import opened Common
  import opened Patterns

  // ---------------------------------------------------------------------
  // validateTriggerWorkflowRequest

  const PayloadMissing: string := "Payload cannot be null or undefined"
  const PayloadNotObject: string := "Payload must be a valid JSON object"
  const PayloadUnserialisable: string := "Payload contains circular references or non-serializable data"

  /** `serialisable` says whether `JSON.stringify(payload)` returns rather than throws. */
  method ValidateTriggerRequest(payload: Value, serialisable: bool) returns (res: Validation)
    ensures res.valid <==> res.errors == []
    ensures payload.Null? || payload.Undefined? ==> res.errors == [PayloadMissing]
    ensures !(payload.Null? || payload.Undefined?) && !IsObjectType(payload) ==> res.errors == [PayloadNotObject]
    ensures IsNonNullObject(payload) ==> res.errors == PushIf(!serialisable, PayloadUnserialisable)
  {
    var errors: seq<string> := [];
    if payload.Null? || payload.Undefined? {
      errors := errors + [PayloadMissing];
      return Validation(false, errors);
    }
    if !IsObjectType(payload) {
      errors := errors + [PayloadNotObject];
      return Validation(false, errors);
    }
    if !serialisable {
      errors := errors + [PayloadUnserialisable];
    }
    res := Validation(|errors| == 0, errors);
  }

  // ---------------------------------------------------------------------
  // validateTriggerWorkflowResponse

  /** The checks of the response validator that can fail, in the order it
      performs them; `FaultMessage` gives the text it pushes for each. */
  datatype ResponseFault =
    | ResponseNotObject
    | SuccessNotBoolean
    | MessageNotString
    | AnalyticsIdNotString
    | AnalyticsIdNotUuid
    | TimestampNotString
    | TimestampNotDate
    | DataNotObject

  function FaultMessage(f: ResponseFault): string {
    match f
    case ResponseNotObject => "Response must be an object"
    case SuccessNotBoolean => "success field must be a boolean"
    case MessageNotString => "message field must be a string"
    case AnalyticsIdNotString => "analytics_id field must be a string"
    case AnalyticsIdNotUuid => "analytics_id must be a valid UUID format"
    case TimestampNotString => "timestamp field must be a string"
    case TimestampNotDate => "timestamp must be a valid ISO 8601 date-time format"
    case DataNotObject => "data field must be an object if present"
  }

  function FaultMessages(fs: seq<ResponseFault>): (ms: seq<string>)
    ensures |ms| == |fs|
  {
    if fs == [] then [] else [FaultMessage(fs[0])] + FaultMessages(fs[1..])
  }

  /** The field checks in the order the validator performs them. */
  const ResponseCheckOrder: seq<ResponseFault> :=
    [SuccessNotBoolean, MessageNotString, AnalyticsIdNotString, AnalyticsIdNotUuid,
     TimestampNotString, TimestampNotDate, DataNotObject]

  /** `new Date(s)` is a valid date exactly when `parse(s)` is `Some`. */
  predicate IsDateString(v: Value, parse: string -> Option<int>) {
    v.Str? && parse(v.s).Some?
  }

  /** `data !== undefined && (data === null || typeof data !== 'object')` */
  predicate BadOptionalObject(v: Value) {
    !v.Undefined? && !IsNonNullObject(v)
  }

  function SuccessFaults(data: Value): seq<ResponseFault> {
    PushIf(!Get(data, "success").Bool?, SuccessNotBoolean)
  }

  function MessageFaults(data: Value): seq<ResponseFault> {
    PushIf(!Get(data, "message").Str?, MessageNotString)
  }

  function AnalyticsIdFaults(data: Value): seq<ResponseFault> {
    var id := Get(data, "analytics_id");
    if !id.Str? then [AnalyticsIdNotString] else PushIf(!IsUuid(id.s), AnalyticsIdNotUuid)
  }

  function TimestampFaults(data: Value, parse: string -> Option<int>): seq<ResponseFault> {
    var ts := Get(data, "timestamp");
    if !ts.Str? then [TimestampNotString] else PushIf(parse(ts.s).None?, TimestampNotDate)
  }

  function DataFaults(data: Value): seq<ResponseFault> {
    PushIf(BadOptionalObject(Get(data, "data")), DataNotObject)
  }

  /** The failed checks of the response validator, check by check. */
  function TriggerResponseFaults(data: Value, parse: string -> Option<int>): seq<ResponseFault> {
    if !IsNonNullObject(data) then [ResponseNotObject]
    else SuccessFaults(data) + MessageFaults(data) + AnalyticsIdFaults(data) + TimestampFaults(data, parse) + DataFaults(data)
  }

  method ValidateTriggerResponse(data: Value, parse: string -> Option<int>) returns (res: Validation)
    ensures res.errors == FaultMessages(TriggerResponseFaults(data, parse))
    ensures res.valid <==> TriggerResponseFaults(data, parse) == []
  {
    var faults: seq<ResponseFault> := [];
    if !IsNonNullObject(data) {
      faults := faults + [ResponseNotObject];
      return Validation(false, FaultMessages(faults));
    }
    assert faults == [];
    if !Get(data, "success").Bool? {
      faults := faults + [SuccessNotBoolean];
    }
    if !Get(data, "message").Str? {
      faults := faults + [MessageNotString];
    }
    assert faults == SuccessFaults(data) + MessageFaults(data);
    var id := Get(data, "analytics_id");
    if !id.Str? {
      faults := faults + [AnalyticsIdNotString];
    } else if !IsUuid(id.s) {
      faults := faults + [AnalyticsIdNotUuid];
    }
    assert faults == SuccessFaults(data) + MessageFaults(data) + AnalyticsIdFaults(data);
    var ts := Get(data, "timestamp");
    if !ts.Str? {
      faults := faults + [TimestampNotString];
    } else if parse(ts.s).None? {
      faults := faults + [TimestampNotDate];
    }
    assert faults == SuccessFaults(data) + MessageFaults(data) + AnalyticsIdFaults(data) + TimestampFaults(data, parse);
    if BadOptionalObject(Get(data, "data")) {
      faults := faults + [DataNotObject];
    }
    assert faults == TriggerResponseFaults(data, parse);
    res := Validation(|faults| == 0, FaultMessages(faults));
  }

  /** A response the API specification accepts. */
  predicate WellFormedTriggerResponse(data: Value, parse: string -> Option<int>) {
    && IsNonNullObject(data)
    && Get(data, "success").Bool?
    && Get(data, "message").Str?
    && Get(data, "analytics_id").Str? && IsUuid(Get(data, "analytics_id").s)
    && IsDateString(Get(data, "timestamp"), parse)
    && !BadOptionalObject(Get(data, "data"))
  }

  /** Whether the field check behind fault `f` fails on an object `data`. */
  predicate Fails(f: ResponseFault, data: Value, parse: string -> Option<int>) {
    var id := Get(data, "analytics_id");
    var ts := Get(data, "timestamp");
    match f
    case ResponseNotObject => !IsNonNullObject(data)
    case SuccessNotBoolean => !Get(data, "success").Bool?
    case MessageNotString => !Get(data, "message").Str?
    case AnalyticsIdNotString => !id.Str?
    case AnalyticsIdNotUuid => id.Str? && !IsUuid(id.s)
    case TimestampNotString => !ts.Str?
    case TimestampNotDate => ts.Str? && parse(ts.s).None?
    case DataNotObject => BadOptionalObject(Get(data, "data"))
  }

  lemma TriggerResponseFaultsMembers(data: Value, parse: string -> Option<int>)
    ensures !IsNonNullObject(data) ==> TriggerResponseFaults(data, parse) == [ResponseNotObject]
    ensures IsNonNullObject(data) ==>
      forall f :: f in TriggerResponseFaults(data, parse) <==> f != ResponseNotObject && Fails(f, data, parse)
  {
    if IsNonNullObject(data) {
      forall f
        ensures f in TriggerResponseFaults(data, parse) <==> f != ResponseNotObject && Fails(f, data, parse)
      {
        var p1, p2, p3, p4, p5 := SuccessFaults(data), MessageFaults(data), AnalyticsIdFaults(data), TimestampFaults(data, parse), DataFaults(data);
        assert f in TriggerResponseFaults(data, parse) <==> f in p1 || f in p2 || f in p3 || f in p4 || f in p5;
      }
    }
  }

  /** Each failing field check contributes one fault, in check order. */
  lemma {:induction false} TriggerResponseFaultsOrder(data: Value, parse: string -> Option<int>)
    requires IsNonNullObject(data)
    ensures IsSubsequence(TriggerResponseFaults(data, parse), ResponseCheckOrder)
  {
    var p1 := SuccessFaults(data);
    var p2 := MessageFaults(data);
    var p3 := AnalyticsIdFaults(data);
    var p4 := TimestampFaults(data, parse);
    var p5 := DataFaults(data);
    var o1 := [SuccessNotBoolean];
    var o2 := [MessageNotString];
    var o3 := [AnalyticsIdNotString, AnalyticsIdNotUuid];
    var o4 := [TimestampNotString, TimestampNotDate];
    var o5 := [DataNotObject];
    PushIfIsSubsequence(!Get(data, "success").Bool?, SuccessNotBoolean);
    PushIfIsSubsequence(!Get(data, "message").Str?, MessageNotString);
    PushIfIsSubsequence(BadOptionalObject(Get(data, "data")), DataNotObject);
    PairPickIsSubsequence(AnalyticsIdNotString, AnalyticsIdNotUuid, p3);
    PairPickIsSubsequence(TimestampNotString, TimestampNotDate, p4);
    SubsequenceConcat(p1, o1, p2, o2);
    SubsequenceConcat(p1 + p2, o1 + o2, p3, o3);
    SubsequenceConcat(p1 + p2 + p3, o1 + o2 + o3, p4, o4);
    SubsequenceConcat(p1 + p2 + p3 + p4, o1 + o2 + o3 + o4, p5, o5);
    assert ResponseCheckOrder == o1 + o2 + o3 + o4 + o5;
  }

  /** The validator accepts a response exactly when it is well formed. */
  lemma TriggerResponseValidIff(data: Value, parse: string -> Option<int>)
    ensures TriggerResponseFaults(data, parse) == [] <==> WellFormedTriggerResponse(data, parse)
  {
  }

  // ---------------------------------------------------------------------
  // generateMockTriggerResponse

  const MockAnalyticsId: string := "1f9152dc-dec8-496f-8ba4-ed1c27a72684"

  /** The mock response for `flowId`, stamped with the ISO text of the current time. */
  function MockTriggerResponse(flowId: string, nowIso: string): Value {
    Obj(["success", "message", "analytics_id", "timestamp", "data"], map[
      "success" := Bool(true),
      "message" := Str("Workflow " + flowId + " triggered successfully"),
      "analytics_id" := Str(MockAnalyticsId),
      "timestamp" := Str(nowIso),
      "data" := Obj(["workflow_status", "additional_data"],
                    map["workflow_status" := Str("started"), "additional_data" := Str("from backend response")])
    ])
  }

  lemma MockAnalyticsIdIsUuid()
    ensures IsUuid(MockAnalyticsId)
  {
    var s := MockAnalyticsId;
    assert forall i :: 0 <= i < 36 ==> UuidCharOk(s, i);
  }

  /** The mock response passes the response validator whenever the current
      time's ISO text parses (which `toISOString` output always does). */
  lemma MockTriggerResponseValid(flowId: string, nowIso: string, parse: string -> Option<int>)
    requires parse(nowIso).Some?
    ensures TriggerResponseFaults(MockTriggerResponse(flowId, nowIso), parse) == []
  {
    MockAnalyticsIdIsUuid();
    TriggerResponseValidIff(MockTriggerResponse(flowId, nowIso), parse);
  }

  // ---------------------------------------------------------------------
  // validateFlowId and validateWorkflowIdFormat

  const FlowIdRequired: string := "flowId is required"
  const FlowIdNotString: string := "flowId must be a string"

  /** `validateFlowId`: only a falsy or non-string id is an error; an id that
      is not UUID-shaped only draws a console warning. */
  function ValidateFlowId(flowId: Value): (res: Validation)
    ensures res.valid <==> res.errors == []
    ensures |res.errors| <= 1
    ensures flowId.Str? ==> (res.valid <==> flowId.s != "")
    ensures flowId.Str? && flowId.s == "" ==> res.errors == [FlowIdRequired]
    ensures !flowId.Str? ==> !res.valid
  {
    if !Truthy(flowId) then Validation(false, [FlowIdRequired])
    else if !flowId.Str? then Validation(false, [FlowIdNotString])
    else Validation(true, [])
  }

  datatype IdFormat = UuidFormat | AlphanumericFormat | CustomFormat | InvalidFormat

  datatype FormatReport = FormatReport(format: IdFormat, valid: bool, suggestions: Option<seq<string>>)

  const CustomSuggestions: seq<string> := [
    "Ensure the flowId matches the format expected by your Worqhat workflows",
    "Check that the workflow exists and is active"
  ]

  const ShortIdSuggestions: seq<string> := [
    "flowId should be at least 8 characters long",
    "Use a valid UUID format (recommended)",
    "Ensure the flowId exists in your Worqhat account"
  ]

  const MinFlowIdLength: nat := 8

  /** `validateWorkflowIdFormat`: classifies an id, testing the UUID pattern
      first, then the identifier-token pattern, then the length. */
  function ValidateWorkflowIdFormat(flowId: Value): (r: FormatReport)
    ensures r.valid <==> flowId.Str? && |flowId.s| >= MinFlowIdLength
    ensures r.format == UuidFormat <==> flowId.Str? && IsUuid(flowId.s)
    ensures r.format == AlphanumericFormat <==> flowId.Str? && !IsUuid(flowId.s) && IsIdToken(flowId.s) && |flowId.s| >= MinFlowIdLength
    ensures r.suggestions.Some? <==> r.format == CustomFormat || (flowId.Str? && 0 < |flowId.s| < MinFlowIdLength)
    ensures r.valid <==> r.format != InvalidFormat
  {
    if !Truthy(flowId) || !flowId.Str? then FormatReport(InvalidFormat, false, None)
    else if IsUuid(flowId.s) then FormatReport(UuidFormat, true, None)
    else if IsIdToken(flowId.s) && |flowId.s| >= MinFlowIdLength then FormatReport(AlphanumericFormat, true, None)
    else if |flowId.s| >= MinFlowIdLength then FormatReport(CustomFormat, true, Some(CustomSuggestions))
    else FormatReport(InvalidFormat, false, Some(ShortIdSuggestions))
  }

  /** A UUID is always reported as `uuid`, although it also fits the identifier-token pattern. */
  lemma UuidNeverAlphanumeric(s: string)
    requires IsUuid(s)
    ensures ValidateWorkflowIdFormat(Str(s)).format == UuidFormat
    ensures IsIdToken(s) && |s| >= MinFlowIdLength
  {
    UuidIsIdToken(s);
  }
}
