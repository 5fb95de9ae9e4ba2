/** Validation of the workflow-metrics request parameters and of the
    metrics response, following the API specification of the metrics
    endpoint. As in the trigger validator, each failed check is first
    recorded as a fault and then rendered as the message the source pushes. */
module MetricsValidator {
  import opened Common
  import opened Patterns

  // ---------------------------------------------------------------------
  // validateWorkflowMetricsParams

  /** `WorkflowMetricsParams`: every filter is optional. */
  datatype MetricsParams = MetricsParams(
    startDate: Option<string>,
    endDate: Option<string>,
    status: Option<string>,
    userId: Option<string>)

  /** The parameter is given and truthy (a non-empty string). */
  predicate Present(o: Option<string>) {
    o.Some? && o.value != ""
  }

  /** `['completed', 'failed', 'in_progress']` */
  const StatusValues: seq<string> := ["completed", "failed", "in_progress"]

  datatype ParamsFault =
    | StartDateNotDate
    | EndDateNotDate
    | StartAfterEnd
    | StatusNotAllowed

  function ParamsFaultMessage(f: ParamsFault): string {
    match f
    case StartDateNotDate => "start_date must be in YYYY-MM-DD format (e.g., 2025-07-01)"
    case EndDateNotDate => "end_date must be in YYYY-MM-DD format (e.g., 2025-07-24)"
    case StartAfterEnd => "start_date must be before or equal to end_date"
    case StatusNotAllowed => "status must be one of: completed, failed, in_progress"
  }

  function ParamsFaultMessages(fs: seq<ParamsFault>): (ms: seq<string>)
    ensures |ms| == |fs|
  {
    if fs == [] then [] else [ParamsFaultMessage(fs[0])] + ParamsFaultMessages(fs[1..])
  }

  /** `new Date(start) > new Date(end)`: a date that does not parse is
      `NaN`, and every comparison with `NaN` is false. */
  predicate StartsAfter(start: string, end: string, parse: string -> Option<int>) {
    parse(start).Some? && parse(end).Some? && parse(start).value > parse(end).value
  }

  /** The failed checks of the parameter validator, in check order. */
  function ParamsFaults(p: MetricsParams, parse: string -> Option<int>): seq<ParamsFault> {
    var f1 := Push([], Present(p.startDate) && !IsDateShape(p.startDate.value), StartDateNotDate);
    var f2 := Push(f1, Present(p.endDate) && !IsDateShape(p.endDate.value), EndDateNotDate);
    var f3 := Push(f2, Present(p.startDate) && Present(p.endDate) && StartsAfter(p.startDate.value, p.endDate.value, parse), StartAfterEnd);
    Push(f3, Present(p.status) && p.status.value !in StatusValues, StatusNotAllowed)
  }

  /** `validateWorkflowMetricsParams`: runs the checks, then reports their messages. */
  method ValidateMetricsParams(p: MetricsParams, parse: string -> Option<int>) returns (res: Validation)
    ensures res.errors == ParamsFaultMessages(ParamsFaults(p, parse))
    ensures res.valid <==> res.errors == []
  {
    var faults := CheckParams(p, parse);
    res := Validation(|faults| == 0, ParamsFaultMessages(faults));
  }

  /** The checks of `validateWorkflowMetricsParams`, each pushing its fault. */
  method CheckParams(p: MetricsParams, parse: string -> Option<int>) returns (faults: seq<ParamsFault>)
    ensures faults == ParamsFaults(p, parse)
  {
    faults := [];
    if Present(p.startDate) && !IsDateShape(p.startDate.value) {
      faults := faults + [StartDateNotDate];
    }
    ghost var spec := Push([], Present(p.startDate) && !IsDateShape(p.startDate.value), StartDateNotDate);
    assert faults == spec;
    if Present(p.endDate) && !IsDateShape(p.endDate.value) {
      faults := faults + [EndDateNotDate];
    }
    spec := Push(spec, Present(p.endDate) && !IsDateShape(p.endDate.value), EndDateNotDate);
    assert faults == spec;
    if Present(p.startDate) && Present(p.endDate) {
      if StartsAfter(p.startDate.value, p.endDate.value, parse) {
        faults := faults + [StartAfterEnd];
      }
    }
    spec := Push(spec, Present(p.startDate) && Present(p.endDate) && StartsAfter(p.startDate.value, p.endDate.value, parse), StartAfterEnd);
    assert faults == spec;
    if Present(p.status) && p.status.value !in StatusValues {
      faults := faults + [StatusNotAllowed];
    }
    spec := Push(spec, Present(p.status) && p.status.value !in StatusValues, StatusNotAllowed);
    assert faults == spec;
  }

  /** Each check of the parameter validator reports exactly when its
      condition holds: a date error only for a given date of the wrong shape
      (the shape alone; month and day are not range-checked), a range error
      only when both dates are given and both parse, and a status error only
      for a given status outside the three allowed values. */
  lemma ParamsFaultsMembers(p: MetricsParams, parse: string -> Option<int>)
    ensures StartDateNotDate in ParamsFaults(p, parse) <==> Present(p.startDate) && !IsDateShape(p.startDate.value)
    ensures EndDateNotDate in ParamsFaults(p, parse) <==> Present(p.endDate) && !IsDateShape(p.endDate.value)
    ensures StartAfterEnd in ParamsFaults(p, parse) <==>
      Present(p.startDate) && Present(p.endDate) && StartsAfter(p.startDate.value, p.endDate.value, parse)
    ensures StatusNotAllowed in ParamsFaults(p, parse) <==> Present(p.status) && p.status.value !in StatusValues
    ensures |ParamsFaults(p, parse)| <= 4
  {
    Push4Members([],
      Present(p.startDate) && !IsDateShape(p.startDate.value), StartDateNotDate,
      Present(p.endDate) && !IsDateShape(p.endDate.value), EndDateNotDate,
      Present(p.startDate) && Present(p.endDate) && StartsAfter(p.startDate.value, p.endDate.value, parse), StartAfterEnd,
      Present(p.status) && p.status.value !in StatusValues, StatusNotAllowed);
  }

  /** A date that does not parse can never cause the range error. */
  lemma UnparseableDateNoRangeError(p: MetricsParams, parse: string -> Option<int>)
    requires p.startDate.Some? && parse(p.startDate.value).None?
    ensures StartAfterEnd !in ParamsFaults(p, parse)
  {
    ParamsFaultsMembers(p, parse);
  }

  // ---------------------------------------------------------------------
  // validateUserMetrics

  const UserMetricsFields: seq<string> := ["total", "completed", "failed", "in_progress"]

  /** `typeof v[field] === 'number' && v[field] >= 0` for every field of `fields`. */
  predicate AllCounters(v: Value, fields: seq<string>)
    ensures AllCounters(v, fields) <==> forall f :: f in fields ==> Get(v, f).Num? && Get(v, f).n >= 0.0
  {
    assert forall f :: f in fields ==> f == fields[0] || f in fields[1..];
    fields == [] || (Get(v, fields[0]).Num? && Get(v, fields[0]).n >= 0.0 && AllCounters(v, fields[1..]))
  }

  /** `validateUserMetrics`: an object whose four counters are all numbers
      and none negative. */
  predicate ValidUserMetrics(v: Value)
    ensures ValidUserMetrics(v) <==>
      IsNonNullObject(v) && forall f :: f in UserMetricsFields ==> Get(v, f).Num? && Get(v, f).n >= 0.0
  {
    IsNonNullObject(v) && AllCounters(v, UserMetricsFields)
  }

  // ---------------------------------------------------------------------
  // validateWorkflow

  const RequiredWorkflowFields: seq<string> := ["id", "workflow_id", "user_id", "org_id", "start_timestamp", "status"]

  datatype WorkflowFault =
    | WorkflowNotObject
    | FieldRequired(field: string)
    | IdNotUuid
    | WorkflowIdNotUuid
    | WorkflowStatusNotAllowed
    | StartTimestampInvalid
    | EndTimestampInvalid

  function WorkflowFaultMessage(f: WorkflowFault): string {
    match f
    case WorkflowNotObject => "Workflow must be an object"
    case FieldRequired(field) => field + " is required and must be a string"
    case IdNotUuid => "id must be a valid UUID"
    case WorkflowIdNotUuid => "workflow_id must be a valid UUID"
    case WorkflowStatusNotAllowed => "status must be one of: completed, failed, in_progress"
    case StartTimestampInvalid => "start_timestamp must be a valid ISO 8601 date-time"
    case EndTimestampInvalid => "end_timestamp must be a valid ISO 8601 date-time or null"
  }

  function WorkflowFaultMessages(fs: seq<WorkflowFault>): (ms: seq<string>)
    ensures |ms| == |fs|
  {
    if fs == [] then [] else [WorkflowFaultMessage(fs[0])] + WorkflowFaultMessages(fs[1..])
  }

  /** `uuidRegex.test(v)` for a string; a value of another type is taken to fail. */
  predicate UuidTest(v: Value) {
    v.Str? && IsUuid(v.s)
  }

  /** `['completed', 'failed', 'in_progress'].includes(v)` */
  predicate IsAllowedStatus(v: Value) {
    v.Str? && v.s in StatusValues
  }

  /** The required-field checks for `fields`, one fault per field that is
      missing, empty or not a string. */
  function RequiredFieldFaults(w: Value, fields: seq<string>): seq<WorkflowFault> {
    if fields == [] then []
    else
      var f := fields[|fields| - 1];
      Push(RequiredFieldFaults(w, fields[..|fields| - 1]), !IsNonEmptyString(Get(w, f)), FieldRequired(f))
  }

  /** The failed checks of `validateWorkflow`, in check order. */
  function WorkflowFaults(w: Value, isDate: Value -> bool): seq<WorkflowFault> {
    if !IsNonNullObject(w) then [WorkflowNotObject]
    else
      var id := Get(w, "id");
      var wid := Get(w, "workflow_id");
      var status := Get(w, "status");
      var start := Get(w, "start_timestamp");
      var end := Get(w, "end_timestamp");
      var f1 := Push(RequiredFieldFaults(w, RequiredWorkflowFields), Truthy(id) && !UuidTest(id), IdNotUuid);
      var f2 := Push(f1, Truthy(wid) && !UuidTest(wid), WorkflowIdNotUuid);
      var f3 := Push(f2, Truthy(status) && !IsAllowedStatus(status), WorkflowStatusNotAllowed);
      var f4 := Push(f3, Truthy(start) && !isDate(start), StartTimestampInvalid);
      Push(f4, !end.Null? && !end.Undefined? && !isDate(end), EndTimestampInvalid)
  }

  /** The error list `validateWorkflow` returns. */
  function WorkflowErrors(w: Value, isDate: Value -> bool): seq<string> {
    WorkflowFaultMessages(WorkflowFaults(w, isDate))
  }

  /** The `for (const field of requiredFields)` loop of `validateWorkflow`. */
  method CheckRequiredFields(w: Value, fields: seq<string>) returns (faults: seq<WorkflowFault>)
    ensures faults == RequiredFieldFaults(w, fields)
  {
    faults := [];
    var i := 0;
    while i < |fields|
      invariant 0 <= i <= |fields|
      invariant faults == RequiredFieldFaults(w, fields[..i])
    {
      var field := fields[i];
      if !IsNonEmptyString(Get(w, field)) {
        faults := faults + [FieldRequired(field)];
      }
      assert fields[..i + 1][..i] == fields[..i];
      i := i + 1;
    }
    assert fields[..i] == fields;
  }

  /** `validateWorkflow`: runs the checks, then reports their messages. */
  method ValidateWorkflow(w: Value, isDate: Value -> bool) returns (errors: seq<string>)
    ensures errors == WorkflowErrors(w, isDate)
  {
    var faults := CheckWorkflow(w, isDate);
    errors := WorkflowFaultMessages(faults);
  }

  /** The checks of `validateWorkflow`, each pushing its fault. */
  method CheckWorkflow(w: Value, isDate: Value -> bool) returns (faults: seq<WorkflowFault>)
    ensures faults == WorkflowFaults(w, isDate)
  {
    if !IsNonNullObject(w) {
      return [WorkflowNotObject];
    }
    faults := CheckRequiredFields(w, RequiredWorkflowFields);
    var id := Get(w, "id");
    var idBad := Truthy(id) && !UuidTest(id);
    faults := PushFault(faults, idBad, IdNotUuid);
    var wid := Get(w, "workflow_id");
    var widBad := Truthy(wid) && !UuidTest(wid);
    faults := PushFault(faults, widBad, WorkflowIdNotUuid);
    var status := Get(w, "status");
    var statusBad := Truthy(status) && !IsAllowedStatus(status);
    faults := PushFault(faults, statusBad, WorkflowStatusNotAllowed);
    var start := Get(w, "start_timestamp");
    var startBad := Truthy(start) && !isDate(start);
    faults := PushFault(faults, startBad, StartTimestampInvalid);
    var end := Get(w, "end_timestamp");
    var endBad := !end.Null? && !end.Undefined? && !isDate(end);
    faults := PushFault(faults, endBad, EndTimestampInvalid);
    WorkflowFaultsOfObject(w, isDate);
  }

  /** `WorkflowFaults` of an object, as one chain of conditional pushes. */
  lemma WorkflowFaultsOfObject(w: Value, isDate: Value -> bool)
    requires IsNonNullObject(w)
    ensures WorkflowFaults(w, isDate) == Push(Push(Push(Push(Push(RequiredFieldFaults(w, RequiredWorkflowFields),
      Truthy(Get(w, "id")) && !UuidTest(Get(w, "id")), IdNotUuid),
      Truthy(Get(w, "workflow_id")) && !UuidTest(Get(w, "workflow_id")), WorkflowIdNotUuid),
      Truthy(Get(w, "status")) && !IsAllowedStatus(Get(w, "status")), WorkflowStatusNotAllowed),
      Truthy(Get(w, "start_timestamp")) && !isDate(Get(w, "start_timestamp")), StartTimestampInvalid),
      !Get(w, "end_timestamp").Null? && !Get(w, "end_timestamp").Undefined? && !isDate(Get(w, "end_timestamp")),
      EndTimestampInvalid)
  {
  }

  /** `if (failed) errors.push(fault)` */
  method PushFault(faults: seq<WorkflowFault>, failed: bool, fault: WorkflowFault) returns (r: seq<WorkflowFault>)
    ensures r == Push(faults, failed, fault)
  {
    r := faults;
    if failed {
      r := r + [fault];
    }
  }

  lemma {:induction false} RequiredFieldFaultsMembers(w: Value, fields: seq<string>)
    ensures forall f :: f in RequiredFieldFaults(w, fields) <==>
      f.FieldRequired? && f.field in fields && !IsNonEmptyString(Get(w, f.field))
  {
    if fields != [] {
      var last := fields[|fields| - 1];
      var init := fields[..|fields| - 1];
      RequiredFieldFaultsMembers(w, init);
      assert fields == init + [last];
      forall f
        ensures f in RequiredFieldFaults(w, fields) <==>
          f.FieldRequired? && f.field in fields && !IsNonEmptyString(Get(w, f.field))
      {
        assert f.FieldRequired? ==> (f.field in fields <==> f.field in init || f.field == last);
      }
    }
  }

  /** With every required field a non-empty string, no field fault is raised. */
  lemma {:induction false} RequiredFieldsPresent(w: Value, fields: seq<string>)
    requires forall f :: f in fields ==> IsNonEmptyString(Get(w, f))
    ensures RequiredFieldFaults(w, fields) == []
  {
    if fields != [] {
      RequiredFieldsPresent(w, fields[..|fields| - 1]);
    }
  }

  /** One fault per missing or non-string required field, none twice. */
  lemma {:induction false} RequiredFieldFaultsCount(w: Value, fields: seq<string>)
    ensures |RequiredFieldFaults(w, fields)| == CountWhere(fields, (f: string) => !IsNonEmptyString(Get(w, f)))
  {
    if fields != [] {
      var last := fields[|fields| - 1];
      var init := fields[..|fields| - 1];
      RequiredFieldFaultsCount(w, init);
      CountWhereSnoc(init, last, (f: string) => !IsNonEmptyString(Get(w, f)));
      assert fields == init + [last];
    }
  }

  /** The partial fault lists of `validateWorkflow` on an object, one per check. */
  lemma WorkflowFaultsSteps(w: Value, isDate: Value -> bool)
    requires IsNonNullObject(w)
    ensures forall f :: f in WorkflowFaults(w, isDate) <==>
      || f in RequiredFieldFaults(w, RequiredWorkflowFields)
      || (f == IdNotUuid && Truthy(Get(w, "id")) && !UuidTest(Get(w, "id")))
      || (f == WorkflowIdNotUuid && Truthy(Get(w, "workflow_id")) && !UuidTest(Get(w, "workflow_id")))
      || (f == WorkflowStatusNotAllowed && Truthy(Get(w, "status")) && !IsAllowedStatus(Get(w, "status")))
      || (f == StartTimestampInvalid && Truthy(Get(w, "start_timestamp")) && !isDate(Get(w, "start_timestamp")))
      || (f == EndTimestampInvalid && !Get(w, "end_timestamp").Null? && !Get(w, "end_timestamp").Undefined?
                                   && !isDate(Get(w, "end_timestamp")))
  {
    var id := Get(w, "id");
    var wid := Get(w, "workflow_id");
    var status := Get(w, "status");
    var start := Get(w, "start_timestamp");
    var end := Get(w, "end_timestamp");
    Push5Members(RequiredFieldFaults(w, RequiredWorkflowFields),
      Truthy(id) && !UuidTest(id), IdNotUuid,
      Truthy(wid) && !UuidTest(wid), WorkflowIdNotUuid,
      Truthy(status) && !IsAllowedStatus(status), WorkflowStatusNotAllowed,
      Truthy(start) && !isDate(start), StartTimestampInvalid,
      !end.Null? && !end.Undefined? && !isDate(end), EndTimestampInvalid);
  }

  /** A required-field error is reported exactly for each required field
      that is missing, empty or not a string. */
  lemma WorkflowFieldRequiredFaults(w: Value, isDate: Value -> bool)
    requires IsNonNullObject(w)
    ensures forall f: WorkflowFault :: f.FieldRequired? ==>
      (f in WorkflowFaults(w, isDate) <==> f.field in RequiredWorkflowFields && !IsNonEmptyString(Get(w, f.field)))
    ensures WorkflowNotObject !in WorkflowFaults(w, isDate)
  {
    WorkflowFaultsSteps(w, isDate);
    RequiredFieldFaultsMembers(w, RequiredWorkflowFields);
  }

  /** A UUID error for `id` or `workflow_id` is reported only when that field
      is present (truthy) and does not match the UUID pattern. */
  lemma WorkflowUuidFaults(w: Value, isDate: Value -> bool)
    requires IsNonNullObject(w)
    ensures IdNotUuid in WorkflowFaults(w, isDate) <==> Truthy(Get(w, "id")) && !UuidTest(Get(w, "id"))
    ensures WorkflowIdNotUuid in WorkflowFaults(w, isDate) <==>
      Truthy(Get(w, "workflow_id")) && !UuidTest(Get(w, "workflow_id"))
  {
    WorkflowFaultsSteps(w, isDate);
    RequiredFieldFaultsMembers(w, RequiredWorkflowFields);
  }

  /** A status error only for a present status outside the allowed three; a
      start-time error only for a present start time that is not a date; and
      never an end-time error when `end_timestamp` is null or absent. */
  lemma WorkflowStatusAndTimeFaults(w: Value, isDate: Value -> bool)
    requires IsNonNullObject(w)
    ensures WorkflowStatusNotAllowed in WorkflowFaults(w, isDate) <==>
      Truthy(Get(w, "status")) && !IsAllowedStatus(Get(w, "status"))
    ensures StartTimestampInvalid in WorkflowFaults(w, isDate) <==>
      Truthy(Get(w, "start_timestamp")) && !isDate(Get(w, "start_timestamp"))
    ensures Get(w, "end_timestamp").Null? || Get(w, "end_timestamp").Undefined? ==>
      EndTimestampInvalid !in WorkflowFaults(w, isDate)
  {
    WorkflowFaultsSteps(w, isDate);
    RequiredFieldFaultsMembers(w, RequiredWorkflowFields);
  }

  /** What `validateWorkflow` accepts, stated check by check. */
  predicate WellFormedWorkflow(w: Value, isDate: Value -> bool) {
    && IsNonNullObject(w)
    && (forall f :: f in RequiredWorkflowFields ==> IsNonEmptyString(Get(w, f)))
    && UuidTest(Get(w, "id"))
    && UuidTest(Get(w, "workflow_id"))
    && IsAllowedStatus(Get(w, "status"))
    && isDate(Get(w, "start_timestamp"))
    && (Get(w, "end_timestamp").Null? || Get(w, "end_timestamp").Undefined? || isDate(Get(w, "end_timestamp")))
  }

  /** A well-formed workflow draws no error. */
  lemma WellFormedWorkflowNoFaults(w: Value, isDate: Value -> bool)
    requires WellFormedWorkflow(w, isDate)
    ensures WorkflowFaults(w, isDate) == []
  {
    var required := RequiredFieldFaults(w, RequiredWorkflowFields);
    RequiredFieldsPresent(w, RequiredWorkflowFields);
    assert |WorkflowFaults(w, isDate)| == |required|;
  }

  /** A workflow that is not well formed draws at least one error. */
  lemma IllFormedWorkflowFaults(w: Value, isDate: Value -> bool)
    requires !WellFormedWorkflow(w, isDate)
    ensures WorkflowFaults(w, isDate) != []
  {
    if IsNonNullObject(w) {
      var required := RequiredFieldFaults(w, RequiredWorkflowFields);
      RequiredFieldFaultsMembers(w, RequiredWorkflowFields);
      if f :| f in RequiredWorkflowFields && !IsNonEmptyString(Get(w, f)) {
        assert FieldRequired(f) in required;
      } else {
        // every required field is a non-empty string, hence truthy
        assert IsNonEmptyString(Get(w, RequiredWorkflowFields[0]));
        assert IsNonEmptyString(Get(w, RequiredWorkflowFields[1]));
        assert IsNonEmptyString(Get(w, RequiredWorkflowFields[4]));
        assert IsNonEmptyString(Get(w, RequiredWorkflowFields[5]));
      }
    }
  }

  /** `validateWorkflow` reports no error exactly for a well-formed workflow. */
  lemma WorkflowValidIff(w: Value, isDate: Value -> bool)
    ensures WorkflowFaults(w, isDate) == [] <==> WellFormedWorkflow(w, isDate)
  {
    if WellFormedWorkflow(w, isDate) {
      WellFormedWorkflowNoFaults(w, isDate);
    } else {
      IllFormedWorkflowFaults(w, isDate);
    }
  }

  /** A workflow that is not an object draws exactly one error. */
  lemma NonObjectWorkflowOneError(w: Value, isDate: Value -> bool)
    requires !IsNonNullObject(w)
    ensures WorkflowErrors(w, isDate) == ["Workflow must be an object"]
  {
  }

  // ---------------------------------------------------------------------
  // validateWorkflowMetricsResponse

  const MetricsCounterFields: seq<string> :=
    ["total_workflows", "completed_workflows", "failed_workflows", "in_progress_workflows", "avg_duration_ms"]

  datatype MetricsFault =
    | ResponseNotObject
    | MetricsMissing
    | CounterNotNumber(field: string)
    | ByUserNotObject
    | InvalidUserMetrics(userId: string)
    | WorkflowsNotArray
    | WorkflowInvalid(index: nat, errors: seq<string>)

  function MetricsFaultMessage(f: MetricsFault): string {
    match f
    case ResponseNotObject => "Response must be an object"
    case MetricsMissing => "Response must contain a metrics object"
    case CounterNotNumber(field) => "metrics." + field + " must be a number"
    case ByUserNotObject => "metrics.metrics_by_user must be an object"
    case InvalidUserMetrics(userId) => "Invalid user metrics for user " + userId
    case WorkflowsNotArray => "workflows must be an array"
    case WorkflowInvalid(index, errors) => "Workflow " + NatToString(index) + ": " + Join(errors, ", ")
  }

  function MetricsFaultMessages(fs: seq<MetricsFault>): (ms: seq<string>)
    ensures |ms| == |fs|
  {
    if fs == [] then [] else [MetricsFaultMessage(fs[0])] + MetricsFaultMessages(fs[1..])
  }

  /** One fault per counter of `fields` that is not a number. */
  function CounterFaults(m: Value, fields: seq<string>): seq<MetricsFault> {
    if fields == [] then []
    else
      var f := fields[|fields| - 1];
      Push(CounterFaults(m, fields[..|fields| - 1]), !Get(m, f).Num?, CounterNotNumber(f))
  }

  /** One fault per entry of `metrics_by_user` that fails `validateUserMetrics`. */
  function UserFaults(entries: seq<(string, Value)>): seq<MetricsFault> {
    if entries == [] then []
    else
      var e := entries[|entries| - 1];
      Push(UserFaults(entries[..|entries| - 1]), !ValidUserMetrics(e.1), InvalidUserMetrics(e.0))
  }

  /** The error list of each workflow, by index. */
  function AllWorkflowErrors(items: seq<Value>, isDate: Value -> bool): (errs: seq<seq<string>>)
    ensures |errs| == |items|
    ensures forall i :: 0 <= i < |items| ==> errs[i] == WorkflowErrors(items[i], isDate)
  {
    seq(|items|, i requires 0 <= i < |items| => WorkflowErrors(items[i], isDate))
  }

  /** One fault per non-empty error list, carrying its index and the list. */
  function WorkflowListFaults(errs: seq<seq<string>>): seq<MetricsFault> {
    if errs == [] then []
    else
      var k := |errs| - 1;
      Push(WorkflowListFaults(errs[..k]), errs[k] != [], WorkflowInvalid(k, errs[k]))
  }

  function ByUserFaults(byUser: Value): seq<MetricsFault> {
    if !IsNonNullObject(byUser) then [ByUserNotObject] else UserFaults(Entries(byUser))
  }

  function MetricsPartFaults(m: Value): seq<MetricsFault> {
    if !IsNonNullObject(m) then [MetricsMissing]
    else CounterFaults(m, MetricsCounterFields) + ByUserFaults(Get(m, "metrics_by_user"))
  }

  function WorkflowsPartFaults(ws: Value, isDate: Value -> bool): seq<MetricsFault> {
    if !ws.Arr? then [WorkflowsNotArray] else WorkflowListFaults(AllWorkflowErrors(ws.items, isDate))
  }

  /** The failed checks of `validateWorkflowMetricsResponse`, in check order. */
  function MetricsResponseFaults(data: Value, isDate: Value -> bool): seq<MetricsFault> {
    if !IsNonNullObject(data) then [ResponseNotObject]
    else MetricsPartFaults(Get(data, "metrics")) + WorkflowsPartFaults(Get(data, "workflows"), isDate)
  }

  /** `validateWorkflowMetricsResponse`: runs the checks, then reports their messages. */
  method ValidateMetricsResponse(data: Value, isDate: Value -> bool) returns (res: Validation)
    ensures res.errors == MetricsFaultMessages(MetricsResponseFaults(data, isDate))
    ensures res.valid <==> res.errors == []
  {
    var faults := CheckMetricsResponse(data, isDate);
    res := Validation(|faults| == 0, MetricsFaultMessages(faults));
  }

  /** The checks of `validateWorkflowMetricsResponse`, each pushing its fault. */
  method CheckMetricsResponse(data: Value, isDate: Value -> bool) returns (faults: seq<MetricsFault>)
    ensures faults == MetricsResponseFaults(data, isDate)
  {
    faults := [];
    if !IsNonNullObject(data) {
      faults := faults + [ResponseNotObject];
      return;
    }
    faults := CheckMetricsPart(faults, Get(data, "metrics"));
    assert [] + MetricsPartFaults(Get(data, "metrics")) == MetricsPartFaults(Get(data, "metrics"));
    faults := CheckWorkflowsPart(faults, Get(data, "workflows"), isDate);
  }

  /** The checks of the `workflows` array, pushing onto `acc`. */
  method CheckWorkflowsPart(acc: seq<MetricsFault>, ws: Value, isDate: Value -> bool) returns (faults: seq<MetricsFault>)
    ensures faults == acc + WorkflowsPartFaults(ws, isDate)
  {
    if !ws.Arr? {
      faults := acc + [WorkflowsNotArray];
    } else {
      faults := CheckWorkflowList(acc, ws.items, isDate);
    }
  }

  /** The checks of the `metrics` object, pushing onto `acc`. */
  method CheckMetricsPart(acc: seq<MetricsFault>, m: Value) returns (faults: seq<MetricsFault>)
    ensures faults == acc + MetricsPartFaults(m)
  {
    faults := acc;
    if !IsNonNullObject(m) {
      faults := faults + [MetricsMissing];
    } else {
      faults := CheckCounters(faults, m, MetricsCounterFields);
      ghost var counted := faults;
      var byUser := Get(m, "metrics_by_user");
      if !IsNonNullObject(byUser) {
        faults := faults + [ByUserNotObject];
      } else {
        faults := CheckUsers(faults, Entries(byUser));
      }
      assert faults == counted + ByUserFaults(byUser);
    }
  }

  /** The `for (const field of requiredMetricsFields)` loop, pushing onto `acc`. */
  method CheckCounters(acc: seq<MetricsFault>, m: Value, fields: seq<string>) returns (faults: seq<MetricsFault>)
    ensures faults == acc + CounterFaults(m, fields)
  {
    faults := acc;
    var i := 0;
    while i < |fields|
      invariant 0 <= i <= |fields|
      invariant faults == acc + CounterFaults(m, fields[..i])
    {
      var field := fields[i];
      if !Get(m, field).Num? {
        faults := faults + [CounterNotNumber(field)];
      }
      assert fields[..i + 1][..i] == fields[..i];
      i := i + 1;
    }
    assert fields[..i] == fields;
  }

  /** The loop over `Object.entries(metrics_by_user)`, pushing onto `acc`. */
  method CheckUsers(acc: seq<MetricsFault>, entries: seq<(string, Value)>) returns (faults: seq<MetricsFault>)
    ensures faults == acc + UserFaults(entries)
  {
    faults := acc;
    var j := 0;
    while j < |entries|
      invariant 0 <= j <= |entries|
      invariant faults == acc + UserFaults(entries[..j])
    {
      if !ValidUserMetrics(entries[j].1) {
        faults := faults + [InvalidUserMetrics(entries[j].0)];
      }
      assert entries[..j + 1][..j] == entries[..j];
      j := j + 1;
    }
    assert entries[..j] == entries;
  }

  /** The `workflows.forEach` loop, pushing onto `acc`. */
  method CheckWorkflowList(acc: seq<MetricsFault>, items: seq<Value>, isDate: Value -> bool) returns (faults: seq<MetricsFault>)
    ensures faults == acc + WorkflowListFaults(AllWorkflowErrors(items, isDate))
  {
    faults := acc;
    ghost var all := AllWorkflowErrors(items, isDate);
    var k := 0;
    while k < |items|
      invariant 0 <= k <= |items|
      invariant faults == acc + WorkflowListFaults(all[..k])
    {
      var errs := ValidateWorkflow(items[k], isDate);
      if |errs| > 0 {
        faults := faults + [WorkflowInvalid(k, errs)];
      }
      assert all[..k + 1][..k] == all[..k];
      k := k + 1;
    }
    assert all[..k] == all;
  }

  /** Exactly the non-empty error lists contribute a fault, each carrying
      its own index. */
  lemma {:induction false} WorkflowListFaultsMembers(errs: seq<seq<string>>)
    ensures forall f :: f in WorkflowListFaults(errs) <==>
      f.WorkflowInvalid? && f.index < |errs| && f.errors == errs[f.index] && f.errors != []
  {
    if errs != [] {
      var k := |errs| - 1;
      WorkflowListFaultsMembers(errs[..k]);
      forall f
        ensures f in WorkflowListFaults(errs) <==>
          f.WorkflowInvalid? && f.index < |errs| && f.errors == errs[f.index] && f.errors != []
      {
        if f.WorkflowInvalid? && f.index < k {
          assert errs[..k][f.index] == errs[f.index];
        }
      }
    }
  }

  /** The workflow faults come in increasing index order, so no workflow is
      reported twice. */
  lemma {:induction false} WorkflowListFaultsIncreasing(errs: seq<seq<string>>)
    ensures forall a, b :: 0 <= a < b < |WorkflowListFaults(errs)| ==>
      && WorkflowListFaults(errs)[a].WorkflowInvalid?
      && WorkflowListFaults(errs)[b].WorkflowInvalid?
      && WorkflowListFaults(errs)[a].index < WorkflowListFaults(errs)[b].index
  {
    if errs == [] {
      assert WorkflowListFaults(errs) == [];
    } else {
      var k := |errs| - 1;
      var init := WorkflowListFaults(errs[..k]);
      var all := WorkflowListFaults(errs);
      WorkflowListFaultsIncreasing(errs[..k]);
      WorkflowListFaultsMembers(errs[..k]);
      assert all == Push(init, errs[k] != [], WorkflowInvalid(k, errs[k]));
      forall a, b | 0 <= a < b < |all|
        ensures all[a].WorkflowInvalid? && all[b].WorkflowInvalid? && all[a].index < all[b].index
      {
        assert all[a] == init[a] && init[a] in init;
        if b < |init| {
          assert all[b] == init[b];
        } else {
          assert all[b] == WorkflowInvalid(k, errs[k]);
        }
      }
    }
  }

  /** The overall shape of the response faults: a non-object yields exactly
      one fault; otherwise the metrics part precedes the workflows part and
      each workflow with errors contributes one fault. */
  lemma MetricsResponseFaultsShape(data: Value, isDate: Value -> bool)
    ensures !IsNonNullObject(data) ==> MetricsResponseFaults(data, isDate) == [ResponseNotObject]
    ensures IsNonNullObject(data) && Get(data, "workflows").Arr? ==>
      forall i :: 0 <= i < |Get(data, "workflows").items| ==>
        (WorkflowErrors(Get(data, "workflows").items[i], isDate) != [] <==>
         WorkflowInvalid(i, WorkflowErrors(Get(data, "workflows").items[i], isDate)) in MetricsResponseFaults(data, isDate))
  {
    if IsNonNullObject(data) && Get(data, "workflows").Arr? {
      var items := Get(data, "workflows").items;
      WorkflowListFaultsMembers(AllWorkflowErrors(items, isDate));
      forall i | 0 <= i < |items|
        ensures WorkflowErrors(items[i], isDate) != [] <==>
          WorkflowInvalid(i, WorkflowErrors(items[i], isDate)) in MetricsResponseFaults(data, isDate)
      {
        var f := WorkflowInvalid(i, WorkflowErrors(items[i], isDate));
        var m := MetricsPartFaults(Get(data, "metrics"));
        assert f !in m by {
          var mm := Get(data, "metrics");
          if IsNonNullObject(mm) {
            CounterFaultsKinds(mm, MetricsCounterFields);
            var u := Get(mm, "metrics_by_user");
            if IsNonNullObject(u) {
              UserFaultsKinds(Entries(u));
            }
          }
        }
      }
    }
  }

  lemma {:induction false} CounterFaultsKinds(m: Value, fields: seq<string>)
    ensures forall f :: f in CounterFaults(m, fields) ==> f.CounterNotNumber?
  {
    if fields != [] {
      CounterFaultsKinds(m, fields[..|fields| - 1]);
    }
  }

  lemma {:induction false} UserFaultsKinds(entries: seq<(string, Value)>)
    ensures forall f :: f in UserFaults(entries) ==> f.InvalidUserMetrics?
  {
    if entries != [] {
      UserFaultsKinds(entries[..|entries| - 1]);
    }
  }

  /** Each workflow error message is prefixed with the workflow's index. */
  lemma WorkflowMessagePrefix(index: nat, errors: seq<string>)
    ensures StartsWith(MetricsFaultMessage(WorkflowInvalid(index, errors)), "Workflow " + NatToString(index) + ": ")
  {
    var p := "Workflow " + NatToString(index) + ": ";
    assert (p + Join(errors, ", "))[..|p|] == p;
  }

  /** What `validateWorkflowMetricsResponse` accepts, stated check by check. */
  predicate WellFormedMetricsResponse(data: Value, isDate: Value -> bool) {
    var m := Get(data, "metrics");
    var byUser := Get(m, "metrics_by_user");
    var ws := Get(data, "workflows");
    && IsNonNullObject(data)
    && IsNonNullObject(m)
    && (forall f :: f in MetricsCounterFields ==> Get(m, f).Num?)
    && IsNonNullObject(byUser)
    && (forall e :: e in Entries(byUser) ==> ValidUserMetrics(e.1))
    && ws.Arr?
    && (forall w :: w in ws.items ==> WellFormedWorkflow(w, isDate))
  }

  lemma {:induction false} CounterFaultsNoneIff(m: Value, fields: seq<string>)
    ensures CounterFaults(m, fields) == [] <==> forall f :: f in fields ==> Get(m, f).Num?
  {
    if fields != [] {
      var init := fields[..|fields| - 1];
      CounterFaultsNoneIff(m, init);
      assert fields == init + [fields[|fields| - 1]];
    }
  }

  lemma {:induction false} UserFaultsNoneIff(entries: seq<(string, Value)>)
    ensures UserFaults(entries) == [] <==> forall e :: e in entries ==> ValidUserMetrics(e.1)
  {
    if entries != [] {
      var init := entries[..|entries| - 1];
      UserFaultsNoneIff(init);
      assert entries == init + [entries[|entries| - 1]];
    }
  }

  lemma WorkflowListFaultsNoneIff(items: seq<Value>, isDate: Value -> bool)
    ensures WorkflowListFaults(AllWorkflowErrors(items, isDate)) == [] <==>
      forall w :: w in items ==> WellFormedWorkflow(w, isDate)
  {
    var errs := AllWorkflowErrors(items, isDate);
    var r := WorkflowListFaults(errs);
    WorkflowListFaultsMembers(errs);
    if r != [] {
      assert r[0] in r;
      WorkflowValidIff(items[r[0].index], isDate);
    }
    if w :| w in items && !WellFormedWorkflow(w, isDate) {
      var i :| 0 <= i < |items| && items[i] == w;
      WorkflowValidIff(w, isDate);
      assert WorkflowInvalid(i, errs[i]) in r;
    }
  }

  /** `validateWorkflowMetricsResponse` reports no error exactly for a
      well-formed response. */
  lemma MetricsResponseValidIff(data: Value, isDate: Value -> bool)
    ensures MetricsResponseFaults(data, isDate) == [] <==> WellFormedMetricsResponse(data, isDate)
  {
    var m := Get(data, "metrics");
    var ws := Get(data, "workflows");
    if IsNonNullObject(data) && IsNonNullObject(m) {
      CounterFaultsNoneIff(m, MetricsCounterFields);
      var byUser := Get(m, "metrics_by_user");
      if IsNonNullObject(byUser) {
        UserFaultsNoneIff(Entries(byUser));
      }
    }
    if IsNonNullObject(data) && ws.Arr? {
      WorkflowListFaultsNoneIff(ws.items, isDate);
    }
  }

  // ---------------------------------------------------------------------
  // generateMockResponse

  const MockUserId: string := "member-test-2f9b9a4f-5898-4e7a-8f26-e60cea49ae31"
  const MockRowId: string := "1f9152dc-dec8-496f-8ba4-ed1c27a72684"
  const MockWorkflowId: string := "f825ab82-371f-40cb-9bed-b325531ead4a"
  const MockStart: string := "2025-07-16T17:37:36.000Z"
  const MockEnd: string := "2025-07-16T17:37:46.000Z"

  /** The one workflow row of the mock response. */
  function MockWorkflow(): Value {
    Obj(["id", "workflow_id", "user_id", "org_id", "start_timestamp", "end_timestamp", "status", "description"], map[
      "id" := Str(MockRowId),
      "workflow_id" := Str(MockWorkflowId),
      "user_id" := Str(MockUserId),
      "org_id" := Str("organization-test-1aac0c7e-2c38-453c-8576-9e0cc793a414"),
      "start_timestamp" := Str(MockStart),
      "end_timestamp" := Str(MockEnd),
      "status" := Str("completed"),
      "description" := Str("Workflow metrics retrieved successfully")
    ])
  }

  /** The per-user counters of the mock response. */
  function MockUserMetrics(): Value {
    Obj(UserMetricsFields, map["total" := Num(2.0), "completed" := Num(2.0), "failed" := Num(0.0), "in_progress" := Num(0.0)])
  }

  /** The aggregate block of the mock response. */
  function MockMetrics(): Value {
    Obj(["total_workflows", "completed_workflows", "failed_workflows", "in_progress_workflows",
         "avg_duration_ms", "metrics_by_user"], map[
      "total_workflows" := Num(2.0),
      "completed_workflows" := Num(2.0),
      "failed_workflows" := Num(0.0),
      "in_progress_workflows" := Num(0.0),
      "avg_duration_ms" := Num(8500.0),
      "metrics_by_user" := Obj([MockUserId], map[MockUserId := MockUserMetrics()])
    ])
  }

  /** `generateMockResponse` */
  function MockResponse(): Value {
    Obj(["metrics", "workflows"], map["metrics" := MockMetrics(), "workflows" := Arr([MockWorkflow()])])
  }

  lemma MockMetricsFields()
    ensures Get(MockMetrics(), "total_workflows") == Num(2.0)
    ensures Get(MockMetrics(), "completed_workflows") == Num(2.0)
    ensures Get(MockMetrics(), "failed_workflows") == Num(0.0)
    ensures Get(MockMetrics(), "in_progress_workflows") == Num(0.0)
    ensures Get(MockMetrics(), "avg_duration_ms") == Num(8500.0)
    ensures Get(MockMetrics(), "metrics_by_user") == Obj([MockUserId], map[MockUserId := MockUserMetrics()])
  {
  }

  lemma MockIdsAreUuids()
    ensures IsUuid(MockRowId) && IsUuid(MockWorkflowId)
  {
    var a, b := MockRowId, MockWorkflowId;
    assert forall i :: 0 <= i < 36 ==> UuidCharOk(a, i);
    assert forall i :: 0 <= i < 36 ==> UuidCharOk(b, i);
  }

  /** The fields of the mock workflow row that `validateWorkflow` inspects. */
  lemma MockWorkflowFields()
    ensures Get(MockWorkflow(), "id") == Str(MockRowId)
    ensures Get(MockWorkflow(), "workflow_id") == Str(MockWorkflowId)
    ensures Get(MockWorkflow(), "user_id").Str? && Get(MockWorkflow(), "user_id").s != ""
    ensures Get(MockWorkflow(), "org_id").Str? && Get(MockWorkflow(), "org_id").s != ""
    ensures Get(MockWorkflow(), "start_timestamp") == Str(MockStart)
    ensures Get(MockWorkflow(), "end_timestamp") == Str(MockEnd)
    ensures Get(MockWorkflow(), "status") == Str("completed")
  {
  }

  /** The mock workflow passes `validateWorkflow` whenever the date
      constructor accepts its two timestamps. */
  lemma MockWorkflowValid(isDate: Value -> bool)
    requires isDate(Str(MockStart)) && isDate(Str(MockEnd))
    ensures WorkflowFaults(MockWorkflow(), isDate) == []
  {
    var w := MockWorkflow();
    MockIdsAreUuids();
    MockWorkflowFields();
    assert forall f :: f in RequiredWorkflowFields ==> IsNonEmptyString(Get(w, f));
    WorkflowValidIff(w, isDate);
  }

  /** The mock's one user entry passes `validateUserMetrics`. */
  lemma MockByUserValid()
    ensures var byUser := Obj([MockUserId], map[MockUserId := MockUserMetrics()]);
      IsNonNullObject(byUser) && forall e :: e in Entries(byUser) ==> ValidUserMetrics(e.1)
  {
    var byUser := Obj([MockUserId], map[MockUserId := MockUserMetrics()]);
    assert Get(byUser, MockUserId) == MockUserMetrics();
    var u := MockUserMetrics();
    assert Get(u, "total").Num? && Get(u, "completed").Num? && Get(u, "failed").Num? && Get(u, "in_progress").Num?;
    assert ValidUserMetrics(u);
  }

  /** Every counter of the mock metrics is a number. */
  lemma MockCountersAreNumbers()
    ensures forall f :: f in MetricsCounterFields ==> Get(MockMetrics(), f).Num?
  {
    MockMetricsFields();
  }

  /** The mock response passes `validateWorkflowMetricsResponse` whenever the
      date constructor accepts the timestamps. */
  lemma MockResponseValid(isDate: Value -> bool)
    requires isDate(Str(MockStart)) && isDate(Str(MockEnd))
    ensures MetricsResponseFaults(MockResponse(), isDate) == []
  {
    var data := MockResponse();
    var m := MockMetrics();
    MockMetricsFields();
    MockByUserValid();
    MockWorkflowValid(isDate);
    WorkflowValidIff(MockWorkflow(), isDate);
    assert Get(data, "metrics") == m;
    assert Get(data, "workflows") == Arr([MockWorkflow()]);
    MockCountersAreNumbers();
    assert forall w :: w in [MockWorkflow()] ==> WellFormedWorkflow(w, isDate);
    assert WellFormedMetricsResponse(data, isDate);
    MetricsResponseValidIff(data, isDate);
  }

  /** The mock's status counters add up to its total. */
  lemma MockCountersAddUp()
    ensures var m := MockMetrics();
      && Get(m, "completed_workflows").Num? && Get(m, "failed_workflows").Num?
      && Get(m, "in_progress_workflows").Num? && Get(m, "total_workflows").Num?
      && Get(m, "completed_workflows").n + Get(m, "failed_workflows").n + Get(m, "in_progress_workflows").n
           == Get(m, "total_workflows").n
  {
    MockMetricsFields();
  }
}
