/** The request side of the workflow service: the checks made before a
    request is issued, the request path and query string, and the way a
    reply (or its absence) is normalised into the result handed to the
    callers. The HTTP exchange itself is an input: the caller supplies the
    reply the server would have sent. */
module WorqhatService {
  import opened Common
  import opened Patterns
  import MetricsValidator

  /** What the environment supplies: the configured API key (empty when
      unset), the ISO text of the current time, and the text of the
      TypeError the engine throws when a property of null is read. */
  datatype Env = Env(apiKey: string, nowIso: string, typeErrorText: string)

  /** A reply body: JSON text, or text the JSON parser rejects with `message`. */
  datatype Body = Json(v: Value) | Unparseable(message: string)

  /** The outcome of `fetch`: it throws (network failure), or a reply arrives. */
  datatype Reply =
    | NetworkFailure(message: string)
    | Received(ok: bool, status: int, statusText: string, body: Body)

  /** The request `executeWorkflow` issues. */
  datatype TriggerRequest = TriggerRequest(path: string, authorization: string, payload: Value)

  /** `WorkflowExecutionResponse`; an absent optional field is `Undefined`. */
  datatype ExecutionResponse = ExecutionResponse(
    success: bool, data: Value, executionId: Value, error: Value, errorCode: Value)

  /** The options of `executeWorkflow`; an absent option is the empty string. */
  datatype TriggerOptions = TriggerOptions(baseUrl: string, apiKey: string)

  const MissingKeyMessage: string :=
    "Worqhat API key is required. Either set VITE_WORQHAT_API_KEY in .env file or pass it in options"
  const FlowIdMessage: string := "flowId is required and must be a string"
  const InvalidFormatMessage: string := "Invalid response format from API"
  const DefaultBaseUrl: string := "/api"

  /** A caught exception: failure with the message and no data. */
  function Thrown(message: string): (r: ExecutionResponse)
    ensures !r.success && r.data == Null && r.error == Str(message) && r.errorCode == Undefined
  {
    ExecutionResponse(false, Null, Undefined, Str(message), Undefined)
  }

  /** The checks `executeWorkflow` makes before any request, and the request
      it then issues. */
  function PlanTrigger(flowId: string, payload: Value, options: TriggerOptions, env: Env): (r: Result<TriggerRequest, string>)
    ensures OrString(options.apiKey, env.apiKey) == "" ==> r == Failure(MissingKeyMessage)
    ensures OrString(options.apiKey, env.apiKey) != "" && flowId == "" ==> r == Failure(FlowIdMessage)
    ensures r.Success? <==> OrString(options.apiKey, env.apiKey) != "" && flowId != ""
    ensures r.Success? ==>
      && r.value.path == OrString(options.baseUrl, DefaultBaseUrl) + "/flows/trigger/" + flowId
      && r.value.authorization == "Bearer " + OrString(options.apiKey, env.apiKey)
      && r.value.payload == payload
  {
    var apiKey := OrString(options.apiKey, env.apiKey);
    if apiKey == "" then Failure(MissingKeyMessage)
    else if flowId == "" then Failure(FlowIdMessage)
    else
      var baseUrl := OrString(options.baseUrl, DefaultBaseUrl);
      Success(TriggerRequest(baseUrl + "/flows/trigger/" + flowId, "Bearer " + apiKey, payload))
  }

  /** With no base URL given, the request goes through the `/api` proxy. */
  lemma DefaultTriggerPath(flowId: string, payload: Value, apiKey: string, env: Env)
    requires OrString(apiKey, env.apiKey) != "" && flowId != ""
    ensures PlanTrigger(flowId, payload, TriggerOptions("", apiKey), env).Success?
    ensures PlanTrigger(flowId, payload, TriggerOptions("", apiKey), env).value.path == "/api" + "/flows/trigger/" + flowId
  {
  }

  /** The error fields of a non-OK reply: the body's `message` and `code`
      when truthy, else the status; an unparseable body becomes a synthetic
      error whose message quotes the status line. `None` stands for the
      TypeError thrown when the body is `null`. */
  function ErrorFields(status: int, statusText: string, body: Body): (r: Option<(Value, Value)>)
    ensures body.Unparseable? ==>
      r == Some((Str("HTTP " + IntToString(status) + ": " + statusText), Num(status as real)))
    ensures body.Json? && (body.v.Null? || body.v.Undefined?) ==> r == None
    ensures body.Json? && !body.v.Null? && !body.v.Undefined? ==> r.Some?
    ensures body.Json? && !body.v.Null? && !body.v.Undefined? && r.Some? ==>
      (Truthy(Get(body.v, "message")) ==> r.value.0 == Get(body.v, "message"))
      && (!Truthy(Get(body.v, "message")) ==> r.value.0 == Str("API Error: " + IntToString(status)))
      && (Truthy(Get(body.v, "code")) ==> r.value.1 == Get(body.v, "code"))
      && (!Truthy(Get(body.v, "code")) ==> r.value.1 == Num(status as real))
    ensures r.Some? ==> Truthy(r.value.0)
    ensures r.Some? ==> (r.value.1 == Num(status as real) || Truthy(r.value.1))
  {
    match body
    case Unparseable(_) =>
      Some((Str("HTTP " + IntToString(status) + ": " + statusText), Num(status as real)))
    case Json(v) =>
      if v.Null? || v.Undefined? then None
      else
        var message := Or(Get(v, "message"), Str("API Error: " + IntToString(status)));
        Some((message, Or(Get(v, "code"), Num(status as real))))
  }

  /** The success branch's rewrite of a body whose `success` is not a
      boolean, field by field. */
  function NormalisedBody(rd: Value, nowIso: string): (p: Value)
    ensures IsNonNullObject(p)
    ensures Get(p, "analytics_id") ==
      Or(Get(rd, "analytics_id"), Or(Get(rd, "execution_id"), Or(Get(rd, "id"), Str("unknown"))))
    ensures Get(p, "message") == Or(Get(rd, "message"), Or(Get(rd, "status"), Str("Workflow triggered successfully")))
    ensures Get(p, "timestamp") == Or(Get(rd, "timestamp"), Str(nowIso))
    ensures Get(p, "data") == Or(Get(rd, "data"), rd)
    ensures Truthy(Get(rd, "error")) ==> Get(p, "success") == Bool(false)
    ensures !Truthy(Get(rd, "error")) ==> Truthy(Get(p, "success"))
  {
    var err := Get(rd, "error");
    var status := Get(rd, "status");
    var message := Get(rd, "message");
    var success :=
      if Truthy(err) then Bool(false)
      else if status == Str("success") then Bool(true)
      else if Truthy(message) then message
      else Bool(true);
    Obj(["success", "message", "analytics_id", "timestamp", "data"], map[
      "success" := success,
      "message" := Or(message, Or(status, Str("Workflow triggered successfully"))),
      "analytics_id" := Or(Get(rd, "analytics_id"), Or(Get(rd, "execution_id"), Or(Get(rd, "id"), Str("unknown")))),
      "timestamp" := Or(Get(rd, "timestamp"), Str(nowIso)),
      "data" := Or(Get(rd, "data"), rd)
    ])
  }

  /** `executeWorkflow`: the pre-checks, then the request, then the reply's
      normalisation. `sent` is the request issued, if any. */
  method ExecuteWorkflow(flowId: string, payload: Value, options: TriggerOptions, env: Env, reply: Reply)
    returns (sent: Option<TriggerRequest>, res: ExecutionResponse)
    ensures sent.None? <==> PlanTrigger(flowId, payload, options, env).Failure?
    ensures sent.Some? ==> sent.value == PlanTrigger(flowId, payload, options, env).value
    ensures sent.None? ==> res == Thrown(PlanTrigger(flowId, payload, options, env).error)
    ensures sent.Some? && reply.NetworkFailure? ==> res == Thrown(reply.message)
    ensures sent.Some? && reply.Received? && !reply.ok ==>
      match ErrorFields(reply.status, reply.statusText, reply.body)
      case None => res == Thrown(env.typeErrorText)
      case Some(fields) => res == ExecutionResponse(false, Null, Undefined, fields.0, fields.1)
    ensures sent.Some? && reply.Received? && reply.ok ==> res == OkTriggerResponse(reply.body, env.nowIso)
  {
    var plan := PlanTrigger(flowId, payload, options, env);
    if plan.Failure? {
      return None, Thrown(plan.error);
    }
    sent := Some(plan.value);
    if reply.NetworkFailure? {
      return sent, Thrown(reply.message);
    }
    if !reply.ok {
      var fields := ErrorFields(reply.status, reply.statusText, reply.body);
      if fields.None? {
        res := Thrown(env.typeErrorText);
      } else {
        res := ExecutionResponse(false, Null, Undefined, fields.value.0, fields.value.1);
      }
      return;
    }
    if reply.body.Unparseable? {
      return sent, Thrown(reply.body.message);
    }
    var responseData := reply.body.v;
    if !Truthy(responseData) || !IsObjectType(responseData) {
      return sent, Thrown(InvalidFormatMessage);
    }
    var processed := responseData;
    if !Get(responseData, "success").Bool? {
      processed := NormalisedBody(responseData, env.nowIso);
    }
    res := ExecutionResponse(true, Or(Get(processed, "data"), processed), Get(processed, "analytics_id"), Undefined, Undefined);
  }

  /** The result of an OK reply. */
  function OkTriggerResponse(body: Body, nowIso: string): (r: ExecutionResponse)
    ensures body.Unparseable? ==> r == Thrown(body.message)
    ensures body.Json? && !IsNonNullObject(body.v) ==> r == Thrown(InvalidFormatMessage)
    ensures body.Json? && IsNonNullObject(body.v) ==> r.success && r.error == Undefined
  {
    match body
    case Unparseable(message) => Thrown(message)
    case Json(rd) =>
      if !Truthy(rd) || !IsObjectType(rd) then Thrown(InvalidFormatMessage)
      else
        var processed := if Get(rd, "success").Bool? then rd else NormalisedBody(rd, nowIso);
        ExecutionResponse(true, Or(Get(processed, "data"), processed), Get(processed, "analytics_id"), Undefined, Undefined)
  }

  /** A successful trigger reports the normalised `analytics_id` as its
      execution id; a body without a boolean `success` always gets a truthy
      one, falling back to "unknown". */
  lemma OkTriggerExecutionId(rd: Value, nowIso: string)
    requires IsNonNullObject(rd)
    ensures OkTriggerResponse(Json(rd), nowIso).success
    ensures !Get(rd, "success").Bool? ==>
      && Truthy(OkTriggerResponse(Json(rd), nowIso).executionId)
      && OkTriggerResponse(Json(rd), nowIso).executionId ==
           Or(Get(rd, "analytics_id"), Or(Get(rd, "execution_id"), Or(Get(rd, "id"), Str("unknown"))))
    ensures (&& !Get(rd, "success").Bool? && !Truthy(Get(rd, "analytics_id"))
             && !Truthy(Get(rd, "execution_id")) && !Truthy(Get(rd, "id"))) ==>
      OkTriggerResponse(Json(rd), nowIso).executionId == Str("unknown")
    ensures Get(rd, "success").Bool? ==> OkTriggerResponse(Json(rd), nowIso).executionId == Get(rd, "analytics_id")
  {
    var p := NormalisedBody(rd, nowIso);
    OrTruthy(Get(rd, "analytics_id"), Or(Get(rd, "execution_id"), Or(Get(rd, "id"), Str("unknown"))));
    OrTruthy(Get(rd, "execution_id"), Or(Get(rd, "id"), Str("unknown")));
    OrTruthy(Get(rd, "id"), Str("unknown"));
  }

  /** `a || b` is truthy when `b` is. */
  lemma OrTruthy(a: Value, b: Value)
    ensures Truthy(b) ==> Truthy(Or(a, b))
    ensures !Truthy(a) ==> Or(a, b) == b
  {
  }

  // ---------------------------------------------------------------------
  // getWorkflowMetrics

  /** The result of `getWorkflowMetrics`; an absent field is `Undefined`. */
  datatype MetricsResult = MetricsResult(success: bool, data: Value, error: Value, errorCode: Value)

  const NotConfiguredMessage: string :=
    "Worqhat API key is not configured. Please add VITE_WORQHAT_API_KEY to your .env file"
  const StartDateFormatMessage: string := "start_date must be in YYYY-MM-DD format"
  const EndDateFormatMessage: string := "end_date must be in YYYY-MM-DD format"
  const MetricsBase: string := "/api/flows/metrics"
  const QueryKeys: seq<string> := ["start_date", "end_date", "status", "user_id"]

  function MetricsThrown(message: string): (r: MetricsResult)
    ensures !r.success && r.error == Str(message) && r.data == Undefined
  {
    MetricsResult(false, Undefined, Str(message), Undefined)
  }

  /** The checks `getWorkflowMetrics` makes before any request. */
  function MetricsPreCheck(p: MetricsValidator.MetricsParams, env: Env): (r: Option<string>)
    ensures env.apiKey == "" ==> r == Some(NotConfiguredMessage)
    ensures env.apiKey != "" && MetricsValidator.Present(p.startDate) && !IsDateShape(p.startDate.value) ==>
      r == Some(StartDateFormatMessage)
    ensures r.None? <==>
      && env.apiKey != ""
      && (MetricsValidator.Present(p.startDate) ==> IsDateShape(p.startDate.value))
      && (MetricsValidator.Present(p.endDate) ==> IsDateShape(p.endDate.value))
  {
    if env.apiKey == "" then Some(NotConfiguredMessage)
    else if MetricsValidator.Present(p.startDate) && !IsDateShape(p.startDate.value) then Some(StartDateFormatMessage)
    else if MetricsValidator.Present(p.endDate) && !IsDateShape(p.endDate.value) then Some(EndDateFormatMessage)
    else None
  }

  /** The parameter behind each query key. */
  function ParamFor(p: MetricsValidator.MetricsParams, key: string): Option<string> {
    if key == "start_date" then p.startDate
    else if key == "end_date" then p.endDate
    else if key == "status" then p.status
    else if key == "user_id" then p.userId
    else None
  }

  function Keys(pairs: seq<(string, string)>): (ks: seq<string>)
    ensures |ks| == |pairs|
    ensures forall i :: 0 <= i < |pairs| ==> ks[i] == pairs[i].0
  {
    seq(|pairs|, i requires 0 <= i < |pairs| => pairs[i].0)
  }

  /** The pair a truthy filter contributes. */
  function QueryPair(key: string, o: Option<string>): (string, string) {
    (key, if o.Some? then o.value else "")
  }

  /** The query pairs, as a chain of conditional appends. */
  function QueryPairs(p: MetricsValidator.MetricsParams): (r: seq<(string, string)>)
    ensures |r| <= |QueryKeys|
    ensures |r| == |QueryKeys| <==> (MetricsValidator.Present(p.startDate) && MetricsValidator.Present(p.endDate)
      && MetricsValidator.Present(p.status) && MetricsValidator.Present(p.userId))
  {
    var p1 := Push([], MetricsValidator.Present(p.startDate), QueryPair("start_date", p.startDate));
    var p2 := Push(p1, MetricsValidator.Present(p.endDate), QueryPair("end_date", p.endDate));
    var p3 := Push(p2, MetricsValidator.Present(p.status), QueryPair("status", p.status));
    Push(p3, MetricsValidator.Present(p.userId), QueryPair("user_id", p.userId))
  }

  /** The successive `queryParams.append` calls: one pair per truthy filter,
      in the order start_date, end_date, status, user_id. */
  method BuildQuery(p: MetricsValidator.MetricsParams) returns (pairs: seq<(string, string)>)
    ensures pairs == QueryPairs(p)
    ensures IsSubsequence(Keys(pairs), QueryKeys)
    ensures forall i :: 0 <= i < |pairs| ==> ParamFor(p, pairs[i].0) == Some(pairs[i].1) && pairs[i].1 != ""
    ensures forall k :: k in QueryKeys ==> (k in Keys(pairs) <==> MetricsValidator.Present(ParamFor(p, k)))
  {
    pairs := [];
    if MetricsValidator.Present(p.startDate) {
      pairs := pairs + [("start_date", p.startDate.value)];
    }
    ghost var spec := Push([], MetricsValidator.Present(p.startDate), QueryPair("start_date", p.startDate));
    assert pairs == spec;
    if MetricsValidator.Present(p.endDate) {
      pairs := pairs + [("end_date", p.endDate.value)];
    }
    spec := Push(spec, MetricsValidator.Present(p.endDate), QueryPair("end_date", p.endDate));
    assert pairs == spec;
    if MetricsValidator.Present(p.status) {
      pairs := pairs + [("status", p.status.value)];
    }
    spec := Push(spec, MetricsValidator.Present(p.status), QueryPair("status", p.status));
    assert pairs == spec;
    if MetricsValidator.Present(p.userId) {
      pairs := pairs + [("user_id", p.userId.value)];
    }
    spec := Push(spec, MetricsValidator.Present(p.userId), QueryPair("user_id", p.userId));
    assert pairs == spec == QueryPairs(p);
    QueryPairsOrder(p);
    QueryPairsValues(p);
    QueryPairsKeys(p);
  }

  lemma QueryPairsOrder(p: MetricsValidator.MetricsParams)
    ensures IsSubsequence(Keys(QueryPairs(p)), QueryKeys)
  {
    ghost var c1, c2, c3, c4 := MetricsValidator.Present(p.startDate), MetricsValidator.Present(p.endDate),
      MetricsValidator.Present(p.status), MetricsValidator.Present(p.userId);
    assert Keys(QueryPairs(p)) == PushIf(c1, "start_date") + PushIf(c2, "end_date") + PushIf(c3, "status") + PushIf(c4, "user_id");
    PicksAreSubsequence(c1, "start_date", c2, "end_date", c3, "status", c4, "user_id");
  }

  lemma QueryPairsValues(p: MetricsValidator.MetricsParams)
    ensures forall i :: 0 <= i < |QueryPairs(p)| ==>
      ParamFor(p, QueryPairs(p)[i].0) == Some(QueryPairs(p)[i].1) && QueryPairs(p)[i].1 != ""
  {
    var pairs := QueryPairs(p);
    Push4Members([], MetricsValidator.Present(p.startDate), QueryPair("start_date", p.startDate),
      MetricsValidator.Present(p.endDate), QueryPair("end_date", p.endDate),
      MetricsValidator.Present(p.status), QueryPair("status", p.status),
      MetricsValidator.Present(p.userId), QueryPair("user_id", p.userId));
    forall i | 0 <= i < |pairs|
      ensures ParamFor(p, pairs[i].0) == Some(pairs[i].1) && pairs[i].1 != ""
    {
      assert pairs[i] in pairs;
    }
  }

  lemma QueryPairsKeys(p: MetricsValidator.MetricsParams)
    ensures forall k :: k in QueryKeys ==> (k in Keys(QueryPairs(p)) <==> MetricsValidator.Present(ParamFor(p, k)))
  {
    var pairs := QueryPairs(p);
    QueryPairsValues(p);
    Push4Members([], MetricsValidator.Present(p.startDate), QueryPair("start_date", p.startDate),
      MetricsValidator.Present(p.endDate), QueryPair("end_date", p.endDate),
      MetricsValidator.Present(p.status), QueryPair("status", p.status),
      MetricsValidator.Present(p.userId), QueryPair("user_id", p.userId));
    forall k | k in QueryKeys
      ensures k in Keys(pairs) <==> MetricsValidator.Present(ParamFor(p, k))
    {
      var x := QueryPair(k, ParamFor(p, k));
      assert x in pairs <==> MetricsValidator.Present(ParamFor(p, k));
      if k in Keys(pairs) {
        var i :| 0 <= i < |pairs| && Keys(pairs)[i] == k;
        assert pairs[i] == x;
      }
      if x in pairs {
        var i :| 0 <= i < |pairs| && pairs[i] == x;
        assert Keys(pairs)[i] == k;
      }
    }
  }

  /** `URLSearchParams.toString()`: `k=v` pairs joined by `&`, each part
      passed through the form-urlencoded serialiser `encode`. */
  function QueryString(pairs: seq<(string, string)>, encode: string -> string): (q: string)
    ensures pairs == [] <==> q == ""
  {
    if pairs == [] then ""
    else
      var head := encode(pairs[0].0) + "=" + encode(pairs[0].1);
      assert head[|encode(pairs[0].0)|] == '=';
      if |pairs| == 1 then head else head + "&" + QueryString(pairs[1..], encode)
  }

  /** The metrics URL: the base, then `?` and the query exactly when the
      query string is non-empty. */
  function MetricsUrl(pairs: seq<(string, string)>, encode: string -> string): (url: string)
    ensures pairs == [] ==> url == MetricsBase
    ensures pairs != [] ==> url == MetricsBase + "?" + QueryString(pairs, encode)
    ensures '?' in url <==> pairs != []
  {
    var q := QueryString(pairs, encode);
    assert '?' !in MetricsBase;
    if q != "" then
      var url := MetricsBase + "?" + q;
      assert url[|MetricsBase|] == '?';
      url
    else MetricsBase
  }

  /** The checks of an OK metrics body; `None` means the body is accepted.
      A null body, a null workflow entry and a missing `metrics_by_user`
      each make the engine throw its TypeError. */
  function MetricsBodyCheck(data: Value, typeErrorText: string): (r: Option<string>)
    ensures r.None? ==>
      && Truthy(Get(data, "metrics"))
      && Get(data, "workflows").Arr?
      && (forall f :: f in MetricsValidator.MetricsCounterFields ==> Get(Get(data, "metrics"), f).Num?)
    ensures !data.Null? && !data.Undefined? && !Truthy(Get(data, "metrics")) ==> r == Some(InvalidFormatMessage)
  {
    if data.Null? || data.Undefined? then Some(typeErrorText)
    else
      var m := Get(data, "metrics");
      var ws := Get(data, "workflows");
      if !Truthy(m) || !ws.Arr? then Some(InvalidFormatMessage)
      else
        match FirstNonNumber(m, MetricsValidator.MetricsCounterFields)
        case Some(field) => Some("Invalid metrics format: missing or invalid " + field)
        case None =>
          if exists w :: w in ws.items && (w.Null? || w.Undefined?) then Some(typeErrorText)
          else
            var byUser := Get(m, "metrics_by_user");
            if byUser.Null? || byUser.Undefined? then Some(typeErrorText)
            else None
  }

  /** The first field of `fields` whose value in `m` is not a number; the
      loop throws on it. */
  function FirstNonNumber(m: Value, fields: seq<string>): (r: Option<string>)
    ensures r.None? <==> forall f :: f in fields ==> Get(m, f).Num?
    ensures r.Some? ==> r.value in fields && !Get(m, r.value).Num?
    ensures r.Some? ==> exists i :: 0 <= i < |fields| && fields[i] == r.value &&
                                   forall j :: 0 <= j < i ==> Get(m, fields[j]).Num?
  {
    if fields == [] then None
    else if !Get(m, fields[0]).Num? then Some(fields[0])
    else
      var rest := FirstNonNumber(m, fields[1..]);
      assert forall f :: f in fields ==> f == fields[0] || f in fields[1..];
      if rest.Some? then
        var i :| 0 <= i < |fields[1..]| && fields[1..][i] == rest.value &&
          forall j :: 0 <= j < i ==> Get(m, fields[1..][j]).Num?;
        assert fields[i + 1] == rest.value;
        Some(rest.value)
      else None
  }

  /** `getWorkflowMetrics`: the pre-checks, the URL, then the reply. */
  method GetWorkflowMetrics(p: MetricsValidator.MetricsParams, env: Env, encode: string -> string, reply: Reply)
    returns (url: Option<string>, res: MetricsResult)
    ensures url.None? <==> MetricsPreCheck(p, env).Some?
    ensures url.None? ==> res == MetricsThrown(MetricsPreCheck(p, env).value)
    ensures url.Some? ==> url.value == MetricsUrl(QueryPairs(p), encode)
    ensures url.Some? ==> (url.value == MetricsBase <==> forall k :: k in QueryKeys ==> !MetricsValidator.Present(ParamFor(p, k)))
    ensures url.Some? && reply.NetworkFailure? ==> res == MetricsThrown(reply.message)
    ensures url.Some? && reply.Received? && !reply.ok ==>
      match ErrorFields(reply.status, reply.statusText, reply.body)
      case None => res == MetricsThrown(env.typeErrorText)
      case Some(fields) => res == MetricsResult(false, Undefined, fields.0, fields.1)
    ensures url.Some? && reply.Received? && reply.ok && reply.body.Unparseable? ==> res == MetricsThrown(reply.body.message)
    ensures url.Some? && reply.Received? && reply.ok && reply.body.Json? ==>
      match MetricsBodyCheck(reply.body.v, env.typeErrorText)
      case None => res == MetricsResult(true, reply.body.v, Undefined, Undefined)
      case Some(message) => res == MetricsThrown(message)
  {
    var pre := MetricsPreCheck(p, env);
    if pre.Some? {
      return None, MetricsThrown(pre.value);
    }
    var pairs := BuildQuery(p);
    url := Some(MetricsUrl(pairs, encode));
    MetricsUrlBareIff(p, encode);
    if reply.NetworkFailure? {
      return url, MetricsThrown(reply.message);
    }
    if !reply.ok {
      var fields := ErrorFields(reply.status, reply.statusText, reply.body);
      if fields.None? {
        res := MetricsThrown(env.typeErrorText);
      } else {
        res := MetricsResult(false, Undefined, fields.value.0, fields.value.1);
      }
      return;
    }
    if reply.body.Unparseable? {
      return url, MetricsThrown(reply.body.message);
    }
    var check := MetricsBodyCheck(reply.body.v, env.typeErrorText);
    if check.Some? {
      res := MetricsThrown(check.value);
    } else {
      res := MetricsResult(true, reply.body.v, Undefined, Undefined);
    }
  }

  /** The metrics URL carries no query exactly when no parameter is present. */
  lemma MetricsUrlBareIff(p: MetricsValidator.MetricsParams, encode: string -> string)
    ensures MetricsUrl(QueryPairs(p), encode) == MetricsBase
      <==> forall k :: k in QueryKeys ==> !MetricsValidator.Present(ParamFor(p, k))
  {
    var pairs := QueryPairs(p);
    QueryPairsKeys(p);
    if pairs != [] {
      QueryPairsValues(p);
      var k := pairs[0].0;
      assert ParamFor(p, k).Some?;
      assert k in QueryKeys;
      assert Keys(pairs)[0] == k;
    }
  }

  /** Four conditional picks from `[x1, x2, x3, x4]` keep their order. */
  lemma {:induction false} PicksAreSubsequence<T>(c1: bool, x1: T, c2: bool, x2: T, c3: bool, x3: T, c4: bool, x4: T)
    ensures IsSubsequence(PushIf(c1, x1) + PushIf(c2, x2) + PushIf(c3, x3) + PushIf(c4, x4), [x1, x2, x3, x4])
  {
    PushIfIsSubsequence(c1, x1);
    PushIfIsSubsequence(c2, x2);
    PushIfIsSubsequence(c3, x3);
    PushIfIsSubsequence(c4, x4);
    SubsequenceConcat(PushIf(c1, x1), [x1], PushIf(c2, x2), [x2]);
    SubsequenceConcat(PushIf(c1, x1) + PushIf(c2, x2), [x1] + [x2], PushIf(c3, x3), [x3]);
    SubsequenceConcat(PushIf(c1, x1) + PushIf(c2, x2) + PushIf(c3, x3), [x1] + [x2] + [x3], PushIf(c4, x4), [x4]);
    assert [x1] + [x2] + [x3] + [x4] == [x1, x2, x3, x4];
  }
}
