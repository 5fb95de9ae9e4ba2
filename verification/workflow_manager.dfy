// The workflow management page: the searchable, filterable workflow list,
// the user dropdown, the duration column and the run button's JSON guard.

module WorkflowManager {
  import opened Common
  import WorqhatService
  import TimeFormat
  import opened WorkflowMetricsHook

  /** The predicate `filteredWorkflows` applies; an empty filter matches everything. */
  predicate Matches(w: Workflow, search: string, status: string, user: string) {
    (search == "" || ContainsIgnoreCase(w.workflowId, search) || ContainsIgnoreCase(w.userId, search))
    && (status == "" || w.status == status)
    && (user == "" || w.userId == user)
  }

  /** `filteredWorkflows`: no metrics yet gives the empty list. */
  function FilteredWorkflows(metrics: Option<MetricsResponse>, search: string, status: string, user: string)
    : (r: seq<Workflow>)
    ensures metrics.None? ==> r == []
    ensures metrics.Some? ==> forall w :: w in r <==> w in metrics.value.workflows && Matches(w, search, status, user)
    ensures metrics.Some? ==> IsSubsequence(r, metrics.value.workflows)
    ensures metrics.Some? && search == "" && status == "" && user == "" ==> r == metrics.value.workflows
    ensures metrics.Some? ==> |r| == CountWhere(metrics.value.workflows, (w: Workflow) => Matches(w, search, status, user))
  {
    if metrics.None? then []
    else
      var ws := metrics.value.workflows;
      var p := (w: Workflow) => Matches(w, search, status, user);
      FilterIsSubsequence(ws, p);
      if search == "" && status == "" && user == "" then
        FilterKeepsAll(ws, p);
        Filter(ws, p)
      else
        Filter(ws, p)
  }

  /** The index of the first occurrence of `x` in `s`. */
  function FirstIndex<T(==)>(s: seq<T>, x: T): (i: nat)
    requires x in s
    ensures i < |s| && s[i] == x && x !in s[..i]
  {
    if s[0] == x then 0 else 1 + FirstIndex(s[1..], x)
  }

  lemma {:induction false} FirstIndexPrefix<T>(s: seq<T>, n: nat, x: T)
    requires n <= |s| && x in s[..n]
    ensures FirstIndex(s, x) == FirstIndex(s[..n], x)
  {
    var i := FirstIndex(s[..n], x);
    assert s[..i] == s[..n][..i];
  }

  /** `[...new Set(s)]`: each value once, where it first occurs. */
  function Unique<T(==,!new)>(s: seq<T>): (r: seq<T>)
    ensures forall i, j :: 0 <= i < j < |r| ==> r[i] != r[j]
    ensures forall x :: x in r <==> x in s
    ensures forall i, j :: 0 <= i < j < |r| ==> FirstIndex(s, r[i]) < FirstIndex(s, r[j])
  {
    if s == [] then []
    else
      var n := |s| - 1;
      var rest := Unique(s[..n]);
      assert forall x :: x in s <==> x in s[..n] || x == s[n] by {
        assert s == s[..n] + [s[n]];
      }
      forall y | y in rest
        ensures FirstIndex(s, y) == FirstIndex(s[..n], y) < n
      {
        FirstIndexPrefix(s, n, y);
      }
      if s[n] in rest then rest
      else
        assert FirstIndex(s, s[n]) == n;
        rest + [s[n]]
  }

  /** `uniqueUsers` */
  function UniqueUsers(metrics: Option<MetricsResponse>): (r: seq<string>)
    ensures metrics.None? ==> r == []
    ensures metrics.Some? ==> r == Unique(Map(metrics.value.workflows, (w: Workflow) => w.userId))
  {
    if metrics.None? then [] else Unique(Map(metrics.value.workflows, (w: Workflow) => w.userId))
  }

  /** Every user in the dropdown owns a workflow, and every owner is listed once. */
  lemma UniqueUsersComplete(m: MetricsResponse)
    ensures var r := UniqueUsers(Some(m));
      (forall i, j :: 0 <= i < j < |r| ==> r[i] != r[j])
      && (forall u :: u in r <==> exists w :: w in m.workflows && w.userId == u)
  {
    var ids := Map(m.workflows, (w: Workflow) => w.userId);
    forall u
      ensures u in ids <==> exists w :: w in m.workflows && w.userId == u
    {
      if u in ids {
        var i :| 0 <= i < |ids| && ids[i] == u;
        assert m.workflows[i] in m.workflows;
      }
      if exists w :: w in m.workflows && w.userId == u {
        var w :| w in m.workflows && w.userId == u;
        var i :| 0 <= i < |m.workflows| && m.workflows[i] == w;
        assert ids[i] == u;
      }
    }
  }

  /** `formatDuration(start, end)`; `time` is `new Date(·).getTime()`. */
  function FormatDuration(start: string, end: Option<string>, time: string -> int, fixed1: real -> string)
    : (r: string)
    ensures end.None? || end.value == "" ==> r == "Running..."
    ensures end.Some? && end.value != "" ==> r == TimeFormat.FormatDuration(time(end.value) - time(start), fixed1)
  {
    if end.None? || end.value == "" then "Running..."
    else TimeFormat.FormatDuration(time(end.value) - time(start), fixed1)
  }

  /** A toast: its title, its description, and whether it is the destructive kind. */
  datatype Toast = Toast(title: string, description: Value, destructive: bool)

  /** What one press of the run button did. */
  datatype Execution = Execution(call: Option<Value>, toast: Toast, refreshScheduled: bool)

  /**
   * `handleExecuteWorkflow(workflowId)`: `parse` is `JSON.parse` (`None`
   * when it throws) and `run` what `runWorkflow(workflowId, inputs)`
   * resolves to for those inputs.
   */
  function HandleExecuteWorkflow(workflowId: string, executionInputs: string, parse: string -> Option<Value>,
                                 run: Value -> WorqhatService.ExecutionResponse): (e: Execution)
    ensures e.call == parse(executionInputs)
    ensures e.call.None? ==> e.toast == Toast("Invalid Input", Str("Please provide valid JSON input"), true)
    ensures e.refreshScheduled <==> e.call.Some? && run(e.call.value).success
    ensures e.call.Some? ==> (e.toast.destructive <==> !run(e.call.value).success)
    ensures e.call.Some? && run(e.call.value).success ==>
      e.toast.description == Str("Workflow " + Take(workflowId, 8) + "... executed successfully")
    ensures e.call.Some? && !run(e.call.value).success ==>
      e.toast.description == Or(run(e.call.value).error, Str("Failed to execute workflow"))
  {
    match parse(executionInputs)
    case None => Execution(None, Toast("Invalid Input", Str("Please provide valid JSON input"), true), false)
    case Some(inputs) =>
      var result := run(inputs);
      if result.success then
        Execution(Some(inputs), Toast("Workflow Executed", Str("Workflow " + Take(workflowId, 8) + "... executed successfully"), false), true)
      else
        Execution(Some(inputs), Toast("Execution Failed", Or(result.error, Str("Failed to execute workflow")), true), false)
  }
}
