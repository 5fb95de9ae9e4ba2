// The workflow metrics page: its filter form, the request it sends, the
// success rate and the status distribution panel.

module WorkflowMetricsPage {
  import opened Common
  import opened MetricsValidator
  import WorkflowMetricsHook

  const PageFetchFailedMessage: string := "Failed to fetch metrics"

  /** The form's starting values: empty dates and user, no status. */
  const InitialFilters: MetricsParams := MetricsParams(Some(""), Some(""), None, Some(""))

  /** The four filter fields. */
  datatype FilterKey = StartDate | EndDate | Status | UserId

  function Field(f: MetricsParams, key: FilterKey): Option<string> {
    match key
    case StartDate => f.startDate
    case EndDate => f.endDate
    case Status => f.status
    case UserId => f.userId
  }

  /** `cleanFilters`: only the non-empty filters are sent. */
  function CleanFilters(f: MetricsParams): (r: MetricsParams)
    ensures forall key :: Field(r, key).Some? <==> Present(Field(f, key))
    ensures forall key :: Present(Field(f, key)) ==> Field(r, key) == Field(f, key)
  {
    MetricsParams(
      if Present(f.startDate) then f.startDate else None,
      if Present(f.endDate) then f.endDate else None,
      if Present(f.status) then f.status else None,
      if Present(f.userId) then f.userId else None)
  }

  /** Cleaning keeps exactly what the request would use: the present filters. */
  lemma CleanFiltersKeepsPresent(f: MetricsParams)
    ensures CleanFilters(CleanFilters(f)) == CleanFilters(f)
    ensures forall key :: Present(Field(CleanFilters(f), key)) <==> Present(Field(f, key))
  {
    assert forall key :: Field(CleanFilters(f), key).Some? ==> Present(Field(CleanFilters(f), key));
  }

  /** `handleFilterChange(key, value)`: an empty value clears the filter. */
  function FilterChange(f: MetricsParams, key: FilterKey, value: string): (r: MetricsParams)
    ensures Field(r, key) == (if value == "" then None else Some(value))
    ensures forall k :: k != key ==> Field(r, k) == Field(f, k)
  {
    var v := if value == "" then None else Some(value);
    match key
    case StartDate => f.(startDate := v)
    case EndDate => f.(endDate := v)
    case Status => f.(status := v)
    case UserId => f.(userId := v)
  }

  /** After "clear" no filter is sent. */
  lemma ClearedFiltersSendNothing()
    ensures forall key :: Field(CleanFilters(InitialFilters), key) == None
  {
    forall key
      ensures Field(CleanFilters(InitialFilters), key) == None
    {
      assert !Present(Field(InitialFilters, key));
    }
  }

  /** `calculateSuccessRate` */
  function SuccessRate(metrics: Option<WorkflowMetricsHook.MetricsResponse>): (r: real)
    ensures metrics.None? || metrics.value.metrics.totalWorkflows <= 0 ==> r == 0.0
    ensures metrics.Some? && metrics.value.metrics.totalWorkflows > 0 ==>
      r * (metrics.value.metrics.totalWorkflows as real) == (metrics.value.metrics.completedWorkflows as real) * 100.0
    ensures metrics.Some? && 0 <= metrics.value.metrics.completedWorkflows <= metrics.value.metrics.totalWorkflows ==>
      0.0 <= r <= 100.0
  {
    if metrics.None? then 0.0
    else
      var s := metrics.value.metrics;
      WorkflowMetricsHook.PercentBounds2(s.completedWorkflows, s.totalWorkflows);
      WorkflowMetricsHook.Percent(s.completedWorkflows, s.totalWorkflows)
  }

  // ---------------------------------------------------------------------
  // The status distribution panel

  /**
   * A JavaScript number as the panel may meet it: finite, or the `NaN` and
   * `Infinity` that a division by zero yields.
   */
  datatype Quotient = Finite(x: real) | NaN | Infinite(positive: bool)

  /** `(count / total) * 100` with JavaScript's division by zero. */
  function ShareAsWritten(count: int, total: int): (q: Quotient)
    ensures total != 0 ==> q.Finite? && q.x * (total as real) == (count as real) * 100.0
    ensures total == 0 ==> (q.NaN? <==> count == 0)
  {
    if total != 0 then Finite((count as real) / (total as real) * 100.0)
    else if count == 0 then NaN
    else Infinite(count > 0)
  }

  /** The percentage line as written: `toFixed(1)` then `%`. */
  function ShareTextAsWritten(count: int, total: int, fixed1: real -> string): (r: string)
    ensures total > 0 ==> r == fixed1(WorkflowMetricsHook.Percent(count, total)) + "%"
    ensures total == 0 ==> r == (if count == 0 then "NaN%" else if count > 0 then "Infinity%" else "-Infinity%")
  {
    match ShareAsWritten(count, total)
    case Finite(x) => fixed1(x) + "%"
    case NaN => "NaN%"
    case Infinite(positive) => if positive then "Infinity%" else "-Infinity%"
  }

  /** With no workflows at all, every line of the panel reads `NaN%`. */
  lemma EmptyTotalShowsNaN(fixed1: real -> string)
    ensures ShareTextAsWritten(0, 0, fixed1) == "NaN%"
  {
  }

  /** The percentage line with the zero-total guard `calculateSuccessRate` uses. */
  function ShareText(count: int, total: int, fixed1: real -> string): (r: string)
    ensures total <= 0 ==> r == fixed1(0.0) + "%"
    ensures total > 0 ==> r == ShareTextAsWritten(count, total, fixed1)
  {
    fixed1(WorkflowMetricsHook.Percent(count, total)) + "%"
  }

  /** Every guarded line renders a finite share between 0 and 100. */
  lemma ShareTextBounded(count: int, total: int, fixed1: real -> string)
    requires 0 <= count <= total
    ensures exists x :: 0.0 <= x <= 100.0 && ShareText(count, total, fixed1) == fixed1(x) + "%"
  {
    var x := WorkflowMetricsHook.Percent(count, total);
    WorkflowMetricsHook.PercentBounds(count, total);
    assert ShareText(count, total, fixed1) == fixed1(x) + "%";
  }

  /**
   * The panel's three lines (completed, failed, in progress) with the
   * zero-total guard: the page's own text whenever its total is positive,
   * and 0% in place of its `NaN%` otherwise.
   */
  function StatusDistribution(s: WorkflowMetricsHook.Summary, fixed1: real -> string): (r: seq<string>)
    ensures |r| == 3
    ensures s.totalWorkflows > 0 ==>
      r == [ShareTextAsWritten(s.completedWorkflows, s.totalWorkflows, fixed1),
            ShareTextAsWritten(s.failedWorkflows, s.totalWorkflows, fixed1),
            ShareTextAsWritten(s.inProgressWorkflows, s.totalWorkflows, fixed1)]
    ensures s.totalWorkflows <= 0 ==> forall i :: 0 <= i < 3 ==> r[i] == fixed1(0.0) + "%"
  {
    [ShareText(s.completedWorkflows, s.totalWorkflows, fixed1),
     ShareText(s.failedWorkflows, s.totalWorkflows, fixed1),
     ShareText(s.inProgressWorkflows, s.totalWorkflows, fixed1)]
  }

  /**
   * With counts that fit in the total, the three bars show shares between 0
   * and 100 that add up to at most 100, and to exactly 100 when every
   * workflow is completed, failed or in progress.
   */
  lemma StatusSharesAddUp(s: WorkflowMetricsHook.Summary, fixed1: real -> string) returns (x: real, y: real, z: real)
    requires 0 <= s.completedWorkflows && 0 <= s.failedWorkflows && 0 <= s.inProgressWorkflows
    requires s.completedWorkflows + s.failedWorkflows + s.inProgressWorkflows <= s.totalWorkflows
    ensures 0.0 <= x <= 100.0 && 0.0 <= y <= 100.0 && 0.0 <= z <= 100.0 && x + y + z <= 100.0
    ensures s.totalWorkflows > 0 && s.completedWorkflows + s.failedWorkflows + s.inProgressWorkflows == s.totalWorkflows
      ==> x + y + z == 100.0
    ensures StatusDistribution(s, fixed1) == [fixed1(x) + "%", fixed1(y) + "%", fixed1(z) + "%"]
  {
    var c, f, p, t := s.completedWorkflows, s.failedWorkflows, s.inProgressWorkflows, s.totalWorkflows;
    x, y, z := WorkflowMetricsHook.Percent(c, t), WorkflowMetricsHook.Percent(f, t), WorkflowMetricsHook.Percent(p, t);
    WorkflowMetricsHook.PercentBounds(c, t);
    WorkflowMetricsHook.PercentBounds(f, t);
    WorkflowMetricsHook.PercentBounds(p, t);
    WorkflowMetricsHook.PercentAdditive(c, f, t);
    WorkflowMetricsHook.PercentAdditive(c + f, p, t);
    WorkflowMetricsHook.PercentBounds(c + f + p, t);
    if t > 0 && c + f + p == t {
      assert WorkflowMetricsHook.Percent(t, t) * (t as real) == (t as real) * 100.0;
    }
  }

  // ---------------------------------------------------------------------
  // The page

  class MetricsPage {
    var metrics: Option<WorkflowMetricsHook.MetricsResponse>
    var loading: bool
    var error: Option<string>
    var lastUpdated: Option<int>
    var filters: MetricsParams

    constructor()
      ensures metrics == None && !loading && error == None && lastUpdated == None && filters == InitialFilters
    {
      metrics, loading, error, lastUpdated, filters := None, false, None, None, InitialFilters;
    }

    /**
     * `fetchMetrics` at time `now`, once `getWorkflowMetrics(query)`
     * resolved to `reply`; `query` is the cleaned filter set it was given.
     */
    method FetchMetrics(reply: WorkflowMetricsHook.FetchReply, now: int) returns (query: MetricsParams)
      modifies this
      ensures query == CleanFilters(old(filters)) && filters == old(filters) && !loading
      ensures reply.success && reply.data.Some? ==>
        metrics == reply.data && lastUpdated == Some(now) && error == None
      ensures !(reply.success && reply.data.Some?) ==>
        metrics == old(metrics) && lastUpdated == old(lastUpdated)
        && error == Some(if reply.error != "" then reply.error else PageFetchFailedMessage)
    {
      loading := true;
      error := None;
      query := CleanFilters(filters);
      if reply.success && reply.data.Some? {
        metrics := reply.data;
        lastUpdated := Some(now);
      } else {
        error := Some(if reply.error != "" then reply.error else PageFetchFailedMessage);
      }
      loading := false;
    }

    /** `handleFilterChange(key, value)` */
    method HandleFilterChange(key: FilterKey, value: string)
      modifies this
      ensures filters == FilterChange(old(filters), key, value)
      ensures metrics == old(metrics) && loading == old(loading) && error == old(error) && lastUpdated == old(lastUpdated)
    {
      filters := FilterChange(filters, key, value);
    }

    /** `clearFilters` */
    method ClearFilters()
      modifies this
      ensures filters == InitialFilters
      ensures metrics == old(metrics) && loading == old(loading) && error == old(error) && lastUpdated == old(lastUpdated)
    {
      filters := InitialFilters;
    }
  }
}
