// The dashboard's metrics card: it loads through the metrics hook, stamps
// the time of the last good load, refreshes on a timer and lists the
// running workflows in short form.

module WorkflowMetricsWidget {
  import opened Common
  import WorkflowMetricsHook

  const DefaultRefreshMinutes: int := 5
  const ListedActive: nat := 3

  /** The auto-refresh interval in milliseconds, if a timer is set at all. */
  function AutoRefreshPeriod(autoRefresh: bool, refreshInterval: int): (r: Option<int>)
    ensures r.Some? <==> autoRefresh && refreshInterval > 0
    ensures r.Some? ==> r.value == refreshInterval * 60000 && r.value >= 60000
  {
    if autoRefresh && refreshInterval > 0 then Some(refreshInterval * 60 * 1000) else None
  }

  const RunningSuffix: string := "... - Running"

  /** One listed running workflow: the id's first eight characters. */
  function ActiveLine(w: WorkflowMetricsHook.Workflow): (r: string)
    ensures |r| == (if |w.workflowId| < 8 then |w.workflowId| else 8) + |RunningSuffix|
    ensures StartsWith(w.workflowId, r[..|r| - |RunningSuffix|])
    ensures EndsWith(r, RunningSuffix)
  {
    var head := Take(w.workflowId, 8);
    assert (head + RunningSuffix)[|head|..] == RunningSuffix;
    head + RunningSuffix
  }

  /** The "+N more" line under the list: the middle is the decimal text of `count`. */
  function MoreLine(count: nat): (r: string)
    ensures |r| > 6 && r[0] == '+' && r[|r| - 5..] == " more"
    ensures forall k :: 1 <= k < |r| - 5 ==> '0' <= r[k] <= '9'
    ensures DigitsValue(r[1..|r| - 5]) == count
  {
    var digits := NatToString(count);
    var r := "+" + digits + " more";
    assert r[1..|r| - 5] == digits;
    NatToStringValue(count);
    r
  }

  /** The lines of the active-workflows box, for the running workflows `active`. */
  function ActiveSummary(active: seq<WorkflowMetricsHook.Workflow>): (lines: seq<string>)
    ensures |active| <= ListedActive ==> |lines| == |active|
    ensures |active| > ListedActive ==> |lines| == ListedActive + 1 && lines[ListedActive] == MoreLine(|active| - ListedActive)
    ensures forall i :: 0 <= i < |lines| && i < ListedActive ==> i < |active| && lines[i] == ActiveLine(active[i])
  {
    Map(Take(active, ListedActive), ActiveLine)
    + (if |active| > ListedActive then [MoreLine(|active| - ListedActive)] else [])
  }

  class MetricsWidget {
    const hook: WorkflowMetricsHook.MetricsHook
    var lastUpdated: Option<int>

    constructor(hook: WorkflowMetricsHook.MetricsHook)
      ensures this.hook == hook && lastUpdated == None
    {
      this.hook := hook;
      lastUpdated := None;
    }

    /**
     * `loadMetrics` at time `now`, once the metrics request resolved to
     * `reply`: the stamp moves only when the hook's fetch did not throw.
     */
    method LoadMetrics(reply: WorkflowMetricsHook.FetchReply, now: int)
      modifies this, hook
      ensures reply.success && reply.data.Some? ==>
        lastUpdated == Some(now) && hook.metrics == reply.data && hook.error == None
      ensures !(reply.success && reply.data.Some?) ==>
        lastUpdated == old(lastUpdated) && hook.metrics == old(hook.metrics) && hook.error.Some?
      ensures !hook.loading
    {
      var r := hook.FetchMetrics(reply);
      if r.Success? {
        lastUpdated := Some(now);
      }
    }

    /** The active-workflows box as currently rendered. */
    function ActiveBox(): (lines: seq<string>)
      reads hook
      ensures lines == [] <==> hook.ActiveWorkflows() == []
      ensures lines == ActiveSummary(hook.ActiveWorkflows())
    {
      ActiveSummary(hook.ActiveWorkflows())
    }
  }
}
