// The `useWorkflowMetrics` hook: the last fetched metrics response, its
// loading/error flags, and the getters the pages read from it.

module WorkflowMetricsHook {
  import opened Common

  // ---------------------------------------------------------------------
  // The typed metrics response

  datatype Workflow = Workflow(
    id: string, workflowId: string, userId: string, orgId: string,
    startTimestamp: string, endTimestamp: Option<string>, status: string, description: Option<string>)

  datatype UserMetrics = UserMetrics(total: int, completed: int, failed: int, inProgress: int)

  /** `metrics_by_user` is a record; its entries are kept in `Object.entries` order. */
  datatype Summary = Summary(
    totalWorkflows: int, completedWorkflows: int, failedWorkflows: int, inProgressWorkflows: int,
    avgDurationMs: int, metricsByUser: seq<(string, UserMetrics)>)

  datatype MetricsResponse = MetricsResponse(metrics: Summary, workflows: seq<Workflow>)

  /** What `getWorkflowMetrics` resolved to; an absent `error` is the empty string. */
  datatype FetchReply = FetchReply(success: bool, data: Option<MetricsResponse>, error: string)

  datatype UserStat = UserStat(
    userId: string, total: int, completed: int, failed: int, inProgress: int, successRate: real)

  const FetchFailedMessage: string := "Failed to fetch workflow metrics"
  const DefaultRecentLimit: int := 10

  // ---------------------------------------------------------------------
  // Percentages

  /** `total > 0 ? (part / total) * 100 : 0` */
  function Percent(part: int, total: int): (r: real)
    ensures total <= 0 ==> r == 0.0
    ensures total > 0 ==> r * (total as real) == (part as real) * 100.0
  {
    if total > 0 then (part as real) / (total as real) * 100.0 else 0.0
  }

  /** A share of a non-negative total never exceeds 100 percent. */
  lemma PercentBounds(part: int, total: int)
    requires 0 <= part <= total
    ensures 0.0 <= Percent(part, total) <= 100.0
  {
    if total > 0 {
      var r := Percent(part, total);
      assert r * (total as real) == (part as real) * 100.0;
      assert r * (total as real) <= (total as real) * 100.0;
    }
  }

  /** Shares of the same total add up like their counts. */
  lemma PercentAdditive(a: int, b: int, total: int)
    ensures Percent(a, total) + Percent(b, total) == Percent(a + b, total)
  {
    if total > 0 {
      var t := total as real;
      assert Percent(a, total) == (a as real) / t * 100.0;
      assert Percent(b, total) == (b as real) / t * 100.0;
      assert Percent(a + b, total) == ((a as real) + (b as real)) / t * 100.0;
    }
  }

  /** Two disjoint shares of the same total add up to at most 100 percent. */
  lemma PercentSum(a: int, b: int, total: int)
    requires 0 <= a && 0 <= b && a + b <= total
    ensures 0.0 <= Percent(a, total) + Percent(b, total) <= 100.0
  {
    if total > 0 {
      var ra, rb, t := Percent(a, total), Percent(b, total), total as real;
      assert ra == (a as real) / t * 100.0 && rb == (b as real) / t * 100.0;
      assert ra + rb == ((a as real) + (b as real)) / t * 100.0;
      assert ra + rb == Percent(a + b, total);
      PercentBounds(a + b, total);
      PercentBounds(a, total);
      PercentBounds(b, total);
    }
  }

  // ---------------------------------------------------------------------
  // Sorting by a descending key (`Array.prototype.sort` with `b - a`)

  predicate SortedDesc<T>(s: seq<T>, key: T -> int) {
    forall i, j :: 0 <= i < j < |s| ==> key(s[i]) >= key(s[j])
  }

  /** Inserts `x` after every element whose key is at least its own. */
  function Insert<T>(x: T, s: seq<T>, key: T -> int): (r: seq<T>)
    ensures |r| == |s| + 1
    ensures multiset(r) == multiset(s) + multiset{x}
  {
    if s == [] || key(s[0]) < key(x) then [x] + s
    else
      assert s == [s[0]] + s[1..];
      [s[0]] + Insert(x, s[1..], key)
  }

  lemma {:induction false} InsertSorted<T>(x: T, s: seq<T>, key: T -> int)
    requires SortedDesc(s, key)
    ensures SortedDesc(Insert(x, s, key), key)
  {
    if s != [] && key(s[0]) >= key(x) {
      InsertSorted(x, s[1..], key);
      var r := Insert(x, s, key);
      var rest := Insert(x, s[1..], key);
      assert r == [s[0]] + rest;
      forall i, j | 0 <= i < j < |r|
        ensures key(r[i]) >= key(r[j])
      {
        if i == 0 {
          assert r[j] in multiset(rest);
          assert r[j] == x || r[j] in multiset(s[1..]);
        }
      }
    }
  }

  /** The model of `.sort((a, b) => key(b) - key(a))`: a stable insertion sort. */
  function SortDesc<T>(s: seq<T>, key: T -> int): (r: seq<T>)
    ensures |r| == |s|
    ensures multiset(r) == multiset(s)
  {
    if s == [] then []
    else
      assert s == s[..|s| - 1] + [s[|s| - 1]];
      Insert(s[|s| - 1], SortDesc(s[..|s| - 1], key), key)
  }

  lemma {:induction false} SortDescSorted<T>(s: seq<T>, key: T -> int)
    ensures SortedDesc(SortDesc(s, key), key)
  {
    if s != [] {
      SortDescSorted(s[..|s| - 1], key);
      InsertSorted(s[|s| - 1], SortDesc(s[..|s| - 1], key), key);
    }
  }

  /** A workflow's sort key: its start time, read by `time`. */
  function StartTime(time: string -> int): Workflow -> int {
    (w: Workflow) => time(w.startTimestamp)
  }

  /** The elements whose key is `k`. */
  function KeyIs<T>(key: T -> int, k: int): T -> bool {
    x => key(x) == k
  }

  /** Inserting into a sorted list puts `x` after every element of equal key. */
  lemma {:induction false} InsertStable<T(!new)>(x: T, s: seq<T>, key: T -> int, k: int)
    requires SortedDesc(s, key)
    ensures Filter(Insert(x, s, key), KeyIs(key, k))
      == Filter(s, KeyIs(key, k)) + (if key(x) == k then [x] else [])
  {
    var p := KeyIs(key, k);
    if s == [] || key(s[0]) < key(x) {
      assert ([x] + s)[1..] == s;
      if key(x) == k {
        forall y | y in s ensures !p(y) {
          var j :| 0 <= j < |s| && s[j] == y;
          assert key(s[0]) >= key(s[j]);
        }
        FilterNone(s, p);
      }
    } else {
      assert SortedDesc(s[1..], key) by {
        forall i, j | 0 <= i < j < |s[1..]| ensures key(s[1..][i]) >= key(s[1..][j]) {
          assert s[1..][i] == s[i + 1] && s[1..][j] == s[j + 1];
        }
      }
      InsertStable(x, s[1..], key, k);
      assert ([s[0]] + Insert(x, s[1..], key))[1..] == Insert(x, s[1..], key);
    }
  }

  /** The sort is stable: for every key, the elements with that key keep
      their input order. */
  lemma {:induction false} SortDescStable<T(!new)>(s: seq<T>, key: T -> int, k: int)
    ensures Filter(SortDesc(s, key), KeyIs(key, k)) == Filter(s, KeyIs(key, k))
  {
    if s != [] {
      var init, last := s[..|s| - 1], s[|s| - 1];
      SortDescStable(init, key, k);
      SortDescSorted(init, key);
      InsertStable(last, SortDesc(init, key), key, k);
      assert s == init + [last];
      FilterSnoc(init, last, KeyIs(key, k));
    }
  }

  /** Taking a prefix of a descending list keeps the largest keys. */
  lemma TakeKeepsLargest<T>(s: seq<T>, limit: int, key: T -> int)
    requires SortedDesc(s, key)
    ensures SortedDesc(Take(s, limit), key)
    ensures forall i, j :: 0 <= i < |Take(s, limit)| <= j < |s| ==> key(s[j]) <= key(Take(s, limit)[i])
  {
    var r := Take(s, limit);
    assert r == s[..|r|];
  }

  // ---------------------------------------------------------------------
  // Per-user statistics

  /** One row of `getUserStats`, before sorting. */
  function ToUserStat(entry: (string, UserMetrics)): (r: UserStat)
    ensures r.userId == entry.0 && r.total == entry.1.total && r.completed == entry.1.completed
    ensures r.failed == entry.1.failed && r.inProgress == entry.1.inProgress
    ensures r.total <= 0 ==> r.successRate == 0.0
    ensures 0 <= r.completed <= r.total ==> 0.0 <= r.successRate <= 100.0
  {
    PercentBounds2(entry.1.completed, entry.1.total);
    UserStat(entry.0, entry.1.total, entry.1.completed, entry.1.failed, entry.1.inProgress,
             Percent(entry.1.completed, entry.1.total))
  }

  lemma PercentBounds2(part: int, total: int)
    ensures 0 <= part <= total ==> 0.0 <= Percent(part, total) <= 100.0
  {
    if 0 <= part <= total {
      PercentBounds(part, total);
    }
  }

  function StatTotal(s: UserStat): int {
    s.total
  }

  // ---------------------------------------------------------------------
  // The hook

  class MetricsHook {
    var loading: bool
    var error: Option<string>
    var metrics: Option<MetricsResponse>

    constructor()
      ensures !loading && error == None && metrics == None
    {
      loading := false;
      error := None;
      metrics := None;
    }

    /**
     * `fetchMetrics` after `getWorkflowMetrics` resolved to `reply`. A
     * failure is reported through the result (the hook rethrows it).
     */
    method FetchMetrics(reply: FetchReply) returns (r: Result<MetricsResponse, string>)
      modifies this
      ensures !loading
      ensures reply.success && reply.data.Some? ==>
        r == Success(reply.data.value) && metrics == reply.data && error == None
      ensures !(reply.success && reply.data.Some?) ==>
        var message := if reply.error != "" then reply.error else FetchFailedMessage;
        r == Failure(message) && error == Some(message) && metrics == old(metrics)
    {
      loading := true;
      error := None;
      if reply.success && reply.data.Some? {
        metrics := reply.data;
        r := Success(reply.data.value);
      } else {
        var message := if reply.error != "" then reply.error else FetchFailedMessage;
        error := Some(message);
        r := Failure(message);
      }
      loading := false;
    }

    method ClearError()
      modifies this
      ensures error == None && loading == old(loading) && metrics == old(metrics)
    {
      error := None;
    }

    method ClearMetrics()
      modifies this
      ensures metrics == None && loading == old(loading) && error == old(error)
    {
      metrics := None;
    }

    function SuccessRate(): (r: real)
      reads this
      ensures metrics.None? || metrics.value.metrics.totalWorkflows <= 0 ==> r == 0.0
      ensures metrics.Some? && metrics.value.metrics.totalWorkflows > 0 ==>
        r * (metrics.value.metrics.totalWorkflows as real) == (metrics.value.metrics.completedWorkflows as real) * 100.0
    {
      if metrics.None? then 0.0
      else Percent(metrics.value.metrics.completedWorkflows, metrics.value.metrics.totalWorkflows)
    }

    function FailureRate(): (r: real)
      reads this
      ensures metrics.None? || metrics.value.metrics.totalWorkflows <= 0 ==> r == 0.0
      ensures metrics.Some? && metrics.value.metrics.totalWorkflows > 0 ==>
        r * (metrics.value.metrics.totalWorkflows as real) == (metrics.value.metrics.failedWorkflows as real) * 100.0
    {
      if metrics.None? then 0.0
      else Percent(metrics.value.metrics.failedWorkflows, metrics.value.metrics.totalWorkflows)
    }

    /** `getWorkflowsByStatus`: the workflows with that status, in their stored order. */
    function WorkflowsByStatus(status: string): (r: seq<Workflow>)
      reads this
      ensures forall w :: w in r <==> metrics.Some? && w in metrics.value.workflows && w.status == status
      ensures metrics.Some? ==> IsSubsequence(r, metrics.value.workflows)
      ensures metrics.None? ==> r == []
      ensures metrics.Some? ==> |r| == CountWhere(metrics.value.workflows, (w: Workflow) => w.status == status)
    {
      if metrics.None? then []
      else
        FilterIsSubsequence(metrics.value.workflows, (w: Workflow) => w.status == status);
        Filter(metrics.value.workflows, (w: Workflow) => w.status == status)
    }

    /** `getActiveWorkflows`: the workflows still in progress. */
    function ActiveWorkflows(): (r: seq<Workflow>)
      reads this
      ensures r == WorkflowsByStatus("in_progress")
      ensures forall w :: w in r ==> w.status == "in_progress"
    {
      if metrics.None? then []
      else Filter(metrics.value.workflows, (w: Workflow) => w.status == "in_progress")
    }

    /**
     * `getRecentWorkflows(limit)`: sorts the stored workflows newest first
     * (stably: equal start times keep their order), in place, then returns
     * the first `limit` of them. `time` is
     * `new Date(s).getTime()`.
     */
    method RecentWorkflows(limit: int, time: string -> int) returns (r: seq<Workflow>)
      modifies this
      ensures loading == old(loading) && error == old(error)
      ensures old(metrics).None? ==> r == [] && metrics == None
      ensures old(metrics).Some? ==>
        metrics.Some? && metrics.value.metrics == old(metrics).value.metrics
        && multiset(metrics.value.workflows) == multiset(old(metrics).value.workflows)
        && SortedDesc(metrics.value.workflows, StartTime(time))
        && r == Take(metrics.value.workflows, limit)
      ensures old(metrics).Some? && metrics.Some? ==>
        forall k :: Filter(metrics.value.workflows, KeyIs(StartTime(time), k))
          == Filter(old(metrics).value.workflows, KeyIs(StartTime(time), k))
      ensures limit >= 0 ==> |r| <= limit
      ensures SortedDesc(r, StartTime(time))
      ensures metrics.Some? ==> forall i, j :: 0 <= i < |r| <= j < |metrics.value.workflows| ==>
        time(metrics.value.workflows[j].startTimestamp) <= time(r[i].startTimestamp)
    {
      if metrics.None? {
        r := [];
        return;
      }
      var key := StartTime(time);
      var sorted := SortDesc(metrics.value.workflows, key);
      SortDescSorted(metrics.value.workflows, key);
      forall k ensures Filter(sorted, KeyIs(key, k)) == Filter(metrics.value.workflows, KeyIs(key, k)) {
        SortDescStable(metrics.value.workflows, key, k);
      }
      metrics := Some(metrics.value.(workflows := sorted));
      r := Take(sorted, limit);
      TakeKeepsLargest(sorted, limit, key);
    }

    /** `getUserStats`: one row per user, most workflows first; users with
        the same total keep the order of `metricsByUser`. */
    function UserStats(): (r: seq<UserStat>)
      reads this
      ensures metrics.None? ==> r == []
      ensures metrics.Some? ==>
        |r| == |metrics.value.metrics.metricsByUser|
        && multiset(r) == multiset(Map(metrics.value.metrics.metricsByUser, ToUserStat))
      ensures SortedDesc(r, StatTotal)
      ensures metrics.Some? ==>
        forall k :: Filter(r, KeyIs(StatTotal, k)) == Filter(Map(metrics.value.metrics.metricsByUser, ToUserStat), KeyIs(StatTotal, k))
    {
      if metrics.None? then []
      else
        var rows := Map(metrics.value.metrics.metricsByUser, ToUserStat);
        SortDescSorted(rows, StatTotal);
        assert forall k :: Filter(SortDesc(rows, StatTotal), KeyIs(StatTotal, k)) == Filter(rows, KeyIs(StatTotal, k)) by {
          forall k ensures Filter(SortDesc(rows, StatTotal), KeyIs(StatTotal, k)) == Filter(rows, KeyIs(StatTotal, k)) {
            SortDescStable(rows, StatTotal, k);
          }
        }
        SortDesc(rows, StatTotal)
    }

    function AverageDuration(): (r: int)
      reads this
      ensures metrics.None? ==> r == 0
      ensures metrics.Some? ==> r == metrics.value.metrics.avgDurationMs
    {
      if metrics.None? then 0 else metrics.value.metrics.avgDurationMs
    }

    function TotalWorkflows(): (r: int)
      reads this
      ensures metrics.None? ==> r == 0
      ensures metrics.Some? ==> r == metrics.value.metrics.totalWorkflows
    {
      if metrics.None? then 0 else metrics.value.metrics.totalWorkflows
    }
  }

  // ---------------------------------------------------------------------
  // Properties across getters

  /** With consistent counters, success and failure rates share one 100 percent. */
  lemma RatesShareHundred(h: MetricsHook)
    requires h.metrics.Some?
    requires 0 <= h.metrics.value.metrics.completedWorkflows
    requires 0 <= h.metrics.value.metrics.failedWorkflows
    requires h.metrics.value.metrics.completedWorkflows + h.metrics.value.metrics.failedWorkflows
             <= h.metrics.value.metrics.totalWorkflows
    ensures 0.0 <= h.SuccessRate() + h.FailureRate() <= 100.0
  {
    PercentSum(h.metrics.value.metrics.completedWorkflows, h.metrics.value.metrics.failedWorkflows,
               h.metrics.value.metrics.totalWorkflows);
  }

  /** Every user key yields exactly one row of `getUserStats`, and no row is invented. */
  lemma UserStatsRows(h: MetricsHook)
    requires h.metrics.Some?
    ensures forall e :: e in h.metrics.value.metrics.metricsByUser ==> ToUserStat(e) in h.UserStats()
    ensures forall s :: s in h.UserStats() ==>
      exists e :: e in h.metrics.value.metrics.metricsByUser && s == ToUserStat(e)
  {
    var entries := h.metrics.value.metrics.metricsByUser;
    var mapped := Map(entries, ToUserStat);
    var r := h.UserStats();
    assert multiset(r) == multiset(mapped);
    forall e | e in entries
      ensures ToUserStat(e) in r
    {
      var i :| 0 <= i < |entries| && entries[i] == e;
      assert mapped[i] == ToUserStat(e);
      assert ToUserStat(e) in multiset(mapped);
    }
    forall s | s in r
      ensures exists e :: e in entries && s == ToUserStat(e)
    {
      assert s in multiset(mapped);
      var i :| 0 <= i < |mapped| && mapped[i] == s;
      assert entries[i] in entries;
    }
  }
}
