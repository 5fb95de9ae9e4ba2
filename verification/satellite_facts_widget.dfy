// The facts carousel: the fetched facts, the cursor over them and the two
// timers that refresh and cycle them.

module SatelliteFactsWidget {
  import opened Common
  import SatelliteAiService

  const FactsFailedMessage: string := "Failed to generate facts"
  const FactCount: int := 5
  const CycleMs: int := 8000

  /** The cursor after `nextFact` over `n` facts. */
  function NextIndex(i: int, n: int): (r: int)
    requires n > 0 && 0 <= i < n
    ensures 0 <= r < n
    ensures i < n - 1 ==> r == i + 1
    ensures i == n - 1 ==> r == 0
  {
    (i + 1) % n
  }

  /** The cursor after `prevFact` over `n` facts. */
  function PrevIndex(i: int, n: int): (r: int)
    requires n > 0 && 0 <= i < n
    ensures 0 <= r < n
    ensures i > 0 ==> r == i - 1
    ensures i == 0 ==> r == n - 1
  {
    (i - 1 + n) % n
  }

  lemma PrevUndoesNext(i: int, n: int)
    requires n > 0 && 0 <= i < n
    ensures PrevIndex(NextIndex(i, n), n) == i
  {
  }

  lemma NextUndoesPrev(i: int, n: int)
    requires n > 0 && 0 <= i < n
    ensures NextIndex(PrevIndex(i, n), n) == i
  {
  }

  /** The refresh timer's period: armed whenever `autoRefresh` is on, whatever the interval. */
  function RefreshTimer(autoRefresh: bool, refreshIntervalMinutes: int): (r: Option<int>)
    ensures r.Some? <==> autoRefresh
    ensures r.Some? ==> r.value == refreshIntervalMinutes * 60000
  {
    if autoRefresh then Some(refreshIntervalMinutes * 60 * 1000) else None
  }

  class FactsWidget {
    var facts: seq<string>
    var currentFactIndex: int
    var loading: bool
    var error: Option<string>
    var lastUpdated: Option<int>

    /** The cursor points into the facts whenever there are any. */
    predicate Valid()
      reads this
    {
      if facts == [] then currentFactIndex == 0 else 0 <= currentFactIndex < |facts|
    }

    constructor()
      ensures Valid() && facts == [] && currentFactIndex == 0
      ensures !loading && error == None && lastUpdated == None
    {
      facts, currentFactIndex := [], 0;
      loading, error, lastUpdated := false, None, None;
    }

    /**
     * `fetchFacts` once `generateSatelliteFacts(name, 5)` resolved to `res`,
     * with the clock reading `now`.
     */
    method FetchFacts(res: SatelliteAiService.FactsResponse, now: int)
      requires Valid()
      modifies this
      ensures Valid()
      ensures !loading
      ensures res.success && res.facts != [] ==>
        facts == res.facts && currentFactIndex == 0 && lastUpdated == Some(now) && error == None
      ensures !(res.success && res.facts != []) ==>
        facts == old(facts) && currentFactIndex == old(currentFactIndex) && lastUpdated == old(lastUpdated)
        && error == Some(if res.error.Some? && res.error.value != "" then res.error.value else FactsFailedMessage)
    {
      loading := true;
      error := None;
      if res.success && |res.facts| > 0 {
        facts := res.facts;
        currentFactIndex := 0;
        lastUpdated := Some(now);
      } else {
        error := Some(if res.error.Some? && res.error.value != "" then res.error.value else FactsFailedMessage);
      }
      loading := false;
    }

    /** `nextFact` (also the auto-cycle step). */
    method NextFact()
      requires Valid() && facts != []
      modifies this
      ensures facts == old(facts) && loading == old(loading) && error == old(error) && lastUpdated == old(lastUpdated)
      ensures Valid()
      ensures currentFactIndex == NextIndex(old(currentFactIndex), |facts|)
    {
      currentFactIndex := (currentFactIndex + 1) % |facts|;
    }

    /** `prevFact` */
    method PrevFact()
      requires Valid() && facts != []
      modifies this
      ensures facts == old(facts) && loading == old(loading) && error == old(error) && lastUpdated == old(lastUpdated)
      ensures Valid()
      ensures currentFactIndex == PrevIndex(old(currentFactIndex), |facts|)
    {
      currentFactIndex := (currentFactIndex - 1 + |facts|) % |facts|;
    }

    /** A click on the dot of fact `index`; a dot is drawn for each fact. */
    method SelectFact(index: int)
      requires Valid() && 0 <= index < |facts|
      modifies this
      ensures facts == old(facts) && loading == old(loading) && error == old(error) && lastUpdated == old(lastUpdated)
      ensures Valid()
      ensures currentFactIndex == index
    {
      currentFactIndex := index;
    }

    /**
     * The auto-cycle timer and the navigation buttons exist only with more
     * than one fact, so the cursor arithmetic never divides by zero.
     */
    function CycleTimer(): (r: Option<int>)
      reads this
      ensures r.Some? <==> |facts| > 1
      ensures r.Some? ==> r.value == CycleMs
    {
      if |facts| > 1 then Some(CycleMs) else None
    }

    /**
     * The previous/next buttons are rendered with more than one fact, which is
     * exactly when the auto-cycle timer runs. Then `NextFact` and `PrevFact`
     * may be called, and each moves the cursor to a different fact.
     */
    function ShowsNavigation(): (r: bool)
      reads this
      ensures r <==> CycleTimer().Some?
      ensures r ==> facts != []
      ensures r && Valid() ==>
        NextIndex(currentFactIndex, |facts|) != currentFactIndex
        && PrevIndex(currentFactIndex, |facts|) != currentFactIndex
    {
      |facts| > 1
    }
  }
}
