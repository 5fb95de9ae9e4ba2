// The orbital tracker's catalogue: a search over satellite names and a
// type filter with an "All" choice.

module SatellitesPage {
  import opened Common

  /** One catalogue entry; `kind` is the satellite's type. */
  datatype Satellite = Satellite(id: int, name: string, kind: string, orbit: string, country: string, altitude: int, velocity: real)

  const SatelliteData: seq<Satellite> := [
    Satellite(1, "ISS", "Scientific", "LEO", "International", 408, 7.66),
    Satellite(2, "Hubble", "Scientific", "LEO", "USA", 547, 7.59),
    Satellite(3, "GPS IIF-12", "Navigation", "MEO", "USA", 20200, 3.87),
    Satellite(4, "Intelsat 39", "Communication", "GEO", "Luxembourg", 35786, 3.07),
    Satellite(5, "NOAA-20", "Weather", "LEO", "USA", 824, 7.45)
  ]

  const AllTypes: string := "All"

  /** The filter chips offered above the list. */
  const Filters: seq<string> := [AllTypes, "Communication", "Weather", "Navigation", "Scientific", "Defense"]

  /** The search looks at the name only; the filter at the type. */
  predicate Matches(sat: Satellite, search: string, filter: string) {
    ContainsIgnoreCase(sat.name, search) && (filter == AllTypes || sat.kind == filter)
  }

  /** `filteredSatellites` over the catalogue `catalogue`. */
  function FilteredSatellites(catalogue: seq<Satellite>, search: string, filter: string): (r: seq<Satellite>)
    ensures forall sat :: sat in r <==>
      sat in catalogue && ContainsIgnoreCase(sat.name, search) && (filter == AllTypes || sat.kind == filter)
    ensures IsSubsequence(r, catalogue)
    ensures |r| == CountWhere(catalogue, (sat: Satellite) => Matches(sat, search, filter))
  {
    FilterIsSubsequence(catalogue, (sat: Satellite) => Matches(sat, search, filter));
    Filter(catalogue, (sat: Satellite) => Matches(sat, search, filter))
  }

  /** With no search and "All" chosen, the whole catalogue shows, in order. */
  lemma ShowsEverythingByDefault(catalogue: seq<Satellite>)
    ensures FilteredSatellites(catalogue, "", AllTypes) == catalogue
  {
    forall sat | sat in catalogue
      ensures Matches(sat, "", AllTypes)
    {
      EmptySearchMatches(sat.name);
    }
    FilterKeepsAll(catalogue, (sat: Satellite) => Matches(sat, "", AllTypes));
  }

  /** Two entries that differ only outside the name and type are found alike. */
  lemma {:induction false} SearchReadsOnlyName(sat: Satellite, other: Satellite, search: string, filter: string)
    requires other.name == sat.name && other.kind == sat.kind
    ensures other in FilteredSatellites([sat, other], search, filter) <==> sat in FilteredSatellites([sat, other], search, filter)
  {
    assert Matches(other, search, filter) == Matches(sat, search, filter);
  }

  /** A type no entry has, other than "All", empties the list. */
  lemma UnusedTypeShowsNothing(catalogue: seq<Satellite>, search: string, filter: string)
    requires filter != AllTypes
    requires forall sat :: sat in catalogue ==> sat.kind != filter
    ensures FilteredSatellites(catalogue, search, filter) == []
  {
    var r := FilteredSatellites(catalogue, search, filter);
    assert forall i :: 0 <= i < |r| ==> r[i] in r;
  }

  /** The "Defense" chip is offered, but no shipped satellite has that type. */
  lemma {:induction false} DefenseShowsNothing(search: string)
    ensures "Defense" in Filters
    ensures FilteredSatellites(SatelliteData, search, "Defense") == []
  {
    assert Filters[5] == "Defense";
    forall sat | sat in SatelliteData
      ensures sat.kind != "Defense"
    {
      assert sat.kind[0] != "Defense"[0];
    }
    UnusedTypeShowsNothing(SatelliteData, search, "Defense");
  }
}
