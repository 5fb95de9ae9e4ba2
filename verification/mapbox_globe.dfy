// The globe's tracking loop, reduced to its bookkeeping: every animation
// frame with a position reports the satellite, moves the marker and grows
// the orbit trail, which keeps only the newest hundred points.

module MapboxGlobe {
  import opened Common

  const TrailCapacity: nat := 100
  /** The ISS orbital period in minutes, reported on every update. */
  const IssPeriod: real := 92.68

  /** A trail point, in Mapbox's `[lng, lat]` order. */
  datatype LngLat = LngLat(lng: real, lat: real)

  /**
   * What one frame's propagation yields, already converted to geodetic
   * degrees; `speed` is the velocity vector's length, or 0 when the
   * propagator gives no velocity.
   */
  datatype Fix = Fix(lat: real, lng: real, altitude: real, speed: real)

  /** The object passed to `onSatelliteUpdate`. */
  datatype Report = Report(lat: real, lng: real, altitude: real, velocity: real, period: real)

  function ReportOf(f: Fix): (r: Report)
    ensures r.period == IssPeriod
    ensures r.lat == f.lat && r.lng == f.lng && r.altitude == f.altitude && r.velocity == f.speed
  {
    Report(f.lat, f.lng, f.altitude, f.speed, IssPeriod)
  }

  /** The trail after one more point: `[...prev, p].slice(-100)`. */
  function Extend(path: seq<LngLat>, p: LngLat): (r: seq<LngLat>)
    ensures |r| == if |path| < TrailCapacity then |path| + 1 else TrailCapacity
    ensures r[|r| - 1] == p
    ensures |path| < TrailCapacity ==> r == path + [p]
    ensures |path| == TrailCapacity ==> r == path[1..] + [p]
  {
    Drop(path + [p], -(TrailCapacity as int))
  }

  /** The trail after a frame whose propagation gave `fix`. */
  function Step(path: seq<LngLat>, fix: Option<Fix>): (r: seq<LngLat>)
    ensures fix.None? ==> r == path
    ensures fix.Some? ==> r != [] && r[|r| - 1] == LngLat(fix.value.lng, fix.value.lat)
    ensures |path| <= TrailCapacity ==> |r| <= TrailCapacity
  {
    if fix.Some? then Extend(path, LngLat(fix.value.lng, fix.value.lat)) else path
  }

  /** The trail after the frames `fixes`, oldest first. */
  function TrailAfter(path: seq<LngLat>, fixes: seq<Option<Fix>>): (r: seq<LngLat>)
    ensures |path| <= TrailCapacity ==> |r| <= TrailCapacity
  {
    if fixes == [] then path else Step(TrailAfter(path, fixes[..|fixes| - 1]), fixes[|fixes| - 1])
  }

  /** The reports sent during the frames `fixes`, oldest first. */
  function ReportsAfter(fixes: seq<Option<Fix>>): (r: seq<Report>)
    ensures |r| <= |fixes|
    ensures forall i :: 0 <= i < |r| ==> r[i].period == IssPeriod
  {
    if fixes == [] then []
    else
      var last := fixes[|fixes| - 1];
      ReportsAfter(fixes[..|fixes| - 1]) + (if last.Some? then [ReportOf(last.value)] else [])
  }

  /**
   * Where the marker (or, with `centerOnSatellite`, the camera) is after the
   * frames `fixes`: the newest position among them, or `p` when none gave one.
   */
  function LastPosition(p: Option<LngLat>, fixes: seq<Option<Fix>>): (r: Option<LngLat>)
    ensures fixes != [] && fixes[|fixes| - 1].Some? ==>
      r == Some(LngLat(fixes[|fixes| - 1].value.lng, fixes[|fixes| - 1].value.lat))
    ensures r == p || r.Some?
  {
    if fixes == [] then p
    else
      var last := fixes[|fixes| - 1];
      if last.Some? then Some(LngLat(last.value.lng, last.value.lat)) else LastPosition(p, fixes[..|fixes| - 1])
  }

  /** The number of frames that produced a position. */
  function Hits(fixes: seq<Option<Fix>>): (n: nat)
    ensures n <= |fixes|
  {
    if fixes == [] then 0 else Hits(fixes[..|fixes| - 1]) + (if fixes[|fixes| - 1].Some? then 1 else 0)
  }

  // ---------------------------------------------------------------------
  // Properties of the trail

  /** Frames without a position leave the trail and the reports alone. */
  lemma {:induction false} NoFixNoChange(path: seq<LngLat>, fixes: seq<Option<Fix>>)
    requires forall i :: 0 <= i < |fixes| ==> fixes[i].None?
    ensures TrailAfter(path, fixes) == path
    ensures ReportsAfter(fixes) == []
  {
    if fixes != [] {
      NoFixNoChange(path, fixes[..|fixes| - 1]);
    }
  }

  /** The trail grows by one per position until it is full, then stays full. */
  lemma {:induction false} TrailLength(path: seq<LngLat>, fixes: seq<Option<Fix>>)
    requires |path| <= TrailCapacity
    ensures |TrailAfter(path, fixes)| == if |path| + Hits(fixes) < TrailCapacity then |path| + Hits(fixes) else TrailCapacity
  {
    if fixes != [] {
      TrailLength(path, fixes[..|fixes| - 1]);
    }
  }

  /** One report per position, in order. */
  lemma {:induction false} OneReportPerHit(fixes: seq<Option<Fix>>)
    ensures |ReportsAfter(fixes)| == Hits(fixes)
  {
    if fixes != [] {
      OneReportPerHit(fixes[..|fixes| - 1]);
    }
  }

  /** The marker ends at the newest frame that gave a position, and stays
      put when no frame did. */
  lemma {:induction false} LastPositionIsNewest(p: Option<LngLat>, fixes: seq<Option<Fix>>)
    ensures Hits(fixes) == 0 ==> LastPosition(p, fixes) == p
    ensures Hits(fixes) > 0 ==>
      exists i :: 0 <= i < |fixes| && fixes[i].Some?
        && LastPosition(p, fixes) == Some(LngLat(fixes[i].value.lng, fixes[i].value.lat))
        && forall j :: i < j < |fixes| ==> fixes[j].None?
  {
    if fixes != [] {
      var n := |fixes| - 1;
      if fixes[n].None? {
        var init := fixes[..n];
        LastPositionIsNewest(p, init);
        if Hits(init) > 0 {
          var i :| 0 <= i < |init| && init[i].Some?
            && LastPosition(p, init) == Some(LngLat(init[i].value.lng, init[i].value.lat))
            && forall j :: i < j < |init| ==> init[j].None?;
          assert fixes[i] == init[i];
          assert forall j :: i < j < |fixes| ==> fixes[j].None? by {
            forall j | i < j < |fixes| ensures fixes[j].None? {
              if j < n { assert fixes[j] == init[j]; }
            }
          }
        }
      }
    }
  }

  /** After a frame with a position, that position is the trail's newest point. */
  lemma NewestLast(path: seq<LngLat>, fixes: seq<Option<Fix>>)
    requires fixes != [] && fixes[|fixes| - 1].Some?
    ensures var r := TrailAfter(path, fixes);
      r != [] && r[|r| - 1] == LngLat(fixes[|fixes| - 1].value.lng, fixes[|fixes| - 1].value.lat)
  {
  }

  // ---------------------------------------------------------------------
  // The component

  class OrbitTracker {
    var orbitPath: seq<LngLat>
    var marker: Option<LngLat>
    var center: Option<LngLat>
    var reports: seq<Report>

    /** The trail holds at most a hundred points. */
    predicate Valid()
      reads this
    {
      |orbitPath| <= TrailCapacity
    }

    constructor()
      ensures Valid() && orbitPath == [] && marker == None && center == None && reports == []
    {
      orbitPath, marker, center, reports := [], None, None, [];
    }

    /** One `updateSatellitePosition` frame, whose propagation gave `fix`. */
    method Tick(fix: Option<Fix>, centerOnSatellite: bool)
      requires Valid()
      modifies this
      ensures Valid()
      ensures orbitPath == Step(old(orbitPath), fix)
      ensures fix.None? ==> marker == old(marker) && center == old(center) && reports == old(reports)
      ensures fix.Some? ==>
        reports == old(reports) + [ReportOf(fix.value)]
        && marker == Some(LngLat(fix.value.lng, fix.value.lat))
        && center == (if centerOnSatellite then Some(LngLat(fix.value.lng, fix.value.lat)) else old(center))
    {
      if fix.Some? {
        var f := fix.value;
        reports := reports + [ReportOf(f)];
        marker := Some(LngLat(f.lng, f.lat));
        if centerOnSatellite {
          center := Some(LngLat(f.lng, f.lat));
        }
        orbitPath := Extend(orbitPath, LngLat(f.lng, f.lat));
      }
    }

    /**
     * The tracking effect: when the map exists and tracking is on, one
     * frame per element of `fixes`; otherwise nothing.
     */
    method Track(mapExists: bool, isTracking: bool, centerOnSatellite: bool, fixes: seq<Option<Fix>>)
      requires Valid()
      modifies this
      ensures Valid()
      ensures !(mapExists && isTracking) ==>
        orbitPath == old(orbitPath) && marker == old(marker) && center == old(center) && reports == old(reports)
      ensures mapExists && isTracking ==>
        orbitPath == TrailAfter(old(orbitPath), fixes) && reports == old(reports) + ReportsAfter(fixes)
        && marker == LastPosition(old(marker), fixes)
        && center == (if centerOnSatellite then LastPosition(old(center), fixes) else old(center))
    {
      if !mapExists || !isTracking {
        return;
      }
      var i := 0;
      while i < |fixes|
        invariant 0 <= i <= |fixes|
        invariant Valid()
        invariant orbitPath == TrailAfter(old(orbitPath), fixes[..i])
        invariant reports == old(reports) + ReportsAfter(fixes[..i])
        invariant marker == LastPosition(old(marker), fixes[..i])
        invariant center == if centerOnSatellite then LastPosition(old(center), fixes[..i]) else old(center)
      {
        assert fixes[..i + 1][..i] == fixes[..i];
        Tick(fixes[i], centerOnSatellite);
        i := i + 1;
      }
      assert fixes[..|fixes|] == fixes;
    }
  }
}
