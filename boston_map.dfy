/** The Leaflet map of Boston (apps/web/src/components/BostonMap.tsx): the map controller
    that reports the visible rectangle (once at mount, then debounced after every pan or
    zoom), the markers drawn for listings that carry a location, and the page-wide
    counter that gives each mounted map a fresh key. */
module BostonMap {
  import opened Wrappers
  import opened MarketApi

  /** A Leaflet corner. */
  datatype LatLng = LatLng(lat: real, lng: real)

  /** What `map.getBounds()` returns at a given moment. */
  datatype ViewBounds = ViewBounds(southWest: LatLng, northEast: LatLng)

  /** The rectangle handed to `onBoundsChange`: south-west from `getSouthWest()`,
      north-east from `getNorthEast()`. */
  function ToBounds(v: ViewBounds): Bounds {
    Bounds(v.southWest.lat, v.southWest.lng, v.northEast.lat, v.northEast.lng)
  }

  /** `debounceRef.current`: no timer, or one timer that fires at `deadline` (ms). */
  datatype Timer = Idle | Pending(deadline: int)

  /** The controller's state: its timer and every rectangle reported so far. */
  datatype Debounce = Debounce(timer: Timer, emitted: seq<Bounds>)

  /** A `moveend` event at time `at`, or the clock reaching `at` while the map shows `view`. */
  datatype MapEvent = MoveEnd(at: int) | Clock(at: int, view: ViewBounds)

  /** One event. A `moveend` clears the pending timer and schedules a new one `debounceMs`
      later; the clock passing the deadline fires the timer, which reads the bounds the map
      shows at that moment. A trace carries a `Clock` event at every deadline it passes, so
      a `moveend` only ever clears a timer that has not fired yet (`InOneWindow` states
      this for a burst). */
  function Step(debounceMs: int, s: Debounce, e: MapEvent): Debounce {
    match e
    case MoveEnd(at) => s.(timer := Pending(at + debounceMs))
    case Clock(at, view) =>
      if s.timer.Pending? && s.timer.deadline <= at then Debounce(Idle, s.emitted + [ToBounds(view)])
      else s
  }

  function Run(debounceMs: int, s: Debounce, events: seq<MapEvent>): Debounce
    decreases |events|
  {
    if events == [] then s else Run(debounceMs, Step(debounceMs, s, events[0]), events[1..])
  }

  function MoveEnds(times: seq<int>): (r: seq<MapEvent>)
    ensures |r| == |times| && forall i :: 0 <= i < |r| ==> r[i] == MoveEnd(times[i])
  {
    seq(|times|, i requires 0 <= i < |times| => MoveEnd(times[i]))
  }

  /** A burst of `moveend` events in which no timer comes due: the first arrives before the
      pending deadline, if any, and each later one less than `debounceMs` after the one
      before it. */
  predicate InOneWindow(debounceMs: int, s: Debounce, times: seq<int>) {
    && |times| >= 1
    && (s.timer.Pending? ==> times[0] < s.timer.deadline)
    && forall i :: 0 < i < |times| ==> times[i - 1] <= times[i] < times[i - 1] + debounceMs
  }

  /** A burst of `moveend` events within one window leaves one timer, set by the last of
      them, and reports nothing. */
  lemma {:induction false} BurstLeavesOneTimer(debounceMs: int, s: Debounce, times: seq<int>)
    requires InOneWindow(debounceMs, s, times)
    ensures Run(debounceMs, s, MoveEnds(times)) == Debounce(Pending(times[|times| - 1] + debounceMs), s.emitted)
    decreases |times|
  {
    var t := Step(debounceMs, s, MoveEnd(times[0]));
    assert MoveEnds(times)[1..] == MoveEnds(times[1..]);
    if |times| > 1 {
      assert InOneWindow(debounceMs, t, times[1..]) by {
        forall i | 0 < i < |times[1..]|
          ensures times[1..][i - 1] <= times[1..][i] < times[1..][i - 1] + debounceMs
        {
          assert times[1..][i - 1] == times[i] && times[1..][i] == times[i + 1];
        }
      }
      BurstLeavesOneTimer(debounceMs, t, times[1..]);
    }
  }

  /** Any number of `moveend` events within one window followed by the clock reaching the
      last deadline give exactly one report, carrying the bounds shown when the timer fires. */
  lemma BurstEmitsOnce(debounceMs: int, s: Debounce, times: seq<int>, now: int, view: ViewBounds)
    requires InOneWindow(debounceMs, s, times)
    requires now >= times[|times| - 1] + debounceMs
    ensures Run(debounceMs, s, MoveEnds(times) + [Clock(now, view)]) == Debounce(Idle, s.emitted + [ToBounds(view)])
  {
    BurstLeavesOneTimer(debounceMs, s, times);
    RunAppend(debounceMs, s, MoveEnds(times), [Clock(now, view)]);
  }

  /** Before its deadline a timer does not fire, whatever the map shows. */
  lemma QuietBeforeDeadline(debounceMs: int, s: Debounce, now: int, view: ViewBounds)
    requires s.timer.Pending? && now < s.timer.deadline
    ensures Step(debounceMs, s, Clock(now, view)) == s
  {
  }

  /** No event ever removes a report. */
  lemma {:induction false} ReportsOnlyGrow(debounceMs: int, s: Debounce, events: seq<MapEvent>)
    ensures var t := Run(debounceMs, s, events);
      |s.emitted| <= |t.emitted| && t.emitted[..|s.emitted|] == s.emitted
    decreases |events|
  {
    if events != [] {
      var t := Step(debounceMs, s, events[0]);
      ReportsOnlyGrow(debounceMs, t, events[1..]);
    }
  }

  lemma {:induction false} RunAppend(debounceMs: int, s: Debounce, a: seq<MapEvent>, b: seq<MapEvent>)
    ensures Run(debounceMs, s, a + b) == Run(debounceMs, Run(debounceMs, s, a), b)
    decreases |a|
  {
    if a != [] {
      assert (a + b)[1..] == a[1..] + b;
      RunAppend(debounceMs, Step(debounceMs, s, a[0]), a[1..], b);
    } else {
      assert a + b == b;
    }
  }

  /** `MapController`, holding `debounceRef` and the reports made through `onBoundsChange`. */
  class MapController {
    const debounceMs: int
    var timer: Timer
    var emitted: seq<Bounds>

    function State(): Debounce
      reads this
    {
      Debounce(timer, emitted)
    }

    /** Mounting reports the visible rectangle at once, without waiting. */
    constructor(debounceMs: int, view: ViewBounds)
      ensures this.debounceMs == debounceMs
      ensures timer == Idle && emitted == [ToBounds(view)]
    {
      this.debounceMs := debounceMs;
      timer := Idle;
      emitted := [ToBounds(view)];
    }

    /** The `moveend` handler. */
    method OnMoveEnd(now: int)
      modifies this
      ensures State() == Step(debounceMs, old(State()), MoveEnd(now))
      ensures timer == Pending(now + debounceMs) && emitted == old(emitted)
    {
      timer := Pending(now + debounceMs);
    }

    /** The clock reaching `now`; a due timer fires and reads the current bounds. */
    method OnClock(now: int, view: ViewBounds)
      modifies this
      ensures State() == Step(debounceMs, old(State()), Clock(now, view))
    {
      if timer.Pending? && timer.deadline <= now {
        emitted := emitted + [ToBounds(view)];
        timer := Idle;
      }
    }
  }

  /** The module-level `mapInstanceId` counter. */
  class MapInstances {
    var mapInstanceId: int

    predicate Valid()
      reads this
    {
      mapInstanceId >= 0
    }

    constructor()
      ensures Valid() && mapInstanceId == 0
    {
      mapInstanceId := 0;
    }

    /** The mount effect: the counter goes up by one and its new value is the map's key. */
    method Next() returns (mapKey: int)
      requires Valid()
      modifies this
      ensures Valid()
      ensures mapInstanceId == old(mapInstanceId) + 1 && mapKey == mapInstanceId
      ensures mapKey > old(mapInstanceId) && mapKey > 0
    {
      mapInstanceId := mapInstanceId + 1;
      mapKey := mapInstanceId;
    }
  }

  /** `BostonMap`'s own state: the key of its map, 0 until the mount effect has run. */
  class BostonMapView {
    var mapKey: int

    constructor()
      ensures mapKey == 0 && ShowsPlaceholder()
    {
      mapKey := 0;
    }

    /** While the key is 0 a grey placeholder is drawn instead of the map. */
    predicate ShowsPlaceholder()
      reads this
    {
      mapKey == 0
    }

    method Mount(instances: MapInstances)
      requires instances.Valid()
      modifies this, instances
      ensures instances.Valid() && instances.mapInstanceId == old(instances.mapInstanceId) + 1
      ensures mapKey == instances.mapInstanceId && !ShowsPlaceholder()
    {
      mapKey := instances.Next();
    }
  }

  /** `l.location?.coordinates?.length === 2` */
  predicate HasMarker(l: MarketListing) {
    l.location.Some? && |l.location.value.coordinates| == 2
  }

  /** A marker: the listing id and the Leaflet position `[lat, lng]`. */
  datatype Marker = Marker(id: string, lat: real, lng: real)

  /** The marker of a listing with a location: GeoJSON stores `[lng, lat]` and Leaflet
      takes `[lat, lng]`, so the two numbers are swapped. */
  function MarkerOf(l: MarketListing): (m: Marker)
    requires HasMarker(l)
    ensures m.id == l.id && [m.lng, m.lat] == l.location.value.coordinates
  {
    Marker(l.id, l.location.value.coordinates[1], l.location.value.coordinates[0])
  }

  /** One marker per listing with a two-number location, in listing order. */
  function Markers(listings: seq<MarketListing>): (r: seq<Marker>)
    ensures |r| <= |listings|
    ensures forall m :: m in r <==> (exists l :: l in listings && HasMarker(l) && m == MarkerOf(l))
  {
    if listings == [] then []
    else
      var l := listings[0];
      var rest := Markers(listings[1..]);
      assert forall x :: x in listings <==> x == l || x in listings[1..];
      if HasMarker(l) then [MarkerOf(l)] + rest
      else rest
  }
}
