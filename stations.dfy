/** The station lists both transit providers load from their stations.json: `station_by_id`,
    `train_station_to_str` and `stations_by_route`, written identically in providers/mbta/mbta.py
    and providers/mta/mta.py. The list is a parameter here rather than a module-level global. */
module StationLists {
  import opened Common
  import Numeric

  /** `Station`: a stop id, its name and the routes serving it (the MTA file's coordinates and
      direction labels are not used by this logic). */
  datatype Station = Station(stopId: string, stopName: string, routes: seq<string>)

  /** `station_by_id(stop_id)`: the first station of the list with that id, or `None`. */
  function StationById(stations: seq<Station>, stopId: string): (r: Option<Station>)
    ensures r.Some? ==> r.value.stopId == stopId && r.value in stations
    ensures r.Some? ==> exists k :: 0 <= k < |stations| && stations[k] == r.value &&
                                    forall j :: 0 <= j < k ==> stations[j].stopId != stopId
    ensures r.None? <==> forall s :: s in stations ==> s.stopId != stopId
  {
    match Numeric.FirstMatch(stations, (s: Station) => s.stopId == stopId)
    case None => None
    case Some(k) => Some(stations[k])
  }

  /** `train_station_to_str(station)`: the name of the first station with that id, "" if none. */
  function TrainStationToStr(stations: seq<Station>, stopId: string): (name: string)
    ensures (forall s :: s in stations ==> s.stopId != stopId) ==> name == ""
    ensures forall k :: (0 <= k < |stations| && stations[k].stopId == stopId &&
                         forall j :: 0 <= j < k ==> stations[j].stopId != stopId) ==> name == stations[k].stopName
  {
    match StationById(stations, stopId)
    case None => ""
    case Some(s) => s.stopName
  }

  /** How many times `route` occurs in `routes`. */
  function Occurrences(routes: seq<string>, route: string): (n: nat)
    ensures n <= |routes|
    ensures route !in routes ==> n == 0
  {
    if |routes| == 0 then 0
    else Occurrences(routes[..|routes| - 1], route) + (if routes[|routes| - 1] == route then 1 else 0)
  }

  function Repeat(s: Station, n: nat): (r: seq<Station>)
    ensures |r| == n && forall i :: 0 <= i < n ==> r[i] == s
  {
    seq(n, _ => s)
  }

  /** Whether some station of the list serves `route`. */
  predicate Serves(stations: seq<Station>, route: string) {
    |stations| > 0 && (Serves(stations[..|stations| - 1], route) || route in stations[|stations| - 1].routes)
  }

  /** The list `stations_by_route()[route]` ends with: the stations serving `route`, in list order,
      each once per time it lists the route. */
  function StationsOn(stations: seq<Station>, route: string): (r: seq<Station>)
    ensures !Serves(stations, route) ==> r == []
  {
    if |stations| == 0 then []
    else var last := stations[|stations| - 1];
      StationsOn(stations[..|stations| - 1], route) + Repeat(last, Occurrences(last.routes, route))
  }

  /** A station is listed under a route exactly when it is in the list and serves that route. */
  lemma {:induction false} StationsOnMembers(stations: seq<Station>, route: string, s: Station)
    ensures s in StationsOn(stations, route) <==> s in stations && route in s.routes
    decreases |stations|
  {
    if |stations| > 0 {
      var init, last := stations[..|stations| - 1], stations[|stations| - 1];
      StationsOnMembers(init, route, s);
      assert stations == init + [last];
      var n := Occurrences(last.routes, route);
      if route in last.routes {
        var k :| 0 <= k < |last.routes| && last.routes[k] == route;
        OccurrencesPositive(last.routes, route, k);
        assert Repeat(last, n)[0] == last;
      }
      assert s in Repeat(last, n) <==> n > 0 && s == last;
      assert s in StationsOn(stations, route) <==> s in StationsOn(init, route) || s in Repeat(last, n);
    }
  }

  lemma {:induction false} OccurrencesPositive(routes: seq<string>, route: string, k: nat)
    requires k < |routes| && routes[k] == route
    ensures Occurrences(routes, route) > 0
    decreases |routes|
  {
    if k < |routes| - 1 {
      OccurrencesPositive(routes[..|routes| - 1], route, k);
    }
  }

  /** `byRoute` lists, for the stations `done`, every route they serve with its stations. */
  ghost predicate Indexed(byRoute: map<string, seq<Station>>, done: seq<Station>) {
    forall r :: (r in byRoute <==> Serves(done, r)) && (r in byRoute ==> byRoute[r] == StationsOn(done, r))
  }

  /** `byRoute` is `Indexed` for `done` and has, besides, `station` filed under its first `j` routes. */
  ghost predicate Filing(byRoute: map<string, seq<Station>>, done: seq<Station>, station: Station, j: nat)
    requires j <= |station.routes|
  {
    forall r :: (r in byRoute <==> Serves(done, r) || r in station.routes[..j]) &&
      (r in byRoute ==> byRoute[r] == StationsOn(done, r) + Repeat(station, Occurrences(station.routes[..j], r)))
  }

  /** `stations_by_route()`: every route any station lists is a key, and its list is `StationsOn`. */
  method StationsByRoute(stations: seq<Station>) returns (byRoute: map<string, seq<Station>>)
    ensures forall r :: r in byRoute <==> Serves(stations, r)
    ensures forall r :: r in byRoute ==> byRoute[r] == StationsOn(stations, r)
  {
    byRoute := map[];
    for i := 0 to |stations|
      invariant Indexed(byRoute, stations[..i])
    {
      var station := stations[i];
      FilingStart(byRoute, stations[..i], station);
      for j := 0 to |station.routes|
        invariant Filing(byRoute, stations[..i], station, j)
      {
        var route := station.routes[j];
        var before := byRoute;
        if route !in byRoute {
          byRoute := byRoute[route := []];
        }
        byRoute := byRoute[route := byRoute[route] + [station]];
        FilingStep(before, byRoute, stations[..i], station, j);
      }
      assert stations[..i + 1] == stations[..i] + [station];
      FilingDone(byRoute, stations[..i], station);
    }
    assert stations[..|stations|] == stations;
  }

  lemma FilingStart(byRoute: map<string, seq<Station>>, done: seq<Station>, station: Station)
    requires Indexed(byRoute, done)
    ensures Filing(byRoute, done, station, 0)
  {
    forall r ensures r in byRoute ==> byRoute[r] == StationsOn(done, r) + Repeat(station, Occurrences(station.routes[..0], r)) {
      assert Repeat(station, 0) == [];
    }
  }

  /** Filing the station under its next route keeps `Filing`, one route further. */
  lemma FilingStep(before: map<string, seq<Station>>, after: map<string, seq<Station>>, done: seq<Station>,
                   station: Station, j: nat)
    requires j < |station.routes| && Filing(before, done, station, j)
    requires var route := station.routes[j];
      after == before[route := (if route in before then before[route] else []) + [station]]
    ensures Filing(after, done, station, j + 1)
  {
    var routes := station.routes;
    assert routes[..j + 1] == routes[..j] + [routes[j]];
    forall r
      ensures (r in after <==> Serves(done, r) || r in routes[..j + 1])
      ensures r in after ==> after[r] == StationsOn(done, r) + Repeat(station, Occurrences(routes[..j + 1], r))
    {
      OccurrencesSnoc(routes, j, r);
      if r == routes[j] {
        FiledOnceMore(before, done, station, j, r);
      }
    }
  }

  lemma FiledOnceMore(before: map<string, seq<Station>>, done: seq<Station>, station: Station, j: nat, r: string)
    requires j < |station.routes|
    requires r in before <==> Serves(done, r) || r in station.routes[..j]
    requires r in before ==> before[r] == StationsOn(done, r) + Repeat(station, Occurrences(station.routes[..j], r))
    ensures (if r in before then before[r] else []) + [station]
      == StationsOn(done, r) + Repeat(station, Occurrences(station.routes[..j], r) + 1)
  {
    var n := Occurrences(station.routes[..j], r);
    var on := StationsOn(done, r);
    RepeatSnoc(station, n);
    if r in before {
      calc {
        before[r] + [station];
        (on + Repeat(station, n)) + [station];
        on + (Repeat(station, n) + [station]);
      }
    } else {
      assert on == [] && n == 0;
      assert Repeat(station, 0) == [];
    }
  }

  lemma RepeatSnoc(s: Station, n: nat)
    ensures Repeat(s, n + 1) == Repeat(s, n) + [s]
  {
  }

  lemma OccurrencesSnoc(routes: seq<string>, j: nat, r: string)
    requires j < |routes|
    ensures Occurrences(routes[..j + 1], r) == Occurrences(routes[..j], r) + (if routes[j] == r then 1 else 0)
  {
    assert routes[..j + 1][..j] == routes[..j];
  }

  lemma FilingDone(byRoute: map<string, seq<Station>>, done: seq<Station>, station: Station)
    requires Filing(byRoute, done, station, |station.routes|)
    ensures Indexed(byRoute, done + [station])
  {
    var all := done + [station];
    assert all[..|all| - 1] == done;
    assert station.routes[..|station.routes|] == station.routes;
  }

}
