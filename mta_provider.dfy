/** providers/mta/mta.py and mta/mta.py: the New York subway clients. Both ask the "nearby" service
    for a stop (expanding station complexes into several stop ids), keep the trains that have not
    left yet and sort them by waiting time. They differ in how the waiting time is read: the
    providers client subtracts the feed's own clock fields, the earlier client in mta/ converts an
    arrival or departure time stamp against the local clock. The HTTP request is an input
    (`None` when it or its decoding failed); time stamps are given in milliseconds since the epoch. */
module MtaProvider {
  import opened Common
  import Numeric

  /** `TrainTime`: one upcoming train; `time` is the wait in seconds. */
  datatype TrainTime = TrainTime(routeId: string, directionId: string, longName: string, stopHeadsign: string,
                                 time: int, tripId: Option<string>, isExpress: bool)

  const Prefix := "MTASBWY:"

  /** `complex_stations`: the stop ids asked for together with a station of a complex. */
  const ComplexStations: map<string, seq<string>> := map[
    "127" := ["127", "R16", "902", "725"],
    "222" := ["222", "415"],
    "232" := ["232", "423"],
    "235" := ["235", "D24"],
    "631" := ["631", "723", "901"],
    "719" := ["719", "G22"],
    "A12" := ["A12", "D13"],
    "A24" := ["A24", "125"],
    "A32" := ["A32", "D20"],
    "A38" := ["A38", "M22"],
    "A41" := ["A41", "R29"],
    "D11" := ["D11", "414"],
    "J27" := ["J27", "L22", "A51"],
    "L17" := ["L17", "M08"],
    "M18" := ["M18", "F15"],
    "Q01" := ["M20", "639"],
    "R23" := ["Q01", "R23", "M20", "639"],
    "R09" := ["R09", "718"],
    "R17" := ["R17", "D17"],
    "R20" := ["R20", "L03", "635"]
  ]

  /** Each id with the feed's agency prefix. */
  function Prefixed(ids: seq<string>): (r: seq<string>)
    ensures |r| == |ids| && forall i :: 0 <= i < |ids| ==> r[i] == Prefix + ids[i]
  {
    seq(|ids|, i requires 0 <= i < |ids| => Prefix + ids[i])
  }

  /** `combine_complex_ids(complex_ids)`. */
  function CombineComplexIds(ids: seq<string>): string {
    Numeric.Join(Prefixed(ids), ",")
  }

  /** `check_for_complex_stop_ids(stop_id)`. */
  function CheckForComplexStopIds(stopId: string): string {
    if stopId in ComplexStations then CombineComplexIds(ComplexStations[stopId]) else Prefix + stopId
  }

  /** Splitting the combined ids at the commas gives back each id with its prefix, in order. */
  lemma CombineComplexIdsSplits(ids: seq<string>)
    requires |ids| >= 1 && forall i :: 0 <= i < |ids| ==> ',' !in ids[i]
    ensures var parts := Numeric.Split(CombineComplexIds(ids), ',');
      |parts| == |ids| && forall i :: 0 <= i < |ids| ==> parts[i] == Prefix + ids[i]
  {
    var ps := Prefixed(ids);
    forall i | 0 <= i < |ps|
      ensures ',' !in ps[i]
    {
      assert ps[i] == Prefix + ids[i];
      assert ',' !in Prefix;
    }
    Numeric.SplitJoin(ps, ',');
  }

  /** A stop outside the complexes is asked for alone. */
  lemma SingleStopId(stopId: string)
    requires stopId !in ComplexStations
    ensures CheckForComplexStopIds(stopId) == "MTASBWY:" + stopId
  {
  }

  /** "Q01" (Canal St on the 4, 5, 6, J and Z) is asked for as M20 and 639 only. */
  lemma CanalStreetLocalIds()
    ensures CheckForComplexStopIds("Q01") == Prefix + "M20" + "," + Prefix + "639"
  {
    assert ComplexStations["Q01"] == ["M20", "639"];
    var q := Prefixed(["M20", "639"]);
    assert q[1..] == [Prefix + "639"];
  }

  /** "R23" (Canal St on the R, W, N and Q) is asked for as all four Canal St ids. */
  lemma CanalStreetBroadwayIds()
    ensures CheckForComplexStopIds("R23")
         == Prefix + "Q01" + "," + Prefix + "R23" + "," + Prefix + "M20" + "," + Prefix + "639"
  {
    assert ComplexStations["R23"] == ["Q01", "R23", "M20", "639"];
    var canal := Prefixed(["Q01", "R23", "M20", "639"]);
    assert canal[1..][1..] == canal[2..];
    assert canal[2..][1..] == [Prefix + "639"];
  }

  /** One element of a group's `times`. Integer fields are seconds; `arrivalMs` and `departureMs`
      are `arrivalFmt` and `departureFmt` read as milliseconds since the epoch (`None` when absent
      or empty). */
  datatype TrainJson = TrainJson(scheduledArrival: Option<int>, realtimeArrival: Option<int>,
                                 timestamp: int, serviceDay: int,
                                 arrivalMs: Option<int>, departureMs: Option<int>,
                                 directionId: string, tripHeadsign: string, tripId: Option<string>)

  /** One element of a station's `groups`: a route (`route.id`, `route.longName`), a head sign and
      its trains. */
  datatype GroupJson = GroupJson(routeId: string, routeLongName: string, headsign: string, times: seq<TrainJson>)

  /** One element of the response: a station and its groups. */
  datatype StationJson = StationJson(groups: seq<GroupJson>)

  /** Which of the two clients reads the feed: providers/mta/mta.py, or mta/mta.py with the local
      clock it reads (one reading for the whole call). */
  datatype Client = Current | Legacy(nowMs: int)

  /** What a train does to the result: the call raises (and returns `None`), the train is skipped
      as already gone, or it is kept. */
  datatype Step = Raise | Skip | Keep(train: TrainTime)

  /** The `TrainTime` of a kept train: prefixes removed from the route and trip ids, express iff
      the route's long name says so in any case. */
  function MakeTrain(g: GroupJson, t: TrainJson, time: int): TrainTime {
    var tripId := if t.tripId.Some? then t.tripId.value else "";
    TrainTime(Numeric.RemoveAll(g.routeId, Prefix), t.directionId, t.tripHeadsign, g.headsign, time,
              Some(Numeric.RemoveAll(tripId, Prefix)), Numeric.Contains(Numeric.Lower(g.routeLongName), "express"))
  }

  /** Python truthiness of an optional int. */
  predicate Truthy(v: Option<int>) {
    v.Some? && v.value != 0
  }

  /** mta/mta.py: `arrivalFmt or departureFmt` when the train has neither a scheduled nor a real-time
      arrival, `departureFmt` otherwise. */
  function ArrivalSource(t: TrainJson): Option<int> {
    if !Truthy(t.scheduledArrival) && !Truthy(t.realtimeArrival) then
      (if t.arrivalMs.Some? then t.arrivalMs else t.departureMs)
    else t.departureMs
  }

  /** `calculate_arrival_time_in_seconds(arrival, now)`: `round((arrival - now) / 1000)`. */
  function ArrivalSeconds(arrivalMs: int, nowMs: int): int {
    Numeric.RoundHalfEven(arrivalMs - nowMs, 1000)
  }

  /** The result is the nearest whole second, ties to even. */
  lemma ArrivalSecondsNearest(arrivalMs: int, nowMs: int)
    ensures var s := ArrivalSeconds(arrivalMs, nowMs);
      -500 <= (arrivalMs - nowMs) - 1000 * s <= 500
  {
    Numeric.RoundHalfEvenNearest(arrivalMs - nowMs, 1000);
  }

  /** A train is kept by mta/mta.py exactly when it is due at most half a second ago (-0.5 s rounds
      to 0). */
  lemma LegacyKeepsDueTrains(arrivalMs: int, nowMs: int)
    ensures ArrivalSeconds(arrivalMs, nowMs) >= 0 <==> arrivalMs - nowMs >= -500
  {
    var d := arrivalMs - nowMs;
    var q, m := d / 1000, d % 1000;
    assert d == q * 1000 + m;
    if d >= -500 && q < 0 {
      assert q == -1 && m >= 500;
    }
  }

  /** What one train contributes. providers/mta/mta.py: `realtimeArrival - (timestamp - serviceDay)`
      (a missing `realtimeArrival` raises); mta/mta.py: the seconds to the chosen time stamp (a
      missing one raises). Trains with a negative wait are skipped. */
  function StepOf(client: Client, g: GroupJson, t: TrainJson): (s: Step)
    ensures s.Keep? ==> s.train.time >= 0
  {
    match client
    case Current =>
      if t.realtimeArrival.None? then Raise
      else
        var wait := t.realtimeArrival.value - (t.timestamp - t.serviceDay);
        if wait >= 0 then Keep(MakeTrain(g, t, wait)) else Skip
    case Legacy(nowMs) =>
      match ArrivalSource(t)
      case None => Raise
      case Some(ms) =>
        var time := ArrivalSeconds(ms, nowMs);
        if time >= 0 then Keep(MakeTrain(g, t, time)) else Skip
  }

  /** `[g for g in groups if g['times']]`. */
  function NonEmptyGroups(groups: seq<GroupJson>): (r: seq<GroupJson>)
    ensures forall g :: g in r ==> g in groups && |g.times| > 0
    ensures forall g :: g in groups && |g.times| > 0 ==> g in r
  {
    if |groups| == 0 then []
    else NonEmptyGroups(groups[..|groups| - 1]) + (if |groups[|groups| - 1].times| > 0 then [groups[|groups| - 1]] else [])
  }

  /** `acc` followed by the trains of a part of the feed, or `None` if that part raises. */
  function Extend(acc: seq<TrainTime>, part: Option<seq<TrainTime>>): Option<seq<TrainTime>> {
    if part.None? then None else Some(acc + part.value)
  }

  /** The trains a sequence of `times` appends, in order; `None` if any of them raises. */
  function TrainsOfTimes(client: Client, g: GroupJson, times: seq<TrainJson>): Option<seq<TrainTime>> {
    if |times| == 0 then Some([])
    else
      match TrainsOfTimes(client, g, times[..|times| - 1])
      case None => None
      case Some(acc) =>
        match StepOf(client, g, times[|times| - 1])
        case Raise => None
        case Skip => Some(acc)
        case Keep(x) => Some(acc + [x])
  }

  function TrainsOfGroups(client: Client, groups: seq<GroupJson>): Option<seq<TrainTime>> {
    if |groups| == 0 then Some([])
    else
      match TrainsOfGroups(client, groups[..|groups| - 1])
      case None => None
      case Some(acc) => var g := groups[|groups| - 1]; Extend(acc, TrainsOfTimes(client, g, g.times))
  }

  function TrainsOfStations(client: Client, stations: seq<StationJson>): Option<seq<TrainTime>> {
    if |stations| == 0 then Some([])
    else
      match TrainsOfStations(client, stations[..|stations| - 1])
      case None => None
      case Some(acc) => Extend(acc, TrainsOfGroups(client, NonEmptyGroups(stations[|stations| - 1].groups)))
  }

  // ---------------------------------------------------------------- sorting

  predicate SortedByTime(s: seq<TrainTime>) {
    forall i, j :: 0 <= i < j < |s| ==> s[i].time <= s[j].time
  }

  /** The trains of `s` whose wait is `k` seconds, in order. */
  function WithTime(s: seq<TrainTime>, k: int): seq<TrainTime> {
    if |s| == 0 then []
    else WithTime(s[..|s| - 1], k) + (if s[|s| - 1].time == k then [s[|s| - 1]] else [])
  }

  /** Inserts `x` after every train of `r` that waits no longer. */
  function InsertByTime(r: seq<TrainTime>, x: TrainTime): (q: seq<TrainTime>)
    ensures multiset(q) == multiset(r) + multiset{x}
  {
    if |r| == 0 then [x]
    else if r[|r| - 1].time <= x.time then r + [x]
    else
      assert r == r[..|r| - 1] + [r[|r| - 1]];
      InsertByTime(r[..|r| - 1], x) + [r[|r| - 1]]
  }

  /** `sorted(train_times, key=lambda x: x.time)`: Python's stable sort by waiting time. */
  function SortByTime(s: seq<TrainTime>): (r: seq<TrainTime>)
    ensures multiset(r) == multiset(s)
  {
    if |s| == 0 then []
    else
      assert s == s[..|s| - 1] + [s[|s| - 1]];
      InsertByTime(SortByTime(s[..|s| - 1]), s[|s| - 1])
  }

  lemma {:induction false} InsertByTimeSorted(r: seq<TrainTime>, x: TrainTime)
    requires SortedByTime(r)
    ensures SortedByTime(InsertByTime(r, x))
    decreases |r|
  {
    if |r| > 0 && r[|r| - 1].time > x.time {
      var init, last := r[..|r| - 1], r[|r| - 1];
      InsertByTimeSorted(init, x);
      var q := InsertByTime(init, x);
      forall i | 0 <= i < |q|
        ensures q[i].time <= last.time
      {
        assert q[i] in multiset(q);
        assert q[i] in multiset(init) || q[i] == x;
      }
    }
  }

  lemma {:induction false} WithTimeAppend(a: seq<TrainTime>, b: seq<TrainTime>, k: int)
    ensures WithTime(a + b, k) == WithTime(a, k) + WithTime(b, k)
    decreases |b|
  {
    if |b| == 0 {
      assert a + b == a;
    } else {
      assert (a + b)[..|a + b| - 1] == a + b[..|b| - 1];
      WithTimeAppend(a, b[..|b| - 1], k);
    }
  }

  lemma {:induction false} InsertByTimeStable(r: seq<TrainTime>, x: TrainTime, k: int)
    requires SortedByTime(r)
    ensures WithTime(InsertByTime(r, x), k) == WithTime(r, k) + (if x.time == k then [x] else [])
    decreases |r|
  {
    if |r| == 0 {
    } else if r[|r| - 1].time <= x.time {
      assert (r + [x])[..|r|] == r;
    } else {
      var init, last := r[..|r| - 1], r[|r| - 1];
      SortedInit(r);
      InsertByTimeStable(init, x, k);
      assert r == init + [last];
      StableStep(init, last, x, k);
    }
  }

  lemma SortedInit(r: seq<TrainTime>)
    requires |r| > 0 && SortedByTime(r)
    ensures SortedByTime(r[..|r| - 1])
  {
    var init := r[..|r| - 1];
    forall i, j | 0 <= i < j < |init|
      ensures init[i].time <= init[j].time
    {
      assert init[i] == r[i] && init[j] == r[j];
    }
  }

  /** Inserting before a later train `last` leaves the trains of any one wait in order. */
  lemma StableStep(init: seq<TrainTime>, last: TrainTime, x: TrainTime, k: int)
    requires last.time > x.time
    requires WithTime(InsertByTime(init, x), k) == WithTime(init, k) + (if x.time == k then [x] else [])
    ensures WithTime(InsertByTime(init + [last], x), k) == WithTime(init + [last], k) + (if x.time == k then [x] else [])
  {
    var r := init + [last];
    assert r[..|r| - 1] == init;
    var q := InsertByTime(init, x);
    assert InsertByTime(r, x) == q + [last];
    var lastPart := if last.time == k then [last] else [];
    assert WithTime([last], k) == lastPart by {
      assert [last][..0] == [];
    }
    var xPart := if x.time == k then [x] else [];
    var w := WithTime(init, k);
    assert xPart + lastPart == lastPart + xPart by {
      if lastPart == [] {
        assert xPart + lastPart == xPart;
      } else {
        assert xPart == [];
      }
    }
    calc {
      WithTime(q + [last], k);
      { WithTimeAppend(q, [last], k); }
      (w + xPart) + lastPart;
      w + (xPart + lastPart);
      w + (lastPart + xPart);
      (w + lastPart) + xPart;
      { WithTimeAppend(init, [last], k); }
      WithTime(r, k) + xPart;
    }
  }

  /** The sort is sorted by wait, a permutation of its input, and stable: the trains with any one
      waiting time keep their order. */
  lemma {:induction false} SortByTimeSpec(s: seq<TrainTime>)
    ensures SortedByTime(SortByTime(s))
    ensures multiset(SortByTime(s)) == multiset(s)
    ensures forall k :: WithTime(SortByTime(s), k) == WithTime(s, k)
    decreases |s|
  {
    if |s| > 0 {
      var init, last := s[..|s| - 1], s[|s| - 1];
      SortByTimeSpec(init);
      InsertByTimeSorted(SortByTime(init), last);
      forall k
        ensures WithTime(SortByTime(s), k) == WithTime(s, k)
      {
        InsertByTimeStable(SortByTime(init), last, k);
      }
    }
  }

  // ---------------------------------------------------------------- the request

  /** What `get_predictions(stop_id)` returns for the decoded response. */
  function PredictionsResult(client: Client, response: Option<seq<StationJson>>): Option<seq<TrainTime>> {
    if response.None? then None
    else match TrainsOfStations(client, response.value)
      case None => None
      case Some(trains) => Some(SortByTime(trains))
  }

  /** Every train returned has a non-negative wait, the list is sorted by wait, and it is `None`
      exactly when the response is missing or some train of a non-empty group raises. */
  lemma PredictionsResultSpec(client: Client, response: Option<seq<StationJson>>)
    ensures var r := PredictionsResult(client, response);
      && (r.None? <==> response.None? || TrainsOfStations(client, response.value).None?)
      && (r.Some? ==> SortedByTime(r.value) && forall t :: t in r.value ==> t.time >= 0)
  {
    if response.Some? && TrainsOfStations(client, response.value).Some? {
      var trains := TrainsOfStations(client, response.value).value;
      SortByTimeSpec(trains);
      StationsKept(client, response.value);
      forall t | t in SortByTime(trains)
        ensures t.time >= 0
      {
        assert t in multiset(SortByTime(trains));
      }
    }
  }

  /** Only kept trains reach the list, so every wait in it is non-negative. */
  lemma {:induction false} TimesKept(client: Client, g: GroupJson, times: seq<TrainJson>)
    requires TrainsOfTimes(client, g, times).Some?
    ensures forall t :: t in TrainsOfTimes(client, g, times).value ==> t.time >= 0
    decreases |times|
  {
    if |times| > 0 {
      TimesKept(client, g, times[..|times| - 1]);
    }
  }

  lemma {:induction false} GroupsKept(client: Client, groups: seq<GroupJson>)
    requires TrainsOfGroups(client, groups).Some?
    ensures forall t :: t in TrainsOfGroups(client, groups).value ==> t.time >= 0
    decreases |groups|
  {
    if |groups| > 0 {
      var g := groups[|groups| - 1];
      GroupsKept(client, groups[..|groups| - 1]);
      TimesKept(client, g, g.times);
    }
  }

  lemma {:induction false} StationsKept(client: Client, stations: seq<StationJson>)
    requires TrainsOfStations(client, stations).Some?
    ensures forall t :: t in TrainsOfStations(client, stations).value ==> t.time >= 0
    decreases |stations|
  {
    if |stations| > 0 {
      StationsKept(client, stations[..|stations| - 1]);
      GroupsKept(client, NonEmptyGroups(stations[|stations| - 1].groups));
    }
  }

  /** A part of the feed that raises makes every longer part raise. */
  lemma {:induction false} TimesRaise(client: Client, g: GroupJson, times: seq<TrainJson>, k: nat)
    requires k <= |times| && TrainsOfTimes(client, g, times[..k]).None?
    ensures TrainsOfTimes(client, g, times).None?
    decreases |times| - k
  {
    if k < |times| {
      assert times[..k + 1][..k] == times[..k];
      TimesRaise(client, g, times, k + 1);
    } else {
      assert times[..k] == times;
    }
  }

  lemma {:induction false} GroupsRaise(client: Client, groups: seq<GroupJson>, k: nat)
    requires k <= |groups| && TrainsOfGroups(client, groups[..k]).None?
    ensures TrainsOfGroups(client, groups).None?
    decreases |groups| - k
  {
    if k < |groups| {
      assert groups[..k + 1][..k] == groups[..k];
      GroupsRaise(client, groups, k + 1);
    } else {
      assert groups[..k] == groups;
    }
  }

  lemma {:induction false} StationsRaise(client: Client, stations: seq<StationJson>, k: nat)
    requires k <= |stations| && TrainsOfStations(client, stations[..k]).None?
    ensures TrainsOfStations(client, stations).None?
    decreases |stations| - k
  {
    if k < |stations| {
      assert stations[..k + 1][..k] == stations[..k];
      StationsRaise(client, stations, k + 1);
    } else {
      assert stations[..k] == stations;
    }
  }

  /** The innermost loop: appends the kept trains of one group, stopping at a train that raises. */
  method CollectTimes(client: Client, g: GroupJson, acc: seq<TrainTime>) returns (r: Option<seq<TrainTime>>)
    ensures r == Extend(acc, TrainsOfTimes(client, g, g.times))
  {
    var trainTimes := acc;
    for k := 0 to |g.times|
      invariant TrainsOfTimes(client, g, g.times[..k]).Some?
      invariant trainTimes == acc + TrainsOfTimes(client, g, g.times[..k]).value
    {
      assert g.times[..k + 1][..k] == g.times[..k];
      match StepOf(client, g, g.times[k]) {
        case Raise =>
          TimesRaise(client, g, g.times, k + 1);
          return None;
        case Skip =>
        case Keep(x) =>
          trainTimes := trainTimes + [x];
      }
    }
    assert g.times[..|g.times|] == g.times;
    return Some(trainTimes);
  }

  /** The loop over a station's non-empty groups. */
  method CollectGroups(client: Client, groups: seq<GroupJson>, acc: seq<TrainTime>) returns (r: Option<seq<TrainTime>>)
    ensures r == Extend(acc, TrainsOfGroups(client, groups))
  {
    var trainTimes := acc;
    for j := 0 to |groups|
      invariant TrainsOfGroups(client, groups[..j]).Some?
      invariant trainTimes == acc + TrainsOfGroups(client, groups[..j]).value
    {
      assert groups[..j + 1][..j] == groups[..j];
      var next := CollectTimes(client, groups[j], trainTimes);
      if next.None? {
        GroupsRaise(client, groups, j + 1);
        return None;
      }
      trainTimes := next.value;
    }
    assert groups[..|groups|] == groups;
    return Some(trainTimes);
  }

  /** The loop over the stations of the response. */
  method CollectStations(client: Client, stations: seq<StationJson>) returns (r: Option<seq<TrainTime>>)
    ensures r == TrainsOfStations(client, stations)
  {
    var trainTimes: seq<TrainTime> := [];
    for i := 0 to |stations|
      invariant TrainsOfStations(client, stations[..i]) == Some(trainTimes)
    {
      assert stations[..i + 1][..i] == stations[..i];
      var groups := NonEmptyGroups(stations[i].groups);
      var next := CollectGroups(client, groups, trainTimes);
      assert TrainsOfStations(client, stations[..i + 1]) == next;
      if next.None? {
        StationsRaise(client, stations, i + 1);
        return None;
      }
      trainTimes := next.value;
    }
    assert stations[..|stations|] == stations;
    return Some(trainTimes);
  }

  /** `get_predictions(stop_id)` once the response is decoded: the loop over stations, then the sort. */
  method GetPredictions(client: Client, response: Option<seq<StationJson>>) returns (r: Option<seq<TrainTime>>)
    ensures r == PredictionsResult(client, response)
  {
    if response.None? {
      return None;
    }
    var trains := CollectStations(client, response.value);
    if trains.None? {
      return None;
    }
    return Some(SortByTime(trains.value));
  }

  /** The providers client keeps a train iff its real-time arrival minus the feed's time of day is
      not negative, and that difference is its wait; the route and trip ids lose their prefix. */
  lemma CurrentKeepsWaiting(g: GroupJson, t: TrainJson)
    requires t.realtimeArrival.Some?
    ensures var wait := t.realtimeArrival.value - (t.timestamp - t.serviceDay);
      && (StepOf(Current, g, t).Keep? <==> wait >= 0)
      && (wait >= 0 ==> StepOf(Current, g, t).train.time == wait)
      && (StepOf(Current, g, t) != Raise)
  {
  }

  /** An id written with the prefix comes back without it. */
  lemma PrefixStripped(g: GroupJson, t: TrainJson, time: int, route: string)
    requires g.routeId == Prefix + route && !Numeric.Contains(route, Prefix)
    ensures MakeTrain(g, t, time).routeId == route
  {
    Numeric.RemovePrefix(Prefix, route);
  }

  /** Express iff "express" occurs in the route's long name, whatever its case. */
  lemma ExpressFromLongName(g: GroupJson, t: TrainJson, time: int)
    ensures MakeTrain(g, t, time).isExpress <==> Numeric.Contains(Numeric.Lower(g.routeLongName), "express")
    ensures Numeric.Contains(g.routeLongName, "express") ==> MakeTrain(g, t, time).isExpress
  {
    if Numeric.Contains(g.routeLongName, "express") {
      ContainsLowerWord(g.routeLongName, "express");
    }
  }

  /** A lower-case word in a string is still there after lower-casing it. */
  lemma {:induction false} ContainsLowerWord(s: string, w: string)
    requires Numeric.Contains(s, w) && forall i :: 0 <= i < |w| ==> !Numeric.IsUpper(w[i])
    ensures Numeric.Contains(Numeric.Lower(s), w)
    decreases |s|
  {
    var l := Numeric.Lower(s);
    if s[..|w|] == w {
      assert l[..|w|] == w;
    } else {
      ContainsLowerWord(s[1..], w);
      assert Numeric.Lower(s[1..]) == l[1..];
    }
  }

  /** mta/mta.py reads the arrival time stamp only for a train with neither a scheduled nor a real-time
      arrival; otherwise the departure time stamp, and a train without the one it needs raises. */
  lemma LegacyArrivalSource(t: TrainJson, nowMs: int, g: GroupJson)
    ensures (!Truthy(t.scheduledArrival) && !Truthy(t.realtimeArrival) && t.arrivalMs.Some?) ==> ArrivalSource(t) == t.arrivalMs
    ensures (Truthy(t.scheduledArrival) || Truthy(t.realtimeArrival)) ==> ArrivalSource(t) == t.departureMs
    ensures StepOf(Legacy(nowMs), g, t) == Raise <==> ArrivalSource(t).None?
  {
  }

  /** `get_fake_predictions()`. */
  function FakePredictions(): (r: seq<TrainTime>)
    ensures |r| == 2 && r[0].time == 780 && r[1].time == 240
  {
    [TrainTime("1", "1", "South Ferry", "Downtown", 780, Some("893"), false),
     TrainTime("2", "0", "Van Cortlandt Park", "Uptown & The Bronx", 240, Some("893"), false)]
  }

  /** `MTA`: the station the broadcaster holds, "121" (116 St) at first. */
  class Mta {
    var currentStation: string

    constructor()
      ensures currentStation == "121"
    {
      currentStation := "121";
    }

    /** `set_current_station(station)`. */
    method SetCurrentStation(station: string)
      modifies this
      ensures currentStation == station
    {
      currentStation := station;
    }
  }
}
