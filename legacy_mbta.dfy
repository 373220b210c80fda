/** mbta.py: the earlier, Red-line-only MBTA client. It shares the feed records, the selection of
    the n-th prediction, the trip lookup and the display-string rules with providers/mbta/mbta.py
    (module `MbtaProvider`), but fills `Prediction` objects in place, keeps the objects it returns
    in its cache, and chooses an arriving-banner status itself. */
module LegacyMbta {
  import opened Common
  import MP = MbtaProvider

  /** `PredictionStatus` of mbta.py. */
  datatype PredictionStatus =
    | Ok | OkShowArrBannerSlot1 | OkShowArrBannerSlot2 | OkShowStationBanner
    | Error | ErrorShowCached | ErrorEmpty

  predicate IsOk(s: PredictionStatus) {
    s == Ok || s == OkShowArrBannerSlot1 || s == OkShowArrBannerSlot2 || s == OkShowStationBanner
  }

  /** `TrainStation`: the Red-line stations the sign knows, and the test station. */
  datatype TrainStation =
    | Alewife | Davis | Porter | Harvard | Central | Kendall | CharlesMgh | ParkStreet
    | DowntownCrossing | SouthStation | Test

  /** The enum values, the stop ids the feed is filtered by. */
  function StopId(s: TrainStation): string {
    match s
    case Alewife => "place-alfcl"
    case Davis => "place-davis"
    case Porter => "place-portr"
    case Harvard => "place-harsq"
    case Central => "place-cntsq"
    case Kendall => "place-knncl"
    case CharlesMgh => "place-chmnl"
    case ParkStreet => "place-pktrm"
    case DowntownCrossing => "place-dwnxg"
    case SouthStation => "place-sstat"
    case Test => "test"
  }

  /** Distinct stations have distinct stop ids. */
  lemma StopIdsDistinct(s: TrainStation, t: TrainStation)
    ensures StopId(s) == StopId(t) ==> s == t
  {
  }

  const Unknown := "TRAIN_STATION_UNKNOWN"

  /** `MBTA.train_station_to_str(station)`: the ten named stations have display names; anything else
      (the test station) is unknown. */
  function TrainStationToStr(s: TrainStation): string {
    var names := map[
      Alewife := "Alewife", Davis := "Davis", Porter := "Porter", Harvard := "Harvard",
      Central := "Central", Kendall := "Kendall/MIT", CharlesMgh := "Charles/MGH",
      ParkStreet := "Park Street", DowntownCrossing := "Downtown Crossing", SouthStation := "South Station"];
    if s in names then names[s] else Unknown
  }

  /** Only the test station is unknown, and the named stations have distinct names. */
  lemma TrainStationNames(s: TrainStation, t: TrainStation)
    ensures TrainStationToStr(s) == Unknown <==> s == Test
    ensures s != Test && t != Test && TrainStationToStr(s) == TrainStationToStr(t) ==> s == t
  {
  }

  /** `Prediction`: a line of the screen, a mutable object in this client. */
  class Prediction {
    var labelText: string
    var value: string

    constructor()
      ensures labelText == "" && value == ""
    {
      labelText := "";
      value := "";
    }
  }

  /** What a `Prediction` object holds right now. */
  function Snapshot(p: Prediction): MP.Prediction
    reads p
  {
    MP.Prediction(p.labelText, p.value)
  }

  function Snapshots(ps: seq<Prediction>): (r: seq<MP.Prediction>)
    reads ps
    ensures |r| == |ps| && forall i :: 0 <= i < |ps| ==> r[i] == Snapshot(ps[i])
  {
    seq(|ps|, i reads ps requires 0 <= i < |ps| => Snapshot(ps[i]))
  }

  /** The label width of this client (the C++ sign's 31 characters). */
  const LabelWidth := 31

  /** `_format_prediction(prediction, trip, dst)`: writes the formatted line into `dst`. */
  method FormatPrediction(prediction: Option<MP.PredictionRecord>, trip: Option<MP.Trip>, dst: Prediction)
    modifies dst
    ensures Snapshot(dst) == MP.FormatPrediction(prediction, trip, LabelWidth)
  {
    if prediction.None? || trip.None? {
      dst.labelText := "";
      dst.value := "";
      return;
    }
    var attrs := prediction.value;
    dst.labelText := MP.Numeric.Take(trip.value.headsign, LabelWidth);
    var displayString;
    if MP.Truthy(attrs.status) {
      displayString := MP.DetermineDisplayString(-1, -1, attrs.status);
    } else if attrs.arrival.Some? && attrs.departure.Some? {
      displayString := MP.DetermineDisplayString(attrs.arrival.value, attrs.departure.value, None);
    } else {
      displayString := "ERROR";
    }
    dst.value := displayString;
  }

  /** `_get_placeholder_predictions(dst)`: "Ashmont" and "Alewife" with empty values, written into
      the first two objects (the second write wins when both are the same object). */
  method GetPlaceholderPredictions(dst: seq<Prediction>)
    requires |dst| >= 2
    modifies dst[0], dst[1]
    ensures dst[0] != dst[1] ==> Snapshot(dst[0]) == MP.Placeholders()[0]
    ensures Snapshot(dst[1]) == MP.Placeholders()[1]
  {
    dst[0].labelText := "Ashmont";
    dst[0].value := "";
    dst[1].labelText := "Alewife";
    dst[1].value := "";
  }

  /** The status the successful path chooses: a banner for the first line that newly reads "ARR"
      against the cached line of its direction. */
  function BannerStatus(lines: seq<MP.Prediction>, cache: seq<MP.Prediction>, directions: seq<int>): PredictionStatus
    requires |lines| >= 2 && |cache| == 2 && |directions| >= 2 && MP.IsSlot(directions[0]) && MP.IsSlot(directions[1])
  {
    if MP.NewlyArriving(lines[0], cache[MP.Slot(directions[0])]) then OkShowArrBannerSlot1
    else if MP.NewlyArriving(lines[1], cache[MP.Slot(directions[1])]) then OkShowArrBannerSlot2
    else Ok
  }

  /** What one `get_predictions` call returns (as values) and the error count it leaves. */
  datatype Outcome = Outcome(status: PredictionStatus, lines: seq<MP.Prediction>, errorCount: int)

  function PredictionsOutcome(station: TrainStation, errorCount: int, cache: seq<MP.Prediction>, num: nat,
                              directions: seq<int>, nthPositions: seq<int>, fetched: Option<MP.PredictionData>): Outcome
    requires |cache| == 2 && num >= 2 && |directions| >= num && |nthPositions| >= num
    requires MP.IsSlot(directions[0]) && MP.IsSlot(directions[1])
  {
    if station == Test then
      Outcome(Ok, [MP.Prediction("Ashmont", "5 min"), MP.Prediction("Alewife", "12 min")] + MP.Blanks(num - 2), errorCount)
    else if fetched.None? then
      var count := errorCount + 1;
      Outcome(if count <= MP.MaxErrorCount then ErrorShowCached else Error, MP.Blanks(num), count)
    else if |fetched.value.data| == 0 then
      Outcome(ErrorEmpty, MP.Blanks(num), 0)
    else
      var lines := Lines(fetched.value, num, directions, nthPositions);
      Outcome(BannerStatus(lines, cache, directions), lines, 0)
  }

  /** The formatted lines of a successful fetch. */
  function Lines(feed: MP.PredictionData, num: nat, directions: seq<int>, nthPositions: seq<int>): (r: seq<MP.Prediction>)
    requires |directions| >= num && |nthPositions| >= num
    ensures |r| == num
  {
    seq(num, i requires 0 <= i < num => MP.PredictionAt(feed, directions[i], nthPositions[i], LabelWidth))
  }

  /** The banner statuses come only from a successful fetch with a line reading "ARR" whose cached
      line (before this call stored the new ones) did not; the station banner is never chosen. */
  lemma BannerStatusMeaning(station: TrainStation, errorCount: int, cache: seq<MP.Prediction>, num: nat,
                            directions: seq<int>, nthPositions: seq<int>, fetched: Option<MP.PredictionData>)
    requires |cache| == 2 && num >= 2 && |directions| >= num && |nthPositions| >= num
    requires MP.IsSlot(directions[0]) && MP.IsSlot(directions[1])
    ensures var r := PredictionsOutcome(station, errorCount, cache, num, directions, nthPositions, fetched);
      && r.status != OkShowStationBanner
      && (r.status == OkShowArrBannerSlot1 <==>
            station != Test && fetched.Some? && |fetched.value.data| > 0 &&
            MP.NewlyArriving(r.lines[0], cache[MP.Slot(directions[0])]))
      && (r.status == OkShowArrBannerSlot2 ==>
            station != Test && fetched.Some? && |fetched.value.data| > 0 &&
            MP.NewlyArriving(r.lines[1], cache[MP.Slot(directions[1])]) &&
            !MP.NewlyArriving(r.lines[0], cache[MP.Slot(directions[0])]))
      && (IsOk(r.status) <==> station == Test || (fetched.Some? && |fetched.value.data| > 0))
  {
  }

  /** Both directions: a line shown with a banner is cached by the same call, so the same lines
      fetched again raise no banner. */
  lemma BannerShownOnce(lines: seq<MP.Prediction>, cache: seq<MP.Prediction>)
    requires |lines| >= 2 && |cache| == 2
    ensures var dirs := [MP.DirectionSouthbound, MP.DirectionNorthbound];
      BannerStatus(lines, MP.UpdatedCache(cache, lines, dirs), dirs) == Ok
  {
    MP.UpdatedCacheSlots(cache, lines, 0);
  }

  /** `[Prediction() for _ in range(num_predictions)]`: `num` new blank objects. */
  method NewPredictions(num: nat) returns (dst: seq<Prediction>)
    ensures |dst| == num && Snapshots(dst) == MP.Blanks(num)
    ensures forall i :: 0 <= i < num ==> fresh(dst[i])
    ensures forall i, j :: 0 <= i < j < num ==> dst[i] != dst[j]
  {
    dst := [];
    for i := 0 to num
      invariant |dst| == i
      invariant forall j :: 0 <= j < i ==> fresh(dst[j]) && Snapshot(dst[j]) == MP.Blank
      invariant forall j, k :: 0 <= j < k < i ==> dst[j] != dst[k]
    {
      var p := new Prediction();
      dst := dst + [p];
    }
  }

  /** The loop of `get_predictions`: line `i` is formatted in place from the `nthPositions[i]`-th
      counted prediction in `directions[i]`. */
  method FormatAll(feed: MP.PredictionData, directions: seq<int>, nthPositions: seq<int>, dst: seq<Prediction>)
    requires |directions| >= |dst| && |nthPositions| >= |dst|
    requires forall i, j :: 0 <= i < j < |dst| ==> dst[i] != dst[j]
    modifies set i | 0 <= i < |dst| :: dst[i]
    ensures forall i :: 0 <= i < |dst| ==>
      Snapshot(dst[i]) == MP.PredictionAt(feed, directions[i], nthPositions[i], LabelWidth)
  {
    for i := 0 to |dst|
      invariant forall j :: 0 <= j < i ==>
        Snapshot(dst[j]) == MP.PredictionAt(feed, directions[j], nthPositions[j], LabelWidth)
    {
      var prediction := MP.FindNthPrediction(feed.data, directions[i], nthPositions[i]);
      var trip := MP.FindTrip(feed.included, prediction);
      FormatPrediction(prediction, trip, dst[i]);
    }
  }

  /** The test-station branch: the placeholders with fixed times in the first two new objects. */
  method FillTestLines(dst: seq<Prediction>)
    requires |dst| >= 2 && Snapshots(dst) == MP.Blanks(|dst|)
    requires forall i, j :: 0 <= i < j < |dst| ==> dst[i] != dst[j]
    modifies dst[0], dst[1]
    ensures Snapshots(dst) == [MP.Prediction("Ashmont", "5 min"), MP.Prediction("Alewife", "12 min")] + MP.Blanks(|dst| - 2)
  {
    GetPlaceholderPredictions(dst);
    dst[0].value := "5 min";
    dst[1].value := "12 min";
  }

  /** `MBTA`: the cache holds the very `Prediction` objects the last successful call returned. */
  class Mbta {
    var latestPredictions: seq<Prediction>
    var errorCount: int
    var station: TrainStation
    var hasStationChanged: bool

    ghost predicate Valid()
      reads this
    {
      |latestPredictions| == 2 && latestPredictions[0] != latestPredictions[1]
    }

    /** The cached lines as values. */
    function Cache(): (r: seq<MP.Prediction>)
      requires Valid()
      reads this, latestPredictions
      ensures |r| == 2
    {
      Snapshots(latestPredictions)
    }

    /** `MBTA(api_key)`: two blank cached lines, no errors, Harvard, no station change pending. */
    constructor()
      ensures Valid() && Cache() == [MP.Blank, MP.Blank] && fresh(latestPredictions[0]) && fresh(latestPredictions[1])
      ensures errorCount == 0 && station == Harvard && !hasStationChanged
    {
      var first := new Prediction();
      var second := new Prediction();
      latestPredictions := [first, second];
      errorCount := 0;
      station := Harvard;
      hasStationChanged := false;
    }

    /** `_show_arriving_banner(prediction, direction)`. */
    predicate ShowArrivingBanner(prediction: Prediction, direction: int)
      requires Valid() && MP.IsSlot(direction)
      reads this, prediction, latestPredictions
    {
      prediction.value == "ARR" && latestPredictions[MP.Slot(direction)].value != "ARR"
    }

    /** `get_predictions(num_predictions, directions, nth_positions)` given what the fetch returned.
        A successful call stores returned objects in the cache, so later writes to the cache (by
        `set_station`) also change the lines this call returned. */
    method GetPredictions(num: nat, directions: seq<int>, nthPositions: seq<int>, fetched: Option<MP.PredictionData>)
      returns (status: PredictionStatus, dst: seq<Prediction>)
      requires Valid() && num >= 2 && |directions| >= num && |nthPositions| >= num
      requires MP.IsSlot(directions[0]) && MP.IsSlot(directions[1])
      modifies this
      ensures Valid() && |dst| == num
      ensures forall i :: 0 <= i < num ==> fresh(dst[i])
      ensures forall i, j :: 0 <= i < j < num ==> dst[i] != dst[j]
      ensures Outcome(status, Snapshots(dst), errorCount)
        == PredictionsOutcome(old(station), old(errorCount), old(Cache()), num, directions, nthPositions, fetched)
      ensures latestPredictions == if old(station) != Test && IsOk(status)
        then MP.UpdatedCache(old(latestPredictions), dst, directions) else old(latestPredictions)
      ensures station == old(station) && hasStationChanged == old(hasStationChanged)
    {
      dst := NewPredictions(num);
      status := FillPredictions(num, directions, nthPositions, fetched, dst);
    }

    /** The body of `get_predictions` once its `num` new blank objects exist. */
    method FillPredictions(num: nat, directions: seq<int>, nthPositions: seq<int>, fetched: Option<MP.PredictionData>, dst: seq<Prediction>)
      returns (status: PredictionStatus)
      requires Valid() && num >= 2 && |directions| >= num && |nthPositions| >= num && |dst| == num
      requires MP.IsSlot(directions[0]) && MP.IsSlot(directions[1])
      requires Snapshots(dst) == MP.Blanks(num)
      requires forall i, j :: 0 <= i < j < num ==> dst[i] != dst[j]
      requires forall i :: 0 <= i < num ==> dst[i] !in latestPredictions
      modifies this, set i | 0 <= i < num :: dst[i]
      ensures Valid()
      ensures Outcome(status, Snapshots(dst), errorCount)
        == PredictionsOutcome(old(station), old(errorCount), old(Cache()), num, directions, nthPositions, fetched)
      ensures latestPredictions == if old(station) != Test && IsOk(status)
        then MP.UpdatedCache(old(latestPredictions), dst, directions) else old(latestPredictions)
      ensures station == old(station) && hasStationChanged == old(hasStationChanged)
    {
      if station == Test {
        FillTestLines(dst);
        return Ok;
      }
      status := UseFetched(num, directions, nthPositions, fetched, dst);
    }

    /** `get_predictions` away from the test station: what the fetch returned decides. */
    method UseFetched(num: nat, directions: seq<int>, nthPositions: seq<int>, fetched: Option<MP.PredictionData>, dst: seq<Prediction>)
      returns (status: PredictionStatus)
      requires Valid() && num >= 2 && |directions| >= num && |nthPositions| >= num && |dst| == num && station != Test
      requires MP.IsSlot(directions[0]) && MP.IsSlot(directions[1])
      requires Snapshots(dst) == MP.Blanks(num)
      requires forall i, j :: 0 <= i < j < num ==> dst[i] != dst[j]
      requires forall i :: 0 <= i < num ==> dst[i] !in latestPredictions
      modifies this, set i | 0 <= i < num :: dst[i]
      ensures Valid()
      ensures Outcome(status, Snapshots(dst), errorCount)
        == PredictionsOutcome(old(station), old(errorCount), old(Cache()), num, directions, nthPositions, fetched)
      ensures latestPredictions == if IsOk(status) then MP.UpdatedCache(old(latestPredictions), dst, directions) else old(latestPredictions)
      ensures station == old(station) && hasStationChanged == old(hasStationChanged)
    {
      if fetched.None? {
        status := CountError();
        return;
      }
      errorCount := 0;
      var feed := fetched.value;
      if |feed.data| == 0 {
        return ErrorEmpty;
      }
      status := ServeFeed(feed, directions, nthPositions, dst);
    }

    /** A failed fetch: one more consecutive error, shown over the cached lines until there are more
        than `MAX_ERROR_COUNT` of them. */
    method CountError() returns (status: PredictionStatus)
      modifies this
      ensures errorCount == old(errorCount) + 1
      ensures status == if errorCount <= MP.MaxErrorCount then ErrorShowCached else Error
      ensures latestPredictions == old(latestPredictions) && station == old(station) && hasStationChanged == old(hasStationChanged)
    {
      errorCount := errorCount + 1;
      if errorCount <= MP.MaxErrorCount {
        return ErrorShowCached;
      }
      return Error;
    }

    /** `get_predictions_both_directions()`: the first train each way. */
    method GetPredictionsBothDirections(fetched: Option<MP.PredictionData>) returns (status: PredictionStatus, dst: seq<Prediction>)
      requires Valid()
      modifies this
      ensures Valid() && |dst| == 2
      ensures Outcome(status, Snapshots(dst), errorCount) == PredictionsOutcome(old(station), old(errorCount), old(Cache()), 2,
        [MP.DirectionSouthbound, MP.DirectionNorthbound], [0, 0], fetched)
    {
      status, dst := GetPredictions(2, [MP.DirectionSouthbound, MP.DirectionNorthbound], [0, 0], fetched);
    }

    /** `get_predictions_one_direction(direction)`: the first two trains one way; a direction that is
        not an index of the two-slot cache raises `IndexError` on the successful path. */
    method GetPredictionsOneDirection(direction: int, fetched: Option<MP.PredictionData>)
      returns (status: PredictionStatus, dst: seq<Prediction>)
      requires Valid() && MP.IsSlot(direction)
      modifies this
      ensures Valid() && |dst| == 2
      ensures Outcome(status, Snapshots(dst), errorCount) == PredictionsOutcome(old(station), old(errorCount), old(Cache()), 2,
        [direction, direction], [0, 1], fetched)
    {
      status, dst := GetPredictions(2, [direction, direction], [0, 1], fetched);
    }

    /** The successful path of `get_predictions`: format the lines, choose the status against the
        cache, then store the new objects in the cache. */
    method ServeFeed(feed: MP.PredictionData, directions: seq<int>, nthPositions: seq<int>, dst: seq<Prediction>)
      returns (status: PredictionStatus)
      requires Valid() && |dst| >= 2 && |directions| >= |dst| && |nthPositions| >= |dst|
      requires MP.IsSlot(directions[0]) && MP.IsSlot(directions[1])
      requires forall i, j :: 0 <= i < j < |dst| ==> dst[i] != dst[j]
      requires forall i :: 0 <= i < |dst| ==> dst[i] !in latestPredictions
      modifies this, set i | 0 <= i < |dst| :: dst[i]
      ensures Valid() && Snapshots(dst) == Lines(feed, |dst|, directions, nthPositions)
      ensures status == BannerStatus(Snapshots(dst), old(Cache()), directions)
      ensures latestPredictions == MP.UpdatedCache(old(latestPredictions), dst, directions)
      ensures station == old(station) && errorCount == old(errorCount) && hasStationChanged == old(hasStationChanged)
    {
      FormatAll(feed, directions, nthPositions, dst);
      ghost var lines := Snapshots(dst);
      assert lines == Lines(feed, |dst|, directions, nthPositions);
      status := Ok;
      if ShowArrivingBanner(dst[0], directions[0]) {
        status := OkShowArrBannerSlot1;
      } else if ShowArrivingBanner(dst[1], directions[1]) {
        status := OkShowArrBannerSlot2;
      }
      UpdateLatestPredictions(dst, directions);
      assert Snapshots(dst) == lines;
    }

    /** `_update_latest_predictions(latest, directions)`: stores the objects themselves. */
    method UpdateLatestPredictions(latest: seq<Prediction>, directions: seq<int>)
      requires Valid() && |latest| >= 2 && latest[0] != latest[1] && |directions| >= 2
      requires MP.IsSlot(directions[0]) && MP.IsSlot(directions[1])
      requires latest[0] !in latestPredictions && latest[1] !in latestPredictions
      modifies this
      ensures Valid() && latestPredictions == MP.UpdatedCache(old(latestPredictions), latest, directions)
      ensures station == old(station) && errorCount == old(errorCount) && hasStationChanged == old(hasStationChanged)
    {
      if directions[0] == directions[1] {
        latestPredictions := latestPredictions[MP.Slot(directions[0]) := latest[0]];
      } else {
        latestPredictions := latestPredictions[MP.Slot(directions[0]) := latest[0]];
        latestPredictions := latestPredictions[MP.Slot(directions[1]) := latest[1]];
      }
    }

    /** `get_cached_predictions()`: copies of the two cached lines. */
    function GetCachedPredictions(): (r: seq<MP.Prediction>)
      requires Valid()
      reads this, latestPredictions
      ensures r == Cache()
    {
      [MP.Prediction(latestPredictions[0].labelText, latestPredictions[0].value),
       MP.Prediction(latestPredictions[1].labelText, latestPredictions[1].value)]
    }

    /** `set_station(station)`: records the station, flags the change and overwrites the cached
        objects themselves with the placeholders. */
    method SetStation(newStation: TrainStation)
      requires Valid()
      modifies this, latestPredictions[0], latestPredictions[1]
      ensures Valid() && latestPredictions == old(latestPredictions) && Cache() == MP.Placeholders()
      ensures station == newStation && hasStationChanged && errorCount == old(errorCount)
    {
      station := newStation;
      hasStationChanged := true;
      GetPlaceholderPredictions(latestPredictions);
    }
  }
}
