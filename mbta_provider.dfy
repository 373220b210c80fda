/** providers/mbta/mbta.py (with the record types of providers/mbta/types.py): the MBTA
    predictions client. The HTTP fetch is an input (`Option<PredictionData>`, `None` when the
    request or its decoding failed), and every ISO time stamp of the feed is given as its
    difference to the local clock in whole seconds, as `_diff_with_local_time` returns it. */
module MbtaProvider {
  import opened Common
  import Numeric

  const DirectionSouthbound := 0
  const DirectionNorthbound := 1
  const MaxErrorCount := 3
  /** The station `DEFAULT_MBTA_STATION` names when the configuration does not. */
  const DefaultStation := "place-harsq"
  const TestStation := "test"

  /** `Prediction`: one line of the MBTA screen, a destination label and a value ("5 min", "ARR"). */
  datatype Prediction = Prediction(labelText: string, value: string)

  /** `PredictionStatus`. */
  datatype PredictionStatus = Ok | Error | ErrorShowCached | ErrorEmpty

  /** One element of the feed's `data` array: `direction_id`, `status` (JSON null is `None`),
      and the arrival and departure times as seconds from now (`None` when null or empty). */
  datatype PredictionRecord = PredictionRecord(directionId: int, status: Option<string>,
                                               arrival: Option<int>, departure: Option<int>, tripId: string)

  /** One element of the feed's `included` array: a trip and its head sign. */
  datatype Trip = Trip(id: string, headsign: string)

  /** The decoded response; a missing `included` key is the empty sequence. */
  datatype PredictionData = PredictionData(data: seq<PredictionRecord>, included: seq<Trip>)

  const Blank := Prediction("", "")

  function Blanks(n: nat): (r: seq<Prediction>)
    ensures |r| == n && forall i :: 0 <= i < n ==> r[i] == Blank
  {
    seq(n, _ => Blank)
  }

  /** `_get_placeholder_predictions()`. */
  function Placeholders(): (r: seq<Prediction>)
    ensures |r| == 2 && r[0].labelText == "Ashmont" && r[1].labelText == "Alewife"
    ensures r[0].value == "" && r[1].value == ""
  {
    [Prediction("Ashmont", ""), Prediction("Alewife", "")]
  }

  // ---------------------------------------------------------------- selection

  /** A prediction `_find_nth_prediction_for_direction` counts: it runs in `direction` and either has
      a status (any, even empty) or an arrival time less than 30 seconds in the past. */
  predicate Counts(p: PredictionRecord, direction: int) {
    p.directionId == direction && (p.status.Some? || (p.arrival.Some? && p.arrival.value > -30))
  }

  /** The predictions that count, in feed order. */
  function CountedIn(data: seq<PredictionRecord>, direction: int): (r: seq<PredictionRecord>)
    ensures |r| <= |data|
    ensures forall p :: p in r ==> p in data && Counts(p, direction)
  {
    if |data| == 0 then []
    else (if Counts(data[0], direction) then [data[0]] else []) + CountedIn(data[1..], direction)
  }

  lemma {:induction false} CountedInAppend(a: seq<PredictionRecord>, b: seq<PredictionRecord>, direction: int)
    ensures CountedIn(a + b, direction) == CountedIn(a, direction) + CountedIn(b, direction)
    decreases |a|
  {
    if |a| == 0 {
      assert a + b == b;
    } else {
      assert (a + b)[0] == a[0] && (a + b)[1..] == a[1..] + b;
      CountedInAppend(a[1..], b, direction);
    }
  }

  /** The `n`-th (from 0) prediction that counts, `None` when fewer than `n + 1` count or `n < 0`. */
  function NthCounted(data: seq<PredictionRecord>, direction: int, n: int): Option<PredictionRecord> {
    var c := CountedIn(data, direction);
    if 0 <= n < |c| then Some(c[n]) else None
  }

  /** `_find_nth_prediction_for_direction(data, direction, n)`: walks the feed counting `n` down. */
  method FindNthPrediction(data: seq<PredictionRecord>, direction: int, n: int) returns (r: Option<PredictionRecord>)
    ensures r == NthCounted(data, direction, n)
  {
    var k := n;
    for i := 0 to |data|
      invariant k == n - |CountedIn(data[..i], direction)|
      invariant n >= 0 ==> k >= 0
    {
      var prediction := data[i];
      CountedStep(data, i, direction);
      if prediction.directionId == direction {
        if prediction.status.Some? {
          if k == 0 {
            FoundAt(data, i, direction);
            return Some(prediction);
          }
          k := k - 1;
        } else if prediction.arrival.Some? && prediction.arrival.value > -30 {
          if k == 0 {
            FoundAt(data, i, direction);
            return Some(prediction);
          }
          k := k - 1;
        }
      }
    }
    assert data[..|data|] == data;
    return None;
  }

  /** One more entry of the feed counts once more exactly when it counts. */
  lemma CountedStep(data: seq<PredictionRecord>, i: nat, direction: int)
    requires i < |data|
    ensures |CountedIn(data[..i + 1], direction)| == |CountedIn(data[..i], direction)| + (if Counts(data[i], direction) then 1 else 0)
  {
    assert data[..i + 1] == data[..i] + [data[i]];
    CountedInAppend(data[..i], [data[i]], direction);
    assert [data[i]][1..] == [];
  }

  /** An entry that counts, after `n` counted ones, is the `n`-th counted one. */
  lemma FoundAt(data: seq<PredictionRecord>, i: nat, direction: int)
    requires i < |data| && Counts(data[i], direction)
    ensures NthCounted(data, direction, |CountedIn(data[..i], direction)|) == Some(data[i])
  {
    PrefixCounted(data, i, direction);
    assert data[i..][0] == data[i];
  }

  /** The predictions that count in a prefix of the feed begin the ones that count in all of it. */
  lemma PrefixCounted(data: seq<PredictionRecord>, i: nat, direction: int)
    requires i <= |data|
    ensures CountedIn(data, direction) == CountedIn(data[..i], direction) + CountedIn(data[i..], direction)
  {
    assert data == data[..i] + data[i..];
    CountedInAppend(data[..i], data[i..], direction);
  }

  /** `_find_trip_for_prediction(data, prediction)`: the first trip of `included` whose id is the
      prediction's trip id; `None` for no prediction or no such trip. */
  function FindTrip(included: seq<Trip>, prediction: Option<PredictionRecord>): (r: Option<Trip>)
    ensures prediction.None? ==> r.None?
    ensures r.Some? ==> r.value in included && r.value.id == prediction.value.tripId
    ensures prediction.Some? && r.None? <==> prediction.Some? && forall t :: t in included ==> t.id != prediction.value.tripId
  {
    if prediction.None? then None
    else match Numeric.FirstMatch(included, (t: Trip) => t.id == prediction.value.tripId)
      case None => None
      case Some(k) => Some(included[k])
  }

  // ---------------------------------------------------------------- display strings

  /** Python truthiness of an optional string: present and non-empty. */
  predicate Truthy(s: Option<string>) {
    s.Some? && s.value != ""
  }

  /** `_determine_display_string(arr_diff, dep_diff, status)`. */
  function DetermineDisplayString(arrDiff: int, depDiff: int, status: Option<string>): string {
    if Truthy(status) then
      var lower := Numeric.Lower(status.value);
      if Numeric.Contains(lower, "stopped") then "STOP" else Numeric.Take(lower, 6)
    else if arrDiff > 0 then
      if arrDiff > 60 then Numeric.NatToString(arrDiff / 60) + " min" else "ARR"
    else if depDiff > 0 then "BRD"
    else "ERROR"
  }

  /** A status wins over the times: "STOP" iff its lower-case form contains "stopped", otherwise its
      first six lower-case characters. */
  lemma DisplayStringForStatus(arrDiff: int, depDiff: int, status: Option<string>)
    requires Truthy(status)
    ensures var r := DetermineDisplayString(arrDiff, depDiff, status);
      var lower := Numeric.Lower(status.value);
      && (r == "STOP" <==> Numeric.Contains(lower, "stopped"))
      && (r != "STOP" ==> |r| == (if |lower| < 6 then |lower| else 6) && r == lower[..|r|])
  {
    var lower := Numeric.Lower(status.value);
    if !Numeric.Contains(lower, "stopped") {
      var r := Numeric.Take(lower, 6);
      assert r[0] == lower[0] && !Numeric.IsUpper(r[0]);
    }
  }

  /** Without a status, an arrival more than a minute away reads "N min", where N is the number of
      whole minutes in it (at least 1). */
  lemma DisplayStringMinutes(arrDiff: int, depDiff: int)
    requires arrDiff > 60
    ensures var r := DetermineDisplayString(arrDiff, depDiff, None);
      && |r| >= 5 && r[|r| - 4..] == " min" && Numeric.AllDigits(r[..|r| - 4])
      && var n := Numeric.ParseDigits(r[..|r| - 4]);
         n >= 1 && n * 60 <= arrDiff < n * 60 + 60
  {
    var n := arrDiff / 60;
    var digits := Numeric.NatToString(n);
    var r := digits + " min";
    assert r[..|r| - 4] == digits;
    assert r[|r| - 4..] == " min";
    Numeric.ParseNatToString(n);
  }

  /** The three fixed words are told apart from every other display string: "ARR" means no status
      and an arrival within the next minute, "BRD" no status, no future arrival and a future
      departure, "ERROR" no status and neither time in the future. */
  lemma DisplayStringWords(arrDiff: int, depDiff: int, status: Option<string>)
    ensures var r := DetermineDisplayString(arrDiff, depDiff, status);
      && (r == "ARR" <==> !Truthy(status) && 0 < arrDiff <= 60)
      && (r == "BRD" <==> !Truthy(status) && arrDiff <= 0 && depDiff > 0)
      && (r == "ERROR" <==> !Truthy(status) && arrDiff <= 0 && depDiff <= 0)
  {
    var r := DetermineDisplayString(arrDiff, depDiff, status);
    if Truthy(status) {
      var lower := Numeric.Lower(status.value);
      if !Numeric.Contains(lower, "stopped") {
        assert r[0] == lower[0] && !Numeric.IsUpper(r[0]);
      }
    } else if arrDiff > 60 {
      assert Numeric.IsDigit(r[0]);
    }
  }

  /** `_format_prediction(prediction, trip)` with the label cut to `labelWidth` characters (10 here). */
  function FormatPrediction(prediction: Option<PredictionRecord>, trip: Option<Trip>, labelWidth: nat): Prediction {
    if prediction.None? || trip.None? then Blank
    else
      var p := prediction.value;
      var value :=
        if Truthy(p.status) then DetermineDisplayString(-1, -1, p.status)
        else if p.arrival.Some? && p.departure.Some? then DetermineDisplayString(p.arrival.value, p.departure.value, None)
        else "ERROR";
      Prediction(Numeric.Take(trip.value.headsign, labelWidth), value)
  }

  /** A missing prediction or trip blanks the line; otherwise the label is the head sign cut to the
      width, and the value is "ERROR" when there is no status and not both times. */
  lemma FormatPredictionRules(prediction: Option<PredictionRecord>, trip: Option<Trip>, labelWidth: nat)
    ensures var r := FormatPrediction(prediction, trip, labelWidth);
      && (prediction.None? || trip.None? ==> r == Blank)
      && (prediction.Some? && trip.Some? ==>
            var h := trip.value.headsign;
            && |r.labelText| == (if labelWidth < |h| then labelWidth else |h|)
            && r.labelText == h[..|r.labelText|]
            && r.value != ""
            && ((!Truthy(prediction.value.status) && (prediction.value.arrival.None? || prediction.value.departure.None?))
                  ==> r.value == "ERROR"))
  {
    if prediction.Some? && trip.Some? {
      var p := prediction.value;
      if Truthy(p.status) {
        DisplayStringForStatus(-1, -1, p.status);
      }
    }
  }

  /** A formatted line reads "ARR" only for a found prediction and trip with no status, both times,
      and an arrival in the coming minute. */
  lemma ArrivingOnlyWhenDue(prediction: Option<PredictionRecord>, trip: Option<Trip>, labelWidth: nat)
    requires FormatPrediction(prediction, trip, labelWidth).value == "ARR"
    ensures prediction.Some? && trip.Some?
    ensures var p := prediction.value;
      !Truthy(p.status) && p.arrival.Some? && p.departure.Some? && 0 < p.arrival.value <= 60
  {
    if prediction.Some? && trip.Some? {
      var p := prediction.value;
      if Truthy(p.status) {
        DisplayStringWords(-1, -1, p.status);
      } else if p.arrival.Some? && p.departure.Some? {
        DisplayStringWords(p.arrival.value, p.departure.value, None);
      }
    }
  }

  // ---------------------------------------------------------------- the client

  const LabelWidth := 10

  /** The line `get_predictions` shows for the `nth` prediction in `direction`. */
  function PredictionAt(feed: PredictionData, direction: int, nth: int, labelWidth: nat): Prediction {
    var p := NthCounted(feed.data, direction, nth);
    FormatPrediction(p, FindTrip(feed.included, p), labelWidth)
  }

  /** What one `get_predictions` call returns, and the error count it leaves. */
  datatype Outcome = Outcome(status: PredictionStatus, predictions: seq<Prediction>, errorCount: int)

  function PredictionsOutcome(station: string, errorCount: int, num: nat, directions: seq<int>,
                              nthPositions: seq<int>, fetched: Option<PredictionData>): Outcome
    requires |directions| >= num && |nthPositions| >= num
  {
    if station == TestStation then
      Outcome(Ok, [Placeholders()[0].(value := "5 min"), Placeholders()[1].(value := "12 min")], errorCount)
    else if fetched.None? then
      var count := errorCount + 1;
      Outcome(if count <= MaxErrorCount then ErrorShowCached else Error, Blanks(num), count)
    else if |fetched.value.data| == 0 then
      Outcome(ErrorEmpty, Blanks(num), 0)
    else
      Outcome(Ok, seq(num, i requires 0 <= i < num => PredictionAt(fetched.value, directions[i], nthPositions[i], LabelWidth)), 0)
  }

  /** The "test" station answers with the two placeholder lines and fixed times, and neither
      fetches nor touches the error count. */
  lemma TestStationOutcome(errorCount: int, num: nat, directions: seq<int>, nthPositions: seq<int>,
                           fetched: Option<PredictionData>)
    requires |directions| >= num && |nthPositions| >= num
    ensures PredictionsOutcome(TestStation, errorCount, num, directions, nthPositions, fetched)
      == Outcome(Ok, [Prediction("Ashmont", "5 min"), Prediction("Alewife", "12 min")], errorCount)
  {
  }

  /** A failed fetch counts one more error and shows blank lines; the status is "show cached" for
      the first three failures in a row and "error" from the fourth on. */
  lemma FailureOutcome(station: string, errorCount: int, num: nat, directions: seq<int>, nthPositions: seq<int>)
    requires station != TestStation && |directions| >= num && |nthPositions| >= num
    ensures var r := PredictionsOutcome(station, errorCount, num, directions, nthPositions, None);
      && r.errorCount == errorCount + 1 && r.predictions == Blanks(num)
      && (r.status == ErrorShowCached <==> r.errorCount <= MaxErrorCount)
      && (r.status == Error <==> r.errorCount > MaxErrorCount)
  {
  }

  /** A successful fetch resets the error count; an empty feed is `ERROR_EMPTY` with blank lines,
      otherwise line `i` is the `nthPositions[i]`-th counted prediction in `directions[i]`. */
  lemma SuccessOutcome(station: string, errorCount: int, num: nat, directions: seq<int>, nthPositions: seq<int>,
                       feed: PredictionData)
    requires station != TestStation && |directions| >= num && |nthPositions| >= num
    ensures var r := PredictionsOutcome(station, errorCount, num, directions, nthPositions, Some(feed));
      && r.errorCount == 0 && |r.predictions| == num
      && (r.status == ErrorEmpty <==> |feed.data| == 0)
      && (r.status == Ok <==> |feed.data| > 0)
      && (|feed.data| == 0 ==> r.predictions == Blanks(num))
      && (|feed.data| > 0 ==> forall i :: 0 <= i < num ==>
            var p := NthCounted(feed.data, directions[i], nthPositions[i]);
            r.predictions[i] == FormatPrediction(p, FindTrip(feed.included, p), LabelWidth))
  {
  }

  /** A station that may index the two-slot cache the way Python does (negative from the end). */
  predicate IsSlot(d: int) {
    -2 <= d < 2
  }

  function Slot(d: int): (i: nat)
    requires IsSlot(d)
    ensures i < 2 && (d >= 0 ==> i == d)
  {
    if d < 0 then d + 2 else d
  }

  /** The cache after `update_latest_predictions(latest, directions)`. */
  function UpdatedCache<T>(cache: seq<T>, latest: seq<T>, directions: seq<int>): seq<T>
    requires |cache| == 2 && |directions| >= 2 && |latest| >= 1 && IsSlot(directions[0])
    requires directions[0] != directions[1] ==> |latest| >= 2 && IsSlot(directions[1])
  {
    if directions[0] == directions[1] then cache[Slot(directions[0]) := latest[0]]
    else cache[Slot(directions[0]) := latest[0]][Slot(directions[1]) := latest[1]]
  }

  /** Both directions (`[0, 1]`) store the two lines as given; one direction `[d, d]` stores only the
      first line, in slot `d`, and keeps the other slot. */
  lemma UpdatedCacheSlots<T>(cache: seq<T>, latest: seq<T>, d: int)
    requires |cache| == 2 && |latest| >= 2 && IsSlot(d)
    ensures UpdatedCache(cache, latest, [DirectionSouthbound, DirectionNorthbound]) == latest[..2]
    ensures var c := UpdatedCache(cache, latest, [d, d]);
      c[Slot(d)] == latest[0] && c[1 - Slot(d)] == cache[1 - Slot(d)]
  {
  }

  /** The line `find_prediction_with_arriving_banner` reports: newly "ARR" compared with the cache. */
  predicate NewlyArriving(p: Prediction, cached: Prediction) {
    p.value == "ARR" && cached.value != "ARR"
  }

  /** `get_arriving_banner(prediction)`. */
  function ArrivingBanner(p: Prediction): (lines: seq<string>)
    ensures |lines| == 2 && lines[1] == "is now arriving."
    ensures |lines[0]| == |p.labelText| + 6 && lines[0][..|p.labelText|] == p.labelText
    ensures lines[0][|p.labelText|..] == " train"
  {
    [p.labelText + " train", "is now arriving."]
  }

  /** `MBTA`: the error count, the two cached lines and the station the broadcaster holds. */
  class Mbta {
    var latestPredictions: seq<Prediction>
    var errorCount: int
    var station: string

    ghost predicate Valid()
      reads this
    {
      |latestPredictions| == 2
    }

    /** `MBTA(api_key)`: two blank cached lines, no errors, the configured or default station. */
    constructor(configuredStation: Option<string>)
      ensures Valid() && latestPredictions == [Blank, Blank] && errorCount == 0
      ensures station == if configuredStation.Some? then configuredStation.value else DefaultStation
    {
      latestPredictions := [Blank, Blank];
      errorCount := 0;
      station := if configuredStation.Some? then configuredStation.value else DefaultStation;
    }

    /** `get_predictions(num_predictions, directions, nth_positions)` given what the fetch returned. */
    method GetPredictions(num: nat, directions: seq<int>, nthPositions: seq<int>, fetched: Option<PredictionData>)
      returns (status: PredictionStatus, dst: seq<Prediction>)
      requires |directions| >= num && |nthPositions| >= num
      modifies this
      ensures Outcome(status, dst, errorCount)
        == PredictionsOutcome(old(station), old(errorCount), num, directions, nthPositions, fetched)
      ensures station == old(station) && latestPredictions == old(latestPredictions)
    {
      dst := Blanks(num);
      if station == TestStation {
        dst := Placeholders();
        dst := dst[0 := dst[0].(value := "5 min")][1 := dst[1].(value := "12 min")];
        return Ok, dst;
      }
      if fetched.None? {
        errorCount := errorCount + 1;
        if errorCount <= MaxErrorCount {
          return ErrorShowCached, dst;
        }
        return Error, dst;
      }
      errorCount := 0;
      var feed := fetched.value;
      if |feed.data| == 0 {
        return ErrorEmpty, dst;
      }
      for i := 0 to num
        invariant |dst| == num
        invariant forall j :: 0 <= j < i ==> dst[j] == PredictionAt(feed, directions[j], nthPositions[j], LabelWidth)
        invariant station == old(station) && latestPredictions == old(latestPredictions) && errorCount == 0
      {
        var prediction := FindNthPrediction(feed.data, directions[i], nthPositions[i]);
        var trip := FindTrip(feed.included, prediction);
        dst := dst[i := FormatPrediction(prediction, trip, LabelWidth)];
      }
      assert dst == PredictionsOutcome(old(station), old(errorCount), num, directions, nthPositions, fetched).predictions;
      return Ok, dst;
    }

    /** `get_predictions_both_directions()`: the first train each way. */
    method GetPredictionsBothDirections(fetched: Option<PredictionData>) returns (status: PredictionStatus, dst: seq<Prediction>)
      modifies this
      ensures Outcome(status, dst, errorCount) == PredictionsOutcome(old(station), old(errorCount), 2,
        [DirectionSouthbound, DirectionNorthbound], [0, 0], fetched)
      ensures station == old(station) && latestPredictions == old(latestPredictions)
    {
      status, dst := GetPredictions(2, [DirectionSouthbound, DirectionNorthbound], [0, 0], fetched);
    }

    /** `get_predictions_one_direction(direction)`: the first two trains one way. */
    method GetPredictionsOneDirection(direction: int, fetched: Option<PredictionData>)
      returns (status: PredictionStatus, dst: seq<Prediction>)
      modifies this
      ensures Outcome(status, dst, errorCount) == PredictionsOutcome(old(station), old(errorCount), 2,
        [direction, direction], [0, 1], fetched)
      ensures station == old(station) && latestPredictions == old(latestPredictions)
    {
      status, dst := GetPredictions(2, [direction, direction], [0, 1], fetched);
    }

    /** `update_latest_predictions(latest, directions)`; Python's negative indices reach the same two
        slots, any other direction raises `IndexError`, which callers must not cause. */
    method UpdateLatestPredictions(latest: seq<Prediction>, directions: seq<int>)
      requires Valid() && |directions| >= 2 && |latest| >= 1 && IsSlot(directions[0])
      requires directions[0] != directions[1] ==> |latest| >= 2 && IsSlot(directions[1])
      modifies this
      ensures Valid() && latestPredictions == UpdatedCache(old(latestPredictions), latest, directions)
      ensures station == old(station) && errorCount == old(errorCount)
    {
      if directions[0] == directions[1] {
        latestPredictions := latestPredictions[Slot(directions[0]) := latest[0]];
      } else {
        latestPredictions := latestPredictions[Slot(directions[0]) := latest[0]];
        latestPredictions := latestPredictions[Slot(directions[1]) := latest[1]];
      }
    }

    /** `find_prediction_with_arriving_banner(predictions)`: the first of the two lines that newly
        reads "ARR" compared with the cached line in the same position. */
    function FindPredictionWithArrivingBanner(predictions: seq<Prediction>): (r: Option<Prediction>)
      requires Valid()
      reads this
      ensures r.Some? ==> |predictions| >= 2 && r.value.value == "ARR" && (r.value == predictions[0] || r.value == predictions[1])
      ensures |predictions| >= 2 && NewlyArriving(predictions[0], latestPredictions[0]) ==> r == Some(predictions[0])
      ensures r.None? <==> (|predictions| < 2 ||
        (!NewlyArriving(predictions[0], latestPredictions[0]) && !NewlyArriving(predictions[1], latestPredictions[1])))
    {
      if |predictions| < 2 then None
      else if predictions[0].value == "ARR" && latestPredictions[0].value != "ARR" then Some(predictions[0])
      else if predictions[1].value == "ARR" && latestPredictions[1].value != "ARR" then Some(predictions[1])
      else None
    }

    /** `get_cached_predictions()`: copies of the two cached lines. */
    function GetCachedPredictions(): (r: seq<Prediction>)
      requires Valid()
      reads this
      ensures |r| == 2 && r[0] == latestPredictions[0] && r[1] == latestPredictions[1]
    {
      [Prediction(latestPredictions[0].labelText, latestPredictions[0].value),
       Prediction(latestPredictions[1].labelText, latestPredictions[1].value)]
    }

    /** `set_station(station)`: the cache becomes the placeholders and the new station is published. */
    method SetStation(newStation: string)
      modifies this
      ensures Valid() && latestPredictions == Placeholders() && station == newStation
      ensures errorCount == old(errorCount)
    {
      latestPredictions := Placeholders();
      station := newStation;
    }
  }

  /** Right after a station change, any line that reads "ARR" raises the banner (the placeholders
      never read "ARR"), and right after the cache stored a line reading "ARR" in a slot, that same
      line does not raise it again. */
  lemma BannerAfterCacheChanges(predictions: seq<Prediction>, latest: seq<Prediction>)
    requires |predictions| >= 2 && |latest| >= 2
    ensures predictions[0].value == "ARR" ==> NewlyArriving(predictions[0], Placeholders()[0])
    ensures predictions[1].value == "ARR" ==> NewlyArriving(predictions[1], Placeholders()[1])
    ensures var c := UpdatedCache(Placeholders(), predictions, [DirectionSouthbound, DirectionNorthbound]);
      !NewlyArriving(predictions[0], c[0]) && !NewlyArriving(predictions[1], c[1])
  {
    UpdatedCacheSlots(Placeholders(), predictions, 0);
  }
}
