/** What the two `Display` classes (display/display.py and display.py) do to the LED panel, shared
    by both: the screen size, the drawing operations an image is built from, the effects a render
    has on the canvas and on the animation manager, and `_format_time` / `_format_elapsed_time`.
    Pixels are not modelled: an image is described by what was drawn on it. */
module Canvas {
  import opened Common
  import Numeric
  import RT = RenderTypes
  import Spotify

  const PanelWidth := 32
  const PanelHeight := 32
  const PanelCount := 5
  const ScreenWidth := PanelWidth * PanelCount
  const ScreenHeight := PanelHeight

  /** One `draw.text` or `draw.point` call; x positions may be fractional (`SCREEN_WIDTH - textlength`). */
  datatype DrawOp = TextAt(x: real, y: int, text: string) | PointAt(px: int, py: int)

  /** An image handed to `canvas.SetImage`. */
  datatype Picture =
    | Drawing(ops: seq<DrawOp>)
    | FrameImage(image: RT.Image)
      /** `_get_progress_bar_image`: the bar (its filled width is not modelled) and the two times. */
    | ProgressBar(elapsed: string, remaining: string)
      /** `_get_title_and_artist_image`. */
    | TitleAndArtist(title: string, artist: string)
      /** The album cover decoded from the fetched bytes and resized to 32 by 32. */
    | AlbumArt(cover: Spotify.AlbumCover)

  /** An animation a renderer registers, by what it is built from. */
  datatype Registered =
    | TextScroll(bbox: Rect, speed: int, loop: bool, wrap: bool, text: string)
    | Banner(first: string, second: string)
    | MoveAway(picture: Picture)

  /** What a render does, in order: canvas calls, calls into the animation manager, and drawing done
      by renderers outside this model (clock faces, the MBTA and MTA boards of display/). */
  datatype Effect =
    | SetImage(picture: Picture, x: int, y: int)
    | CanvasClear
    | Swap
    | ManagerClear
    | ManagerRemove(key: string)
    | ManagerAdd(entries: seq<(string, Registered)>)
    | Delegated(kind: RenderMessageType)

  predicate IsManagerCall(e: Effect) {
    e.ManagerClear? || e.ManagerRemove? || e.ManagerAdd?
  }

  /** `hours`, `minutes` and `seconds` of `_format_time(seconds, ...)`: Python's floor division
      and modulo, which for these positive divisors are Dafny's. */
  function Hours(seconds: int): int { seconds / 3600 }
  function Minutes(seconds: int): int { (seconds % 3600) / 60 }
  function Seconds(seconds: int): int { seconds % 60 }

  lemma ClockParts(seconds: int)
    ensures 0 <= Minutes(seconds) < 60 && 0 <= Seconds(seconds) < 60
    ensures Hours(seconds) * 3600 + Minutes(seconds) * 60 + Seconds(seconds) == seconds
  {
    var r := seconds % 3600;
    assert seconds == Hours(seconds) * 3600 + r;
    assert r == Minutes(seconds) * 60 + r % 60;
    assert seconds % 60 == r % 60 by {
      assert seconds == (Hours(seconds) * 60) * 60 + r;
      Numeric.DivUnique(seconds, 60, Hours(seconds) * 60 + Minutes(seconds), r % 60);
    }
  }

  /** The fields `_format_time` prints, each zero-padded to two digits: the hours only when there is
      a whole hour. */
  function TimeFields(seconds: int): (fields: seq<string>)
    ensures forall i :: 0 <= i < |fields| ==> Numeric.AllDigits(fields[i]) && |fields[i]| >= 2
  {
    if Hours(seconds) > 0 then [Numeric.Pad2(Hours(seconds)), Numeric.Pad2(Minutes(seconds)), Numeric.Pad2(Seconds(seconds))]
    else [Numeric.Pad2(Minutes(seconds)), Numeric.Pad2(Seconds(seconds))]
  }

  /** `_format_time(seconds, is_negative)` and `_format_elapsed_time(seconds, is_negative)`:
      "HH:MM:SS" when there is a whole hour, "MM:SS" otherwise, after a "-" when asked for. */
  function FormatTime(seconds: int, isNegative: bool): (t: string)
  {
    (if isNegative then "-" else "") + Numeric.Join(TimeFields(seconds), ":")
  }

  /** Reads a time written by `FormatTime` back: the sign flag and the number of seconds. */
  function ReadTime(t: string): Option<(bool, int)> {
    var negative := |t| > 0 && t[0] == '-';
    ReadFields(negative, Numeric.Split(if negative then t[1..] else t, ':'))
  }

  /** "H:M:S" or "M:S" in decimal digits, as a number of seconds. */
  function ReadFields(negative: bool, parts: seq<string>): Option<(bool, int)> {
    if !(forall i :: 0 <= i < |parts| ==> Numeric.AllDigits(parts[i])) then None
    else if |parts| == 3 then
      Some((negative, Numeric.ParseDigits(parts[0]) * 3600 + Numeric.ParseDigits(parts[1]) * 60 + Numeric.ParseDigits(parts[2])))
    else if |parts| == 2 then Some((negative, Numeric.ParseDigits(parts[0]) * 60 + Numeric.ParseDigits(parts[1])))
    else None
  }

  /** The text starts with "-" exactly when the time is marked negative. */
  lemma FormatTimeSign(seconds: int, isNegative: bool)
    ensures var t := FormatTime(seconds, isNegative);
      && |t| >= 5 && (t[0] == '-' <==> isNegative)
      && (if isNegative then t[1..] else t) == Numeric.Join(TimeFields(seconds), ":")
  {
    var fields := TimeFields(seconds);
    var body := Numeric.Join(fields, ":");
    assert fields[1..][0] == fields[1];
    if |fields| == 3 {
      assert fields[1..][1..] == [fields[2]];
    } else {
      assert fields[1..] == [fields[1]];
    }
    assert body == fields[0] + ":" + Numeric.Join(fields[1..], ":");
    assert Numeric.IsDigit(fields[0][0]);
    if isNegative {
      assert FormatTime(seconds, isNegative) == "-" + body;
    }
  }

  /** A whole number of seconds, written and read back, gives the same number and sign; it has
      three fields from one hour on and two below. */
  lemma FormatTimeRoundTrip(seconds: nat, isNegative: bool)
    ensures ReadTime(FormatTime(seconds, isNegative)) == Some((isNegative, seconds))
    ensures var t := FormatTime(seconds, isNegative);
      |Numeric.Split(if isNegative then t[1..] else t, ':')| == if seconds < 3600 then 2 else 3
  {
    FormatTimeSign(seconds, isNegative);
    var fields := TimeFields(seconds);
    FieldsHaveNoColon(fields);
    Numeric.SplitJoin(fields, ':');
    ReadTimeFields(seconds, isNegative);
  }

  lemma FieldsHaveNoColon(fields: seq<string>)
    requires forall i :: 0 <= i < |fields| ==> Numeric.AllDigits(fields[i])
    ensures |fields| >= 1 ==> forall i :: 0 <= i < |fields| ==> ':' !in fields[i]
  {
    forall i, k | 0 <= i < |fields| && 0 <= k < |fields[i]|
      ensures fields[i][k] != ':'
    {
      assert Numeric.IsDigit(fields[i][k]);
    }
  }

  lemma ReadTimeFields(seconds: nat, isNegative: bool)
    ensures ReadFields(isNegative, TimeFields(seconds)) == Some((isNegative, seconds))
    ensures |TimeFields(seconds)| == if seconds < 3600 then 2 else 3
  {
    ClockParts(seconds);
    Numeric.Pad2Parses(Hours(seconds));
    Numeric.Pad2Parses(Minutes(seconds));
    Numeric.Pad2Parses(Seconds(seconds));
  }

  /** A negative count has no whole hour, so only minutes and seconds of its remainder modulo an hour
      are shown: one second past the end reads "-59:59". */
  lemma NegativeCountWraps()
    ensures FormatTime(-1, true) == "-" + "59" + ":" + "59"
  {
    assert Hours(-1) == -1 && Minutes(-1) == 59 && Seconds(-1) == 59;
    assert Numeric.NatToString(59) == Numeric.NatToString(5) + [Numeric.DigitChar(9)];
    assert Numeric.Pad2(59) == "59";
    assert TimeFields(-1) == ["59", "59"];
    assert TimeFields(-1)[1..] == ["59"];
  }
}
