/** display.py: the older `Display`, whose MBTA board swaps a blank first line below the second,
    marks cached data with a pixel in the top-right corner, and hands the board to a scroll-away
    animation when an arrival banner comes in. Text widths (`textlength`) are an input. */
module LegacyDisplay {
  import opened Common
  import opened Canvas
  import LM = LegacyMbta
  import MP = MbtaProvider

  /** `max(PANEL_WIDTH * 3, SCREEN_WIDTH - value_width)`: where a value of that width is drawn. */
  function ValueX(valueWidth: real): (x: real)
    ensures x >= (PanelWidth * 3) as real && x + valueWidth >= ScreenWidth as real
    ensures x == (PanelWidth * 3) as real || x + valueWidth == ScreenWidth as real
  {
    if (PanelWidth * 3) as real >= ScreenWidth as real - valueWidth then (PanelWidth * 3) as real
    else ScreenWidth as real - valueWidth
  }

  /** A value up to two panels wide ends at the right edge of the screen; a wider one starts at
      the fourth panel. */
  lemma ValueRightAligned(valueWidth: real)
    ensures valueWidth <= 64.0 ==> ValueX(valueWidth) + valueWidth == 160.0
    ensures valueWidth > 64.0 ==> ValueX(valueWidth) == 96.0
  {
  }

  /** The statuses drawn as two prediction lines. */
  predicate ShowsPredictions(status: LM.PredictionStatus) {
    status in {LM.Ok, LM.ErrorShowCached, LM.ErrorEmpty}
  }

  /** The first two entries exchanged. */
  function SwapFirstTwo<T>(s: seq<T>): (r: seq<T>)
    requires |s| >= 2
  {
    [s[1], s[0]] + s[2..]
  }

  /** Exchanging the first two entries is undone by exchanging them again, and moves nothing
      else. */
  lemma SwapFirstTwoRules<T>(s: seq<T>)
    requires |s| >= 2
    ensures |SwapFirstTwo(s)| == |s| && SwapFirstTwo(s)[0] == s[1] && SwapFirstTwo(s)[1] == s[0]
    ensures SwapFirstTwo(s)[2..] == s[2..]
    ensures SwapFirstTwo(SwapFirstTwo(s)) == s
    ensures multiset(SwapFirstTwo(s)) == multiset(s)
  {
    assert s == [s[0], s[1]] + s[2..];
    assert SwapFirstTwo(SwapFirstTwo(s)) == [s[0], s[1]] + s[2..];
  }

  /** The predictions in the order they are drawn: a blank first line goes below the second. */
  function Ordered(ps: seq<MP.Prediction>): (r: seq<MP.Prediction>)
    requires |ps| >= 2
  {
    if ps[0].labelText == "" then SwapFirstTwo(ps) else ps
  }

  /** The top line has a label unless neither of the first two has; the pair is drawn either in its
      own order or exchanged. */
  lemma OrderedRules(ps: seq<MP.Prediction>)
    requires |ps| >= 2
    ensures Ordered(ps)[0].labelText != "" <==> ps[0].labelText != "" || ps[1].labelText != ""
    ensures multiset(Ordered(ps)[..2]) == multiset(ps[..2]) && Ordered(ps)[2..] == ps[2..]
  {
    SwapFirstTwoRules(ps);
    if ps[0].labelText == "" {
      assert Ordered(ps)[..2] == [ps[1], ps[0]];
      assert ps[..2] == [ps[0], ps[1]];
    }
  }

  /** One prediction line at height `y`: the label at the left, the value right-aligned. */
  function Line(p: MP.Prediction, y: int, width: string -> real): seq<DrawOp> {
    [TextAt(0.0, y, p.labelText), TextAt(ValueX(width(p.value)), y, p.value)]
  }

  /** The image `render_mbta_content` draws, from the predictions as they are after the swap. */
  function Board(status: LM.PredictionStatus, ps: seq<MP.Prediction>, width: string -> real): Picture
    requires ShowsPredictions(status) ==> |ps| >= 2
  {
    if ShowsPredictions(status) then
      Drawing(Line(ps[0], 0, width) + Line(ps[1], 16, width)
              + (if status == LM.ErrorShowCached then [PointAt(ScreenWidth - 1, 0)] else []))
    else Drawing([TextAt(0.0, 0, "Failed to fetch MBTA data")])
  }

  /** The corner pixel is set exactly for cached data; the two lines are drawn at the top and in
      the middle of the screen; any other status draws the failure notice alone. */
  lemma BoardRules(status: LM.PredictionStatus, ps: seq<MP.Prediction>, width: string -> real)
    requires ShowsPredictions(status) ==> |ps| >= 2
    ensures PointAt(159, 0) in Board(status, ps, width).ops <==> status == LM.ErrorShowCached
    ensures ShowsPredictions(status) ==>
      Board(status, ps, width).ops[..4] == [TextAt(0.0, 0, ps[0].labelText), TextAt(ValueX(width(ps[0].value)), 0, ps[0].value),
                                            TextAt(0.0, 16, ps[1].labelText), TextAt(ValueX(width(ps[1].value)), 16, ps[1].value)]
    ensures !ShowsPredictions(status) ==> Board(status, ps, width).ops == [TextAt(0.0, 0, "Failed to fetch MBTA data")]
  {
    var ops := Board(status, ps, width).ops;
    if ShowsPredictions(status) {
      if status == LM.ErrorShowCached {
        assert ops[4] == PointAt(159, 0);
      } else {
        assert |ops| == 4;
        forall k | 0 <= k < 4
          ensures ops[k] != PointAt(159, 0)
        {
        }
      }
    }
  }

  /** The animations `render_mbta_banner_content` registers, in insertion order: the banner, then
      the scroll-away of the last board when there is one. */
  function BannerAnimations(first: string, second: string, lastBoard: Option<Picture>): (r: seq<(string, Registered)>)
    ensures |r| == (if lastBoard.Some? then 2 else 1)
    ensures r[0] == ("mbta_banner", Banner(first, second))
    ensures lastBoard.Some? ==> r[1] == ("mbta_content_scroll_away", MoveAway(lastBoard.value))
  {
    [("mbta_banner", Banner(first, second))]
    + (if lastBoard.Some? then [("mbta_content_scroll_away", MoveAway(lastBoard.value))] else [])
  }

  /** `Display` of display.py: the canvas and animation manager seen through what is done to them,
      and the last MBTA board drawn. */
  class Display {
    var effects: seq<Effect>
    var lastMbtaImage: Option<Picture>

    constructor()
      ensures effects == [] && lastMbtaImage == None
    {
      effects := [];
      lastMbtaImage := None;
    }

    /** `clear()`: the animation manager first, then the canvas, then a swap. */
    method Clear()
      modifies this
      ensures effects == old(effects) + [ManagerClear, CanvasClear, Swap]
      ensures lastMbtaImage == old(lastMbtaImage)
    {
      effects := effects + [ManagerClear, CanvasClear];
      SwapCanvas();
    }

    /** `swap_canvas()`. */
    method SwapCanvas()
      modifies this
      ensures effects == old(effects) + [Swap] && lastMbtaImage == old(lastMbtaImage)
    {
      effects := effects + [Swap];
    }

    /** `_update_display(image)`. */
    method UpdateDisplay(picture: Picture)
      modifies this
      ensures effects == old(effects) + [SetImage(picture, 0, 0), Swap] && lastMbtaImage == old(lastMbtaImage)
    {
      effects := effects + [SetImage(picture, 0, 0)];
      SwapCanvas();
    }

    /** `render_mbta_content((status, predictions))`. It raises (`IndexError`) when two lines are
        to be drawn from fewer than two predictions, before anything is changed. Otherwise a blank
        first line is exchanged with the second in the caller's list itself, and the board is both
        shown and kept as the last MBTA image. */
    method RenderMbtaContent(status: LM.PredictionStatus, predictions: array<LM.Prediction>, width: string -> real)
      returns (raised: bool)
      modifies this, predictions
      ensures raised <==> ShowsPredictions(status) && predictions.Length < 2
      ensures raised ==> effects == old(effects) && lastMbtaImage == old(lastMbtaImage) && predictions[..] == old(predictions[..])
      ensures !raised && ShowsPredictions(status) ==>
        predictions[..] == (if old(predictions[0].labelText) == "" then SwapFirstTwo(old(predictions[..])) else old(predictions[..]))
      ensures !ShowsPredictions(status) ==> predictions[..] == old(predictions[..])
      ensures !raised ==>
        && lastMbtaImage == Some(Board(status, LM.Snapshots(predictions[..]), width))
        && effects == old(effects) + [SetImage(lastMbtaImage.value, 0, 0), Swap]
    {
      var ops: seq<DrawOp>;
      if ShowsPredictions(status) {
        if predictions.Length < 2 {
          return true;
        }
        if predictions[0].labelText == "" {
          predictions[0], predictions[1] := predictions[1], predictions[0];
        }
        var p1, p2 := predictions[0], predictions[1];
        ops := Line(LM.Snapshot(p1), 0, width) + Line(LM.Snapshot(p2), 16, width);
        if status == LM.ErrorShowCached {
          ops := ops + [PointAt(ScreenWidth - 1, 0)];
        }
        var snapshots := LM.Snapshots(predictions[..]);
        assert snapshots[0] == LM.Snapshot(p1) && snapshots[1] == LM.Snapshot(p2);
      } else {
        ops := [TextAt(0.0, 0, "Failed to fetch MBTA data")];
      }
      ghost var board := Board(status, LM.Snapshots(predictions[..]), width);
      assert Drawing(ops) == board;
      lastMbtaImage := Some(Drawing(ops));
      UpdateDisplay(Drawing(ops));
      raised := false;
    }

    /** `render_mbta_banner_content(lines)`: registers the banner of the first two lines, and the
        scroll-away of the last board when one was drawn; it raises (`IndexError`) on fewer than two
        lines, before registering anything. */
    method RenderMbtaBannerContent(lines: seq<string>) returns (raised: bool)
      modifies this
      ensures raised <==> |lines| < 2
      ensures lastMbtaImage == old(lastMbtaImage)
      ensures effects == old(effects) + (if raised then [] else [ManagerAdd(BannerAnimations(lines[0], lines[1], lastMbtaImage))])
    {
      var shown := if |lines| <= 2 then lines else lines[..2];
      if |shown| < 2 {
        return true;
      }
      assert shown[0] == lines[0] && shown[1] == lines[1];
      var animations := [("mbta_banner", Banner(shown[0], shown[1]))];
      if lastMbtaImage.Some? {
        animations := animations + [("mbta_content_scroll_away", MoveAway(lastMbtaImage.value))];
      }
      assert animations == BannerAnimations(lines[0], lines[1], lastMbtaImage);
      effects := effects + [ManagerAdd(animations)];
      raised := false;
    }
  }
}
