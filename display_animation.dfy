/** display/animation.py: the animation scheduler of the sign's display.

    An animation is a lazily started frame generator plus a play-once/loop policy
    (`Animation`); the concrete generators are deterministic timelines (`Source`);
    animations of one speed share an `AnimationGroup` that decides when they are due;
    the `AnimationManager` keeps the key -> animation and speed -> group registries
    and, once per tick, turns due animations into `Frame` messages and one `Swap`. */
module DisplayAnimation {
  import opened Common
  import opened Registry
  import Numeric
  import RT = RenderTypes

  /** `(bbox, image)`: what a frame generator yields. */
  datatype Frame = Frame(bbox: Rect, image: RT.Image)

  // ================================================================ timelines

  /** The concrete `frame_generator`s, by the data they are built from. Text widths are the
      font's `textlength` of the text as stored (after wrap padding), truncated to an int. */
  datatype Source =
      /** `TextScrollAnimation`. */
    | TextScroll(bbox: Rect, text: string, textWidth: nat, wrap: bool, textX: int, textY: int, startBlank: bool)
      /** `MTAAlertAnimation`: a blank-start scroll of `text` at (0, 2), then `lastFrame`. */
    | MtaAlert(bbox: Rect, text: string, textWidth: nat, lastFrame: RT.Image)
      /** `MTABlinkAnimation`. */
    | MtaBlink(bbox: Rect, text: string)
      /** `MTAStartupAnimation` over `routeImages` route tiles. */
    | MtaStartup(bbox: Rect, routeImages: nat)
      /** `MoveAnimation` (and `MBTABannerAnimation`, a move of a banner image). */
    | Move(startBox: Rect, endBox: Rect, image: RT.Image)

  /** `TextScrollAnimation.__init__`: a wrapping scroll pads non-empty text that does not end in
      a space with four spaces, so the repeated copy is separated from the first. */
  function WrapPadded(text: string, wrap: bool): (t: string)
    ensures !wrap || |text| == 0 || text[|text| - 1] == ' ' ==> t == text
    ensures wrap && |text| > 0 && text[|text| - 1] != ' ' ==> t == text + "    "
  {
    if wrap && |text| > 0 && text[|text| - 1] != ' ' then text + "    " else text
  }

  /** A padded text never needs padding again. */
  lemma WrapPaddedIdempotent(text: string, wrap: bool)
    ensures WrapPadded(WrapPadded(text, wrap), wrap) == WrapPadded(text, wrap)
  {
  }

  /** The scroll's `range(start, end, -1)` bounds. */
  function ScrollStart(bbox: Rect, startBlank: bool): int {
    if startBlank then bbox.w else 0
  }

  /** `end = -int(max(bbox.w, text_width))`. */
  function ScrollEnd(bbox: Rect, textWidth: nat): int {
    -(if bbox.w >= textWidth then bbox.w else textWidth)
  }

  function ScrollLength(bbox: Rect, textWidth: nat, startBlank: bool): (n: nat)
    ensures n == 0 || n == ScrollStart(bbox, startBlank) - ScrollEnd(bbox, textWidth)
  {
    var start, end := ScrollStart(bbox, startBlank), ScrollEnd(bbox, textWidth);
    if start > end then start - end else 0
  }

  /** Frame `i` of a scroll: the text drawn at `start - i` (shifted by the text position), and
      once more one text width further right when wrapping. */
  function ScrollFrame(bbox: Rect, text: string, textWidth: nat, wrap: bool, tx: int, ty: int, startBlank: bool, i: nat): Frame {
    var x := ScrollStart(bbox, startBlank) - i;
    Frame(bbox, RT.TextImage(text, x + tx, ty, if wrap then Some(x + textWidth + tx) else None))
  }

  /** `MTABlinkAnimation` timing: speed 6, 15 blocks of 6 frames, `int(2/3 * 6) = 4` text frames per block. */
  const BlinkSpeed: nat := 6
  const BlinkBlocks: nat := 15
  const BlinkTextFrames: nat := 4

  /** `range(0, n, 16)` has this many elements. */
  function Ceil16(n: int): nat {
    if n <= 0 then 0 else (n + 15) / 16
  }

  /** The route image a startup tile shows: `int(x/16 + (y/16) * 10)` for tile `t` in row-major order. */
  function TileIndex(cols: nat, t: nat): nat
    requires cols > 0
  {
    t % cols + 10 * (t / cols)
  }

  /** The first tile from `t` on whose route image index is out of range, or `tiles` if none. */
  function FirstBadTile(cols: nat, tiles: nat, images: nat, t: nat): (b: nat)
    requires cols > 0 && t <= tiles
    ensures t <= b <= tiles
    ensures b < tiles ==> TileIndex(cols, b) >= images
    ensures forall u :: t <= u < b ==> TileIndex(cols, u) < images
    decreases tiles - t
  {
    if t == tiles then tiles
    else if TileIndex(cols, t) >= images then t
    else FirstBadTile(cols, tiles, images, t + 1)
  }

  function StartupTiles(bbox: Rect): nat {
    Ceil16(bbox.w) * Ceil16(bbox.h)
  }

  /** The tile whose paste raises `IndexError`, if any (only the first pass indexes images). */
  function StartupBadTile(bbox: Rect, images: nat): nat {
    var cols := Ceil16(bbox.w);
    if cols == 0 then 0 else FirstBadTile(cols, StartupTiles(bbox), images, 0)
  }

  /** `int(sqrt(n))`: the integer square root. */
  function ISqrt(n: nat): (r: nat)
    ensures r * r <= n < (r + 1) * (r + 1)
  {
    ISqrtFrom(n, 0)
  }

  function ISqrtFrom(n: nat, r: nat): (q: nat)
    requires r * r <= n
    ensures q * q <= n < (q + 1) * (q + 1)
    decreases n - r * r
  {
    if (r + 1) * (r + 1) > n then r else ISqrtFrom(n, r + 1)
  }

  /** Python's `int()` of an exact quotient: truncation toward zero. */
  function TruncDiv(a: int, b: int): int
    requires b > 0
  {
    if a >= 0 then a / b else -((-a) / b)
  }

  /** The move's frame count `int(sqrt(dx*dx + dy*dy))`. */
  function MoveSteps(startBox: Rect, endBox: Rect): nat {
    var dx, dy := endBox.x - startBox.x, endBox.y - startBox.y;
    ISqrt(dx * dx + dy * dy)
  }

  /** `int(start + delta * i / frame_count)`: a move frame's coordinate as the display consumes it. */
  function MovePos(start: int, delta: int, i: nat, steps: nat): int
    requires steps > 0
  {
    TruncDiv(start * steps + delta * i, steps)
  }

  /** Number of frames the generator yields. */
  function Length(src: Source): nat {
    match src
    case TextScroll(bbox, _, tw, _, _, _, sb) => ScrollLength(bbox, tw, sb)
    case MtaAlert(bbox, _, tw, _) => ScrollLength(bbox, tw, true) + 1
    case MtaBlink(_, _) => BlinkBlocks * BlinkSpeed + 1
    case MtaStartup(bbox, images) =>
      var bad := StartupBadTile(bbox, images);
      if bad < StartupTiles(bbox) then bad else 2 * StartupTiles(bbox)
    case Move(s, e, _) => var n := MoveSteps(s, e); if n == 0 then 0 else n + 1
  }

  /** Whether the generator raises after its last frame instead of finishing: the startup mosaic
      indexes past the route images (`IndexError`), a move of length 0 divides by zero. */
  predicate EndsInError(src: Source) {
    match src
    case MtaStartup(bbox, images) => StartupBadTile(bbox, images) < StartupTiles(bbox)
    case Move(s, e, _) => MoveSteps(s, e) == 0
    case _ => false
  }

  /** The `i`-th yielded frame. */
  function FrameAt(src: Source, i: nat): Frame
    requires i < Length(src)
  {
    match src
    case TextScroll(bbox, text, tw, wrap, tx, ty, sb) => ScrollFrame(bbox, text, tw, wrap, tx, ty, sb, i)
    case MtaAlert(bbox, text, tw, last) =>
      if i < ScrollLength(bbox, tw, true) then ScrollFrame(bbox, text, tw, false, 0, 2, true, i)
      else Frame(bbox, last)
    case MtaBlink(bbox, text) =>
      if i < BlinkBlocks * BlinkSpeed && i % BlinkSpeed >= BlinkTextFrames then Frame(bbox, RT.Blank)
      else Frame(bbox, RT.TextImage(text, 1, 2, None))
    case MtaStartup(bbox, _) =>
      var tiles := StartupTiles(bbox);
      if i < tiles then Frame(bbox, RT.StartupMosaic(i + 1, 0))
      else Frame(bbox, RT.StartupMosaic(tiles, i - tiles + 1))
    case Move(s, e, image) =>
      var n := MoveSteps(s, e);
      Frame(Rect(MovePos(s.x, e.x - s.x, i, n), MovePos(s.y, e.y - s.y, i, n), s.w, s.h), image)
  }

  /** The text scroll yields exactly `start - end` frames, all at its box, moving the text one
      pixel left per frame from `start`; the last frame leaves at most one pixel of the text. */
  lemma TextScrollTimeline(bbox: Rect, text: string, tw: nat, wrap: bool, tx: int, ty: int, sb: bool)
    requires ScrollStart(bbox, sb) > ScrollEnd(bbox, tw)
    ensures var src := TextScroll(bbox, text, tw, wrap, tx, ty, sb);
      && Length(src) == ScrollStart(bbox, sb) - ScrollEnd(bbox, tw)
      && !EndsInError(src)
      && (forall i :: 0 <= i < Length(src) ==>
            FrameAt(src, i).bbox == bbox && FrameAt(src, i).image.TextImage?
            && FrameAt(src, i).image.x == ScrollStart(bbox, sb) - i + tx
            && FrameAt(src, i).image.text == text
            && (FrameAt(src, i).image.wrapX.Some? <==> wrap))
      && var last := FrameAt(src, Length(src) - 1).image.x - tx; last + tw <= 1 && last + bbox.w <= 1
  {
  }

  /** The scroll starts blank: with `start_blank` the first frame puts the text just right of the box. */
  lemma TextScrollStartsBlank(bbox: Rect, text: string, tw: nat, wrap: bool, ty: int)
    requires bbox.w > 0
    ensures var src := TextScroll(bbox, text, tw, wrap, 0, ty, true);
      Length(src) > 0 && FrameAt(src, 0).image.x == bbox.w
  {
  }

  /** The alert shows its whole scroll, then exactly one frame holding the saved screen. */
  lemma MtaAlertTimeline(bbox: Rect, text: string, tw: nat, last: RT.Image)
    ensures var src := MtaAlert(bbox, text, tw, last);
      var scroll := TextScroll(bbox, text, tw, false, 0, 2, true);
      && Length(src) == Length(scroll) + 1 && !EndsInError(src)
      && (forall i :: 0 <= i < Length(scroll) ==> FrameAt(src, i) == FrameAt(scroll, i))
      && FrameAt(src, Length(src) - 1) == Frame(bbox, last)
  {
  }

  /** Frame `k` of block `b` of a blink. */
  function BlinkFrame(bbox: Rect, text: string, b: nat, k: nat): Frame
    requires b < BlinkBlocks && k < BlinkSpeed
  {
    FrameAt(MtaBlink(bbox, text), BlinkSpeed * b + k)
  }

  /** The blink yields `15 * 6 + 1` frames: in each block of 6 the first 4 show the text and the
      other 2 are blank, and the final frame shows the text. */
  lemma MtaBlinkTimeline(bbox: Rect, text: string)
    ensures var src := MtaBlink(bbox, text);
      && Length(src) == 91 && !EndsInError(src)
      && (forall b: nat, k: nat :: b < 15 && k < 6 ==>
            BlinkFrame(bbox, text, b, k) == Frame(bbox, if k < 4 then RT.TextImage(text, 1, 2, None) else RT.Blank))
      && FrameAt(src, 90) == Frame(bbox, RT.TextImage(text, 1, 2, None))
  {
    forall b: nat, k: nat | b < 15 && k < 6
      ensures BlinkFrame(bbox, text, b, k) == Frame(bbox, if k < 4 then RT.TextImage(text, 1, 2, None) else RT.Blank)
    {
      Numeric.DivUnique(6 * b + k, 6, b, k);
    }
  }

  lemma {:induction false} FirstBadTileAt(cols: nat, tiles: nat, images: nat, t: nat, b: nat)
    requires cols > 0 && t <= b <= tiles
    requires forall u :: t <= u < b ==> TileIndex(cols, u) < images
    requires b < tiles ==> TileIndex(cols, b) >= images
    ensures FirstBadTile(cols, tiles, images, t) == b
    decreases b - t
  {
    if t < b {
      FirstBadTileAt(cols, tiles, images, t + 1, b);
    }
  }

  lemma ScreenTilesInRange()
    ensures StartupTiles(Rect(0, 0, 160, 32)) == 20
    ensures StartupBadTile(Rect(0, 0, 160, 32), 27) == 20
  {
    assert Ceil16(160) == 10 && Ceil16(32) == 2;
    forall u | 0 <= u < 20 ensures TileIndex(10, u) < 27 {
      assert u == (u / 10) * 10 + u % 10;
    }
    FirstBadTileAt(10, 20, 27, 0, 20);
  }

  /** On the 160x32 screen with the 27 route images the startup pastes 20 tiles (route images
      0-9 on the top row, 10-19 below) and then blacks them out: 40 frames, no error. */
  lemma MtaStartupOnScreen()
    ensures var src := MtaStartup(Rect(0, 0, 160, 32), 27);
      && Length(src) == 40 && !EndsInError(src)
      && FrameAt(src, 19).image == RT.StartupMosaic(20, 0)
      && FrameAt(src, 39).image == RT.StartupMosaic(20, 20)
  {
    ScreenTilesInRange();
  }

  /** A box wider than its route images have tiles in the first row makes the generator raise at
      the first tile whose index reaches the number of images, after one frame per earlier tile. */
  lemma MtaStartupRunsOut(bbox: Rect, images: nat)
    requires images < Ceil16(bbox.w) && bbox.h > 0
    ensures var src := MtaStartup(bbox, images);
      && EndsInError(src) && Length(src) == images
  {
    var cols := Ceil16(bbox.w);
    var tiles := StartupTiles(bbox);
    assert Ceil16(bbox.h) >= 1;
    assert tiles >= cols by { Numeric.MulAtLeast(Ceil16(bbox.h), cols); }
    forall u | 0 <= u <= images ensures TileIndex(cols, u) == u {
      Numeric.DivUnique(u, cols, 0, u);
    }
    FirstBadTileAt(cols, tiles, images, 0, images);
  }

  lemma TruncDivExact(q: int, n: nat)
    requires n > 0
    ensures TruncDiv(q * n, n) == q
  {
    if q >= 0 {
      Numeric.DivUnique(q * n, n, q, 0);
    } else {
      assert -(q * n) == (-q) * n;
      Numeric.DivUnique((-q) * n, n, -q, 0);
    }
  }

  /** A coordinate that moves by `delta` over `n` steps is at its start on step 0 and at its end on step `n`. */
  lemma MovePosEnds(start: int, delta: int, n: nat)
    requires n > 0
    ensures MovePos(start, delta, 0, n) == start
    ensures MovePos(start, delta, n, n) == start + delta
  {
    TruncDivExact(start, n);
    assert start * n + delta * n == (start + delta) * n;
    TruncDivExact(start + delta, n);
  }

  lemma MoveStepsPositive(s: Rect, e: Rect)
    requires s.x != e.x || s.y != e.y
    ensures MoveSteps(s, e) > 0
  {
    var dx, dy := e.x - s.x, e.y - s.y;
    Numeric.SquareNonNegative(dx);
    Numeric.SquareNonNegative(dy);
  }

  /** A move starts at its start box and ends exactly at its end box, one frame per unit of its
      (integer) length. */
  lemma MoveEndpoints(s: Rect, e: Rect, image: RT.Image)
    requires s.x != e.x || s.y != e.y
    ensures var src := Move(s, e, image); var n := MoveSteps(s, e);
      && n > 0 && Length(src) == n + 1 && !EndsInError(src)
      && FrameAt(src, 0).bbox == s
      && FrameAt(src, n).bbox == Rect(e.x, e.y, s.w, s.h)
  {
    MoveStepsPositive(s, e);
    var n := MoveSteps(s, e);
    MovePosEnds(s.x, e.x - s.x, n);
    MovePosEnds(s.y, e.y - s.y, n);
  }

  /** Along an axis, a move by `d = ±n` over `n` steps advances one pixel per step. */
  lemma MovePosUnit(start: int, d: int, i: nat, n: nat)
    requires n > 0 && (d == n as int || d == -(n as int))
    ensures MovePos(start, d, i, n) == start + (if d > 0 then i as int else -(i as int))
    ensures MovePos(start, 0, i, n) == start
  {
    var y := start + (if d > 0 then i as int else -(i as int));
    assert start * n + d * i == y * n;
    TruncDivExact(y, n);
    assert start * n + 0 * i == start * n;
    TruncDivExact(start, n);
  }

  /** A vertical move by `d` pixels takes `|d| + 1` frames, one pixel per frame: the banner
      rises from y = 32 to y = 0 in 33 frames. */
  lemma VerticalMove(s: Rect, d: int, image: RT.Image)
    requires d != 0
    ensures var e := s.(y := s.y + d); var src := Move(s, e, image);
      var n := if d > 0 then d else -d;
      && Length(src) == n + 1
      && forall i :: 0 <= i <= n ==>
           FrameAt(src, i).bbox == Rect(s.x, s.y + (if d > 0 then i else -i), s.w, s.h)
  {
    var e := s.(y := s.y + d);
    var n: nat := if d > 0 then d else -d;
    ISqrtOfSquare(n);
    assert d * d == n * n;
    assert 0 * 0 + d * d == n * n;
    assert MoveSteps(s, e) == n;
    forall i | 0 <= i <= n
      ensures FrameAt(Move(s, e, image), i).bbox == Rect(s.x, s.y + (if d > 0 then i else -i), s.w, s.h)
    {
      MovePosUnit(s.y, d, i, n);
      MovePosUnit(s.x, d, i, n);
    }
  }

  lemma ISqrtOfSquare(n: nat)
    ensures ISqrt(n * n) == n
  {
    var m := n * n;
    var r := ISqrt(m);
    assert (n + 1) * (n + 1) == m + 2 * n + 1;
    LtOfSquareLt(n, r + 1);
    LtOfSquareLt(r, n + 1);
  }

  lemma LtOfSquareLt(a: nat, b: nat)
    requires a * a < b * b
    ensures a < b
  {
    if b <= a {
      MulMono(b, a);
    }
  }

  lemma MulMono(a: nat, b: nat)
    requires a <= b
    ensures a * a <= b * b
  {
    assert a * a <= a * b by { MulLe(a, a, b); }
    assert a * b <= b * b by { MulLe(b, a, b); }
  }

  lemma MulLe(k: nat, a: nat, b: nat)
    requires a <= b
    ensures k * a <= k * b
  {
    assert k * b == k * a + k * (b - a);
    assert k * (b - a) >= 0;
  }

  /** A move to its own start divides by zero on the first `next()`. */
  lemma ZeroMoveRaises(s: Rect, image: RT.Image)
    ensures var src := Move(s, s, image); Length(src) == 0 && EndsInError(src)
  {
  }

  // ================================================================ playback

  /** A generator's output in the abstract: the frames it yields, then whether it raises. */
  datatype Timeline = Timeline(frames: seq<Frame>, raises: bool)

  function TimelineOf(src: Source): (tl: Timeline)
    ensures |tl.frames| == Length(src) && tl.raises == EndsInError(src)
    ensures forall i :: 0 <= i < Length(src) ==> tl.frames[i] == FrameAt(src, i)
  {
    Timeline(seq(Length(src), i requires 0 <= i < Length(src) => FrameAt(src, i)), EndsInError(src))
  }

  /** The state of `_frame_generator`: not created yet, suspended before frame `pos`, or finished. */
  datatype GenState = Fresh | At(pos: nat) | Done

  /** `(_frame_generator, _current_frame)`. */
  datatype PlayState = PlayState(gen: GenState, current: Option<Frame>)

  /** What `get_next_frame()` does: return `(frame, is_complete)` or let an exception escape. */
  datatype Step = Produced(frame: Option<Frame>, complete: bool) | Raised

  /** One `next()` on a created generator: a frame, `StopIteration`, or the generator's own exception. */
  datatype Resume = Yield(frame: Frame) | Stop | Throw

  function Next(tl: Timeline, g: GenState): Resume {
    if g.At? && g.pos < |tl.frames| then Yield(tl.frames[g.pos])
    else if g.At? && tl.raises then Throw
    else Stop
  }

  /** The generator state after that `next()`: a generator that stopped or raised is finished. */
  function Advance(tl: Timeline, g: GenState): GenState {
    if g.At? && g.pos < |tl.frames| then At(g.pos + 1) else Done
  }

  const Initial: PlayState := PlayState(Fresh, None)

  /** `get_next_frame()` as a function of the animation's state. */
  function Play(tl: Timeline, loop: bool, st: PlayState): (Step, PlayState) {
    var g := if st.gen == Fresh then At(0) else st.gen;
    match Next(tl, g)
    case Yield(f) => (Produced(Some(f), false), PlayState(Advance(tl, g), Some(f)))
    case Throw => (Raised, PlayState(Done, st.current))
    case Stop =>
      if !loop then (Produced(st.current, true), PlayState(Done, st.current))
      else match Next(tl, At(0))
        case Yield(f) => (Produced(Some(f), false), PlayState(At(1), Some(f)))
        case _ => (Raised, PlayState(Done, st.current))
  }

  /** The state after `n` calls on a new animation. */
  function After(tl: Timeline, loop: bool, n: nat): PlayState {
    if n == 0 then Initial else Play(tl, loop, After(tl, loop, n - 1)).1
  }

  /** What call number `n` (counting from 0) returns. */
  function StepAt(tl: Timeline, loop: bool, n: nat): Step {
    Play(tl, loop, After(tl, loop, n)).0
  }

  /** The last frame a play-once animation produced in its first `n` calls: `None` before any. */
  function LastShown(tl: Timeline, n: nat): Option<Frame> {
    var k := if n < |tl.frames| then n else |tl.frames|;
    if k == 0 then None else Some(tl.frames[k - 1])
  }

  lemma {:induction false} PlayOnceState(tl: Timeline, n: nat)
    requires !tl.raises
    ensures After(tl, false, n) ==
      PlayState(if n == 0 then Fresh else if n <= |tl.frames| then At(n) else Done, LastShown(tl, n))
    decreases n
  {
    if n > 0 {
      PlayOnceState(tl, n - 1);
    }
  }

  /** A play-once animation returns its frames in order, each with `is_complete = False`; every
      later call returns the last frame it produced (`None` if there was none) with
      `is_complete = True`. */
  lemma PlayOnce(tl: Timeline, n: nat)
    requires !tl.raises
    ensures n < |tl.frames| ==> StepAt(tl, false, n) == Produced(Some(tl.frames[n]), false)
    ensures n >= |tl.frames| ==> StepAt(tl, false, n) == Produced(LastShown(tl, |tl.frames|), true)
  {
    PlayOnceState(tl, n);
  }

  /** One call of a looping animation whose generator stands before frame `p`. */
  lemma LoopStep(tl: Timeline, p: nat, cur: Option<Frame>)
    requires !tl.raises && 0 < p <= |tl.frames|
    ensures var q := if p == |tl.frames| then 0 else p;
      Play(tl, true, PlayState(At(p), cur)) == (Produced(Some(tl.frames[q]), false), PlayState(At(q + 1), Some(tl.frames[q])))
  {
  }

  lemma {:induction false} LoopState(tl: Timeline, n: nat)
    requires !tl.raises && |tl.frames| > 0 && n > 0
    ensures After(tl, true, n) == PlayState(At((n - 1) % |tl.frames| + 1), Some(tl.frames[(n - 1) % |tl.frames|]))
    decreases n
  {
    if n == 1 {
      LoopStart(tl);
    } else {
      var m: nat := n - 2;
      LoopState(tl, m + 1);
      LoopAdvance(tl, m);
      assert n == m + 2;
    }
  }

  lemma LoopStart(tl: Timeline)
    requires !tl.raises && |tl.frames| > 0
    ensures After(tl, true, 1) == PlayState(At(0 % |tl.frames| + 1), Some(tl.frames[0 % |tl.frames|]))
  {
    assert After(tl, true, 1) == Play(tl, true, Initial).1;
  }

  /** The induction step of `LoopState`: one more call moves to the next frame modulo the length. */
  lemma LoopAdvance(tl: Timeline, m: nat)
    requires !tl.raises && |tl.frames| > 0
    requires After(tl, true, m + 1) == PlayState(At(m % |tl.frames| + 1), Some(tl.frames[m % |tl.frames|]))
    ensures After(tl, true, m + 2) == PlayState(At((m + 1) % |tl.frames| + 1), Some(tl.frames[(m + 1) % |tl.frames|]))
  {
    var L := |tl.frames|;
    var r := m % L;
    LoopStep(tl, r + 1, Some(tl.frames[r]));
    Numeric.ModNext(m, L);
  }

  /** A looping animation cycles through its frames forever and never reports completion:
      when the generator is exhausted it is recreated and its first frame is returned. */
  lemma Looping(tl: Timeline, n: nat)
    requires !tl.raises && |tl.frames| > 0
    ensures StepAt(tl, true, n) == Produced(Some(tl.frames[n % |tl.frames|]), false)
  {
    var L := |tl.frames|;
    if n > 0 {
      LoopState(tl, n);
      var r := (n - 1) % L;
      LoopStep(tl, r + 1, Some(tl.frames[r]));
      Numeric.ModNext(n - 1, L);
    }
  }

  /** Whatever the timeline and the state, a looping animation never returns `is_complete = True`. */
  lemma LoopNeverCompletes(tl: Timeline, st: PlayState)
    ensures !Play(tl, true, st).0.Produced? || !Play(tl, true, st).0.complete
  {
  }

  /** A looping animation with no frames lets `StopIteration` escape on its first call. */
  lemma EmptyLoopRaises(tl: Timeline)
    requires |tl.frames| == 0
    ensures StepAt(tl, true, 0) == Raised
  {
  }

  /** A timeline that raises does so on the call after its last frame, looping or not. */
  lemma {:induction false} ErrorSurfaces(tl: Timeline, loop: bool, n: nat)
    requires tl.raises && n <= |tl.frames|
    ensures After(tl, loop, n) == PlayState(if n == 0 then Fresh else At(n), LastShown(tl, n))
    ensures n < |tl.frames| ==> StepAt(tl, loop, n) == Produced(Some(tl.frames[n]), false)
    ensures n == |tl.frames| ==> StepAt(tl, loop, n) == Raised
    decreases n
  {
    if n > 0 {
      ErrorSurfaces(tl, loop, n - 1);
    }
  }

  /** `Animation`: a timeline, its speed in frames per second, its loop policy and the state of
      its generator. */
  class Animation {
    const source: Source
    /** What the generator of `source` yields, fixed at construction. */
    const timeline: Timeline
    const speed: Speed
    const loop: bool
    var gen: GenState
    var current: Option<Frame>

    function State(): PlayState
      reads this
    {
      PlayState(gen, current)
    }

    constructor(source: Source, speed: Speed, loop: bool)
      ensures this.source == source && this.speed == speed && this.loop == loop
      ensures timeline == TimelineOf(source) && State() == Initial
    {
      this.source := source;
      timeline := TimelineOf(source);
      this.speed := speed;
      this.loop := loop;
      gen := Fresh;
      current := None;
    }

    /** `TextScrollAnimation(bbox, speed, loop, wrap, text, ...)`; `width` is the font's text length. */
    constructor TextScrollAnimation(bbox: Rect, speed: Speed, loop: bool, wrap: bool, text: string,
                                    width: string -> nat, textX: int, textY: int, startBlank: bool)
      ensures this.source == TextScroll(bbox, WrapPadded(text, wrap), width(WrapPadded(text, wrap)), wrap, textX, textY, startBlank)
      ensures this.speed == speed && this.loop == loop && State() == Initial && timeline == TimelineOf(this.source)
    {
      var padded := WrapPadded(text, wrap);
      var src := TextScroll(bbox, padded, width(padded), wrap, textX, textY, startBlank);
      this.source := src;
      timeline := TimelineOf(src);
      this.speed := speed;
      this.loop := loop;
      gen := Fresh;
      current := None;
    }

    /** `MTAAlertAnimation(text, bbox, last_frame)`: speed 60, played once. */
    constructor MtaAlertAnimation(text: string, bbox: Rect, last: RT.Image, width: string -> nat)
      ensures this.source == MtaAlert(bbox, text, width(text), last)
      ensures this.speed == 60 && !this.loop && State() == Initial && timeline == TimelineOf(this.source)
    {
      var src := MtaAlert(bbox, text, width(text), last);
      this.source := src;
      timeline := TimelineOf(src);
      this.speed := 60;
      this.loop := false;
      gen := Fresh;
      current := None;
    }

    /** `MTABlinkAnimation(text, bbox)`: speed 6, played once. */
    constructor MtaBlinkAnimation(text: string, bbox: Rect)
      ensures this.source == MtaBlink(bbox, text) && this.speed == 6 && !this.loop && State() == Initial
      ensures timeline == TimelineOf(this.source)
    {
      var src := MtaBlink(bbox, text);
      this.source := src;
      timeline := TimelineOf(src);
      this.speed := 6;
      this.loop := false;
      gen := Fresh;
      current := None;
    }

    /** `MTAStartupAnimation(bbox)`: speed 10, played once, over the route images. */
    constructor MtaStartupAnimation(bbox: Rect, routeImages: nat)
      ensures this.source == MtaStartup(bbox, routeImages) && this.speed == 10 && !this.loop && State() == Initial
      ensures timeline == TimelineOf(this.source)
    {
      var src := MtaStartup(bbox, routeImages);
      this.source := src;
      timeline := TimelineOf(src);
      this.speed := 10;
      this.loop := false;
      gen := Fresh;
      current := None;
    }

    /** `get_next_frame()`: create the generator on first use and take its next frame; when it is
        exhausted, a looping animation starts a new generator and returns its first frame, a
        play-once animation returns its last frame and reports completion. */
    method GetNextFrame() returns (step: Step)
      modifies this
      ensures (step, State()) == Play(timeline, loop, old(State()))
    {
      var tl := timeline;
      if gen == Fresh {
        gen := At(0);
      }
      var r := Next(tl, gen);
      match r {
        case Yield(f) =>
          gen := Advance(tl, gen);
          current := Some(f);
          return Produced(current, false);
        case Throw =>
          gen := Done;
          return Raised;
        case Stop =>
          gen := Done;
          if loop {
            gen := At(0);
            var r2 := Next(tl, gen);
            if r2.Yield? {
              gen := Advance(tl, gen);
              current := Some(r2.frame);
              return Produced(current, false);
            }
            gen := Done;
            return Raised;
          }
          return Produced(current, true);
      }
    }
  }
}
