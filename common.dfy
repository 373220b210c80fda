/** common/common.py: the sign's shared enums, the `Rect` box (also declared,
    identically, in display/types.py) and `hex_to_rgb` with the two colours
    derived from it. */
module Common {

  /** `SignMode`: which screen the sign shows. */
  datatype SignMode = TestMode | ClockMode | MbtaMode | MtaMode | MusicMode | WidgetMode

  function SignModeValue(m: SignMode): (n: nat)
    ensures n < 6
  {
    match m
    case TestMode => 0
    case ClockMode => 1
    case MbtaMode => 2
    case MtaMode => 3
    case MusicMode => 4
    case WidgetMode => 5
  }

  function SignModeOf(n: nat): (m: Option<SignMode>)
    ensures m.Some? <==> n < 6
  {
    if n == 0 then Some(TestMode)
    else if n == 1 then Some(ClockMode)
    else if n == 2 then Some(MbtaMode)
    else if n == 3 then Some(MtaMode)
    else if n == 4 then Some(MusicMode)
    else if n == 5 then Some(WidgetMode)
    else None
  }

  /** Every mode has its own value, and the value names the mode back. */
  lemma SignModeValues(m: SignMode, m': SignMode)
    ensures SignModeOf(SignModeValue(m)) == Some(m)
    ensures SignModeValue(m) == SignModeValue(m') ==> m == m'
  {
  }

  /** `RenderMessageType`: the closed set of message kinds the render thread understands. */
  datatype RenderMessageType =
    | ClearKind | FrameKind | SwapKind | TextKind | ClockKind
    | MbtaKind | MbtaBannerKind | MtaKind | MtaAlertKind | MusicKind

  function RenderMessageTypeValue(t: RenderMessageType): (n: nat)
    ensures n < 10
  {
    match t
    case ClearKind => 0
    case FrameKind => 1
    case SwapKind => 2
    case TextKind => 3
    case ClockKind => 4
    case MbtaKind => 5
    case MbtaBannerKind => 6
    case MtaKind => 7
    case MtaAlertKind => 8
    case MusicKind => 9
  }

  function RenderMessageTypeOf(n: nat): (t: Option<RenderMessageType>)
    ensures t.Some? <==> n < 10
  {
    if n == 0 then Some(ClearKind)
    else if n == 1 then Some(FrameKind)
    else if n == 2 then Some(SwapKind)
    else if n == 3 then Some(TextKind)
    else if n == 4 then Some(ClockKind)
    else if n == 5 then Some(MbtaKind)
    else if n == 6 then Some(MbtaBannerKind)
    else if n == 7 then Some(MtaKind)
    else if n == 8 then Some(MtaAlertKind)
    else if n == 9 then Some(MusicKind)
    else None
  }

  /** The ten kinds have ten distinct values 0..9, and each value names its kind back. */
  lemma RenderMessageTypeValues(t: RenderMessageType, t': RenderMessageType)
    ensures RenderMessageTypeOf(RenderMessageTypeValue(t)) == Some(t)
    ensures RenderMessageTypeValue(t) == RenderMessageTypeValue(t') ==> t == t'
  {
  }

  /** `ClockType`. */
  datatype ClockType = DefaultClock | MbtaClock | MtaClock

  datatype Option<T> = None | Some(value: T)

  /** `Rect(x, y, w, h)`: a box on the 160x32 panel, position and size in pixels. */
  datatype Rect = Rect(x: int, y: int, w: int, h: int)

  /** `Rect.to_tuple()`: the four fields as given. */
  function ToTuple(r: Rect): (t: (int, int, int, int))
    ensures t.0 == r.x && t.1 == r.y && t.2 == r.w && t.3 == r.h
  {
    (r.x, r.y, r.w, r.h)
  }

  /** `Rect.to_crop_tuple()`: the (left, top, right, bottom) box PIL crops and pastes with. */
  function ToCropTuple(r: Rect): (t: (int, int, int, int))
    ensures t.0 == r.x && t.1 == r.y
    ensures t.2 - t.0 == r.w && t.3 - t.1 == r.h
  {
    (r.x, r.y, r.x + r.w, r.y + r.h)
  }

  /** Reading a box back from its (left, top, right, bottom) form. */
  function FromCropTuple(t: (int, int, int, int)): Rect {
    Rect(t.0, t.1, t.2 - t.0, t.3 - t.1)
  }

  /** The crop form loses nothing: the box can be read back from it. */
  lemma CropTupleRoundTrip(r: Rect)
    ensures FromCropTuple(ToCropTuple(r)) == r
    ensures ToCropTuple(FromCropTuple(ToCropTuple(r))) == ToCropTuple(r)
  {
  }

  // ---------------------------------------------------------------- colours

  predicate IsHexDigit(c: char) {
    '0' <= c <= '9' || 'a' <= c <= 'f' || 'A' <= c <= 'F'
  }

  function HexDigitValue(c: char): (v: nat)
    requires IsHexDigit(c)
    ensures v < 16
  {
    if '0' <= c <= '9' then (c as int) - ('0' as int)
    else if 'a' <= c <= 'f' then (c as int) - ('a' as int) + 10
    else (c as int) - ('A' as int) + 10
  }

  /** Upper-case hex digit of 0..15, as in "#D0FF00". */
  function HexDigit(v: nat): (c: char)
    requires v < 16
    ensures IsHexDigit(c) && HexDigitValue(c) == v
  {
    if v < 10 then (('0' as int) + v) as char else (('A' as int) + v - 10) as char
  }

  /** ASCII whitespace, which Python's `int()` ignores around the digits. */
  predicate IsSpace(c: char) {
    c == ' ' || c == '\t' || c == '\n' || c == '\r' || c == '\U{B}' || c == '\U{C}'
  }

  /** `int(t, 16)` for a slice of at most two characters: two hex digits, one digit, a digit with
      a sign or a surrounding space. Anything else raises `ValueError` (`None`). */
  function ParseHexSlice(t: string): (r: Option<int>)
    requires |t| <= 2
    ensures r.Some? ==> -15 <= r.value <= 255
    ensures |t| == 2 && IsHexDigit(t[0]) && IsHexDigit(t[1]) ==>
      r == Some(16 * HexDigitValue(t[0]) + HexDigitValue(t[1]))
  {
    if |t| == 0 then None
    else if |t| == 1 then (if IsHexDigit(t[0]) then Some(HexDigitValue(t[0])) else None)
    else if IsHexDigit(t[0]) && IsHexDigit(t[1]) then Some(16 * HexDigitValue(t[0]) + HexDigitValue(t[1]))
    else if IsHexDigit(t[1]) && (IsSpace(t[0]) || t[0] == '+') then Some(HexDigitValue(t[1]))
    else if IsHexDigit(t[1]) && t[0] == '-' then (var v: int := HexDigitValue(t[1]); Some(-v))
    else if IsHexDigit(t[0]) && IsSpace(t[1]) then Some(HexDigitValue(t[0]))
    else None
  }

  /** `s.lstrip('#')`: drops every leading '#'. */
  function StripHashes(s: string): (t: string)
    ensures |t| <= |s| && t == s[|s| - |t|..]
    ensures |t| > 0 ==> t[0] != '#'
  {
    if |s| > 0 && s[0] == '#' then StripHashes(s[1..]) else s
  }

  /** Python's `s[i:i+2]` for i >= 0. */
  function Slice2(s: string, i: nat): (t: string)
    ensures |t| <= 2
  {
    if i >= |s| then "" else if i + 2 >= |s| then s[i..] else s[i..i + 2]
  }

  /** `hex_to_rgb(hex_color)`: after stripping the leading '#'s, the pairs at offsets 0, 2 and 4
      are parsed as base-16 numbers; a pair that does not parse raises (`None`). */
  function HexToRgb(hex: string): (rgb: Option<(int, int, int)>)
  {
    var s := StripHashes(hex);
    var r, g, b := ParseHexSlice(Slice2(s, 0)), ParseHexSlice(Slice2(s, 2)), ParseHexSlice(Slice2(s, 4));
    if r.Some? && g.Some? && b.Some? then Some((r.value, g.value, b.value)) else None
  }

  predicate IsChannel(v: int) {
    0 <= v < 256
  }

  /** "#RRGGBB" in upper-case hex. */
  function RgbToHex(r: int, g: int, b: int): (s: string)
    requires IsChannel(r) && IsChannel(g) && IsChannel(b)
    ensures |s| == 7 && s[0] == '#'
  {
    ['#', HexDigit(r / 16), HexDigit(r % 16), HexDigit(g / 16), HexDigit(g % 16), HexDigit(b / 16), HexDigit(b % 16)]
  }

  /** `hex_to_rgb` reads back every colour written as "#RRGGBB". */
  lemma HexToRgbRoundTrip(r: int, g: int, b: int)
    requires IsChannel(r) && IsChannel(g) && IsChannel(b)
    ensures HexToRgb(RgbToHex(r, g, b)) == Some((r, g, b))
  {
    var s := RgbToHex(r, g, b);
    assert StripHashes(s) == s[1..];
  }

  /** With six hex digits after the '#'s, every channel is in 0..255; trailing characters are ignored. */
  lemma HexToRgbChannels(hex: string)
    requires var s := StripHashes(hex); |s| >= 6 && forall i :: 0 <= i < 6 ==> IsHexDigit(s[i])
    ensures HexToRgb(hex).Some?
    ensures var c := HexToRgb(hex).value; IsChannel(c.0) && IsChannel(c.1) && IsChannel(c.2)
  {
    var s := StripHashes(hex);
    assert IsHexDigit(s[0]) && IsHexDigit(s[1]) && IsHexDigit(s[2]);
    assert IsHexDigit(s[3]) && IsHexDigit(s[4]) && IsHexDigit(s[5]);
    PairParses(s, 0);
    PairParses(s, 2);
    PairParses(s, 4);
  }

  /** Two hex digits at `i` parse as one channel value. */
  lemma PairParses(s: string, i: nat)
    requires i + 2 <= |s| && IsHexDigit(s[i]) && IsHexDigit(s[i + 1])
    ensures ParseHexSlice(Slice2(s, i)).Some? && IsChannel(ParseHexSlice(Slice2(s, i)).value)
  {
    var p := Slice2(s, i);
    assert p == [s[i], s[i + 1]];
  }

  /** A colour string without the two digits of every channel is rejected, e.g. "#FFF". */
  lemma HexToRgbShortFails()
    ensures HexToRgb("#FFF") == None
  {
    assert StripHashes("#FFF") == "FFF";
    assert Slice2("FFF", 4) == "";
  }

  /** `Colors`. */
  const Black: (int, int, int) := (0, 0, 0)
  const White: (int, int, int) := (255, 255, 255)
  const MbtaAmber: (int, int, int) := (255, 191, 0)
  const SpotifyGreen: (int, int, int) := (29, 185, 84)

  /** `Colors.MTA_GREEN = hex_to_rgb("#D0FF00")` and `Colors.MTA_RED_AMBER = hex_to_rgb("#E25822")`. */
  lemma MtaColours()
    ensures HexToRgb("#D0FF00") == Some((208, 255, 0))
    ensures HexToRgb("#E25822") == Some((226, 88, 34))
  {
    assert RgbToHex(208, 255, 0) == "#D0FF00";
    HexToRgbRoundTrip(208, 255, 0);
    assert RgbToHex(226, 88, 34) == "#E25822";
    HexToRgbRoundTrip(226, 88, 34);
  }
}
