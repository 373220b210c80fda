/** display/types.py: the messages the producer threads put on the render queue. */
module RenderTypes {
  import opened Common
  import MbtaProvider
  import MtaProvider
  import Spotify

  /** What a frame image shows. Pixels are not modelled: an image is described by what was drawn on it. */
  datatype Image =
    | Blank
      /** `text` drawn at (`x`, `y`) and, for a wrapping scroll, drawn again at (`wrapX`, `y`). */
    | TextImage(text: string, x: int, y: int, wrapX: Option<int>)
      /** An image built by the caller (a saved screen, a banner, album art), known by an id. */
    | Picture(id: nat)
      /** The startup mosaic: route tiles `0 .. filled-1` pasted, tiles `0 .. cleared-1` blacked out again. */
    | StartupMosaic(filled: nat, cleared: nat)

  /** `RenderMessage`: the closed set of message variants. */
  datatype RenderMessage =
    | Clear
    | Frame(bbox: Rect, frame: Image, zIndex: int := 0)
    | Swap
    | Text(text: string, zIndex: int := 0)
    | Clock(clockType: ClockType, time: int, zIndex: int := 0)
    | Mbta(status: MbtaProvider.PredictionStatus, predictions: seq<MbtaProvider.Prediction>, zIndex: int := 0)
    | MbtaBanner(lines: seq<string>, zIndex: int := 0)
    | Mta(trains: seq<MtaProvider.TrainTime>, zIndex: int := 0)
    | MtaAlert(text: string, zIndex: int := 0)
    | Music(response: Spotify.SpotifyResponse, song: Option<Spotify.Song>, zIndex: int := 0)

  /** The kind tag of each variant. */
  function Kind(m: RenderMessage): (t: RenderMessageType)
    ensures t == ClearKind <==> m.Clear?
    ensures t == FrameKind <==> m.Frame?
    ensures t == SwapKind <==> m.Swap?
  {
    match m
    case Clear => ClearKind
    case Frame(_, _, _) => FrameKind
    case Swap => SwapKind
    case Text(_, _) => TextKind
    case Clock(_, _, _) => ClockKind
    case Mbta(_, _, _) => MbtaKind
    case MbtaBanner(_, _) => MbtaBannerKind
    case Mta(_, _) => MtaKind
    case MtaAlert(_, _) => MtaAlertKind
    case Music(_, _, _) => MusicKind
  }

  /** The layer a message draws on; `Clear` and `Swap` carry nothing. */
  function ZIndex(m: RenderMessage): (z: Option<int>)
    ensures z.None? <==> m.Clear? || m.Swap?
  {
    if m.Clear? || m.Swap? then None else Some(m.zIndex)
  }

  /** Every kind has a variant, and a variant built without a layer draws on layer 0. */
  lemma KindsAndDefaults(t: RenderMessageType, b: Rect, img: Image, s: string)
    ensures exists m :: Kind(m) == t
    ensures ZIndex(Frame(b, img)) == Some(0) && ZIndex(Text(s)) == Some(0) && ZIndex(MtaAlert(s)) == Some(0)
    ensures ZIndex(MbtaBanner([s])) == Some(0) && ZIndex(Mta([])) == Some(0)
    ensures ZIndex(Clear) == None && ZIndex(Swap) == None
  {
    var m := match t
      case ClearKind => Clear
      case FrameKind => Frame(b, img)
      case SwapKind => Swap
      case TextKind => Text(s)
      case ClockKind => Clock(DefaultClock, 0)
      case MbtaKind => Mbta(MbtaProvider.Ok, [])
      case MbtaBannerKind => MbtaBanner([s])
      case MtaKind => Mta([])
      case MtaAlertKind => MtaAlert(s)
      case MusicKind => Music(Spotify.Ok, None);
    assert Kind(m) == t;
  }
}
