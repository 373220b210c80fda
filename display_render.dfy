/** display/display.py and display/render_music.py: the render thread's `Display`, which turns
    each message of the render queue into canvas calls and animation registrations. Text widths
    (`textlength`) are an input. */
module SignDisplay {
  import opened Common
  import opened Canvas
  import RT = RenderTypes
  import Spotify

  /** The width of `_get_title_and_artist_image`: the screen right of the album art. */
  const TitleAreaWidth := ScreenWidth - 32

  /** The scroll registered for a title or artist too wide for its line. */
  function SongScroll(key: string, text: string, y: int, width: string -> real): seq<(string, Registered)> {
    if width(text) > TitleAreaWidth as real
    then [(key, TextScroll(Rect(32, y, TitleAreaWidth, 8), 10, true, true, text))]
    else []
  }

  /** The error text drawn at the top left. */
  function Notice(text: string): seq<Effect> {
    [SetImage(Drawing([TextAt(0.0, 0, text)]), 0, 0), Swap]
  }

  /** The statuses `render_music_content` draws a song screen for, when there is a song. */
  predicate ShowsSong(status: Spotify.SpotifyResponse) {
    status in {Spotify.Ok, Spotify.OkShowCached, Spotify.OkNewSong}
  }

  /** `_get_progress_bar_image(song)`: the elapsed and the remaining time. */
  function Progress(s: Spotify.Song): Picture
    requires s.durationMs != 0
  {
    ProgressBar(FormatTime(s.progressMs / 1000, false), FormatTime((s.durationMs - s.progressMs) / 1000, true))
  }

  /** The scrolls replaced on `OK_NEW_SONG`. */
  function SongScrolls(s: Spotify.Song, width: string -> real): seq<(string, Registered)> {
    SongScroll("song_title", s.title, 0, width) + SongScroll("song_artist", s.artist, 8, width)
  }

  /** On `OK_NEW_SONG`: the old scrolls removed, title and artist drawn, the new scrolls added. */
  function NewSongEffects(s: Spotify.Song, width: string -> real): seq<Effect> {
    [ManagerRemove("song_title"), ManagerRemove("song_artist"),
     SetImage(TitleAndArtist(s.title, s.artist), 32, 0), ManagerAdd(SongScrolls(s, width))]
  }

  /** The album art, when the cover's bytes were fetched. */
  function CoverEffects(s: Spotify.Song): seq<Effect> {
    if s.cover.hasData then [SetImage(AlbumArt(s.cover), 0, 0)] else []
  }

  /** The drawing of a song screen, before its swap. */
  function SongScreen(status: Spotify.SpotifyResponse, s: Spotify.Song, width: string -> real): seq<Effect>
    requires s.durationMs != 0
  {
    [SetImage(Progress(s), 32, ScreenHeight - 8)]
    + (if status == Spotify.OkNewSong then NewSongEffects(s, width) else [])
    + CoverEffects(s)
  }

  /** `render_music_content(display, message)`: `None` when it raises (`progress_ms / duration_ms`
      with a zero duration). */
  function MusicEffects(status: Spotify.SpotifyResponse, song: Option<Spotify.Song>, width: string -> real): Option<seq<Effect>> {
    if ShowsSong(status) && song.Some? then
      if song.value.durationMs == 0 then None
      else Some(SongScreen(status, song.value, width) + [Swap])
    else if status == Spotify.Empty then Some(Notice("Nothing is playing"))
    else Some(Notice("Error querying the spotify API"))
  }

  /** The manager calls among some effects. */
  function ManagerCalls(effects: seq<Effect>): seq<Effect> {
    if |effects| == 0 then []
    else ManagerCalls(effects[..|effects| - 1]) + (if IsManagerCall(effects[|effects| - 1]) then [effects[|effects| - 1]] else [])
  }

  lemma {:induction false} ManagerCallsAppend(a: seq<Effect>, b: seq<Effect>)
    ensures ManagerCalls(a + b) == ManagerCalls(a) + ManagerCalls(b)
    decreases |b|
  {
    if |b| == 0 {
      assert a + b == a;
    } else {
      var ab := a + b;
      assert ab[..|ab| - 1] == a + b[..|b| - 1];
      assert ab[|ab| - 1] == b[|b| - 1];
      ManagerCallsAppend(a, b[..|b| - 1]);
    }
  }

  lemma ManagerCallsOne(x: Effect)
    ensures ManagerCalls([x]) == if IsManagerCall(x) then [x] else []
  {
    assert [x][..0] == [];
  }

  lemma NewSongCalls(s: Spotify.Song, width: string -> real)
    ensures ManagerCalls(NewSongEffects(s, width)) ==
      [ManagerRemove("song_title"), ManagerRemove("song_artist"), ManagerAdd(SongScrolls(s, width))]
  {
    var n := NewSongEffects(s, width);
    assert n == [n[0], n[1], n[2]] + [n[3]];
    assert [n[0], n[1], n[2]] == [n[0], n[1]] + [n[2]];
    assert [n[0], n[1]] == [n[0]] + [n[1]];
    ManagerCallsAppend([n[0], n[1], n[2]], [n[3]]);
    ManagerCallsAppend([n[0], n[1]], [n[2]]);
    ManagerCallsAppend([n[0]], [n[1]]);
    ManagerCallsOne(n[0]);
    ManagerCallsOne(n[1]);
    ManagerCallsOne(n[2]);
    ManagerCallsOne(n[3]);
  }

  lemma CoverCalls(s: Spotify.Song)
    ensures ManagerCalls(CoverEffects(s)) == []
  {
    if s.cover.hasData {
      ManagerCallsOne(CoverEffects(s)[0]);
    }
  }

  /** The song screen's manager calls: the new-song removes and add, in that order, and nothing
      else. */
  lemma SongScreenCalls(status: Spotify.SpotifyResponse, s: Spotify.Song, width: string -> real)
    requires s.durationMs != 0
    ensures ManagerCalls(SongScreen(status, s, width) + [Swap]) ==
      if status == Spotify.OkNewSong then ManagerCalls(NewSongEffects(s, width)) else []
  {
    var newSong := if status == Spotify.OkNewSong then NewSongEffects(s, width) else [];
    CoverCalls(s);
    DrawnAround(SetImage(Progress(s), 32, ScreenHeight - 8), newSong, CoverEffects(s));
  }

  /** Drawing between some effects adds no manager call. */
  lemma DrawnAround(bar: Effect, middle: seq<Effect>, cover: seq<Effect>)
    requires !IsManagerCall(bar) && ManagerCalls(cover) == []
    ensures ManagerCalls([bar] + middle + cover + [Swap]) == ManagerCalls(middle)
  {
    ManagerCallsAppend([bar] + middle + cover, [Swap]);
    ManagerCallsAppend([bar] + middle, cover);
    ManagerCallsAppend([bar], middle);
    ManagerCallsOne(bar);
    ManagerCallsOne(Swap);
  }

  /** A scroll is registered for the title, and for the artist, exactly when its text is wider than
      the area right of the album art; the title's comes first. */
  lemma SongScrollsRules(s: Spotify.Song, width: string -> real)
    ensures |SongScrolls(s, width)| == (if width(s.title) > 128.0 then 1 else 0) + (if width(s.artist) > 128.0 then 1 else 0)
    ensures width(s.title) > 128.0 ==>
      SongScrolls(s, width)[0] == ("song_title", TextScroll(Rect(32, 0, 128, 8), 10, true, true, s.title))
    ensures width(s.artist) > 128.0 ==>
      SongScrolls(s, width)[|SongScrolls(s, width)| - 1] == ("song_artist", TextScroll(Rect(32, 8, 128, 8), 10, true, true, s.artist))
  {
  }

  /** `render_music_content` raises only on a song with a zero duration; otherwise it ends with its
      one swap. */
  lemma MusicRaisesAndSwaps(status: Spotify.SpotifyResponse, song: Option<Spotify.Song>, width: string -> real)
    ensures var r := MusicEffects(status, song, width);
      && (r.None? <==> ShowsSong(status) && song.Some? && song.value.durationMs == 0)
      && (r.Some? ==> |r.value| >= 2 && r.value[|r.value| - 1] == Swap && Swap !in r.value[..|r.value| - 1])
  {
    var r := MusicEffects(status, song, width);
    if r.Some? && ShowsSong(status) && song.Some? {
      var front := SongScreen(status, song.value, width);
      assert r.value[..|r.value| - 1] == front;
    } else if r.Some? {
      assert r.value[..1] == [r.value[0]];
    }
  }

  /** The animation manager is touched only for a new song: both scroll keys are removed first,
      then the new scrolls are added. A status that shows no song draws one notice, "Nothing is
      playing" only for `EMPTY`. */
  lemma MusicManagerCalls(status: Spotify.SpotifyResponse, song: Option<Spotify.Song>, width: string -> real)
    ensures var r := MusicEffects(status, song, width);
      && (r.Some? && status == Spotify.OkNewSong && song.Some? ==>
            ManagerCalls(r.value) == [ManagerRemove("song_title"), ManagerRemove("song_artist"), ManagerAdd(SongScrolls(song.value, width))])
      && (r.Some? && (status != Spotify.OkNewSong || song.None?) ==> ManagerCalls(r.value) == [])
      && (!(ShowsSong(status) && song.Some?) ==>
            r == Some(Notice(if status == Spotify.Empty then "Nothing is playing" else "Error querying the spotify API")))
  {
    var r := MusicEffects(status, song, width);
    if r.Some? && ShowsSong(status) && song.Some? {
      SongScreenCalls(status, song.value, width);
      NewSongCalls(song.value, width);
    } else if r.Some? {
      ManagerCallsAppend([r.value[0]], [Swap]);
      assert r.value == [r.value[0]] + [Swap];
      ManagerCallsOne(r.value[0]);
      ManagerCallsOne(Swap);
    }
  }

  /** The handler `render` calls for each kind of message. */
  datatype Handler =
    | ClearHandler | FrameHandler | SwapHandler | TextHandler | ClockHandler
    | MbtaHandler | MbtaBannerHandler | MtaHandler | MtaAlertHandler | MusicHandler

  function HandlerOf(kind: RenderMessageType): Handler {
    match kind
    case ClearKind => ClearHandler
    case FrameKind => FrameHandler
    case SwapKind => SwapHandler
    case TextKind => TextHandler
    case ClockKind => ClockHandler
    case MbtaKind => MbtaHandler
    case MbtaBannerKind => MbtaBannerHandler
    case MtaKind => MtaHandler
    case MtaAlertKind => MtaAlertHandler
    case MusicKind => MusicHandler
  }

  /** Each kind has its own handler, and every handler serves some kind. */
  lemma HandlerPerKind(a: RenderMessageType, b: RenderMessageType, h: Handler)
    ensures HandlerOf(a) == HandlerOf(b) ==> a == b
    ensures exists k :: HandlerOf(k) == h
  {
    match h
    case ClearHandler => assert HandlerOf(ClearKind) == h;
    case FrameHandler => assert HandlerOf(FrameKind) == h;
    case SwapHandler => assert HandlerOf(SwapKind) == h;
    case TextHandler => assert HandlerOf(TextKind) == h;
    case ClockHandler => assert HandlerOf(ClockKind) == h;
    case MbtaHandler => assert HandlerOf(MbtaKind) == h;
    case MbtaBannerHandler => assert HandlerOf(MbtaBannerKind) == h;
    case MtaHandler => assert HandlerOf(MtaKind) == h;
    case MtaAlertHandler => assert HandlerOf(MtaAlertKind) == h;
    case MusicHandler => assert HandlerOf(MusicKind) == h;
  }

  /** What `render(message)` does; `message` is `None` when its type is none of the known kinds.
      `None` as a result means the handler raised. */
  function RenderEffects(message: Option<RT.RenderMessage>, width: string -> real): Option<seq<Effect>> {
    match message
    case None => Some([])
    case Some(m) =>
      match m
      case Clear => Some([ManagerClear, CanvasClear, Swap])
      case Frame(bbox, frame, _) => Some([SetImage(FrameImage(frame), bbox.x, bbox.y)])
      case Swap => Some([Swap])
      case Text(text, _) => Some(Notice(text))
      case Music(status, song, _) => MusicEffects(status, song, width)
      case _ => Some([Delegated(RT.Kind(m))])
  }

  /** A message of an unknown type does nothing; `clear` clears the manager before the canvas and
      then swaps; a frame is pasted at its box's corner and not swapped; text is drawn at the top
      left and shown; the clock, MBTA and MTA kinds are handed to renderers outside this model, whose
      own exceptions are not modelled, so of the handlers modelled here only the music one can
      raise. */
  lemma RenderRules(message: Option<RT.RenderMessage>, width: string -> real)
    ensures message.None? ==> RenderEffects(message, width) == Some([])
    ensures message == Some(RT.Clear) ==> RenderEffects(message, width) == Some([ManagerClear, CanvasClear, Swap])
    ensures message.Some? && message.value.Frame? ==>
      RenderEffects(message, width) == Some([SetImage(FrameImage(message.value.frame), message.value.bbox.x, message.value.bbox.y)])
    ensures message.Some? && RT.Kind(message.value) in {ClockKind, MbtaKind, MbtaBannerKind, MtaKind, MtaAlertKind} ==>
      RenderEffects(message, width) == Some([Delegated(RT.Kind(message.value))])
    ensures message.Some? && message.value.Text? ==>
      RenderEffects(message, width) == Some([SetImage(Drawing([TextAt(0.0, 0, message.value.text)]), 0, 0), Swap])
    ensures message.Some? && !message.value.Music? ==> RenderEffects(message, width).Some?
  {
  }

  /** `Display`: the canvas and the animation manager, seen through what is done to them. */
  class Display {
    var effects: seq<Effect>

    constructor()
      ensures effects == []
    {
      effects := [];
    }

    /** `clear()`: the animation manager first, then the canvas, then a swap. */
    method Clear()
      modifies this
      ensures effects == old(effects) + [ManagerClear, CanvasClear, Swap]
    {
      effects := effects + [ManagerClear];
      effects := effects + [CanvasClear];
      SwapCanvas();
    }

    /** `swap_canvas()`. */
    method SwapCanvas()
      modifies this
      ensures effects == old(effects) + [Swap]
    {
      effects := effects + [Swap];
    }

    /** `render_frame_content((bbox, frame))`. */
    method RenderFrameContent(bbox: Rect, frame: RT.Image)
      modifies this
      ensures effects == old(effects) + [SetImage(FrameImage(frame), bbox.x, bbox.y)]
    {
      effects := effects + [SetImage(FrameImage(frame), bbox.x, bbox.y)];
    }

    /** `render_text_content(text)`. */
    method RenderTextContent(text: string)
      modifies this
      ensures effects == old(effects) + Notice(text)
    {
      UpdateDisplay(Drawing([TextAt(0.0, 0, text)]));
    }

    /** `_update_display(image)`. */
    method UpdateDisplay(picture: Picture)
      modifies this
      ensures effects == old(effects) + [SetImage(picture, 0, 0), Swap]
    {
      effects := effects + [SetImage(picture, 0, 0)];
      SwapCanvas();
    }

    /** `render_music_content(message)`. */
    method RenderMusicContent(status: Spotify.SpotifyResponse, song: Option<Spotify.Song>, width: string -> real) returns (raised: bool)
      modifies this
      ensures raised <==> MusicEffects(status, song, width).None?
      ensures effects == old(effects) + (if raised then [] else MusicEffects(status, song, width).value)
    {
      var r := MusicEffects(status, song, width);
      if r.None? {
        return true;
      }
      effects := effects + r.value;
      raised := false;
    }

    /** `render(message)`: the one handler of the message's kind. */
    method Render(message: Option<RT.RenderMessage>, width: string -> real) returns (raised: bool)
      modifies this
      ensures raised <==> RenderEffects(message, width).None?
      ensures effects == old(effects) + (if raised then [] else RenderEffects(message, width).value)
    {
      raised := false;
      if message.None? {
        return;
      }
      match message.value {
        case Clear => Clear();
        case Frame(bbox, frame, _) => RenderFrameContent(bbox, frame);
        case Swap => SwapCanvas();
        case Text(text, _) => RenderTextContent(text);
        case Music(status, song, _) => raised := RenderMusicContent(status, song, width);
        case _ => effects := effects + [Delegated(RT.Kind(message.value))];
      }
    }
  }
}
