/** music.py: the Spotify client's song-state logic (providers/music/types.py declares the same
    `AlbumCover`, `Song` and `SpotifyResponse` shapes for the display side). The HTTP requests are
    inputs: the outcome of the token refresh and of the currently-playing request, and one clock
    reading in milliseconds per call. */
module Spotify {
  import opened Common
  import Numeric

  /** `SPOTIFY_TOKEN_REFRESH_RATE`: thirty minutes in milliseconds. */
  const TokenRefreshRate := 30 * 60 * 1000

  /** `SpotifyResponse`. */
  datatype SpotifyResponse = Ok | Error | Empty | OkShowCached | OkNewSong

  /** `AlbumCover`; the image bytes are not modelled, only whether they were fetched. */
  datatype AlbumCover = AlbumCover(url: string, width: int, height: int, hasData: bool)

  /** `Song`. */
  datatype Song = Song(artist: string, title: string, durationMs: int, progressMs: int, timestampMs: int, cover: AlbumCover)

  /** `AlbumCover()` and `Song()` with their default fields. */
  const DefaultCover := AlbumCover("", 0, 0, false)
  const DefaultSong := Song("", "", 0, 0, 0, DefaultCover)

  /** One of `item.album.images`. */
  datatype Image = Image(url: string, width: int, height: int)

  /** `item`: the track's name, its artists' names, its length and its album's images. */
  datatype Item = Item(name: string, artistNames: seq<string>, durationMs: int, images: seq<Image>)

  /** A decoded currently-playing body; `item` is `None` when it is JSON null. */
  datatype Playing = Playing(item: Option<Item>, progressMs: int)

  /** How the currently-playing request ended: HTTP 204, an exception or error status, or a decoded
      body (`None` when the body is null or an empty object, both falsy). */
  datatype Fetch = NoContent | Failed | Body(data: Option<Playing>)

  /** What `get_currently_playing()` does: returns a status and maybe a song, or raises. */
  datatype Reply = Reply(status: SpotifyResponse, song: Option<Song>) | Raises

  /** `format_artists(data)`: `None` when there is no artist (`artists[0]` raises). */
  function FormatArtists(names: seq<string>): (r: Option<string>)
    ensures r.Some? <==> |names| >= 1
    ensures r.Some? ==> r.value == Numeric.Join(names, ", ")
  {
    if |names| > 1 then Some(Numeric.Join(names, ", "))
    else if |names| == 1 then Some(names[0])
    else None
  }

  /** `min(images, key=width)`: the index of the first image of least width. */
  function Smallest(images: seq<Image>): (i: nat)
    requires |images| > 0
    ensures i < |images|
    ensures forall j :: 0 <= j < |images| ==> images[i].width <= images[j].width
    ensures forall j :: 0 <= j < i ==> images[j].width > images[i].width
  {
    if |images| == 1 then 0
    else
      var k := Smallest(images[..|images| - 1]);
      assert images[..|images| - 1][k] == images[k];
      if images[|images| - 1].width < images[k].width then |images| - 1 else k
  }

  /** `format_album_cover(data)`: the default cover without images, otherwise the smallest one's
      url and size (the bytes come later). */
  function FormatAlbumCover(images: seq<Image>): (c: AlbumCover)
    ensures |images| == 0 ==> c == DefaultCover
    ensures |images| > 0 ==> !c.hasData && exists i :: 0 <= i < |images| && c == AlbumCover(images[i].url, images[i].width, images[i].height, false)
    ensures forall j :: 0 <= j < |images| ==> c.width <= images[j].width
  {
    if |images| == 0 then DefaultCover
    else
      var img := images[Smallest(images)];
      AlbumCover(img.url, img.width, img.height, false)
  }

  /** `is_current_song_new(cmp)`. */
  predicate IsCurrentSongNew(current: Option<Song>, cmp: Song) {
    match current
    case None => true
    case Some(song) => cmp.artist != song.artist || cmp.title != song.title
  }

  /** A song is new unless a song of the same artist and title is held. */
  lemma SongNewness(current: Option<Song>, cmp: Song)
    ensures !IsCurrentSongNew(current, cmp) <==>
      current.Some? && current.value.artist == cmp.artist && current.value.title == cmp.title
  {
  }

  /** The status `fetch_currently_playing()` returns. */
  function FetchStatus(fetch: Fetch): (s: SpotifyResponse)
    ensures s in {Ok, Error, Empty}
  {
    match fetch
    case NoContent => Empty
    case Failed => Error
    case Body(_) => Ok
  }

  /** `get_currently_playing()` from line 99 on: anything but `OK` is passed on without a song; an
      empty body is an error; otherwise the song built from the body, marked new or not. */
  function FreshReply(current: Option<Song>, status: SpotifyResponse, data: Option<Playing>, now: int): Reply {
    if status != Ok then Reply(status, None)
    else if data.None? then Reply(Error, None)
    else
      match data.value.item
      case None => Raises
      case Some(item) =>
        match FormatArtists(item.artistNames)
        case None => Raises
        case Some(artist) =>
          var song := Song(artist, item.name, item.durationMs, data.value.progressMs, now, FormatAlbumCover(item.images));
          Reply(if IsCurrentSongNew(current, song) then OkNewSong else Ok, Some(song))
  }

  /** `get_currently_playing()` as written: an `EMPTY` fetch reads `current_song.timestamp_ms`, which
      raises when no song is held. */
  function CurrentlyPlayingAsWritten(current: Option<Song>, status: SpotifyResponse, data: Option<Playing>, now: int): Reply {
    if status == Empty then
      if current.None? then Raises
      else if current.value.timestampMs > 0 then Reply(OkShowCached, current)
      else FreshReply(current, status, data, now)
    else FreshReply(current, status, data, now)
  }

  /** `get_currently_playing()` with the cached song shown only when there is one. */
  function CurrentlyPlaying(current: Option<Song>, status: SpotifyResponse, data: Option<Playing>, now: int): (r: Reply)
    ensures status != Ok ==> r.Reply?
    ensures status == Empty && current.None? ==> r == Reply(Empty, None)
  {
    if status == Empty && current.Some? && current.value.timestampMs > 0 then Reply(OkShowCached, current)
    else FreshReply(current, status, data, now)
  }

  /** `setup()` leaves no song held, and a first request answered with 204 then raises. */
  lemma EmptyAfterClearRaises(data: Option<Playing>, now: int)
    ensures CurrentlyPlayingAsWritten(None, Empty, data, now) == Raises
    ensures CurrentlyPlaying(None, Empty, data, now) == Reply(Empty, None)
  {
  }

  /** The two agree whenever a song is held or the fetch is not `EMPTY`. */
  lemma CorrectionIsLocal(current: Option<Song>, status: SpotifyResponse, data: Option<Playing>, now: int)
    requires current.Some? || status != Empty
    ensures CurrentlyPlayingAsWritten(current, status, data, now) == CurrentlyPlaying(current, status, data, now)
  {
  }

  /** The branches of `get_currently_playing()`, for the statuses the fetch can return. */
  lemma CurrentlyPlayingRules(current: Option<Song>, status: SpotifyResponse, data: Option<Playing>, now: int)
    requires status in {Ok, Error, Empty}
    ensures status == Empty && current.Some? && current.value.timestampMs > 0 ==>
      CurrentlyPlaying(current, status, data, now) == Reply(OkShowCached, current)
    ensures status != Ok && !(status == Empty && current.Some? && current.value.timestampMs > 0) ==>
      CurrentlyPlaying(current, status, data, now) == Reply(status, None)
    ensures status == Ok && data.None? ==> CurrentlyPlaying(current, status, data, now) == Reply(Error, None)
    ensures var r := CurrentlyPlaying(current, status, data, now);
      r.Reply? && r.status in {Ok, OkNewSong} ==>
        && status == Ok && r.song.Some?
        && r.song.value.timestampMs == now && r.song.value.progressMs == data.value.progressMs
        && (r.status == OkNewSong <==> IsCurrentSongNew(current, r.song.value))
  {
    var r := CurrentlyPlaying(current, status, data, now);
    if r.Reply? && r.status in {Ok, OkNewSong} {
      assert r == FreshReply(current, status, data, now);
      assert status == Ok && data.Some?;
    }
  }

  /** `Spotify`: the access token, when it was last refreshed, the song held for display and the
      last decoded body. */
  class Spotify {
    var accessToken: string
    var lastRefreshTime: int
    var currentSong: Option<Song>
    var currentData: Option<Playing>

    constructor()
      ensures accessToken == "" && lastRefreshTime == 0 && currentSong == Some(DefaultSong) && currentData.None?
    {
      accessToken := "";
      lastRefreshTime := 0;
      currentSong := Some(DefaultSong);
      currentData := None;
    }

    /** `setup()`. */
    method Setup(token: Option<string>, now: int)
      modifies this
      ensures lastRefreshTime == now && currentSong.None? && currentData == old(currentData)
      ensures accessToken == if token.Some? then token.value else old(accessToken)
    {
      var _ := RefreshToken(token, now);
      ClearCurrentSong();
    }

    /** `refresh_token()`: `token` is the new access token, `None` when the request failed; the
        refresh time is taken either way. */
    method RefreshToken(token: Option<string>, now: int) returns (status: SpotifyResponse)
      modifies this
      ensures status == (if token.Some? then Ok else Error)
      ensures accessToken == (if token.Some? then token.value else old(accessToken))
      ensures lastRefreshTime == now
      ensures currentSong == old(currentSong) && currentData == old(currentData)
    {
      if token.Some? {
        accessToken := token.value;
        status := Ok;
      } else {
        status := Error;
      }
      lastRefreshTime := now;
    }

    /** `check_refresh_token()`: refreshes once more than thirty minutes have passed. */
    method CheckRefreshToken(token: Option<string>, now: int)
      modifies this
      ensures var due := now - old(lastRefreshTime) > TokenRefreshRate;
        && lastRefreshTime == (if due then now else old(lastRefreshTime))
        && accessToken == (if due && token.Some? then token.value else old(accessToken))
      ensures currentSong == old(currentSong) && currentData == old(currentData)
    {
      if now - lastRefreshTime > TokenRefreshRate {
        var _ := RefreshToken(token, now);
      }
    }

    /** `fetch_currently_playing()`. */
    method FetchCurrentlyPlaying(token: Option<string>, fetch: Fetch, now: int) returns (status: SpotifyResponse)
      modifies this
      ensures status == FetchStatus(fetch)
      ensures currentData == (if fetch.Body? then fetch.data else old(currentData))
      ensures currentSong == old(currentSong)
      ensures var due := now - old(lastRefreshTime) > TokenRefreshRate;
        && lastRefreshTime == (if due then now else old(lastRefreshTime))
        && accessToken == (if due && token.Some? then token.value else old(accessToken))
    {
      CheckRefreshToken(token, now);
      match fetch {
        case NoContent => status := Empty;
        case Failed => status := Error;
        case Body(data) =>
          currentData := data;
          status := Ok;
      }
    }

    /** `get_currently_playing()`, with the held song checked before it is read. */
    method GetCurrentlyPlaying(token: Option<string>, fetch: Fetch, now: int) returns (r: Reply)
      modifies this
      ensures r == CurrentlyPlaying(old(currentSong), FetchStatus(fetch), currentData, now)
      ensures currentData == (if fetch.Body? then fetch.data else old(currentData))
      ensures currentSong == old(currentSong)
    {
      var status := FetchCurrentlyPlaying(token, fetch, now);
      r := CurrentlyPlaying(currentSong, status, currentData, now);
    }

    /** `update_current_song(src)`: holds the song with its progress reset. */
    method UpdateCurrentSong(src: Song)
      modifies this
      ensures currentSong == Some(src.(progressMs := 0))
      ensures accessToken == old(accessToken) && lastRefreshTime == old(lastRefreshTime) && currentData == old(currentData)
    {
      currentSong := Some(src.(progressMs := 0));
    }

    /** `clear_current_song()`. */
    method ClearCurrentSong()
      modifies this
      ensures currentSong.None?
      ensures accessToken == old(accessToken) && lastRefreshTime == old(lastRefreshTime) && currentData == old(currentData)
    {
      currentSong := None;
    }
  }

  /** Once a song fetched at a positive time is held, a 204 shows it again, and the same track
      fetched again is not new. */
  lemma HeldSongShownAndNotNew(song: Song, data: Option<Playing>, now: int, again: Song)
    requires song.timestampMs > 0
    requires again.artist == song.artist && again.title == song.title
    ensures CurrentlyPlaying(Some(song.(progressMs := 0)), Empty, data, now) == Reply(OkShowCached, Some(song.(progressMs := 0)))
    ensures !IsCurrentSongNew(Some(song.(progressMs := 0)), again)
  {
  }
}
