/** The "now playing" proxy (`get_spotify_access_token` and `now_playing`). The two HTTP
    exchanges with the music provider are inputs: what the token call and the playback call
    came back with. A call that raised, timed out or returned a body that could not be read as
    a JSON object is the `...Failed` outcome or an absent body, which the source's catch-all
    handlers turn into the "not playing" answer. */
module NowPlaying {
  import opened Options
  import opened ArtistNames

  /** The three provider credentials; `None` when the setting is unset. */
  datatype Credentials = Credentials(
    clientId: Option<string>, clientSecret: Option<string>, refreshToken: Option<string>)

  /** Outcome of the refresh-token call. `accessToken` is `None` when the body has no
      `access_token` key or could not be decoded. */
  datatype TokenExchange = TokenFailed | TokenReply(status: int, accessToken: Option<string>)

  /** One artist entry; `name` is `None` when the entry has no name. */
  datatype Artist = Artist(name: Option<string>)

  datatype Image = Image(url: Option<string>)

  /** An absent `album` key reads as `Album(None, [])`, the source's `{}` default. */
  datatype Album = Album(name: Option<string>, images: seq<Image>)

  /** A non-empty `item` object. Absent keys read as the source's defaults: `None` for the
      name and the link, `[]` for `artists`, an empty album. */
  datatype Item = Item(name: Option<string>, artists: seq<Artist>, album: Album,
                       spotifyUrl: Option<string>)

  /** A decoded playback body. `item` is `None` when the key is absent, null or an empty object;
      `isPlaying` is `None` when `is_playing` is absent or null. */
  datatype Playback = Playback(isPlaying: Option<bool>, item: Option<Item>)

  /** Outcome of the currently-playing call. `body` is `None` when it could not be decoded. */
  datatype PlaybackExchange = PlaybackFailed | PlaybackReply(status: int, body: Option<Playback>)

  /** The JSON answered: `{isPlaying: false}` alone, or the full track record. */
  datatype Payload =
    | NotPlaying
    | Track(isPlaying: bool, title: Option<string>, artist: string, album: Option<string>,
            albumImageUrl: Option<string>, songUrl: Option<string>)

  /** A setting counts as present when it is set and not empty (Python truthiness). */
  predicate Present(setting: Option<string>) {
    setting.Some? && setting.value != ""
  }

  predicate CredentialsPresent(c: Credentials) {
    Present(c.clientId) && Present(c.clientSecret) && Present(c.refreshToken)
  }

  /** `get_spotify_access_token`: no token without all three credentials (the call is not even
      made); otherwise the `access_token` of an HTTP 200 reply, and nothing on any other status
      or on a failed call. */
  function AccessToken(c: Credentials, call: TokenExchange): (r: Option<string>)
    ensures !CredentialsPresent(c) ==> r == None
    ensures call.TokenFailed? ==> r == None
    ensures call.TokenReply? && call.status != 200 ==> r == None
    ensures CredentialsPresent(c) && call.TokenReply? && call.status == 200 ==> r == call.accessToken
  {
    if !CredentialsPresent(c) then None
    else match call
      case TokenFailed => None
      case TokenReply(status, accessToken) => if status == 200 then accessToken else None
  }

  /** The names of the artists in provider order, or `None` when one of them has no name (the
      join then raises, and the handler answers "not playing"). */
  function ArtistList(artists: seq<Artist>): (r: Option<seq<string>>)
    ensures r.Some? <==> forall i :: 0 <= i < |artists| ==> artists[i].name.Some?
    ensures r.Some? ==> |r.value| == |artists|
                        && forall i :: 0 <= i < |artists| ==> r.value[i] == artists[i].name.value
  {
    if artists == [] then Some([])
    else
      var rest := ArtistList(artists[1..]);
      assert forall i :: 1 <= i < |artists| ==> artists[1..][i - 1] == artists[i];
      if artists[0].name.Some? && rest.Some? then Some([artists[0].name.value] + rest.value)
      else None
  }

  /** `albumImageUrl`: the first image's url, or none when the album has no images. */
  function FirstImageUrl(album: Album): Option<string> {
    if album.images == [] then None else album.images[0].url
  }

  /** The playback call answered 200 with a decodable body carrying a non-empty item whose
      artists all have names: the only case in which a track is reported. */
  predicate Reportable(call: PlaybackExchange) {
    && call.PlaybackReply?
    && call.status == 200
    && call.body.Some?
    && call.body.value.item.Some?
    && ArtistList(call.body.value.item.value.artists).Some?
  }

  /** `now_playing`: "not playing" unless an access token was obtained and the playback call
      yields a reportable item; then the track record built from that item. */
  function NowPlaying(c: Credentials, tokenCall: TokenExchange, playbackCall: PlaybackExchange)
    : (r: Payload)
    ensures !CredentialsPresent(c) ==> r == NotPlaying
    ensures tokenCall.TokenFailed? || (tokenCall.TokenReply? && tokenCall.status != 200) ==>
              r == NotPlaying
    ensures tokenCall.TokenReply? && !Present(tokenCall.accessToken) ==> r == NotPlaying
    ensures playbackCall.PlaybackReply? && playbackCall.status == 204 ==> r == NotPlaying
    ensures playbackCall.PlaybackFailed? || playbackCall.status != 200 ==> r == NotPlaying
    ensures (playbackCall.PlaybackReply? && playbackCall.body.Some?
             && playbackCall.body.value.item.None?) ==> r == NotPlaying
    ensures r.Track? <==> Present(AccessToken(c, tokenCall)) && Reportable(playbackCall)
    ensures r.Track? ==>
              var item := playbackCall.body.value.item.value;
              && r.isPlaying == playbackCall.body.value.isPlaying.GetOr(false)
              && r.title == item.name
              && r.album == item.album.name
              && r.songUrl == item.spotifyUrl
              && r.albumImageUrl == (if item.album.images == [] then None
                                     else item.album.images[0].url)
              && |ArtistList(item.artists).value| == |item.artists|
              && (forall i :: 0 <= i < |item.artists| ==>
                    ArtistList(item.artists).value[i] == item.artists[i].name.value)
              && r.artist == Join(ArtistList(item.artists).value)
  {
    var token := AccessToken(c, tokenCall);
    if !Present(token) then NotPlaying
    else match playbackCall
      case PlaybackFailed => NotPlaying
      case PlaybackReply(status, body) =>
        if status == 204 then NotPlaying
        else if status != 200 then NotPlaying
        else match body
          case None => NotPlaying
          case Some(data) =>
            match data.item
            case None => NotPlaying
            case Some(item) =>
              match ArtistList(item.artists)
              case None => NotPlaying
              case Some(names) =>
                Track(data.isPlaying.GetOr(false), item.name, Join(names), item.album.name,
                      FirstImageUrl(item.album), item.spotifyUrl)
  }

  /** With one item and two named artists, the artist line is "first, second" and the album
      picture is the first image's url. */
  lemma TwoArtistsFirstImage(c: Credentials, tokenCall: TokenExchange, isPlaying: Option<bool>,
                             title: Option<string>, a: string, b: string, album: Option<string>,
                             images: seq<Image>, link: Option<string>)
    requires CredentialsPresent(c) && tokenCall.TokenReply? && tokenCall.status == 200
    requires Present(tokenCall.accessToken)
    requires |images| > 0
    ensures NowPlaying(c, tokenCall, PlaybackReply(200, Some(Playback(isPlaying,
              Some(Item(title, [Artist(Some(a)), Artist(Some(b))], Album(album, images), link))))))
            == Track(isPlaying.GetOr(false), title, a + ", " + b, album, images[0].url, link)
  {
    var artists := [Artist(Some(a)), Artist(Some(b))];
    assert ArtistList(artists).value == [a, b];
    JoinTwo(a, b);
  }

  /** Recovering the artists: splitting a reported artist line at ", " gives the provider's
      artist names in order, when there is at least one and none contains ", ". */
  lemma ArtistLineRecoversNames(c: Credentials, tokenCall: TokenExchange,
                                playbackCall: PlaybackExchange)
    requires NowPlaying(c, tokenCall, playbackCall).Track?
    requires var artists := playbackCall.body.value.item.value.artists;
             |artists| > 0 && forall i :: 0 <= i < |artists| ==>
               artists[i].name.Some? && NoSeparator(artists[i].name.value)
    ensures var artists := playbackCall.body.value.item.value.artists;
            var parts := Split(NowPlaying(c, tokenCall, playbackCall).artist);
            |parts| == |artists| && forall i :: 0 <= i < |artists| ==> parts[i] == artists[i].name.value
  {
    var artists := playbackCall.body.value.item.value.artists;
    var names := ArtistList(artists).value;
    SplitJoin(names);
  }
}
