/** The music service's Web API as the sources see it: the JSON shapes they read, what the
    network delivers for one request, and how axios turns that into a resolved response or a
    rejected error. The HTTP exchange itself is not modelled; its outcome is an input. */
module Upstream {
  import opened Base
  import opened Text

  datatype Artist = Artist(name: string)
  datatype Image = Image(url: string)
  datatype Album = Album(name: string, images: seq<Image>)

  /** A track object. Arrays may be empty; the other fields are always present. */
  datatype Track = Track(
    id: string,
    name: string,
    artists: seq<Artist>,
    album: Album,
    spotifyUrl: string,   // external_urls.spotify
    uri: string,
    durationMs: int)

  /** Body of GET /me/player/currently-playing; `item` is null when nothing is playing. */
  datatype CurrentlyPlaying = CurrentlyPlaying(item: Option<Track>, isPlaying: bool, progressMs: int)

  /** One entry of GET /me/player/recently-played; `track` may be null. */
  datatype PlayHistory = PlayHistory(track: Option<Track>, playedAt: string)

  /** A paging object; `items` is absent from a malformed body. */
  datatype Page<T> = Page(items: Option<seq<T>>)

  /** Body of a token-endpoint response (RFC 6749 section 5.1); either field may be absent. */
  datatype TokenGrant = TokenGrant(accessToken: Option<string>, expiresIn: Option<int>)

  /** A cached `accessToken` as the servers hold it: `null` before the first grant, `undefined`
      after a grant whose body is empty or has no `access_token`, or the token text. */
  datatype CachedToken = NullToken | UndefinedToken | Token(text: string)

  /** `!accessToken` is false: a non-empty token text. */
  predicate Usable(t: CachedToken)
  {
    t.Token? && t.text != ""
  }

  /** `${accessToken}` in a template literal. */
  function TokenText(t: CachedToken): (s: string)
    ensures t.Token? ==> s == t.text
    ensures t.NullToken? ==> s == "null"
    ensures t.UndefinedToken? ==> s == "undefined"
  {
    match t
    case NullToken => "null"
    case UndefinedToken => "undefined"
    case Token(text) => text
  }

  /** `response.data.access_token` of a resolved token request: an empty body reaches the code
      as the empty string, whose `access_token` is `undefined`, as is a missing field. */
  function GrantedToken(data: Option<TokenGrant>): (t: CachedToken)
    ensures t.Token? <==> data.Some? && data.value.accessToken.Some?
    ensures t.Token? ==> t.text == data.value.accessToken.value
    ensures !t.Token? ==> t == UndefinedToken
  {
    if data.Some? && data.value.accessToken.Some? then Token(data.value.accessToken.value) else UndefinedToken
  }

  /** What the network delivers for one request: a response (whose body is `None` when it is
      empty, which axios hands over as the empty string) or no response at all. */
  datatype Reply<D> =
    | Response(status: int, statusText: string, data: Option<D>)
    | NoResponse(message: string)

  /** A resolved axios response. */
  datatype Resolved<D> = Resolved(status: int, data: Option<D>)

  /** The `status`/`statusText` of `error.response`. */
  datatype ErrorResponse = ErrorResponse(status: int, statusText: string)

  /** A thrown error: its `message` and, for an HTTP error from axios, its `response`. */
  datatype Failure = Failure(message: string, response: Option<ErrorResponse>)

  /** axios's default `validateStatus`: only 2xx statuses resolve. */
  predicate Accepted(status: int)
  {
    200 <= status < 300
  }

  /** The request got a response with a status axios accepts. */
  predicate Resolves<D>(reply: Reply<D>)
  {
    reply.Response? && Accepted(reply.status)
  }

  /** The error a TypeError raised by reading a property of `undefined` or `null` carries. */
  const TypeError: Failure := Failure("TypeError: Cannot read properties of undefined", None)

  /** How axios settles one request. */
  function Settle<D>(reply: Reply<D>): (r: Result<Resolved<D>, Failure>)
    ensures r.Ok? <==> Resolves(reply)
    ensures r.Ok? ==> r.value == Resolved(reply.status, reply.data)
    ensures r.Err? && reply.Response? ==> r.error.response == Some(ErrorResponse(reply.status, reply.statusText))
    ensures reply.NoResponse? ==> r.Err? && r.error.response == None
  {
    match reply
    case NoResponse(message) => Err(Failure(message, None))
    case Response(status, statusText, data) =>
      if Accepted(status) then Ok(Resolved(status, data))
      else Err(Failure("Request failed with status code " + IntToString(status),
                       Some(ErrorResponse(status, statusText))))
  }

  /** `track.artists.map(artist => artist.name)`. */
  function ArtistNames(artists: seq<Artist>): (names: seq<string>)
    ensures |names| == |artists|
    ensures forall k :: 0 <= k < |artists| ==> names[k] == artists[k].name
  {
    seq(|artists|, k requires 0 <= k < |artists| => artists[k].name)
  }

  /** The `artist` line of the sources that list every artist: names joined by ", " in order. */
  function ArtistLine(artists: seq<Artist>): string
  {
    Join(ArtistNames(artists), ", ")
  }

  /** `album.images[0].url`, which throws when there are no images. */
  function FirstImageUrl(album: Album): Option<string>
  {
    if |album.images| == 0 then None else Some(album.images[0].url)
  }

  /** The authorization endpoint and the scopes every page that builds an authorization URL asks for. */
  const AuthorizeEndpoint := "https://accounts.spotify.com/authorize"
  const AuthorizationScopes: seq<string> :=
    ["user-read-playback-state", "user-read-currently-playing", "user-read-recently-played", "user-top-read"]

  /** `${clientId}` in a template literal: an unset client id prints as "undefined". */
  function ClientIdText(clientId: Option<string>): string
  {
    match clientId
    case Some(id) => id
    case None => "undefined"
  }

  /** The scopes joined by `%20` hold no `&`, so they stay one query parameter. */
  lemma ScopesStayOneParameter()
    ensures '&' !in Join(AuthorizationScopes, "%20")
  {
    var scopes := AuthorizationScopes;
    assert Join(scopes, "%20") == scopes[0] + "%20" + (scopes[1] + "%20" + (scopes[2] + "%20" + scopes[3]));
  }
}
