/** netlify/functions/now-playing.js: the currently playing track, flattened for the page. */
module NowPlayingFunction {
  import opened Base
  import opened Upstream
  import opened NetlifyFunction

  const CurrentlyPlayingUrl := "https://api.spotify.com/v1/me/player/currently-playing"

  datatype NowPlayingView = NowPlayingView(
    id: string, name: string, artist: string, album: string, albumArt: string, url: string, isPlaying: bool)

  /** The reshaping of lines 73-82; `None` where a property read throws: an empty body, no
      `item`, or an album without images. */
  function Flatten(data: Option<CurrentlyPlaying>): (view: Option<NowPlayingView>)
    ensures view.Some? <==> data.Some? && data.value.item.Some? && |data.value.item.value.album.images| > 0
    ensures view.Some? ==>
      var t := data.value.item.value;
      view.value.id == t.id && view.value.name == t.name && view.value.artist == ArtistLine(t.artists) &&
      view.value.album == t.album.name && view.value.albumArt == t.album.images[0].url &&
      view.value.url == t.spotifyUrl && view.value.isPlaying == data.value.isPlaying
  {
    if data.None? || data.value.item.None? then None
    else
      var t := data.value.item.value;
      match FirstImageUrl(t.album)
      case None => None
      case Some(art) =>
        Some(NowPlayingView(t.id, t.name, ArtistLine(t.artists), t.album.name, art, t.spotifyUrl, data.value.isPlaying))
  }

  /** A failure without an HTTP response still answers 200 with `null`. */
  const Degraded: FunctionResponse<NowPlayingView> := FunctionResponse(200, CorsHeaders, JsonNull)

  /** `exports.handler`. */
  function Handler(httpMethod: string, tokenReply: Reply<TokenGrant>, apiReply: Reply<CurrentlyPlaying>)
    : (run: Run<NowPlayingView>)
    ensures run.response.headers == CorsHeaders
    ensures httpMethod == "OPTIONS" ==> run == Run(Preflight(), [])
    ensures httpMethod != "OPTIONS" ==> |run.calls| >= 1 && run.calls[0] == TokenCall
    ensures Resolves(tokenReply) || httpMethod == "OPTIONS" <==> |run.calls| != 1
    ensures run.response.statusCode != 200 <==>
              httpMethod != "OPTIONS" && Resolves(tokenReply) && ApiRejected(apiReply)
    ensures run.response.statusCode != 200 ==> run.response.statusCode == apiReply.status
    ensures run.response.body.Json? ==>
              apiReply.Response? && apiReply.status != 204 && Flatten(apiReply.data) == Some(run.response.body.value)
  {
    if httpMethod == "OPTIONS" then Run(Preflight(), [])
    else match GetAccessToken(tokenReply)
      case Err(e) => Run(Caught(e, Degraded), [TokenCall])
      case Ok(token) =>
        var calls := [TokenCall, ApiCall(CurrentlyPlayingUrl, [], Bearer(token))];
        match Settle(apiReply)
        case Err(e) => Run(Caught(e, Degraded), calls)
        case Ok(resolved) =>
          if resolved.status == 204 then Run(FunctionResponse(200, CorsHeaders, JsonNull), calls)
          else match Flatten(resolved.data)
            case None => Run(Caught(TypeError, Degraded), calls)
            case Some(view) => Run(FunctionResponse(200, CorsHeaders, Json(view)), calls)
  }

  /** Nothing playing: an upstream 204 becomes 200 with `null`. */
  lemma NothingPlaying(tokenReply: Reply<TokenGrant>, apiReply: Reply<CurrentlyPlaying>)
    requires Resolves(tokenReply) && apiReply.Response? && apiReply.status == 204
    ensures Handler("GET", tokenReply, apiReply).response == FunctionResponse(200, CorsHeaders, JsonNull)
  {
  }

  /** A resolved reply other than 204 that cannot be reshaped (no body, no `item`, or no album
      image) throws a TypeError, which has no response, so the answer is 200 with `null`. */
  lemma FlattenFailureDegrades(httpMethod: string, tokenReply: Reply<TokenGrant>, status: int, text: string,
                               data: Option<CurrentlyPlaying>)
    requires httpMethod != "OPTIONS" && Resolves(tokenReply)
    requires Accepted(status) && status != 204
    requires data.None? || data.value.item.None? || |data.value.item.value.album.images| == 0
    ensures Handler(httpMethod, tokenReply, Response(status, text, data)).response == Degraded
  {
  }

  /** A playing track: every field comes from the upstream item, the artist line joins all
      artist names with ", " in order, and `isPlaying` is the upstream `is_playing`. */
  lemma PlayingTrack(httpMethod: string, tokenReply: Reply<TokenGrant>, status: int, text: string, cp: CurrentlyPlaying)
    requires httpMethod != "OPTIONS" && Resolves(tokenReply)
    requires Accepted(status) && status != 204
    requires cp.item.Some? && |cp.item.value.album.images| > 0
    ensures var t := cp.item.value;
      Handler(httpMethod, tokenReply, Response(status, text, Some(cp))).response
      == FunctionResponse(200, CorsHeaders, Json(NowPlayingView(
           t.id, t.name, ArtistLine(t.artists), t.album.name, t.album.images[0].url, t.spotifyUrl, cp.isPlaying)))
  {
  }

  /** 401 and 403 from the Web API keep their status and carry a fixed message. */
  lemma AuthorizationRejected(httpMethod: string, tokenReply: Reply<TokenGrant>, apiReply: Reply<CurrentlyPlaying>)
    requires httpMethod != "OPTIONS" && Resolves(tokenReply)
    requires apiReply.Response? && apiReply.status in {401, 403}
    ensures Handler(httpMethod, tokenReply, apiReply).response
            == FunctionResponse(apiReply.status, CorsHeaders, JsonError(AuthorizationFailed))
  {
  }

  /** Any other rejected status is passed through with its status text. */
  lemma ApiErrorPassedThrough(httpMethod: string, tokenReply: Reply<TokenGrant>, apiReply: Reply<CurrentlyPlaying>)
    requires httpMethod != "OPTIONS" && Resolves(tokenReply)
    requires ApiRejected(apiReply) && apiReply.status !in {401, 403}
    ensures Handler(httpMethod, tokenReply, apiReply).response
            == FunctionResponse(apiReply.status, CorsHeaders, JsonError("Spotify API error: " + apiReply.statusText))
  {
  }

  /** A failed token exchange is rethrown without its response, so even a 401 or 403 from the
      token endpoint ends in the catch-all branch: 200 with `null`, and the Web API is never
      called. */
  lemma TokenFailureDegrades(httpMethod: string, tokenReply: Reply<TokenGrant>, apiReply: Reply<CurrentlyPlaying>)
    requires httpMethod != "OPTIONS" && !Resolves(tokenReply)
    ensures Handler(httpMethod, tokenReply, apiReply) == Run(Degraded, [TokenCall])
  {
  }

  /** No response from the Web API also degrades to 200 with `null`. */
  lemma NetworkFailureDegrades(httpMethod: string, tokenReply: Reply<TokenGrant>, apiReply: Reply<CurrentlyPlaying>)
    requires httpMethod != "OPTIONS" && Resolves(tokenReply) && apiReply.NoResponse?
    ensures Handler(httpMethod, tokenReply, apiReply).response == Degraded
  {
  }
}
