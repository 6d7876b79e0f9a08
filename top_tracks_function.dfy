/** netlify/functions/top-tracks.js: the five most played tracks of the last four weeks. */
module TopTracksFunction {
  import opened Base
  import opened Text
  import opened Upstream
  import opened NetlifyFunction

  const TopTracksUrl := "https://api.spotify.com/v1/me/top/tracks"
  const TopTracksParams: seq<(string, string)> := [("time_range", "short_term"), ("limit", "5")]

  datatype TopTrackView = TopTrackView(songID: string, artist: string, title: string, album: string, albumArt: string, uri: string)

  /** The map callback of lines 68-75; `None` where `artists[0]` or `images[0]` is missing. */
  function Format(t: Track): (r: Option<TopTrackView>)
    ensures r.Some? <==> |t.artists| > 0 && |t.album.images| > 0
    ensures r.Some? ==> r.value.artist == t.artists[0].name && r.value.albumArt == t.album.images[0].url
    ensures r.Some? ==> r.value.songID == t.id && r.value.title == t.name && r.value.album == t.album.name && r.value.uri == t.uri
  {
    if |t.artists| == 0 || |t.album.images| == 0 then None
    else Some(TopTrackView(t.id, t.artists[0].name, t.name, t.album.name, t.album.images[0].url, t.uri))
  }

  /** `items.map(...)`: one view per item in order, or `None` as soon as one item throws. */
  function FormatAll(tracks: seq<Track>): (r: Option<seq<TopTrackView>>)
    ensures r.Some? <==> forall k :: 0 <= k < |tracks| ==> Format(tracks[k]).Some?
    ensures r.Some? ==> |r.value| == |tracks| && forall k :: 0 <= k < |tracks| ==> Some(r.value[k]) == Format(tracks[k])
  {
    if |tracks| == 0 then Some([])
    else match (Format(tracks[0]), FormatAll(tracks[1..]))
      case (Some(v), Some(rest)) =>
        assert forall k :: 1 <= k < |tracks| ==> tracks[k] == tracks[1..][k - 1];
        Some([v] + rest)
      case (None, _) => None
      case (_, None) =>
        assert forall k :: 0 <= k < |tracks| - 1 ==> tracks[1..][k] == tracks[k + 1];
        None
  }

  /** No HTTP response, or a success body without `items`: 500 with the handler's message. */
  const Fallback: FunctionResponse<seq<TopTrackView>> :=
    FunctionResponse(500, CorsHeaders, JsonError("Failed to fetch top tracks"))

  /** `exports.handler`. */
  function Handler(httpMethod: string, tokenReply: Reply<TokenGrant>, apiReply: Reply<Page<Track>>)
    : (run: Run<seq<TopTrackView>>)
    ensures run.response.headers == CorsHeaders
    ensures httpMethod == "OPTIONS" ==> run == Run(Preflight(), [])
    ensures httpMethod != "OPTIONS" ==> |run.calls| >= 1 && run.calls[0] == TokenCall
    ensures forall c | c in run.calls && c.ApiCall? :: c.url == TopTracksUrl && c.params == TopTracksParams
    ensures run.response.statusCode == 200 && httpMethod != "OPTIONS" <==>
              run.response.body.Json?
    ensures run.response.body.Json? ==>
              Resolves(tokenReply) && apiReply.Response? && apiReply.data.Some? && apiReply.data.value.items.Some?
              && FormatAll(apiReply.data.value.items.value) == Some(run.response.body.value)
  {
    if httpMethod == "OPTIONS" then Run(Preflight(), [])
    else match GetAccessToken(tokenReply)
      case Err(e) => Run(Caught(e, Fallback), [TokenCall])
      case Ok(token) =>
        var calls := [TokenCall, ApiCall(TopTracksUrl, TopTracksParams, Bearer(token))];
        match Settle(apiReply)
        case Err(e) => Run(Caught(e, Fallback), calls)
        case Ok(resolved) =>
          if resolved.data.None? || resolved.data.value.items.None? then Run(Caught(TypeError, Fallback), calls)
          else match FormatAll(resolved.data.value.items.value)
            case None => Run(Caught(TypeError, Fallback), calls)
            case Some(views) => Run(FunctionResponse(200, CorsHeaders, Json(views)), calls)
  }

  /** Where the now-playing function joins every artist, this one keeps only the first: for a
      track with two or more artists the two `artist` fields differ. */
  lemma FirstArtistOnly(t: Track)
    requires |t.artists| >= 2 && |t.album.images| > 0
    ensures Format(t).value.artist != ArtistLine(t.artists)
  {
    var names := ArtistNames(t.artists);
    assert ArtistLine(t.artists) == names[0] + ", " + Join(names[1..], ", ");
  }

  /** A token failure never reaches the Web API and answers 500. */
  lemma TokenFailureIsServerError(httpMethod: string, tokenReply: Reply<TokenGrant>, apiReply: Reply<Page<Track>>)
    requires httpMethod != "OPTIONS" && !Resolves(tokenReply)
    ensures Handler(httpMethod, tokenReply, apiReply) == Run(Fallback, [TokenCall])
  {
  }

  /** One item without artists or without album images turns the whole answer into 500. */
  lemma OneBadItemFailsAll(tokenReply: Reply<TokenGrant>, status: int, text: string, items: seq<Track>, k: int)
    requires Resolves(tokenReply) && Accepted(status)
    requires 0 <= k < |items| && (|items[k].artists| == 0 || |items[k].album.images| == 0)
    ensures Handler("GET", tokenReply, Response(status, text, Some(Page(Some(items))))).response == Fallback
  {
  }

  /** 401 and 403 from the Web API keep their status and carry a fixed message. */
  lemma AuthorizationRejected(httpMethod: string, tokenReply: Reply<TokenGrant>, apiReply: Reply<Page<Track>>)
    requires httpMethod != "OPTIONS" && Resolves(tokenReply)
    requires apiReply.Response? && apiReply.status in {401, 403}
    ensures Handler(httpMethod, tokenReply, apiReply).response
            == FunctionResponse(apiReply.status, CorsHeaders, JsonError(AuthorizationFailed))
  {
  }

  /** Any other rejected status is passed through with its status text. */
  lemma ApiErrorPassedThrough(httpMethod: string, tokenReply: Reply<TokenGrant>, apiReply: Reply<Page<Track>>)
    requires httpMethod != "OPTIONS" && Resolves(tokenReply)
    requires ApiRejected(apiReply) && apiReply.status !in {401, 403}
    ensures Handler(httpMethod, tokenReply, apiReply).response
            == FunctionResponse(apiReply.status, CorsHeaders, JsonError("Spotify API error: " + apiReply.statusText))
  {
  }

  /** No response from the Web API: 500 with the handler's own message. */
  lemma NetworkFailureIsServerError(httpMethod: string, tokenReply: Reply<TokenGrant>, apiReply: Reply<Page<Track>>)
    requires httpMethod != "OPTIONS" && Resolves(tokenReply) && apiReply.NoResponse?
    ensures Handler(httpMethod, tokenReply, apiReply).response
            == FunctionResponse(500, CorsHeaders, JsonError("Failed to fetch top tracks"))
  {
  }
}
