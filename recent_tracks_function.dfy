/** netlify/functions/recent-tracks.js: the last seven plays, passed through unchanged. */
module RecentTracksFunction {
  import opened Base
  import opened Upstream
  import opened NetlifyFunction

  const RecentlyPlayedUrl := "https://api.spotify.com/v1/me/player/recently-played"
  const RecentlyPlayedParams: seq<(string, string)> := [("limit", "7")]

  /** `exports.handler`. The upstream body is forwarded as it is, whatever its shape, so the
      payload type is left open; an empty upstream body is forwarded as `None`. */
  function Handler<D>(httpMethod: string, tokenReply: Reply<TokenGrant>, apiReply: Reply<D>)
    : (run: Run<Option<D>>)
    ensures run.response.headers == CorsHeaders
    ensures httpMethod == "OPTIONS" ==> run == Run(Preflight(), [])
    ensures httpMethod != "OPTIONS" ==> |run.calls| >= 1 && run.calls[0] == TokenCall
    ensures forall c | c in run.calls && c.ApiCall? :: c.url == RecentlyPlayedUrl && c.params == RecentlyPlayedParams
    ensures run.response.body.Json? <==>
              httpMethod != "OPTIONS" && Resolves(tokenReply) && apiReply.Response? && Accepted(apiReply.status)
    ensures run.response.body.Json? ==> run.response == FunctionResponse(200, CorsHeaders, Json(apiReply.data))
    ensures run.response.statusCode == 500 <==>
              httpMethod != "OPTIONS" && (!Resolves(tokenReply) || apiReply.NoResponse? || apiReply.status == 500)
  {
    if httpMethod == "OPTIONS" then Run(Preflight(), [])
    else match GetAccessToken(tokenReply)
      case Err(e) => Run(Caught(e, FunctionResponse(500, CorsHeaders, JsonError("Failed to fetch recent tracks"))), [TokenCall])
      case Ok(token) =>
        var calls := [TokenCall, ApiCall(RecentlyPlayedUrl, RecentlyPlayedParams, Bearer(token))];
        match Settle(apiReply)
        case Err(e) => Run(Caught(e, FunctionResponse(500, CorsHeaders, JsonError("Failed to fetch recent tracks"))), calls)
        case Ok(resolved) => Run(FunctionResponse(200, CorsHeaders, Json(resolved.data)), calls)
  }

  /** A 401 or 403 from the Web API keeps its status and carries the fixed message. */
  lemma AuthorizationRejected<D>(tokenReply: Reply<TokenGrant>, apiReply: Reply<D>)
    requires Resolves(tokenReply) && apiReply.Response? && apiReply.status in {401, 403}
    ensures Handler("GET", tokenReply, apiReply).response
            == FunctionResponse(apiReply.status, CorsHeaders, JsonError(AuthorizationFailed))
  {
  }

  /** Any other rejected status is passed through with its status text. */
  lemma ApiErrorPassedThrough<D>(tokenReply: Reply<TokenGrant>, apiReply: Reply<D>)
    requires Resolves(tokenReply) && ApiRejected(apiReply) && apiReply.status !in {401, 403}
    ensures Handler("GET", tokenReply, apiReply).response
            == FunctionResponse(apiReply.status, CorsHeaders, JsonError("Spotify API error: " + apiReply.statusText))
  {
  }

  /** No response from the Web API, or a failed token exchange: 500 with the handler's own
      message. */
  lemma NetworkFailureIsServerError<D>(tokenReply: Reply<TokenGrant>, apiReply: Reply<D>)
    requires !Resolves(tokenReply) || apiReply.NoResponse?
    ensures Handler("GET", tokenReply, apiReply).response
            == FunctionResponse(500, CorsHeaders, JsonError("Failed to fetch recent tracks"))
  {
  }
}
