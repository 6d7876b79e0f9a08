/** backend/spotify.js: an Express router that caches a client-credentials token and answers a
    401 by fetching a new token and redirecting the client to the same URL. */
module ClientCredentialsRouter {
  import opened Base
  import opened Upstream

  const PlaylistTracksUrl := "https://api.spotify.com/v1/playlists/{playlist_id}/tracks"

  /** A request the router issues: the client-credentials token request or the tracks request. */
  datatype Call = TokenCall | TracksCall(authorization: string)

  /** How a request to `/tracks` ends: the upstream body forwarded as JSON, a redirect, a 500
      with a text body, or an exception nothing catches, which leaves the request unanswered. */
  datatype Outcome<D> =
    | Forwarded(body: Option<D>)
    | Redirected(location: string)
    | ServerError(status: int, text: string)
    | Unanswered(error: Failure)

  /** The replies one request can meet, in order: the middleware's token request, the tracks
      request and the token request after a 401. */
  datatype Exchange<D> = Exchange(tokenReply: Reply<TokenGrant>, apiReply: Reply<D>, refetchReply: Reply<TokenGrant>)

  /** `Bearer ${accessToken}`: `Bearer null` before any grant, `Bearer undefined` after a grant
      without a token. */
  function Bearer(token: CachedToken): string
  {
    "Bearer " + TokenText(token)
  }

  /** The middleware of lines 26-31 followed by the `/tracks` handler of lines 34-50, for a
      request to `url` while the cached token is `token`: the outcome, the new cached token and
      the requests made. */
  function Serve<D>(token: CachedToken, url: string, ex: Exchange<D>): (r: (Outcome<D>, CachedToken, seq<Call>))
    ensures 1 <= |r.2| <= 3
    ensures r.2[0] == TokenCall <==> !Usable(token)
    ensures Usable(token) ==> r.2[0] == TracksCall(Bearer(token))
    ensures !Usable(token) && Resolves(ex.tokenReply) ==> |r.2| >= 2 && r.2[1] == TracksCall(Bearer(GrantedToken(ex.tokenReply.data)))
    ensures !Usable(token) && !Resolves(ex.tokenReply) ==> r == (Unanswered(Settle(ex.tokenReply).error), token, [TokenCall])
    ensures r.0.Forwarded? <==> (Usable(token) || Resolves(ex.tokenReply)) && ex.apiReply.Response? && Accepted(ex.apiReply.status)
    ensures r.0.Forwarded? ==> r.0.body == ex.apiReply.data
    ensures r.0.Redirected? ==> r.0.location == url && ex.apiReply.Response? && ex.apiReply.status == 401
    ensures r.0.ServerError? ==> r.0 == ServerError(500, "Error fetching Spotify tracks")
    ensures Usable(token) && !r.0.Redirected? ==> r.1 == token
    ensures (Usable(token) || Resolves(ex.tokenReply)) && !Resolves(ex.apiReply)
              && !(ex.apiReply.Response? && ex.apiReply.status == 401)
            ==> r.0 == ServerError(500, "Error fetching Spotify tracks")
    ensures (Usable(token) || Resolves(ex.tokenReply)) && ex.apiReply.Response? && ex.apiReply.status == 401
            ==> if Resolves(ex.refetchReply) then r.0 == Redirected(url) && r.1 == GrantedToken(ex.refetchReply.data)
                else r.0 == Unanswered(Settle(ex.refetchReply).error)
  {
    var fetched := if Usable(token) then Ok(token) else
      match Settle(ex.tokenReply)
      case Err(e) => Err(e)
      case Ok(resolved) => Ok(GrantedToken(resolved.data));
    var before := if Usable(token) then [] else [TokenCall];
    match fetched
    case Err(e) => (Unanswered(e), token, before)
    case Ok(t) =>
      var calls := before + [TracksCall(Bearer(t))];
      match Settle(ex.apiReply)
      case Ok(resolved) => (Forwarded(resolved.data), t, calls)
      case Err(e) =>
        if e.response.Some? && e.response.value.status == 401 then
          match Settle(ex.refetchReply)
          case Err(e2) => (Unanswered(e2), t, calls + [TokenCall])
          case Ok(resolved) => (Redirected(url), GrantedToken(resolved.data), calls + [TokenCall])
        else (ServerError(500, "Error fetching Spotify tracks"), t, calls)
  }

  /** A token response without `access_token` leaves `undefined` in the cache, and the tracks
      request then sends `Bearer undefined`; the next request fetches a token again. */
  lemma TokenlessGrantSendsUndefined<D>(token: CachedToken, url: string, ex: Exchange<D>)
    requires !Usable(token) && Resolves(ex.tokenReply)
    requires ex.tokenReply.data.None? || ex.tokenReply.data.value.accessToken.None?
    ensures Serve(token, url, ex).2[1] == TracksCall("Bearer undefined")
    ensures !Serve(token, url, ex).0.Redirected? ==> !Usable(Serve(token, url, ex).1)
  {
  }

  /** A client that follows every redirect: the outcomes of the requests it makes to `url`,
      one exchange per request, until one is not a redirect or the exchanges run out. */
  function Follow<D>(token: CachedToken, url: string, exchanges: seq<Exchange<D>>): (outcomes: seq<Outcome<D>>)
    ensures |outcomes| <= |exchanges|
    ensures forall k :: 0 <= k < |outcomes| - 1 ==> outcomes[k].Redirected?
    decreases |exchanges|
  {
    if |exchanges| == 0 then []
    else
      var (outcome, next, _) := Serve(token, url, exchanges[0]);
      if outcome.Redirected? then [outcome] + Follow(next, url, exchanges[1..]) else [outcome]
  }

  /** A Web API that keeps answering 401 while the token endpoint keeps issuing tokens makes
      the router redirect on every request: nothing bounds the number of redirects. */
  lemma {:induction false} RedirectsUnbounded<D>(token: CachedToken, url: string, exchanges: seq<Exchange<D>>)
    requires forall k :: 0 <= k < |exchanges| ==> Resolves(exchanges[k].tokenReply) && Resolves(exchanges[k].refetchReply)
    requires forall k :: 0 <= k < |exchanges| ==> exchanges[k].apiReply.Response? && exchanges[k].apiReply.status == 401
    ensures |Follow(token, url, exchanges)| == |exchanges|
    ensures forall k :: 0 <= k < |exchanges| ==> Follow(token, url, exchanges)[k] == Redirected(url)
    decreases |exchanges|
  {
    if |exchanges| > 0 {
      var (outcome, next, _) := Serve(token, url, exchanges[0]);
      assert outcome == Redirected(url);
      RedirectsUnbounded(next, url, exchanges[1..]);
    }
  }

  /** The router's module-level cache. */
  class Router {
    var accessToken: CachedToken

    constructor()
      ensures accessToken == NullToken
    {
      accessToken := NullToken;
    }

    /** `fetchAccessToken` (lines 12-23): the client-credentials grant; on success the cache is
        overwritten with whatever `access_token` the response holds. */
    method FetchAccessToken(reply: Reply<TokenGrant>) returns (outcome: Result<(), Failure>)
      modifies this
      ensures outcome.Ok? <==> Resolves(reply)
      ensures outcome.Ok? ==> accessToken == GrantedToken(reply.data)
      ensures outcome.Err? ==> accessToken == old(accessToken) && outcome.error == Settle(reply).error
    {
      match Settle(reply) {
        case Err(e) =>
          outcome := Err(e);
        case Ok(resolved) =>
          accessToken := GrantedToken(resolved.data);
          outcome := Ok(());
      }
    }

    /** One request to `/tracks`, through the middleware. */
    method Tracks<D>(url: string, ex: Exchange<D>) returns (outcome: Outcome<D>, calls: seq<Call>)
      modifies this
      ensures (outcome, accessToken, calls) == Serve(old(accessToken), url, ex)
    {
      calls := [];
      if !Usable(accessToken) {
        var fetched := FetchAccessToken(ex.tokenReply);
        calls := [TokenCall];
        if fetched.Err? {
          return Unanswered(fetched.error), calls;
        }
      }
      calls := calls + [TracksCall(Bearer(accessToken))];
      match Settle(ex.apiReply) {
        case Ok(resolved) =>
          outcome := Forwarded(resolved.data);
        case Err(e) =>
          if e.response.Some? && e.response.value.status == 401 {
            var refetched := FetchAccessToken(ex.refetchReply);
            calls := calls + [TokenCall];
            outcome := if refetched.Err? then Unanswered(refetched.error) else Redirected(url);
          } else {
            outcome := ServerError(500, "Error fetching Spotify tracks");
          }
      }
    }
  }
}
