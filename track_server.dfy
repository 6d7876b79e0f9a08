/** server.js: the Express server's token cache, its axios retry interceptor, the
    `/api/spotify/tracks` handler with its retry after a 401, and the authorization URL. */
module TrackServer {
  import opened Base
  import opened Text
  import opened Upstream
  import opened QueryString

  // ---------------------------------------------------------------- retry interceptor

  /** `axios.defaults.retry`: how many times the response interceptor re-issues a failed request. */
  const Retry: nat := 3

  /** One axios call issued through the interceptor, starting at attempt `k`, where attempt `j`
      gets `network(j)`: the first attempt that resolves, or the failure of attempt `Retry`.
      The second component is the number of attempts made. */
  function Delivered<D>(network: nat -> Reply<D>, k: nat): (r: (Result<Resolved<D>, Failure>, nat))
    requires k <= Retry
    ensures k < r.1 <= Retry + 1
    ensures r.0 == Settle(network(r.1 - 1))
    ensures forall j :: k <= j < r.1 - 1 ==> Settle(network(j)).Err?
    ensures r.0.Err? ==> r.1 == Retry + 1
    decreases Retry - k
  {
    var outcome := Settle(network(k));
    if outcome.Ok? || k == Retry then (outcome, k + 1) else Delivered(network, k + 1)
  }

  /** The interceptor of lines 68-77 as the loop it unrolls to: `currentRetry` starts out
      unset, which compares like 0, and every failure, whatever its status, is retried while
      `currentRetry < retry`. */
  method Send<D>(network: nat -> Reply<D>) returns (outcome: Result<Resolved<D>, Failure>, attempts: nat)
    ensures (outcome, attempts) == Delivered(network, 0)
    ensures attempts <= Retry + 1
  {
    var currentRetry := 0;
    outcome := Settle(network(0));
    while outcome.Err? && currentRetry < Retry
      invariant 0 <= currentRetry <= Retry
      invariant outcome == Settle(network(currentRetry))
      invariant Delivered(network, 0) == Delivered(network, currentRetry)
    {
      currentRetry := currentRetry + 1;
      outcome := Settle(network(currentRetry));
    }
    attempts := currentRetry + 1;
  }

  /** A 401 from the Web API reaches the handler only after the interceptor has re-sent the
      request `Retry` times: `Retry + 1` attempts in all. */
  lemma UnauthorizedIsRetriedFirst<D>(network: nat -> Reply<D>)
    requires forall j: nat :: network(j).Response? && network(j).status == 401
    ensures Delivered(network, 0).1 == Retry + 1
    ensures Delivered(network, 0).0.Err? && Delivered(network, 0).0.error.response.value.status == 401
  {
  }

  // ---------------------------------------------------------------- token cache

  /** `tokenExpirationTime`: `null` before the first refresh, a time in milliseconds, or `NaN`
      when the token response had no body or no `expires_in` (`undefined * 1000`). */
  datatype Expiry = Unset | At(ms: int) | NotANumber

  /** The module-level `accessToken` and `tokenExpirationTime`. */
  datatype TokenState = TokenState(accessToken: CachedToken, expiry: Expiry)

  predicate HasToken(s: TokenState)
  {
    Usable(s.accessToken)
  }

  /** Line 127: `!accessToken || Date.now() >= tokenExpirationTime`. `null` compares as 0 and
      every comparison with `NaN` is false; there is no safety margin. */
  predicate NeedsRefresh(s: TokenState, now: nat)
  {
    !HasToken(s) || match s.expiry
      case Unset => true
      case At(ms) => now >= ms
      case NotANumber => false
  }

  /** Line 110: `Date.now() + (expires_in * 1000)`, `NaN` when `expires_in` is absent. */
  function ExpiryAfter(expiresIn: Option<int>, now: nat): Expiry
  {
    match expiresIn
    case None => NotANumber
    case Some(seconds) => At(now + seconds * 1000)
  }

  /** The state a resolved token response leaves behind. */
  function Granted(data: Option<TokenGrant>, now: nat): TokenState
  {
    match data
    case None => TokenState(UndefinedToken, NotANumber)
    case Some(grant) => TokenState(GrantedToken(data), ExpiryAfter(grant.expiresIn, now))
  }

  /** `refreshAccessToken`: the outcome (the axios error is rethrown as it is, response and
      all), the new state and the number of attempts made. */
  function Refreshed(refreshToken: string, s: TokenState, now: nat, network: nat -> Reply<TokenGrant>)
    : (r: (Result<(), Failure>, TokenState, nat))
    ensures refreshToken == "" ==> r == (Err(Failure("No refresh token available", None)), s, 0)
    ensures r.0.Err? ==> r.1 == s
    ensures refreshToken != "" ==> r.2 == Delivered(network, 0).1
    ensures r.0.Ok? <==> refreshToken != "" && Delivered(network, 0).0.Ok?
    ensures r.0.Ok? ==> r.1 == Granted(Delivered(network, 0).0.value.data, now)
    ensures r.0.Err? && refreshToken != "" ==> r.0 == Err(Delivered(network, 0).0.error)
  {
    if refreshToken == "" then (Err(Failure("No refresh token available", None)), s, 0)
    else
      var (outcome, attempts) := Delivered(network, 0);
      match outcome
      case Err(e) => (Err(e), s, attempts)
      case Ok(resolved) => (Ok(()), Granted(resolved.data, now), attempts)
  }

  /** A successful refresh stores the token and an expiry `expires_in` seconds after `now`, or
      `NaN` when the body has no `expires_in`. */
  lemma RefreshSetsExpiry(refreshToken: string, s: TokenState, now: nat, network: nat -> Reply<TokenGrant>, grant: TokenGrant)
    requires refreshToken != ""
    requires Delivered(network, 0).0.Ok? && Delivered(network, 0).0.value.data == Some(grant)
    ensures Refreshed(refreshToken, s, now, network).1.accessToken == GrantedToken(Some(grant))
    ensures grant.expiresIn.Some? ==> Refreshed(refreshToken, s, now, network).1.expiry == At(now + grant.expiresIn.value * 1000)
    ensures grant.expiresIn.None? ==> Refreshed(refreshToken, s, now, network).1.expiry == NotANumber
  {
  }

  /** A fresh token is not refreshed again before its expiry, and an expiry of `NaN` keeps a
      token forever. */
  lemma FreshTokenKept(s: TokenState, now: nat)
    requires HasToken(s) && (s.expiry.NotANumber? || (s.expiry.At? && now < s.expiry.ms))
    ensures !NeedsRefresh(s, now)
  {
  }

  /** A refresh whose body carries a non-empty `access_token` but no `expires_in` leaves a
      token that line 127 never refreshes again, at any later time. */
  lemma GrantWithoutExpiryKept(refreshToken: string, s: TokenState, now: nat, network: nat -> Reply<TokenGrant>,
                               grant: TokenGrant, later: nat)
    requires refreshToken != ""
    requires Delivered(network, 0).0.Ok? && Delivered(network, 0).0.value.data == Some(grant)
    requires grant.accessToken.Some? && grant.accessToken.value != "" && grant.expiresIn.None?
    ensures Refreshed(refreshToken, s, now, network).0.Ok?
    ensures !NeedsRefresh(Refreshed(refreshToken, s, now, network).1, later)
  {
  }

  // ---------------------------------------------------------------- /api/spotify/tracks

  const RecentlyPlayedUrl := "https://api.spotify.com/v1/me/player/recently-played"

  datatype SanitizedTrack = SanitizedTrack(id: string, name: string, artist: string, album: string, image: Option<string>)

  /** The sanitiser of lines 139-145: one entry per play, in order, or `None` when a play has
      a null `track`. The image is the first album image's URL, `undefined` without images. */
  function Sanitize(items: seq<PlayHistory>): (r: Option<seq<SanitizedTrack>>)
    ensures r.Some? <==> forall k :: 0 <= k < |items| ==> items[k].track.Some?
    ensures r.Some? ==> |r.value| == |items|
    ensures r.Some? ==> forall k :: 0 <= k < |items| ==>
              var t := items[k].track.value;
              r.value[k] == SanitizedTrack(t.id, t.name, ArtistLine(t.artists), t.album.name, FirstImageUrl(t.album))
  {
    if |items| == 0 then Some([])
    else if items[0].track.None? then None
    else
      var t := items[0].track.value;
      var head := SanitizedTrack(t.id, t.name, ArtistLine(t.artists), t.album.name, FirstImageUrl(t.album));
      match Sanitize(items[1..])
      case None =>
        assert forall k :: 0 <= k < |items| - 1 ==> items[1..][k] == items[k + 1];
        None
      case Some(rest) =>
        assert forall k :: 1 <= k < |items| ==> items[k] == items[1..][k - 1];
        Some([head] + rest)
  }

  /** One request the handler issues through axios, with the number of attempts it took. */
  datatype Step = RefreshStep(attempts: nat) | FetchStep(authorization: string, attempts: nat)

  /** The replies each of the handler's (at most four) requests gets, attempt by attempt. */
  datatype Network = Network(
    firstRefresh: nat -> Reply<TokenGrant>,
    firstFetch: nat -> Reply<Page<PlayHistory>>,
    secondRefresh: nat -> Reply<TokenGrant>,
    secondFetch: nat -> Reply<Page<PlayHistory>>)

  /** `Bearer ${accessToken}`: `Bearer null` before any grant, `Bearer undefined` after a grant
      without a token. */
  function Bearer(s: TokenState): string
  {
    "Bearer " + TokenText(s.accessToken)
  }

  /** The recently-played request and the sanitiser; reading `items` of a body without them
      throws a TypeError. */
  function Fetched(s: TokenState, network: nat -> Reply<Page<PlayHistory>>): (r: (Result<seq<SanitizedTrack>, Failure>, Step))
    ensures r.1 == FetchStep(Bearer(s), Delivered(network, 0).1)
    ensures var d := Delivered(network, 0).0;
      r.0.Ok? <==> d.Ok? && d.value.data.Some? && d.value.data.value.items.Some? && Sanitize(d.value.data.value.items.value).Some?
    ensures var d := Delivered(network, 0).0;
      r.0.Ok? ==> r.0.value == Sanitize(d.value.data.value.items.value).value
    ensures Delivered(network, 0).0.Err? ==> r.0 == Err(Delivered(network, 0).0.error)
    ensures Delivered(network, 0).0.Ok? && r.0.Err? ==> r.0 == Err(TypeError)
  {
    var (outcome, attempts) := Delivered(network, 0);
    var step := FetchStep(Bearer(s), attempts);
    match outcome
    case Err(e) => (Err(e), step)
    case Ok(resolved) =>
      if resolved.data.None? || resolved.data.value.items.None? then (Err(TypeError), step)
      else match Sanitize(resolved.data.value.items.value)
        case None => (Err(TypeError), step)
        case Some(tracks) => (Ok(tracks), step)
  }

  /** One try block: an optional refresh, then the fetch, stopping at the first failure. */
  function TryOnce(refreshToken: string, s: TokenState, now: nat, refreshFirst: bool,
                   refreshNetwork: nat -> Reply<TokenGrant>, fetchNetwork: nat -> Reply<Page<PlayHistory>>)
    : (r: (Result<seq<SanitizedTrack>, Failure>, TokenState, seq<Step>))
    ensures 1 <= |r.2| <= 2
    ensures r.2[0].RefreshStep? <==> refreshFirst
    ensures r.2[|r.2| - 1].FetchStep? ==> r.2[|r.2| - 1].authorization == Bearer(r.1)
    ensures !refreshFirst ==> r.1 == s
    ensures refreshFirst ==> r.1 == Refreshed(refreshToken, s, now, refreshNetwork).1
    ensures r.2[|r.2| - 1].RefreshStep? <==> refreshFirst && Refreshed(refreshToken, s, now, refreshNetwork).0.Err?
    ensures r.2[|r.2| - 1].RefreshStep? ==> r.0 == Err(Refreshed(refreshToken, s, now, refreshNetwork).0.error)
    ensures r.2[|r.2| - 1].FetchStep? ==> r.0 == Fetched(r.1, fetchNetwork).0
  {
    if refreshFirst then
      var (refreshed, s1, attempts) := Refreshed(refreshToken, s, now, refreshNetwork);
      if refreshed.Err? then
        (Err(refreshed.error), s1, [RefreshStep(attempts)])
      else
        var (fetched, step) := Fetched(s1, fetchNetwork);
        (fetched, s1, [RefreshStep(attempts), step])
    else
      var (fetched, step) := Fetched(s, fetchNetwork);
      (fetched, s, [step])
  }

  /** What the tracks endpoint sends: `{ tracks }`, or a status with `{ error }`. */
  datatype TracksReply = TracksJson(tracks: seq<SanitizedTrack>) | ErrorJson(status: int, error: string)

  /** Whether a thrown error carries an HTTP response with status 401 (`error.response?.status === 401`). */
  predicate Unauthorized(e: Failure)
  {
    e.response.Some? && e.response.value.status == 401
  }

  /** The handler of lines 124-178: the reply, the new token state and the requests issued.
      The first try refreshes only when the token is missing or expired; after a 401 it
      refreshes once more and retries once; any failure of that retry is a 401, any other
      failure of the first try a 500. */
  function Handle(refreshToken: string, s: TokenState, now: nat, network: Network): (h: (TracksReply, TokenState, seq<Step>))
    ensures 1 <= |h.2| <= 4
    ensures h.2[0].RefreshStep? <==> NeedsRefresh(s, now)
    ensures h.0.ErrorJson? ==> h.0 == ErrorJson(401, "Authentication failed") || h.0 == ErrorJson(500, "Failed to fetch tracks")
    ensures var first := TryOnce(refreshToken, s, now, NeedsRefresh(s, now), network.firstRefresh, network.firstFetch);
      var second := TryOnce(refreshToken, first.1, now, true, network.secondRefresh, network.secondFetch);
      && (h.0 == ErrorJson(500, "Failed to fetch tracks") <==> first.0.Err? && !Unauthorized(first.0.error))
      && (h.0 == ErrorJson(401, "Authentication failed") <==> first.0.Err? && Unauthorized(first.0.error) && second.0.Err?)
      && (first.0.Ok? ==> h.0 == TracksJson(first.0.value) && h.1 == first.1 && h.2 == first.2)
      && (first.0.Err? && !Unauthorized(first.0.error) ==> h.1 == first.1 && h.2 == first.2)
      && (first.0.Err? && Unauthorized(first.0.error) ==> h.1 == second.1 && h.2 == first.2 + second.2)
      && (first.0.Err? && Unauthorized(first.0.error) && second.0.Ok? ==> h.0 == TracksJson(second.0.value))
  {
    var (first, s1, steps1) := TryOnce(refreshToken, s, now, NeedsRefresh(s, now), network.firstRefresh, network.firstFetch);
    match first
    case Ok(tracks) => (TracksJson(tracks), s1, steps1)
    case Err(e) =>
      if Unauthorized(e) then
        var (second, s2, steps2) := TryOnce(refreshToken, s1, now, true, network.secondRefresh, network.secondFetch);
        match second
        case Ok(tracks) => (TracksJson(tracks), s2, steps1 + steps2)
        case Err(_) => (ErrorJson(401, "Authentication failed"), s2, steps1 + steps2)
      else (ErrorJson(500, "Failed to fetch tracks"), s1, steps1)
  }

  /** The retry happens exactly when the first try failed with a 401, and it is one refresh
      followed by at most one fetch. */
  lemma RetryOnlyAfterUnauthorized(refreshToken: string, s: TokenState, now: nat, network: Network)
    ensures var (first, _, steps1) := TryOnce(refreshToken, s, now, NeedsRefresh(s, now), network.firstRefresh, network.firstFetch);
      var steps := Handle(refreshToken, s, now, network).2;
      (|steps| > |steps1| <==> first.Err? && Unauthorized(first.error))
      && steps[..|steps1|] == steps1
      && (|steps| > |steps1| ==> steps[|steps1|].RefreshStep? && |steps| <= |steps1| + 2)
  {
  }

  /** A refresh whose response has no body, or no `access_token`, leaves `undefined` in the
      cache, and the fetch that follows sends `Bearer undefined`. */
  lemma TokenlessGrantSendsUndefined(refreshToken: string, s: TokenState, now: nat,
                                     refreshNetwork: nat -> Reply<TokenGrant>, fetchNetwork: nat -> Reply<Page<PlayHistory>>)
    requires refreshToken != "" && Delivered(refreshNetwork, 0).0.Ok?
    requires var data := Delivered(refreshNetwork, 0).0.value.data; data.None? || data.value.accessToken.None?
    ensures var r := TryOnce(refreshToken, s, now, true, refreshNetwork, fetchNetwork);
      |r.2| == 2 && r.2[1].FetchStep? && r.2[1].authorization == "Bearer undefined"
  {
  }

  // ---------------------------------------------------------------- /api/spotify/auth-url

  /** The query parameters of the authorization URL, in order. */
  function AuthParameters(clientId: string, redirectUri: string): seq<(string, string)>
  {
    [("client_id", clientId), ("response_type", "code"), ("redirect_uri", redirectUri),
     ("scope", Join(AuthorizationScopes, " ")), ("show_dialog", "true")]
  }

  /** The URL of lines 190-197: the endpoint, `?`, and a query that splits back into the five
      escaped parameters in order, whatever the client id and redirect URI hold. */
  function AuthUrl(clientId: string, redirectUri: string): (url: string)
    ensures |url| > |AuthorizeEndpoint| && url[..|AuthorizeEndpoint| + 1] == AuthorizeEndpoint + "?"
    ensures Split(url[|AuthorizeEndpoint| + 1..], '&') == PairTexts(AuthParameters(clientId, redirectUri))
  {
    var query := Stringify(AuthParameters(clientId, redirectUri));
    var url := AuthorizeEndpoint + "?" + query;
    assert url[|AuthorizeEndpoint| + 1..] == query;
    url
  }

  /** Lower-case letters, `_` and `-`: the alphabet of the parameter names and the scopes. */
  predicate LowerWord(s: string)
  {
    forall k :: 0 <= k < |s| ==> 'a' <= s[k] <= 'z' || s[k] == '_' || s[k] == '-'
  }

  lemma LowerWordUnescaped(s: string)
    requires LowerWord(s)
    ensures Escape(s) == s
  {
    EscapeIdentity(s);
  }

  lemma PairsInOrder(k0: string, v0: string, k1: string, v1: string, k2: string, v2: string,
                     k3: string, v3: string, k4: string, v4: string)
    ensures PairTexts([(k0, v0), (k1, v1), (k2, v2), (k3, v3), (k4, v4)])
      == [Pair(k0, v0), Pair(k1, v1), Pair(k2, v2), Pair(k3, v3), Pair(k4, v4)]
  {
  }

  lemma ClientIdPair(c: string)
    ensures Pair("client_id", c) == "client_id" + "=" + Escape(c)
  {
    KeyPair("client_id", c);
  }

  lemma ResponseTypePair()
    ensures Pair("response_type", "code") == "response_type" + "=" + "code"
  {
    WordPair("response_type", "code");
  }

  lemma RedirectUriPair(c: string)
    ensures Pair("redirect_uri", c) == "redirect_uri" + "=" + Escape(c)
  {
    KeyPair("redirect_uri", c);
  }

  lemma ScopePair(c: string)
    ensures Pair("scope", c) == "scope" + "=" + Escape(c)
  {
    KeyPair("scope", c);
  }

  lemma ShowDialogPair()
    ensures Pair("show_dialog", "true") == "show_dialog" + "=" + "true"
  {
    WordPair("show_dialog", "true");
  }

  /** A word key is written as it is, before the escaped value. */
  lemma KeyPair(key: string, value: string)
    requires LowerWord(key)
    ensures Pair(key, value) == key + "=" + Escape(value)
  {
    LowerWordUnescaped(key);
  }

  /** A pair of words is written as it is. */
  lemma WordPair(key: string, value: string)
    requires LowerWord(key) && LowerWord(value)
    ensures Pair(key, value) == key + "=" + value
  {
    LowerWordUnescaped(key);
    LowerWordUnescaped(value);
  }

  /** The parameters as they appear in the URL, for any scope text. */
  lemma AuthParameterTexts(clientId: string, redirectUri: string, scope: string)
    ensures PairTexts([("client_id", clientId), ("response_type", "code"), ("redirect_uri", redirectUri),
                       ("scope", scope), ("show_dialog", "true")])
         == ["client_id" + "=" + Escape(clientId), "response_type" + "=" + "code",
             "redirect_uri" + "=" + Escape(redirectUri), "scope" + "=" + Escape(scope),
             "show_dialog" + "=" + "true"]
  {
    PairsInOrder("client_id", clientId, "response_type", "code", "redirect_uri", redirectUri,
                 "scope", scope, "show_dialog", "true");
    ClientIdPair(clientId);
    ResponseTypePair();
    RedirectUriPair(redirectUri);
    ScopePair(scope);
    ShowDialogPair();
  }

  /** The scopes need no escaping, so the space-joined list comes out joined by `%20`. */
  lemma ScopesEscaped()
    ensures Escape(Join(AuthorizationScopes, " ")) == Join(AuthorizationScopes, "%20")
  {
    var scopes := AuthorizationScopes;
    assert LowerWord(scopes[0]) && LowerWord(scopes[1]) && LowerWord(scopes[2]) && LowerWord(scopes[3]);
    EscapeJoinedBySpace(scopes);
  }

  /** The client id and redirect URI are percent-encoded, the response type is `code`, the
      space-joined scopes come out joined by `%20`, and the consent dialog is forced. */
  lemma AuthUrlParameters(clientId: string, redirectUri: string)
    ensures AuthUrl(clientId, redirectUri) == AuthorizeEndpoint + "?" + Join([
      "client_id" + "=" + Escape(clientId), "response_type" + "=" + "code",
      "redirect_uri" + "=" + Escape(redirectUri), "scope" + "=" + Join(AuthorizationScopes, "%20"),
      "show_dialog" + "=" + "true"], "&")
  {
    AuthParameterTexts(clientId, redirectUri, Join(AuthorizationScopes, " "));
    ScopesEscaped();
  }

  /** Startup (lines 49-52) exits unless all four variables are set. */
  predicate StartupPasses(clientId: Option<string>, clientSecret: Option<string>, redirectUri: Option<string>, refreshToken: Option<string>)
  {
    clientId.Some? && clientId.value != "" && clientSecret.Some? && clientSecret.value != ""
    && redirectUri.Some? && redirectUri.value != "" && refreshToken.Some? && refreshToken.value != ""
  }

  /** The server's module-level state after a successful start. */
  class Server {
    const clientId: string
    const redirectUri: string
    const refreshToken: string
    var accessToken: CachedToken
    var tokenExpirationTime: Expiry

    function State(): TokenState
      reads this
    {
      TokenState(accessToken, tokenExpirationTime)
    }

    constructor(clientId: Option<string>, clientSecret: Option<string>, redirectUri: Option<string>, refreshToken: Option<string>)
      requires StartupPasses(clientId, clientSecret, redirectUri, refreshToken)
      ensures this.clientId == clientId.value && this.redirectUri == redirectUri.value && this.refreshToken == refreshToken.value
      ensures State() == TokenState(NullToken, Unset)
    {
      this.clientId := clientId.value;
      this.redirectUri := redirectUri.value;
      this.refreshToken := refreshToken.value;
      accessToken := NullToken;
      tokenExpirationTime := Unset;
    }

    /** `refreshAccessToken`. */
    method RefreshAccessToken(now: nat, network: nat -> Reply<TokenGrant>) returns (outcome: Result<(), Failure>, attempts: nat)
      modifies this
      ensures (outcome, State(), attempts) == Refreshed(refreshToken, old(State()), now, network)
    {
      if refreshToken == "" {
        return Err(Failure("No refresh token available", None)), 0;
      }
      var sent;
      sent, attempts := Send(network);
      match sent {
        case Err(e) =>
          outcome := Err(e);
        case Ok(resolved) =>
          match resolved.data {
            case None =>
              accessToken := UndefinedToken;
              tokenExpirationTime := NotANumber;
            case Some(grant) =>
              accessToken := GrantedToken(resolved.data);
              tokenExpirationTime := ExpiryAfter(grant.expiresIn, now);
          }
          outcome := Ok(());
      }
    }

    /** One request of the recently-played endpoint and the sanitiser. */
    method FetchTracks(network: nat -> Reply<Page<PlayHistory>>) returns (outcome: Result<seq<SanitizedTrack>, Failure>, step: Step)
      ensures (outcome, step) == Fetched(State(), network)
    {
      var sent, attempts := Send(network);
      step := FetchStep(Bearer(State()), attempts);
      match sent {
        case Err(e) =>
          outcome := Err(e);
        case Ok(resolved) =>
          if resolved.data.None? || resolved.data.value.items.None? {
            outcome := Err(TypeError);
          } else {
            var tracks := Sanitize(resolved.data.value.items.value);
            outcome := if tracks.None? then Err(TypeError) else Ok(tracks.value);
          }
      }
    }

    /** One try block of the handler. */
    method Try(now: nat, refreshFirst: bool, refreshNetwork: nat -> Reply<TokenGrant>,
               fetchNetwork: nat -> Reply<Page<PlayHistory>>) returns (outcome: Result<seq<SanitizedTrack>, Failure>, steps: seq<Step>)
      modifies this
      ensures (outcome, State(), steps) == TryOnce(refreshToken, old(State()), now, refreshFirst, refreshNetwork, fetchNetwork)
    {
      if refreshFirst {
        var refreshed, attempts := RefreshAccessToken(now, refreshNetwork);
        if refreshed.Err? {
          return Err(refreshed.error), [RefreshStep(attempts)];
        }
        var step;
        outcome, step := FetchTracks(fetchNetwork);
        steps := [RefreshStep(attempts), step];
      } else {
        var step;
        outcome, step := FetchTracks(fetchNetwork);
        steps := [step];
      }
    }

    /** `GET /api/spotify/tracks` at time `now`. */
    method GetTracks(now: nat, network: Network) returns (reply: TracksReply, steps: seq<Step>)
      modifies this
      ensures (reply, State(), steps) == Handle(refreshToken, old(State()), now, network)
    {
      var first, steps1 := Try(now, NeedsRefresh(State(), now), network.firstRefresh, network.firstFetch);
      match first {
        case Ok(tracks) =>
          reply, steps := TracksJson(tracks), steps1;
        case Err(e) =>
          if Unauthorized(e) {
            var second, steps2 := Try(now, true, network.secondRefresh, network.secondFetch);
            reply := if second.Ok? then TracksJson(second.value) else ErrorJson(401, "Authentication failed");
            steps := steps1 + steps2;
          } else {
            reply, steps := ErrorJson(500, "Failed to fetch tracks"), steps1;
          }
      }
    }

    /** The startup refresh of lines 83-90, whose failure is only logged. */
    method InitializeToken(now: nat, network: nat -> Reply<TokenGrant>)
      modifies this
      ensures State() == Refreshed(refreshToken, old(State()), now, network).1
    {
      var _, _ := RefreshAccessToken(now, network);
    }
  }
}
