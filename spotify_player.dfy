/** components/SpotifyPlayer.js: the browser-side player. It reads the access token from the
    URL fragment or redirects to the implicit-grant authorization, then fetches the currently
    playing and recently played tracks in that order and hands them to the two components. */
module SpotifyPlayer {
  import opened Base
  import opened Text
  import opened Js
  import opened Upstream
  import HashParams
  import opened TrackText
  import RecentlyPlayedList

  // ---------------------------------------------------------------- handleAuth

  /** The parameters the implicit-grant request means to send, in order. */
  function TokenRequestParameters(clientId: Option<string>, redirectUri: string): seq<string>
  {
    ["client_id=" + ClientIdText(clientId), "redirect_uri=" + redirectUri, "scope=" + Join(AuthorizationScopes, "%20"),
     "response_type=token", "show_dialog=true"]
  }

  /** The implicit-grant request, with the client id and redirect URI left unescaped: its
      query is the five parameters joined by `&`, and it splits back into them exactly when
      neither the client id nor the redirect URI holds an `&`. */
  function TokenRequestUrl(clientId: Option<string>, redirectUri: string): (url: string)
    ensures url == AuthorizeEndpoint + "?" + Join(TokenRequestParameters(clientId, redirectUri), "&")
    ensures Split(url[|AuthorizeEndpoint| + 1..], '&') == TokenRequestParameters(clientId, redirectUri)
            <==> '&' !in ClientIdText(clientId) && '&' !in redirectUri
  {
    var url := AuthorizeEndpoint + "?" + "client_id=" + ClientIdText(clientId) + "&" + "redirect_uri=" + redirectUri +
      "&" + "scope=" + Join(AuthorizationScopes, "%20") + "&" + "response_type=token" + "&" + "show_dialog=true";
    TokenRequestJoined(clientId, redirectUri);
    assert url[|AuthorizeEndpoint| + 1..] == Join(TokenRequestParameters(clientId, redirectUri), "&");
    SplitJoinExactly(TokenRequestParameters(clientId, redirectUri), '&');
    TokenRequestParametersSeparate(clientId, redirectUri);
    url
  }

  /** The template literal is the five parameters joined by `&`. */
  lemma TokenRequestJoined(clientId: Option<string>, redirectUri: string)
    ensures AuthorizeEndpoint + "?" + "client_id=" + ClientIdText(clientId) + "&" + "redirect_uri=" + redirectUri +
      "&" + "scope=" + Join(AuthorizationScopes, "%20") + "&" + "response_type=token" + "&" + "show_dialog=true"
      == AuthorizeEndpoint + "?" + Join(TokenRequestParameters(clientId, redirectUri), "&")
  {
    FiveParametersJoined(AuthorizeEndpoint + "?", "client_id=", ClientIdText(clientId), "redirect_uri=", redirectUri,
                         "scope=", Join(AuthorizationScopes, "%20"), "response_type=token", "show_dialog=true", "&");
  }

  /** Appending the parameters one piece at a time builds their join. */
  lemma FiveParametersJoined(prefix: string, k0: string, v0: string, k1: string, v1: string, k2: string, v2: string,
                             p3: string, p4: string, sep: string)
    ensures prefix + k0 + v0 + sep + k1 + v1 + sep + k2 + v2 + sep + p3 + sep + p4
            == prefix + Join([k0 + v0, k1 + v1, k2 + v2, p3, p4], sep)
  {
    JoinFive(k0 + v0, k1 + v1, k2 + v2, p3, p4, sep);
  }

  /** No parameter holds an `&` exactly when neither the client id nor the redirect URI does. */
  lemma TokenRequestParametersSeparate(clientId: Option<string>, redirectUri: string)
    ensures (forall k :: 0 <= k < |TokenRequestParameters(clientId, redirectUri)| ==> '&' !in TokenRequestParameters(clientId, redirectUri)[k])
            <==> '&' !in ClientIdText(clientId) && '&' !in redirectUri
  {
    var parameters := TokenRequestParameters(clientId, redirectUri);
    ScopesStayOneParameter();
    assert '&' !in "client_id=" && '&' !in "redirect_uri=" && '&' !in "scope=";
    assert '&' in parameters[0] <==> '&' in ClientIdText(clientId);
    assert '&' in parameters[1] <==> '&' in redirectUri;
    assert '&' !in parameters[2] && '&' !in parameters[3] && '&' !in parameters[4];
  }

  /** What `handleAuth` does: nothing when decoding the fragment throws, the redirect without a
      token, the player with one. */
  datatype Auth = Aborted | Redirect(url: string) | Authorized(token: string)

  function HandleAuth(hash: string, decode: string -> Option<string>, clientId: Option<string>, redirectUri: string): (r: Auth)
    ensures r.Aborted? <==> HashParams.Parse(hash, decode).None?
    ensures r.Authorized? ==> r.token != ""
  {
    match HashParams.Parse(hash, decode)
    case None => Aborted
    case Some(params) =>
      match HashParams.AccessToken(params)
      case Some(token) => Authorized(token)
      case None => Redirect(TokenRequestUrl(clientId, redirectUri))
  }

  /** The fragment the authorization server sends back, `#access_token=…&token_type=Bearer&…`,
      authorizes with the decoded token, and a fragment without one redirects. */
  lemma TokenFragmentAuthorizes(hash: string, decode: string -> Option<string>, clientId: Option<string>, redirectUri: string, k: nat)
    requires HashParams.AllDecode(HashParams.Items(hash), decode)
    requires k < |HashParams.Items(hash)| && HashParams.Items(hash)[k] != ""
    requires HashParams.Key(HashParams.Items(hash)[k]) == "access_token"
    requires !HashParams.KeyedFrom(HashParams.Items(hash), k + 1, "access_token")
    requires decode(HashParams.RawValue(HashParams.Items(hash)[k])) != Some("")
    ensures HandleAuth(hash, decode, clientId, redirectUri) == Authorized(decode(HashParams.RawValue(HashParams.Items(hash)[k])).value)
  {
    HashParams.LastOccurrenceWins(HashParams.Items(hash), decode, k);
  }

  lemma NoTokenRedirects(hash: string, decode: string -> Option<string>, clientId: Option<string>, redirectUri: string)
    requires HashParams.AllDecode(HashParams.Items(hash), decode)
    requires !HashParams.KeyedFrom(HashParams.Items(hash), 0, "access_token")
    ensures HandleAuth(hash, decode, clientId, redirectUri) == Redirect(TokenRequestUrl(clientId, redirectUri))
  {
    HashParams.KeysOfItems(HashParams.Items(hash), decode);
  }

  // ---------------------------------------------------------------- the two fetches

  /** A `fetch`: the status and what `response.json()` gives, or the rejection's message. */
  datatype Fetched = Answered(status: int, body: Result<Value, string>) | FetchFailed(message: string)

  /** `fetchCurrentlyPlaying`: only a 200 whose body has an `item` updates the view, with the
      item and `progress_ms`; any other status, 204 included, changes nothing. */
  function CurrentlyPlaying(f: Fetched): (r: Result<Option<(Value, Value)>, string>)
    ensures r.Ok? && r.value.Some? <==>
      f.Answered? && f.status == 200 && f.body.Ok? && Truthy(f.body.value) && Truthy(Get(f.body.value, "item"))
    ensures f.Answered? && f.status != 200 ==> r == Ok(None)
  {
    match f
    case FetchFailed(message) => Err(message)
    case Answered(status, body) =>
      if status != 200 then Ok(None)
      else match body
        case Err(message) => Err(message)
        case Ok(data) =>
          if Truthy(data) && Truthy(Get(data, "item")) then Ok(Some((Get(data, "item"), Get(data, "progress_ms"))))
          else Ok(None)
  }

  /** `fetchRecentlyPlayed`: only a 200 whose body has truthy `items` updates the view; a
      `null` body throws. */
  function RecentlyPlayed(f: Fetched): (r: Result<Option<Value>, string>)
    ensures r.Ok? && r.value.Some? <==>
      f.Answered? && f.status == 200 && f.body.Ok? && !Nullish(f.body.value) && Truthy(Get(f.body.value, "items"))
    ensures f.Answered? && f.status != 200 ==> r == Ok(None)
  {
    match f
    case FetchFailed(message) => Err(message)
    case Answered(status, body) =>
      if status != 200 then Ok(None)
      else match body
        case Err(message) => Err(message)
        case Ok(data) =>
          if Nullish(data) then Err(ReadError(data, "items"))
          else
            var items := Get(data, "items");
            if Truthy(items) then Ok(Some(items)) else Ok(None)
  }

  // ---------------------------------------------------------------- initializePlayer

  /** What `initializePlayer` did: how many fetches it made, what it handed to the two
      components, and whether it showed the error element. */
  datatype Init = Init(fetches: nat, nowPlaying: Option<Value>, recentlyPlayed: Option<Value>, errorShown: bool)

  /** The file imports neither component, so `new NowPlaying(…)` and `new RecentlyPlayed(…)`
      throw a ReferenceError the moment there is something to show. */
  function InitializeAsWritten(current: Fetched, recent: Fetched): (init: Init)
    ensures init.nowPlaying == None && init.recentlyPlayed == None
    ensures init.fetches == if CurrentlyPlaying(current) == Ok(None) then 2 else 1
    ensures !init.errorShown <==> CurrentlyPlaying(current) == Ok(None) && RecentlyPlayed(recent) == Ok(None)
  {
    match CurrentlyPlaying(current)
    case Err(_) => Init(1, None, None, true)
    case Ok(Some(_)) => Init(1, None, None, true)   // NowPlaying is not defined
    case Ok(None) =>
      match RecentlyPlayed(recent)
      case Err(_) => Init(2, None, None, true)
      case Ok(Some(_)) => Init(2, None, None, true) // RecentlyPlayed is not defined
      case Ok(None) => Init(2, None, None, false)
  }

  /** As written, a track that is playing is never shown: the error element appears and the
      recently played tracks are not even fetched. */
  lemma PlayingTrackNeverShown(item: Value, recent: Fetched)
    requires Truthy(item)
    ensures var init := InitializeAsWritten(Answered(200, Ok(Obj(map["item" := item]))), recent);
      init.errorShown && init.fetches == 1 && init.nowPlaying == None && init.recentlyPlayed == None
  {
  }

  /** `render` of components/NowPlaying.js: its error, if it throws. */
  function NowPlayingError(track: Value, hasContainer: bool): Option<string>
  {
    if !hasContainer then None
    else match Describe(track, "this.track")
      case Err(e) => Some(e)
      case Ok(_) => None
  }

  /** `render` of the class in components/RecentlyPlayed.js: its error, if it throws. */
  function RecentlyPlayedError(tracks: Value, hasContainer: bool): Option<string>
  {
    if !hasContainer then None
    else if !tracks.Arr? then Some(if Nullish(tracks) then ReadError(tracks, "forEach") else "this.tracks.forEach is not a function")
    else RecentlyPlayedList.CardsFrom(tracks.elements, 0, RecentlyPlayedList.CardOf).1
  }

  /** The currently-playing step throws: its fetch or body fails, or the card's render does. */
  predicate FirstStepThrows(current: Fetched, nowContainer: bool)
  {
    match CurrentlyPlaying(current)
    case Err(_) => true
    case Ok(None) => false
    case Ok(Some((item, _))) => NowPlayingError(item, nowContainer).Some?
  }

  /** With both components imported: currently playing first, recently played only if the
      first step did not throw, and the error element for anything thrown. */
  function Initialize(current: Fetched, recent: Fetched, nowContainer: bool, recentContainer: bool): (init: Init)
    ensures init.fetches == 1 <==> FirstStepThrows(current, nowContainer)
    ensures init.fetches == 1 ==> init.errorShown && init.recentlyPlayed == None
    ensures 1 <= init.fetches <= 2
  {
    match CurrentlyPlaying(current)
    case Err(_) => Init(1, None, None, true)
    case Ok(update) =>
      var shown := match update case Some((item, _)) => Some(item) case None => None;
      if shown.Some? && NowPlayingError(shown.value, nowContainer).Some? then Init(1, shown, None, true)
      else
        match RecentlyPlayed(recent)
        case Err(_) => Init(2, shown, None, true)
        case Ok(None) => Init(2, shown, None, false)
        case Ok(Some(items)) => Init(2, shown, Some(items), RecentlyPlayedError(items, recentContainer).Some?)
  }

  /** With the imports in place a well-formed playing track is shown and the recently played
      tracks are fetched and handed over next. */
  lemma PlayingTrackShown(item: Value, progress: Value, items: Value, nowContainer: bool, recentContainer: bool)
    requires Truthy(item) && Describe(item, "this.track").Ok? && Truthy(items)
    ensures var init := Initialize(Answered(200, Ok(Obj(map["item" := item, "progress_ms" := progress]))),
                                   Answered(200, Ok(Obj(map["items" := items]))), nowContainer, recentContainer);
      init.fetches == 2 && init.nowPlaying == Some(item) && init.recentlyPlayed == Some(items)
  {
  }

  /** A failed first fetch skips the second and shows the error. */
  lemma FirstFailureSkipsSecond(message: string, recent: Fetched, nowContainer: bool, recentContainer: bool)
    ensures Initialize(FetchFailed(message), recent, nowContainer, recentContainer) == Init(1, None, None, true)
  {
  }

  // ---------------------------------------------------------------- the class

  class Player {
    const clientId: Option<string>
    var accessToken: Option<string>
    var redirectedTo: Option<string>
    var initialized: Option<Init>

    /** `new SpotifyPlayer(clientId)`: no token yet. */
    constructor(clientId: Option<string>)
      ensures this.clientId == clientId && accessToken == None && redirectedTo == None && initialized == None
    {
      this.clientId := clientId;
      accessToken := None;
      redirectedTo := None;
      initialized := None;
    }

    /** `DOMContentLoaded`: `handleAuth`, and with a token `initializePlayer` as the file is
        written, given the two fetches' outcomes: a playing track or a recent list throws the
        ReferenceError, so nothing is ever handed to a component. */
    method Loaded(hash: string, decode: string -> Option<string>, redirectUri: string,
                  current: Fetched, recent: Fetched)
      modifies this`accessToken, this`redirectedTo, this`initialized
      ensures var auth := HandleAuth(hash, decode, clientId, redirectUri);
        (auth.Authorized? ==> accessToken == Some(auth.token) && initialized == Some(InitializeAsWritten(current, recent))) &&
        (auth.Redirect? ==> redirectedTo == Some(auth.url) && accessToken == old(accessToken) && initialized == old(initialized)) &&
        (auth.Aborted? ==> accessToken == old(accessToken) && redirectedTo == old(redirectedTo) && initialized == old(initialized))
    {
      match HandleAuth(hash, decode, clientId, redirectUri)
      case Aborted =>
      case Redirect(url) =>
        redirectedTo := Some(url);
      case Authorized(token) =>
        accessToken := Some(token);
        initialized := Some(InitializeAsWritten(current, recent));
    }
  }
}
