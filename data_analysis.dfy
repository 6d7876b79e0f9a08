/** data_analysis.js: the recent-tracks loader and its autoplaying carousel, and the start-up
    decision between the authorization redirect and the player. `formatDuration` is
    `Duration.Format`; the fragment parser is `HashParams`. */
module DataAnalysis {
  import opened Base
  import opened Text
  import opened Js
  import opened Carousel
  import opened Upstream
  import HashParams

  // ---------------------------------------------------------------- loadRecentTracks

  /** What the loader leaves in the embeds container: the error paragraph, or one card per
      track, given by its iframe source. */
  datatype Loaded = LoadFailed | Cards(sources: seq<string>)

  const LoadErrorHtml := "<p class=\"error-message\">Error loading recent tracks. Please try again later.</p>"

  /** A track the `forEach` can read `track.id` of. */
  predicate Readable(track: Value)
  {
    !Nullish(track)
  }

  function SourceOf(track: Value): string
    requires Readable(track)
  {
    EmbedUrl(ToText(Get(track, "id")))
  }

  /** The `forEach` from card `i` on: it stops at the first track it cannot read, and the
      catch then discards the cards built so far. */
  function BuildFrom(tracks: seq<Value>, i: nat): (r: Option<seq<string>>)
    requires i <= |tracks|
    ensures r.Some? <==> forall k :: i <= k < |tracks| ==> Readable(tracks[k])
    ensures r.Some? ==>
      |r.value| == |tracks| - i &&
      forall k :: i <= k < |tracks| ==> r.value[k - i] == SourceOf(tracks[k])
    decreases |tracks| - i
  {
    if i == |tracks| then Some([])
    else if !Readable(tracks[i]) then None
    else match BuildFrom(tracks, i + 1)
      case None => None
      case Some(rest) => Some([SourceOf(tracks[i])] + rest)
  }

  /** `loadRecentTracks`: `ok` is `response.ok` and `body` the parsed JSON, `None` when
      parsing throws. It builds cards exactly when the response is OK, parses to an array
      and every track in it is readable, and then one card per track, in order, embedding its
      id. */
  function Load(ok: bool, body: Option<Value>): (r: Loaded)
    ensures r.Cards? <==>
      ok && body.Some? && body.value.Arr? &&
      forall k :: 0 <= k < |body.value.elements| ==> Readable(body.value.elements[k])
    ensures r.Cards? ==>
      |r.sources| == |body.value.elements| &&
      forall k :: 0 <= k < |body.value.elements| ==>
        r.sources[k] == EmbedUrl(ToText(Get(body.value.elements[k], "id")))
  {
    if !ok || body.None? || !body.value.Arr? then LoadFailed
    else match BuildFrom(body.value.elements, 0)
      case None => LoadFailed
      case Some(sources) => Cards(sources)
  }

  /** A single `null` entry anywhere in the array loses every card. */
  lemma OneNullTrackFailsAll(tracks: seq<Value>, k: nat)
    requires k < |tracks| && tracks[k] == Null
    ensures Load(true, Some(Arr(tracks))) == LoadFailed
  {
    assert !Readable(tracks[k]);
  }

  /** An object body, such as an error object the server answered with, fails at `forEach`. */
  lemma ObjectBodyFails(properties: map<string, Value>)
    ensures Load(true, Some(Obj(properties))) == LoadFailed
  {
  }

  // ---------------------------------------------------------------- the carousel

  const AutoplaySuffix := "&autoplay=1"

  /** The iframe sources after `updateCards`: the active card's source gains `&autoplay=1`,
      every other source is kept. */
  function Autoplayed(sources: seq<string>, current: int): (r: seq<string>)
    ensures |r| == |sources|
  {
    seq(|sources|, i requires 0 <= i < |sources| =>
      if Position(i, current, |sources|) == 0 then sources[i] + AutoplaySuffix else sources[i])
  }

  /** Each update appends to the active card's source again, so the sources grow with every
      call and `updateCards` is not idempotent. */
  lemma AutoplayAccumulates(sources: seq<string>, current: int)
    requires 0 <= current < |sources|
    ensures Autoplayed(sources, current)[current] == sources[current] + AutoplaySuffix
    ensures forall i :: 0 <= i < |sources| && i != current ==> Autoplayed(sources, current)[i] == sources[i]
    ensures Autoplayed(Autoplayed(sources, current), current) != Autoplayed(sources, current)
  {
    var once := Autoplayed(sources, current);
    forall i | 0 <= i < |sources|
      ensures once[i] == if i == current then sources[i] + AutoplaySuffix else sources[i]
    {
      PositionInRange(i, current, |sources|);
    }
    PositionInRange(current, current, |sources|);
    assert |Autoplayed(once, current)[current]| == |once[current]| + |AutoplaySuffix|;
  }

  /** The previous button: `(currentIndex - 1 + totalCards) % totalCards`. */
  function Back(current: int, n: int): int
    requires n > 0
  {
    Remainder(current - 1 + n, n)
  }

  /** The next button: `(currentIndex + 1) % totalCards`. */
  function Forward(current: int, n: int): int
    requires n > 0
  {
    Remainder(current + 1, n)
  }

  /** From any non-negative index, including the initial 1 of a one-card carousel, both
      buttons land in `[0, n)`; in range, they move to the preceding and following card and
      undo each other. */
  lemma ButtonsStayInRange(current: int, n: int)
    requires n > 0 && current >= 0
    ensures 0 <= Back(current, n) < n && 0 <= Forward(current, n) < n
    ensures current < n ==> Back(current, n) == Preceding(current, n) && Forward(current, n) == Following(current, n)
    ensures current < n ==> Back(Forward(current, n), n) == current && Forward(Back(current, n), n) == current
  {
    if current < n {
      StepInverse(current, n);
      ModSmall(current + 1, n);
      var f := Following(current, n);
      var p := Preceding(current, n);
      ModSmall(p + 1, n);
      ModSmall(f - 1 + n, n);
    }
  }

  /** The carousel `loadRecentTracks` wires up: the card classes and iframe sources, the
      closure's `currentIndex`, and the container's `transitioning` class with the 600 ms
      timers that remove it. */
  class Player {
    const n: nat
    var current: int
    const classes: array<CardClass>
    const sources: array<string>
    var transitioning: bool
    var pendingRemovals: nat

    ghost predicate Valid()
      reads this
    {
      classes.Length == n && sources.Length == n && current >= 0
    }

    /** The cards as the loader creates them, with `currentIndex` at 1. */
    constructor(cards: seq<string>)
      ensures Valid() && n == |cards| && current == 1
      ensures classes[..] == InitialClasses(n) && sources[..] == cards
      ensures !transitioning && pendingRemovals == 0
      ensures fresh(classes) && fresh(sources)
    {
      n := |cards|;
      current := 1;
      classes := new CardClass[|cards|](i => InitialClass(i));
      sources := new string[|cards|](i requires 0 <= i < |cards| => cards[i]);
      transitioning := false;
      pendingRemovals := 0;
    }

    /** `updateCards`: every card's class from its position, `&autoplay=1` on the active
      card's source, and the container marked as transitioning until a timer fires. */
    method UpdateCards()
      requires Valid()
      modifies classes, sources, this`transitioning, this`pendingRemovals
      ensures Valid()
      ensures n > 0 ==> classes[..] == Classes(current, n)
      ensures sources[..] == Autoplayed(old(sources[..]), current)
      ensures transitioning && pendingRemovals == old(pendingRemovals) + 1
    {
      ghost var before := sources[..];
      var i := 0;
      while i < n
        modifies classes, sources
        invariant 0 <= i <= n
        invariant forall k :: 0 <= k < i ==> classes[k] == ClassAt(Position(k, current, n), n)
        invariant forall k :: 0 <= k < i ==> sources[k] == Autoplayed(before, current)[k]
        invariant forall k :: i <= k < n ==> sources[k] == before[k]
      {
        var position := Position(i, current, n);
        if position == 0 {
          classes[i] := Active;
          sources[i] := sources[i] + AutoplaySuffix;
        } else if position == 1 {
          classes[i] := Next;
        } else if position == -1 || position == n - 1 {
          classes[i] := Previous;
        } else {
          classes[i] := Hidden;
        }
        i := i + 1;
      }
      transitioning := true;
      pendingRemovals := pendingRemovals + 1;
    }

    /** The previous button. With no cards the index becomes NaN, which nothing reads: the
      model keeps it. */
    method PreviousClicked()
      requires Valid()
      modifies this, classes, sources
      ensures Valid()
      ensures current == if n == 0 then old(current) else Back(old(current), n)
      ensures n > 0 ==> classes[..] == Classes(current, n) && 0 <= current < n
      ensures sources[..] == Autoplayed(old(sources[..]), current)
      ensures transitioning && pendingRemovals == old(pendingRemovals) + 1
    {
      if n > 0 {
        ButtonsStayInRange(current, n);
        current := Back(current, n);
      }
      UpdateCards();
    }

    method NextClicked()
      requires Valid()
      modifies this, classes, sources
      ensures Valid()
      ensures current == if n == 0 then old(current) else Forward(old(current), n)
      ensures n > 0 ==> classes[..] == Classes(current, n) && 0 <= current < n
      ensures sources[..] == Autoplayed(old(sources[..]), current)
      ensures transitioning && pendingRemovals == old(pendingRemovals) + 1
    {
      if n > 0 {
        ButtonsStayInRange(current, n);
        current := Forward(current, n);
      }
      UpdateCards();
    }

    /** A 600 ms timer fires: the class goes, even when a later update is still pending. */
    method TransitionTimerFired()
      requires pendingRemovals > 0
      modifies this`transitioning, this`pendingRemovals
      ensures !transitioning && pendingRemovals == old(pendingRemovals) - 1
    {
      transitioning := false;
      pendingRemovals := pendingRemovals - 1;
    }
  }

  // ---------------------------------------------------------------- start-up

  /** What the second `DOMContentLoaded` handler does: nothing when decoding the fragment
      throws, the authorization redirect without a token, the player with one. */
  datatype Start = Aborted | Redirect(url: string) | Initialize(token: string)

  /** The parameters the authorization-code request means to send, in order. */
  function CodeRequestParameters(clientId: Option<string>, redirectUri: string): seq<string>
  {
    ["client_id=" + ClientIdText(clientId), "response_type=code", "redirect_uri=" + redirectUri,
     "scope=" + Join(AuthorizationScopes, "%20")]
  }

  /** The authorization-code request, with the client id and redirect URI left unescaped: its
      query is the four parameters joined by `&`, and it splits back into them exactly when
      neither the client id nor the redirect URI holds an `&`. */
  function CodeRequestUrl(clientId: Option<string>, redirectUri: string): (url: string)
    ensures url == AuthorizeEndpoint + "?" + Join(CodeRequestParameters(clientId, redirectUri), "&")
    ensures Split(url[|AuthorizeEndpoint| + 1..], '&') == CodeRequestParameters(clientId, redirectUri)
            <==> '&' !in ClientIdText(clientId) && '&' !in redirectUri
  {
    var url := AuthorizeEndpoint + "?" + "client_id=" + ClientIdText(clientId) + "&" + "response_type=code" +
      "&" + "redirect_uri=" + redirectUri + "&" + "scope=" + Join(AuthorizationScopes, "%20");
    CodeRequestJoined(clientId, redirectUri);
    assert url[|AuthorizeEndpoint| + 1..] == Join(CodeRequestParameters(clientId, redirectUri), "&");
    SplitJoinExactly(CodeRequestParameters(clientId, redirectUri), '&');
    CodeRequestParametersSeparate(clientId, redirectUri);
    url
  }

  /** The template literal is the four parameters joined by `&`. */
  lemma CodeRequestJoined(clientId: Option<string>, redirectUri: string)
    ensures AuthorizeEndpoint + "?" + "client_id=" + ClientIdText(clientId) + "&" + "response_type=code" +
      "&" + "redirect_uri=" + redirectUri + "&" + "scope=" + Join(AuthorizationScopes, "%20")
      == AuthorizeEndpoint + "?" + Join(CodeRequestParameters(clientId, redirectUri), "&")
  {
    FourParametersJoined(AuthorizeEndpoint + "?", "client_id=", ClientIdText(clientId), "response_type=code",
                         "redirect_uri=", redirectUri, "scope=", Join(AuthorizationScopes, "%20"), "&");
  }

  /** Appending the parameters one piece at a time builds their join. */
  lemma FourParametersJoined(prefix: string, k0: string, v0: string, p1: string, k2: string, v2: string,
                             k3: string, v3: string, sep: string)
    ensures prefix + k0 + v0 + sep + p1 + sep + k2 + v2 + sep + k3 + v3
            == prefix + Join([k0 + v0, p1, k2 + v2, k3 + v3], sep)
  {
    JoinFour(k0 + v0, p1, k2 + v2, k3 + v3, sep);
  }

  /** No parameter holds an `&` exactly when neither the client id nor the redirect URI does. */
  lemma CodeRequestParametersSeparate(clientId: Option<string>, redirectUri: string)
    ensures (forall k :: 0 <= k < |CodeRequestParameters(clientId, redirectUri)| ==> '&' !in CodeRequestParameters(clientId, redirectUri)[k])
            <==> '&' !in ClientIdText(clientId) && '&' !in redirectUri
  {
    var parameters := CodeRequestParameters(clientId, redirectUri);
    ScopesStayOneParameter();
    assert '&' !in "client_id=" && '&' !in "response_type=code" && '&' !in "redirect_uri=" && '&' !in "scope=";
    assert '&' in parameters[0] <==> '&' in ClientIdText(clientId);
    assert '&' in parameters[2] <==> '&' in redirectUri;
    assert '&' !in parameters[1] && '&' !in parameters[3];
  }

  /** The handler stops exactly when some fragment item fails to decode; it starts the player
      only with a non-empty token, and otherwise redirects to the authorization-code request. */
  function Begin(hash: string, decode: string -> Option<string>, clientId: Option<string>, redirectUri: string): (start: Start)
    ensures start.Aborted? <==> !HashParams.AllDecode(HashParams.Items(hash), decode)
    ensures start.Initialize? ==> start.token != ""
    ensures start.Redirect? ==> start.url == CodeRequestUrl(clientId, redirectUri)
  {
    match HashParams.Parse(hash, decode)
    case None => Aborted
    case Some(params) =>
      match HashParams.AccessToken(params)
      case Some(token) => Initialize(token)
      case None => Redirect(CodeRequestUrl(clientId, redirectUri))
  }

  /** A fragment whose items all decode and whose last `access_token` item decodes to a
      non-empty token starts the player with that token. */
  lemma TokenStartsPlayer(hash: string, decode: string -> Option<string>, clientId: Option<string>, redirectUri: string, k: nat)
    requires HashParams.AllDecode(HashParams.Items(hash), decode)
    requires k < |HashParams.Items(hash)| && HashParams.Items(hash)[k] != ""
    requires HashParams.Key(HashParams.Items(hash)[k]) == "access_token"
    requires !HashParams.KeyedFrom(HashParams.Items(hash), k + 1, "access_token")
    requires decode(HashParams.RawValue(HashParams.Items(hash)[k])) != Some("")
    ensures Begin(hash, decode, clientId, redirectUri) == Initialize(decode(HashParams.RawValue(HashParams.Items(hash)[k])).value)
  {
    HashParams.LastOccurrenceWins(HashParams.Items(hash), decode, k);
  }

  /** A fragment with no `access_token` item, such as an empty one, redirects to the
      authorization-code request. */
  lemma NoTokenRedirects(hash: string, decode: string -> Option<string>, clientId: Option<string>, redirectUri: string)
    requires HashParams.AllDecode(HashParams.Items(hash), decode)
    requires !HashParams.KeyedFrom(HashParams.Items(hash), 0, "access_token")
    ensures Begin(hash, decode, clientId, redirectUri) == Redirect(CodeRequestUrl(clientId, redirectUri))
  {
    HashParams.KeysOfItems(HashParams.Items(hash), decode);
  }

  /** A malformed escape in any item stops the handler before it decides anything. */
  lemma MalformedFragmentAborts(hash: string, decode: string -> Option<string>, clientId: Option<string>, redirectUri: string, k: nat)
    requires k < |HashParams.Items(hash)| && HashParams.Items(hash)[k] != ""
    requires decode(HashParams.RawValue(HashParams.Items(hash)[k])).None?
    ensures Begin(hash, decode, clientId, redirectUri) == Aborted
  {
    HashParams.DecodeFailurePropagates(HashParams.Items(hash), decode, k);
  }
}
