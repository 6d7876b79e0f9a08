/** frontend/App.js: the React carousel of recent tracks, as its state cells and the events
    that update them (the fetch starting and settling, the buttons, the active card's click,
    and the timers), plus the screen rendered from that state. */
module FrontendApp {
  import opened Base
  import opened Text
  import opened Js
  import opened Carousel

  // ---------------------------------------------------------------- index arithmetic

  /** `handlePrevious`: 0 wraps to the last card. In range it is the `%` step back the other
      carousels take, and stays in range. */
  function PrevIndex(i: int, n: int): (r: int)
    ensures 0 <= i < n ==> r == Step(i, -1, n) && 0 <= r < n
  {
    if i == 0 then n - 1 else i - 1
  }

  /** `handleNext`: the last card wraps to 0. In range it is the `%` step forward the other
      carousels take, and stays in range. */
  function NextIndex(i: int, n: int): (r: int)
    ensures 0 <= i < n ==> r == Step(i, 1, n) && 0 <= r < n
  {
    if i == n - 1 then 0 else i + 1
  }

  /** In range, the buttons move to the preceding and following card (the moves script.js and
      data_analysis.js compute with `%`), stay in range and undo each other. */
  lemma IndicesInverse(i: int, n: int)
    requires 0 <= i < n
    ensures PrevIndex(i, n) == Preceding(i, n) == Step(i, -1, n)
    ensures NextIndex(i, n) == Following(i, n) == Step(i, 1, n)
    ensures 0 <= PrevIndex(i, n) < n && 0 <= NextIndex(i, n) < n
    ensures PrevIndex(NextIndex(i, n), n) == i && NextIndex(PrevIndex(i, n), n) == i
  {
    StepInverse(i, n);
  }

  /** With a single track the index starts at 1, outside the list, and each next click moves it
      one further; the lone card stays active because every position modulo 1 is 0. */
  lemma SingleTrackIndexDrifts(i: nat)
    requires i >= 1
    ensures NextIndex(i, 1) == i + 1
    ensures Position(0, i + 1, 1) == 0
  {
  }

  // ---------------------------------------------------------------- render

  /** The class chain of the render: no `-1` test, unlike the other two carousels. */
  function CardClassAt(position: int, n: int): CardClass
  {
    if position == 0 then Active else if position == 1 then Next else if position == n - 1 then Previous else Hidden
  }

  /** On the positions that occur, the render's chain is the shared one. */
  lemma SameChain(position: int, n: int)
    requires 0 <= position < n
    ensures CardClassAt(position, n) == ClassAt(position, n)
  {
  }

  datatype Card = Card(cardClass: CardClass, src: string, autoplay: bool)

  /** What the component shows: the loading view, the error view with its message, the cards
      (`None` for an item without a track), or nothing, when the render throws. */
  datatype Screen = Loading | ErrorView(message: string) | Content(cards: seq<Option<Card>>) | Crashed(message: string)

  /** The embed URL of the render, autoplaying only the active card while playing. */
  function PlayerUrl(id: Value, autoplay: bool): string
  {
    "https://open.spotify.com/embed/track/" + ToText(id) + "?theme=0&backgroundColor=transparent&autoplay=" +
    (if autoplay then "1" else "0")
  }

  /** The `tracks.map` callback for item `k`. */
  function CardFor(item: Value, k: int, current: int, n: int, isPlaying: bool): Option<Card>
    requires n > 0 && !Nullish(item)
  {
    var track := Get(item, "track");
    var position := Position(k, current, n);
    if !Truthy(track) then None
    else
      var playing := position == 0 && isPlaying;
      Some(Card(CardClassAt(position, n), PlayerUrl(Get(track, "id"), playing), playing))
  }

  /** The first `null` or `undefined` item from `i` on, whose `.track` read throws. */
  function FirstNullish(items: seq<Value>, i: nat): (k: int)
    requires i <= |items|
    ensures k == -1 <==> forall j :: i <= j < |items| ==> !Nullish(items[j])
    ensures k != -1 ==> i <= k < |items| && Nullish(items[k])
    decreases |items| - i
  {
    if i == |items| then -1 else if Nullish(items[i]) then i else FirstNullish(items, i + 1)
  }

  /** The id of an item's track, on an item the render shows. */
  function TrackId(item: Value): Value
    requires !Nullish(item) && Truthy(Get(item, "track"))
  {
    Get(Get(item, "track"), "id")
  }

  /** A track id as the component holds it. An object or an array is a reference, and every
      object the parsed response holds is a distinct one, so the reference is named by the
      fetch that parsed it and the item it was read from; a primitive id is its value alone. */
  datatype HeldId = HeldId(value: Value, fetch: nat, item: int)

  /** `null`, the id no card has. */
  const NoId := HeldId(Null, 0, 0)

  /** `a === b`: primitives compare by value, objects and arrays by reference. */
  predicate StrictEquals(a: HeldId, b: HeldId)
  {
    if a.value.Arr? || a.value.Obj? then a == b else a.value == b.value
  }

  /** An id read again from the same item of the same response is `===` to itself, whatever
      it is; an object or array id read from another item or another response is not. */
  lemma StrictEqualsIsIdentity(a: HeldId, b: HeldId)
    ensures a.fetch == b.fetch && a.item == b.item && a.value == b.value ==> StrictEquals(a, b)
    ensures StrictEquals(a, b) ==> a.value == b.value
    ensures (a.value.Arr? || a.value.Obj?) && (a.fetch != b.fetch || a.item != b.item) ==> !StrictEquals(a, b)
    ensures !a.value.Arr? && !a.value.Obj? ==> (StrictEquals(a, b) <==> a.value == b.value)
  {
  }

  /** The render: loading takes precedence, then a truthy error, then the cards. */
  function Render(tracks: Value, loading: bool, error: Option<string>, current: int, isPlaying: bool): (s: Screen)
    ensures loading <==> s.Loading?
    ensures s.ErrorView? <==> !loading && error.Some? && error.value != ""
    ensures s.Content? ==>
      tracks.Arr? && |s.cards| == |tracks.elements| &&
      forall k :: 0 <= k < |s.cards| && s.cards[k].Some? ==>
        (s.cards[k].value.autoplay <==> s.cards[k].value.cardClass == Active && isPlaying)
    ensures s.Content? ==>
      forall k :: 0 <= k < |s.cards| ==>
        !Nullish(tracks.elements[k]) && (s.cards[k].Some? <==> Truthy(Get(tracks.elements[k], "track")))
  {
    if loading then Loading
    else if error.Some? && error.value != "" then ErrorView(error.value)
    else match tracks
      case Arr(items) =>
        var bad := FirstNullish(items, 0);
        if bad >= 0 then Crashed(ReadError(items[bad], "track"))
        else
          Content(seq(|items|, k requires 0 <= k < |items| => CardFor(items[k], k, current, |items|, isPlaying)))
      case _ => Crashed("tracks.map is not a function")
  }

  /** With the index in range and every item carrying a track, the cards take the shared
      classes, so exactly the current card is active and only it may autoplay. */
  lemma RenderedClasses(items: seq<Value>, current: int, isPlaying: bool)
    requires 0 <= current < |items|
    requires forall k :: 0 <= k < |items| ==> !Nullish(items[k]) && Truthy(Get(items[k], "track"))
    ensures Render(Arr(items), false, None, current, isPlaying).Content?
    ensures forall k :: 0 <= k < |items| ==>
      Render(Arr(items), false, None, current, isPlaying).cards[k].Some? &&
      Render(Arr(items), false, None, current, isPlaying).cards[k].value.cardClass == Classes(current, |items|)[k]
    ensures forall k :: 0 <= k < |items| ==>
      (Render(Arr(items), false, None, current, isPlaying).cards[k].value.cardClass == Active <==> k == current)
  {
    var cards := Render(Arr(items), false, None, current, isPlaying).cards;
    forall k | 0 <= k < |items|
      ensures cards[k].Some? && cards[k].value.cardClass == Classes(current, |items|)[k]
    {
      PositionInRange(k, current, |items|);
    }
    ExactlyOneActive(current, |items|);
  }

  // ---------------------------------------------------------------- fetchTracks

  /** `data.items.length > 0`, for a length that is a number or a boolean; any other JSON
      value is taken as not positive. */
  predicate PositiveLength(length: Value)
  {
    match length
    case Num(k) => k > 0
    case Bool(b) => b
    case _ => false
  }

  predicate HasItems(items: Value)
  {
    Truthy(items) && PositiveLength(Get(items, "length"))
  }

  /** How a fetch settles: the new tracks, or the message of the error it throws. */
  function Settled(ok: bool, status: int, body: Result<Value, string>): (r: Result<Value, string>)
    ensures r.Ok? <==> ok && body.Ok? && !Nullish(body.value) && HasItems(Get(body.value, "items"))
    ensures r.Ok? ==> r.value == Get(body.value, "items")
    ensures !ok ==> r == Err("Fetch failed: " + IntToString(status))
    ensures ok && body.Ok? && !Nullish(body.value) && !HasItems(Get(body.value, "items")) ==> r == Err("No tracks found")
  {
    if !ok then Err("Fetch failed: " + IntToString(status))
    else match body
      case Err(message) => Err(message)
      case Ok(data) =>
        if Nullish(data) then Err(ReadError(data, "items"))
        else
          var items := Get(data, "items");
          if HasItems(items) then Ok(items) else Err("No tracks found")
  }

  // ---------------------------------------------------------------- the component

  /** The state cells, the pending 600 ms unlock, the ids the 100 ms activation timers
      will set, in firing order, and the number of responses whose items were taken. */
  class App {
    var tracks: Value
    var loading: bool
    var error: Option<string>
    var current: int
    var isPlaying: bool
    var activeTrackId: HeldId
    var transitioning: bool
    var pendingUnlocks: nat
    var pendingActivations: seq<HeldId>
    var fetches: nat

    /** An unlock is pending exactly while transitioning; the content shows only once a fetch
        has delivered items; an index of two or more cards is in range. */
    ghost predicate Valid()
      reads this
    {
      current >= 0 &&
      pendingUnlocks == (if transitioning then 1 else 0) &&
      (loading || error.Some? || HasItems(tracks)) &&
      (tracks.Arr? && |tracks.elements| >= 2 ==> current < |tracks.elements|)
    }

    function Screen(): Screen
      reads this
    {
      Render(tracks, loading, error, current, isPlaying)
    }

    /** The carousel is on screen, so its buttons and its active card can be clicked. */
    predicate Navigable()
      reads this
    {
      Screen().Content? && |tracks.elements| >= 1
    }

    constructor()
      ensures Valid() && Screen() == Loading
      ensures tracks == Arr([]) && error == None && current == 1 && !isPlaying && activeTrackId.value == Null
      ensures !transitioning && pendingActivations == [] && fetches == 0
    {
      tracks := Arr([]);
      loading := true;
      error := None;
      current := 1;
      isPlaying := false;
      activeTrackId := NoId;
      transitioning := false;
      pendingUnlocks := 0;
      pendingActivations := [];
      fetches := 0;
    }

    /** `fetchTracks` starts: on mount, every five minutes, or from the Retry button. */
    method FetchStarted()
      requires Valid()
      modifies this`loading
      ensures Valid() && loading
    {
      loading := true;
    }

    /** `fetchTracks` settles. New items replace the tracks and reset the index to 1; a failure
        sets the error, and nothing ever clears it. */
    method FetchSettled(ok: bool, status: int, body: Result<Value, string>)
      requires Valid()
      modifies this`tracks, this`current, this`error, this`loading, this`fetches
      ensures Valid() && !loading
      ensures Settled(ok, status, body).Ok? ==>
        tracks == Settled(ok, status, body).value && current == 1 && error == old(error) && fetches == old(fetches) + 1
      ensures Settled(ok, status, body).Err? ==>
        tracks == old(tracks) && current == old(current) && error == Some(Settled(ok, status, body).error) &&
        fetches == old(fetches)
    {
      var outcome := Settled(ok, status, body);
      if outcome.Ok? {
        tracks := outcome.value;
        current := 1;
        fetches := fetches + 1;
      } else {
        error := Some(outcome.error);
      }
      loading := false;
    }

    /** `handlePrevious`. */
    method Previous()
      requires Valid() && Navigable()
      modifies this
      ensures Valid() && unchanged(this`tracks, this`loading, this`error)
      ensures unchanged(this`fetches) && pendingActivations == old(pendingActivations)
      ensures old(transitioning) ==>
        transitioning && pendingUnlocks == old(pendingUnlocks) &&
        current == old(current) && isPlaying == old(isPlaying) && activeTrackId == old(activeTrackId)
      ensures !old(transitioning) ==>
        transitioning && pendingUnlocks == 1 &&
        current == PrevIndex(old(current), |tracks.elements|) && !isPlaying && activeTrackId.value == Null
    {
      if transitioning {
        return;
      }
      transitioning := true;
      pendingUnlocks := 1;
      current := PrevIndex(current, |tracks.elements|);
      isPlaying := false;
      activeTrackId := NoId;
    }

    /** `handleNext`. */
    method Next()
      requires Valid() && Navigable()
      modifies this
      ensures Valid() && unchanged(this`tracks, this`loading, this`error)
      ensures unchanged(this`fetches) && pendingActivations == old(pendingActivations)
      ensures old(transitioning) ==>
        transitioning && pendingUnlocks == old(pendingUnlocks) &&
        current == old(current) && isPlaying == old(isPlaying) && activeTrackId == old(activeTrackId)
      ensures !old(transitioning) ==>
        transitioning && pendingUnlocks == 1 &&
        current == NextIndex(old(current), |tracks.elements|) && !isPlaying && activeTrackId.value == Null
    {
      if transitioning {
        return;
      }
      transitioning := true;
      pendingUnlocks := 1;
      current := NextIndex(current, |tracks.elements|);
      isPlaying := false;
      activeTrackId := NoId;
    }

    /** The id card `k` of the current tracks hands to `handleTrackClick`. */
    function CardId(k: int): (id: HeldId)
      requires tracks.Arr? && 0 <= k < |tracks.elements|
      requires !Nullish(tracks.elements[k]) && Truthy(Get(tracks.elements[k], "track"))
      reads this
      ensures id.value == Get(Get(tracks.elements[k], "track"), "id")
      ensures id.fetch == fetches && id.item == k
    {
      HeldId(TrackId(tracks.elements[k]), fetches, k)
    }

    /** A click on card `k`, which the render shows: only the active card reacts, through
        `handleTrackClick`. Its own track toggles playback; another track pauses and is
        activated and played by a timer. */
    method CardClicked(k: int)
      requires Valid() && Navigable() && 0 <= k < |tracks.elements| && Screen().cards[k].Some?
      modifies this`isPlaying, this`transitioning, this`pendingUnlocks, this`pendingActivations
      ensures Valid()
      ensures old(transitioning) || Position(k, current, |tracks.elements|) != 0 ==>
        isPlaying == old(isPlaying) && pendingActivations == old(pendingActivations) && transitioning == old(transitioning)
      ensures !old(transitioning) && Position(k, current, |tracks.elements|) == 0 && StrictEquals(CardId(k), activeTrackId) ==>
        transitioning && isPlaying == !old(isPlaying) && pendingActivations == old(pendingActivations)
      ensures !old(transitioning) && Position(k, current, |tracks.elements|) == 0 && !StrictEquals(CardId(k), activeTrackId) ==>
        transitioning && !isPlaying && pendingActivations == old(pendingActivations) + [CardId(k)]
    {
      if transitioning || Position(k, current, |tracks.elements|) != 0 {
        return;
      }
      var id := CardId(k);
      transitioning := true;
      pendingUnlocks := 1;
      if StrictEquals(id, activeTrackId) {
        isPlaying := !isPlaying;
      } else {
        isPlaying := false;
        pendingActivations := pendingActivations + [id];
      }
    }

    /** The 600 ms timer of a move or a click. */
    method UnlockFired()
      requires Valid() && pendingUnlocks > 0
      modifies this`transitioning, this`pendingUnlocks
      ensures Valid() && !transitioning
    {
      transitioning := false;
      pendingUnlocks := 0;
    }

    /** The oldest 100 ms timer: its track becomes the active one and plays. */
    method ActivationFired()
      requires Valid() && |pendingActivations| > 0
      modifies this`activeTrackId, this`isPlaying, this`pendingActivations
      ensures Valid()
      ensures activeTrackId == old(pendingActivations[0]) && isPlaying
      ensures pendingActivations == old(pendingActivations[1..])
    {
      activeTrackId := pendingActivations[0];
      isPlaying := true;
      pendingActivations := pendingActivations[1..];
    }
  }
}
