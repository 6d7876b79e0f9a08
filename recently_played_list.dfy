/** The class in components/RecentlyPlayed.js: the list of recently played track cards, each
    with a play button that announces its own track. The module also declares a function
    component under the same name, so as written it cannot load; that half is not modelled. */
module RecentlyPlayedList {
  import opened Base
  import opened Js
  import opened TrackText

  /** A card in the container: its text and the track its play button carries. */
  datatype Card = Card(text: TrackText, track: Value)

  /** The card of one item, or the TypeError its template throws: a card exists exactly when
      the item is an object whose `track` describes, and its play button carries that track. */
  function CardOf(item: Value): (card: Result<Card, string>)
    ensures card.Ok? <==> !Nullish(item) && Describe(Get(item, "track"), "track").Ok?
    ensures card.Ok? ==>
      card.value.track == Get(item, "track") && card.value.text == Describe(Get(item, "track"), "track").value
  {
    if Nullish(item) then Err(ReadError(item, "track"))
    else
      var track := Get(item, "track");
      match Describe(track, "track")
      case Err(e) => Err(e)
      case Ok(text) => Ok(Card(text, track))
  }

  /** The `forEach` over the items from `i` on, with `template` building each item's card
      (`CardOf` in `render`): the cards of the items before the first malformed one, and that
      item's error, which escapes `render`. */
  function CardsFrom(items: seq<Value>, i: nat, template: Value -> Result<Card, string>): (r: (seq<Card>, Option<string>))
    requires i <= |items|
    ensures |r.0| <= |items| - i
    ensures r.1.None? <==> forall k :: i <= k < |items| ==> template(items[k]).Ok?
    ensures forall k :: 0 <= k < |r.0| ==> template(items[i + k]) == Ok(r.0[k])
    ensures r.1.Some? ==> i + |r.0| < |items|
    ensures r.1.Some? ==> template(items[i + |r.0|]).Err? && r.1.value == template(items[i + |r.0|]).error
    ensures r.1.None? ==> |r.0| == |items| - i
    decreases |items| - i
  {
    if i == |items| then ([], None)
    else match template(items[i])
      case Err(e) => ([], Some(e))
      case Ok(card) =>
        var rest := CardsFrom(items, i + 1, template);
        ([card] + rest.0, rest.1)
  }

  class RecentlyPlayed {
    const tracks: Value
    const hasContainer: bool
    var cards: seq<Card>
    /** The `trackSelected` events dispatched, by their `detail.track`. */
    var selected: seq<Value>

    /** `new RecentlyPlayed(tracks)`: `hasContainer` says whether `.recently-played` was found;
        `cards` is what the container already holds. */
    constructor(tracks: Value, hasContainer: bool, cards: seq<Card>)
      ensures this.tracks == tracks && this.hasContainer == hasContainer && this.cards == cards && selected == []
    {
      this.tracks := tracks;
      this.hasContainer := hasContainer;
      this.cards := cards;
      selected := [];
    }

    /** `render`: without a container nothing happens; otherwise the container is emptied and
        each item's card appended in order, until an item's template throws. */
    method Render() returns (thrown: Option<string>)
      modifies this`cards
      ensures !hasContainer ==> thrown == None && cards == old(cards)
      ensures hasContainer && tracks.Arr? ==> (cards, thrown) == CardsFrom(tracks.elements, 0, CardOf)
      ensures hasContainer && !tracks.Arr? ==>
        cards == [] && thrown == Some(if Nullish(tracks) then ReadError(tracks, "forEach") else "this.tracks.forEach is not a function")
    {
      if !hasContainer {
        return None;
      }
      cards := [];
      if !tracks.Arr? {
        return Some(if Nullish(tracks) then ReadError(tracks, "forEach") else "this.tracks.forEach is not a function");
      }
      var items := tracks.elements;
      var i := 0;
      assert cards + CardsFrom(items, 0, CardOf).0 == CardsFrom(items, 0, CardOf).0;
      while i < |items|
        invariant 0 <= i <= |items|
        invariant CardsFrom(items, 0, CardOf) == (cards + CardsFrom(items, i, CardOf).0, CardsFrom(items, i, CardOf).1)
      {
        match CardOf(items[i])
        case Err(e) =>
          assert cards + CardsFrom(items, i, CardOf).0 == cards;
          return Some(e);
        case Ok(card) =>
          assert cards + CardsFrom(items, i, CardOf).0 == (cards + [card]) + CardsFrom(items, i + 1, CardOf).0;
          cards := cards + [card];
          i := i + 1;
      }
      assert cards + CardsFrom(items, i, CardOf).0 == cards;
      return None;
    }

    /** A click on the play button of card `k` announces that card's own track. */
    method PlayClicked(k: nat)
      requires k < |cards|
      modifies this`selected
      ensures selected == old(selected) + [cards[k].track]
    {
      selected := selected + [cards[k].track];
    }
  }

  /** After a render without error, card `k` shows item `k`'s track and its play button
      carries that same track: one card per item, in input order. */
  lemma CardsFollowItems(items: seq<Value>, k: nat)
    requires CardsFrom(items, 0, CardOf).1.None? && k < |items|
    ensures |CardsFrom(items, 0, CardOf).0| == |items|
    ensures !Nullish(items[k])
    ensures CardsFrom(items, 0, CardOf).0[k].track == Get(items[k], "track")
    ensures CardsFrom(items, 0, CardOf).0[k].text == Describe(Get(items[k], "track"), "track").value
  {
    assert CardOf(items[0 + k]) == Ok(CardsFrom(items, 0, CardOf).0[k]);
  }
}
