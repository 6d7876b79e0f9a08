/** script.js: the theme toggle, the one-shot Spotify error banner, the navigation highlight,
    and the recent-tracks loader with its carousel. */
module SiteScript {
  import opened Base
  import opened Text
  import opened Js
  import opened Carousel

  // ---------------------------------------------------------------- theme

  datatype Icon = Sun | Moon

  /** `savedTheme || (prefersDark ? 'dark' : 'light')`: an absent or empty stored theme falls
      back to the colour-scheme preference. */
  function InitialTheme(saved: Option<string>, prefersDark: bool): (theme: string)
    ensures saved.Some? && saved.value != "" ==> theme == saved.value
    ensures (saved.None? || saved.value == "") ==> theme == (if prefersDark then "dark" else "light")
  {
    match saved
    case Some(t) => if t != "" then t else if prefersDark then "dark" else "light"
    case None => if prefersDark then "dark" else "light"
  }

  /** The toggle: 'dark' becomes 'light', anything else, including no attribute, 'dark'. */
  function Toggled(current: Option<string>): (theme: string)
    ensures theme == "light" <==> current == Some("dark")
    ensures theme == "light" || theme == "dark"
  {
    if current == Some("dark") then "light" else "dark"
  }

  /** Toggling twice from either theme returns to it. */
  lemma ToggleTwice(theme: string)
    requires theme == "dark" || theme == "light"
    ensures Toggled(Some(Toggled(Some(theme)))) == theme
  {
  }

  /** The `data-theme` attribute, the stored theme and the toggle's icon. */
  class Theme {
    var attribute: Option<string>
    var stored: Option<string>
    var icon: Icon

    /** The page as loaded, before the `DOMContentLoaded` handler runs. */
    constructor(attribute: Option<string>, stored: Option<string>, icon: Icon)
      ensures this.attribute == attribute && this.stored == stored && this.icon == icon
    {
      this.attribute := attribute;
      this.stored := stored;
      this.icon := icon;
    }

    /** The attribute and the storage agree and the icon shows the opposite theme. */
    ghost predicate Synced()
      reads this
    {
      attribute.Some? && stored == attribute && icon == (if attribute.value == "dark" then Sun else Moon)
    }

    /** `applyTheme`: the same theme goes to the attribute and to storage. */
    method Apply(theme: string)
      modifies this
      ensures attribute == Some(theme) && stored == Some(theme)
      ensures Synced()
    {
      attribute := Some(theme);
      stored := Some(theme);
      icon := if theme == "dark" then Sun else Moon;
    }

    /** Page load: the stored theme or the preference is applied. */
    method Start(prefersDark: bool)
      modifies this
      ensures attribute == Some(InitialTheme(old(stored), prefersDark))
      ensures Synced()
    {
      Apply(InitialTheme(stored, prefersDark));
    }

    /** A click on the toggle. */
    method Toggle()
      modifies this
      ensures attribute == Some(Toggled(old(attribute)))
      ensures Synced()
    {
      Apply(Toggled(attribute));
    }
  }

  // ---------------------------------------------------------------- handleSpotifyErrors

  /** The part of the page `handleSpotifyErrors` reads: the `.recent-tracks` container's text,
      if there is one, and whether a `.recent-tracks-error` element exists. */
  datatype Page = Page(container: Option<string>, errorShown: bool)

  const FetchFailure := "Failed to fetch tracks"

  /** One run of `handleSpotifyErrors`: a container whose text mentions the fetch failure,
      with no error element yet, is replaced by the trimmed text without its first " Retry",
      followed by the new Retry button's label. */
  function HandleErrors(page: Page): (r: Page)
    ensures r.errorShown <==> page.errorShown || (page.container.Some? && Contains(page.container.value, FetchFailure))
    ensures r.container.Some? <==> page.container.Some?
    ensures r.container.Some? && r.container != page.container ==>
      !page.errorShown && EndsWith(r.container.value, "Retry")
  {
    match page.container
    case None => page
    case Some(text) =>
      if !page.errorShown && Contains(text, FetchFailure) then
        Page(Some(ReplaceFirst(Trim(text), " Retry", "") + "Retry"), true)
      else page
  }

  /** A failure text without " Retry" is kept whole, trimmed, and the button label follows it. */
  lemma BannerKeepsText(text: string)
    requires Contains(text, FetchFailure) && !Contains(Trim(text), " Retry")
    ensures HandleErrors(Page(Some(text), false)) == Page(Some(Trim(text) + "Retry"), true)
  {
  }

  /** The second timer finds the banner the first one made and changes nothing. */
  lemma HandleErrorsOnce(page: Page)
    ensures HandleErrors(HandleErrors(page)) == HandleErrors(page)
  {
  }

  // ---------------------------------------------------------------- updateActiveLink

  /** A section's `offsetTop`, `offsetHeight` and `id` attribute. */
  datatype Section = Section(top: int, height: int, id: Option<string>)

  /** `scrollY >= sectionTop - sectionHeight / 3`, multiplied out by 3. */
  predicate Reached(section: Section, scrollY: int)
  {
    3 * scrollY >= 3 * section.top - section.height
  }

  /** The id of the last reached section in document order, or none. */
  function LastReached(sections: seq<Section>, scrollY: int): Option<string>
  {
    if |sections| == 0 then None
    else if Reached(sections[|sections| - 1], scrollY) then sections[|sections| - 1].id
    else LastReached(sections[..|sections| - 1], scrollY)
  }

  /** Section `k` is reached and no later section is. */
  predicate LastToReach(sections: seq<Section>, k: int, scrollY: int)
  {
    0 <= k < |sections| && Reached(sections[k], scrollY) &&
    forall j :: k < j < |sections| ==> !Reached(sections[j], scrollY)
  }

  /** With no section reached there is no current section. */
  lemma {:induction false} NoneReached(sections: seq<Section>, scrollY: int)
    requires forall k :: 0 <= k < |sections| ==> !Reached(sections[k], scrollY)
    ensures LastReached(sections, scrollY) == None
  {
    if |sections| > 0 {
      var front := sections[..|sections| - 1];
      assert forall k :: 0 <= k < |front| ==> front[k] == sections[k];
      NoneReached(front, scrollY);
    }
  }

  /** Otherwise the current section is the id of the last reached one, even when that section
      has no id and an earlier one does. */
  lemma {:induction false} LastReachedIsLast(sections: seq<Section>, scrollY: int, k: int)
    requires LastToReach(sections, k, scrollY)
    ensures LastReached(sections, scrollY) == sections[k].id
  {
    if k < |sections| - 1 {
      var front := sections[..|sections| - 1];
      assert !Reached(sections[|sections| - 1], scrollY);
      assert forall j :: 0 <= j < |front| ==> front[j] == sections[j];
      assert LastToReach(front, k, scrollY);
      LastReachedIsLast(front, scrollY, k);
    }
  }

  /** Both cases together: no current section when none is reached, and the id of the last
      reached one otherwise. */
  lemma LastReachedExactly(sections: seq<Section>, scrollY: int)
    ensures (forall k :: 0 <= k < |sections| ==> !Reached(sections[k], scrollY)) ==> LastReached(sections, scrollY) == None
    ensures forall k :: LastToReach(sections, k, scrollY) ==> LastReached(sections, scrollY) == sections[k].id
  {
    if forall k :: 0 <= k < |sections| ==> !Reached(sections[k], scrollY) {
      NoneReached(sections, scrollY);
    }
    forall k | LastToReach(sections, k, scrollY)
      ensures LastReached(sections, scrollY) == sections[k].id
    {
      LastReachedIsLast(sections, scrollY, k);
    }
  }

  /** The current section: 'contact' within 150 of the document's end, whatever the
      sections' offsets; otherwise none when no section is reached, and the id of the last
      reached section when one is. */
  function CurrentSection(scrollY: int, innerHeight: int, docHeight: int, sections: seq<Section>): (current: Option<string>)
    ensures scrollY + innerHeight >= docHeight - 150 ==> current == Some("contact")
    ensures scrollY + innerHeight < docHeight - 150 && (forall k :: 0 <= k < |sections| ==> !Reached(sections[k], scrollY))
            ==> current == None
    ensures forall k :: scrollY + innerHeight < docHeight - 150 && LastToReach(sections, k, scrollY) ==> current == sections[k].id
  {
    LastReachedExactly(sections, scrollY);
    if scrollY + innerHeight >= docHeight - 150 then Some("contact") else LastReached(sections, scrollY)
  }

  /** `#${currentSection}`: no section prints as "null". */
  function Anchor(current: Option<string>): string
  {
    "#" + match current case Some(id) => id case None => "null"
  }

  /** The navigation links' `href` attributes and their `active` classes. */
  class NavLinks {
    const hrefs: seq<Option<string>>
    const active: array<bool>

    constructor(hrefs: seq<Option<string>>)
      ensures this.hrefs == hrefs && active.Length == |hrefs| && fresh(active)
    {
      this.hrefs := hrefs;
      active := new bool[|hrefs|];
    }

    /** The `forEach` over the sections. */
    static method FindSection(scrollY: int, innerHeight: int, docHeight: int, sections: seq<Section>) returns (current: Option<string>)
      ensures current == CurrentSection(scrollY, innerHeight, docHeight, sections)
      ensures scrollY + innerHeight >= docHeight - 150 ==> current == Some("contact")
    {
      current := None;
      if scrollY + innerHeight >= docHeight - 150 {
        current := Some("contact");
      } else {
        var i := 0;
        while i < |sections|
          invariant 0 <= i <= |sections|
          invariant current == LastReached(sections[..i], scrollY)
        {
          assert sections[..i + 1][..i] == sections[..i];
          if Reached(sections[i], scrollY) {
            current := sections[i].id;
          }
          i := i + 1;
        }
        assert sections[..i] == sections;
      }
    }

    /** `updateActiveLink`: exactly the links pointing at the current section become active. */
    method UpdateActiveLink(scrollY: int, innerHeight: int, docHeight: int, sections: seq<Section>)
      requires active.Length == |hrefs|
      modifies active
      ensures forall i :: 0 <= i < |hrefs| ==>
        (active[i] <==> hrefs[i] == Some(Anchor(CurrentSection(scrollY, innerHeight, docHeight, sections))))
    {
      var current := FindSection(scrollY, innerHeight, docHeight, sections);
      var anchor := Anchor(current);
      var i := 0;
      while i < active.Length
        invariant 0 <= i <= active.Length
        invariant forall k :: 0 <= k < i ==> (active[k] <==> hrefs[k] == Some(anchor))
      {
        active[i] := false;
        if hrefs[i] == Some(anchor) {
          active[i] := true;
        }
        i := i + 1;
      }
    }
  }

  // ---------------------------------------------------------------- loadRecentTracks

  /** What the loader leaves in the embeds container: the rate-limit notice with its wait in
      seconds, the error block, or the carousel's cards, given by their iframe sources. */
  datatype View = RateLimited(seconds: string) | Failed(message: string) | Cards(sources: seq<string>)

  const MaxCards := 7

  /** The catch block: an empty message falls back to a fixed one. */
  function Shown(message: string): (text: string)
    ensures text != ""
  {
    if message == "" then "Error loading recent tracks" else message
  }

  /** The `forEach` from item `i` on: `item.track.id` for each, or the TypeError of the first
      item or track that is `null` or `undefined`. */
  function CardsFrom(items: seq<Value>, i: nat): (r: Result<seq<string>, string>)
    requires i <= |items|
    ensures r.Ok? ==>
      |r.value| == |items| - i &&
      forall k :: i <= k < |items| ==>
        !Nullish(items[k]) && !Nullish(Get(items[k], "track")) &&
        r.value[k - i] == EmbedUrl(ToText(Get(Get(items[k], "track"), "id")))
    ensures r.Err? <==> exists k :: i <= k < |items| && (Nullish(items[k]) || Nullish(Get(items[k], "track")))
    ensures r.Err? ==> r.error != ""
    decreases |items| - i
  {
    if i == |items| then Ok([])
    else if Nullish(items[i]) then Err(ReadError(items[i], "track"))
    else
      var track := Get(items[i], "track");
      if Nullish(track) then Err(ReadError(track, "id"))
      else match CardsFrom(items, i + 1)
        case Err(e) => Err(e)
        case Ok(rest) => Ok([EmbedUrl(ToText(Get(track, "id")))] + rest)
  }

  /** `loadRecentTracks` after the fetch: `status`, `statusText` and `response.ok`, and the
      body's `response.json()`, an error message when it throws. */
  function Load(status: int, statusText: string, ok: bool, body: Result<Value, string>): (v: View)
    ensures v.RateLimited? <==> status == 429 && body.Ok? && !Nullish(body.value)
    ensures status != 429 && !ok ==> v == Failed("Failed to fetch tracks: " + IntToString(status) + " " + statusText)
    ensures v.Cards? ==> ok && 1 <= |v.sources| <= MaxCards
    ensures v.Failed? ==> v.message != ""
  {
    if status == 429 then
      match body
      case Err(message) => Failed(Shown(message))
      case Ok(data) =>
        if Nullish(data) then Failed(ReadError(data, "retryAfter"))
        else
          var wait := Get(data, "retryAfter");
          RateLimited(if Truthy(wait) then ToText(wait) else "30")
    else if !ok then Failed("Failed to fetch tracks: " + IntToString(status) + " " + statusText)
    else match body
      case Err(message) => Failed(Shown(message))
      case Ok(data) =>
        if Nullish(data) then Failed(ReadError(data, "items"))
        else
          var items := Get(data, "items");
          if !Truthy(items) then Failed("No tracks found")
          else if Get(items, "length") == Num(0) then Failed("No tracks found")
          else match items
            case Arr(elements) =>
              var recent := if |elements| <= MaxCards then elements else elements[..MaxCards];
              (match CardsFrom(recent, 0)
               case Err(e) => Failed(e)
               case Ok(sources) => Cards(sources))
            case Str(_) => Failed("recentTracks.forEach is not a function")
            case _ => Failed("data.items.slice is not a function")
  }

  /** A rate-limited response waits `retryAfter` seconds, or 30 when the body has none. */
  lemma RateLimitWait(statusText: string, ok: bool, data: map<string, Value>)
    ensures Load(429, statusText, ok, Ok(Obj(data)))
            == RateLimited(if "retryAfter" in data && Truthy(data["retryAfter"]) then ToText(data["retryAfter"]) else "30")
    ensures "retryAfter" !in data ==> Load(429, statusText, ok, Ok(Obj(data))) == RateLimited("30")
    ensures forall n: nat :: "retryAfter" in data && data["retryAfter"] == Num(n) ==>
      Load(429, statusText, ok, Ok(Obj(data))) == RateLimited(if n == 0 then "30" else NatToString(n))
  {
  }

  /** Any other failed response names its status and status text. */
  lemma RejectedStatusShown(status: int, statusText: string, body: Result<Value, string>)
    requires status != 429 && status >= 0
    ensures Load(status, statusText, false, body) == Failed("Failed to fetch tracks: " + NatToString(status) + " " + statusText)
  {
  }

  /** A successful array body builds one card per item for its first seven items, in order,
      each embedding `item.track.id`; an empty or absent list is reported as "No tracks found". */
  lemma AtMostSevenCards(status: int, statusText: string, properties: map<string, Value>)
    requires status != 429
    requires "items" in properties && properties["items"].Arr?
    ensures var v := Load(status, statusText, true, Ok(Obj(properties)));
      var items := properties["items"].elements;
      (|items| == 0 ==> v == Failed("No tracks found")) &&
      (v.Cards? ==>
        |v.sources| == (if |items| <= MaxCards then |items| else MaxCards) &&
        forall k :: 0 <= k < |v.sources| ==> v.sources[k] == EmbedUrl(ToText(Get(Get(items[k], "track"), "id"))))
  {
    var items := properties["items"].elements;
    if |items| > 0 {
      var recent := if |items| <= MaxCards then items else items[..MaxCards];
      assert forall k :: 0 <= k < |recent| ==> recent[k] == items[k];
    }
  }

  /** The carousel `loadRecentTracks` wires up: the card classes, the closure's `currentIndex`
      and `isTransitioning`, the pending 600 ms unlock, and the auto-advance interval. */
  class TrackCarousel {
    const n: nat
    var current: int
    var transitioning: bool
    var pendingUnlocks: nat
    const classes: array<CardClass>
    var interval: nat
    var nextTimer: nat

    /** Only an update schedules an unlock, and an update only runs when unlocked, so an unlock
        is pending exactly while the carousel is transitioning. */
    ghost predicate Valid()
      reads this
    {
      n >= 1 && classes.Length == n && current >= 0 &&
      pendingUnlocks == (if transitioning then 1 else 0) &&
      interval < nextTimer
    }

    /** The cards as created, `currentIndex` at 1, and the first interval started. */
    constructor(n: nat)
      requires 1 <= n <= MaxCards
      ensures Valid() && this.n == n && current == 1 && !transitioning
      ensures classes[..] == InitialClasses(n) && fresh(classes)
    {
      this.n := n;
      current := 1;
      transitioning := false;
      pendingUnlocks := 0;
      classes := new CardClass[n](i => InitialClass(i));
      interval := 0;
      nextTimer := 1;
    }

    /** `updateCards(direction)`: ignored while transitioning; otherwise the index moves one
        card with wrap-around and every card's class follows from its position. */
    method UpdateCards(direction: int)
      requires Valid() && (direction == 1 || direction == -1)
      modifies this`current, this`transitioning, this`pendingUnlocks, classes
      ensures Valid()
      ensures old(transitioning) ==> current == old(current) && classes[..] == old(classes[..]) && pendingUnlocks == old(pendingUnlocks)
      ensures !old(transitioning) ==>
        current == Step(old(current), direction, n) && 0 <= current < n &&
        classes[..] == Classes(current, n) && transitioning
    {
      if transitioning {
        return;
      }
      transitioning := true;
      pendingUnlocks := 1;
      current := Step(current, direction, n);
      var i := 0;
      while i < n
        modifies classes
        invariant 0 <= i <= n
        invariant forall k :: 0 <= k < i ==> classes[k] == ClassAt(Position(k, current, n), n)
      {
        var position := Position(i, current, n);
        if position == 0 {
          classes[i] := Active;
        } else if position == 1 {
          classes[i] := Next;
        } else if position == -1 || position == n - 1 {
          classes[i] := Previous;
        } else {
          classes[i] := Hidden;
        }
        i := i + 1;
      }
    }

    /** The 600 ms timer an update scheduled. */
    method UnlockTimerFired()
      requires Valid() && pendingUnlocks > 0
      modifies this`transitioning, this`pendingUnlocks
      ensures Valid() && !transitioning
    {
      transitioning := false;
      pendingUnlocks := 0;
    }

    /** A click on the previous or next button: the update, then the interval restarted. */
    method ButtonClicked(direction: int)
      requires Valid() && (direction == 1 || direction == -1)
      modifies this, classes
      ensures Valid()
      ensures old(transitioning) ==> current == old(current) && classes[..] == old(classes[..])
      ensures !old(transitioning) ==> current == Step(old(current), direction, n) && classes[..] == Classes(current, n)
      ensures interval == old(nextTimer) && nextTimer == old(nextTimer) + 1
    {
      UpdateCards(direction);
      interval := nextTimer;
      nextTimer := nextTimer + 1;
    }

    /** The auto-advance interval `id` fires: only the live interval moves the carousel. */
    method IntervalFired(id: nat)
      requires Valid()
      modifies this`current, this`transitioning, this`pendingUnlocks, classes
      ensures Valid()
      ensures id != interval || old(transitioning) ==> current == old(current) && classes[..] == old(classes[..])
      ensures id == interval && !old(transitioning) ==> current == Step(old(current), 1, n) && classes[..] == Classes(current, n)
    {
      if id == interval {
        UpdateCards(1);
      }
    }
  }
}
