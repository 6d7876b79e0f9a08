/** components/NowPlaying.js: the now-playing card, its progress interval and `destroy`.
    `formatDuration` is `Duration.Format`; the card text is `TrackText.Describe`. */
module NowPlayingCard {
  import opened Base
  import opened Js
  import opened TrackText

  class NowPlaying {
    const track: Value
    const hasContainer: bool
    /** The card text in the container, once rendered. */
    var shown: Option<TrackText>
    /** `this.progressInterval`: the id of the last interval `setupProgressBar` started. */
    var progressInterval: Option<nat>
    /** The intervals still running. */
    var running: set<nat>

    /** `new NowPlaying(track, progress)`: `hasContainer` says whether `.now-playing-card`
        was found. */
    constructor(track: Value, hasContainer: bool)
      ensures this.track == track && this.hasContainer == hasContainer
      ensures shown == None && progressInterval == None && running == {}
    {
      this.track := track;
      this.hasContainer := hasContainer;
      shown := None;
      progressInterval := None;
      running := {};
    }

    /** `render`: nothing without a container; otherwise the card text, or the TypeError of a
        malformed track, and then a new progress interval with the timer id `id`. */
    method Render(id: nat) returns (thrown: Option<string>)
      requires id >= 1 && id !in running
      modifies this
      ensures !hasContainer ==> thrown == None && shown == old(shown) && progressInterval == old(progressInterval) && running == old(running)
      ensures hasContainer && Describe(track, "this.track").Err? ==>
        thrown == Some(Describe(track, "this.track").error) && shown == old(shown) &&
        progressInterval == old(progressInterval) && running == old(running)
      ensures hasContainer && Describe(track, "this.track").Ok? ==>
        thrown == None && shown == Some(Describe(track, "this.track").value) &&
        progressInterval == Some(id) && running == old(running) + {id}
    {
      if !hasContainer {
        return None;
      }
      match Describe(track, "this.track")
      case Err(e) =>
        return Some(e);
      case Ok(text) =>
        shown := Some(text);
        progressInterval := Some(id);
        running := running + {id};
        return None;
    }

    /** `destroy`: the last started interval is cleared, if one was started. An earlier
        interval from a second `render` keeps running. */
    method Destroy()
      modifies this`running
      ensures progressInterval.None? ==> running == old(running)
      ensures progressInterval.Some? ==> running == old(running) - {progressInterval.value}
    {
      if progressInterval.Some? {
        running := running - {progressInterval.value};
      }
    }
  }

  /** On any card whose interval is running, a further `render` followed by `destroy` clears
      only the new interval: the earlier one is still running afterwards. */
  method RenderAgainLeaks(card: NowPlaying, id: nat)
    requires card.hasContainer && Describe(card.track, "this.track").Ok?
    requires card.progressInterval.Some? && card.progressInterval.value in card.running
    requires id >= 1 && id !in card.running
    modifies card
    ensures card.progressInterval == Some(id) && card.running == old(card.running)
    ensures old(card.progressInterval.value) in card.running
  {
    var _ := card.Render(id);
    card.Destroy();
  }

  /** Rendering twice and destroying leaves the first interval running. */
  method RenderTwiceLeaks(track: Value) returns (leaked: set<nat>)
    requires Describe(track, "this.track").Ok?
    ensures leaked == {1}
  {
    var card := new NowPlaying(track, true);
    var _ := card.Render(1);
    var _ := card.Render(2);
    card.Destroy();
    leaked := card.running;
  }
}
