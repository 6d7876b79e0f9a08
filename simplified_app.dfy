/** simplified-app.jsx: the stand-in `App` whose effect fills `SpotifyDisplay` with test data
    and, when it fails, sets an error and schedules at most three retries. */
module SimplifiedApp {
  import opened Base
  import opened Js

  const MaxRetries := 3
  const RetryDelayMs := 5000
  const LocalError := "Local error"

  /** The state cells, whether the effect is due to run (on mount, and after `retryCount`
      changes), the retry timers pending, and how many times the effect has run. */
  datatype Session = Session(
    nowPlaying: Value, topTracks: Value, error: Option<string>,
    retryCount: nat, effectDue: bool, pendingRetries: nat, runs: nat)

  const Mounted := Session(Null, Arr([]), None, 0, true, 0, 0)

  /** What can happen next: the effect runs, its `try` body failing or not, or a retry timer
      fires. */
  datatype Event = EffectRuns(fails: bool) | RetryFires

  /** `fetchData`: the success path stores the test data; the catch sets the local error,
      `isNetlify` being fixed to false, and schedules a retry only below the limit. `None` when
      the event cannot happen in this state. */
  function Next(s: Session, e: Event): (r: Option<Session>)
    ensures r.Some? <==> (e.EffectRuns? && s.effectDue) || (e.RetryFires? && s.pendingRetries > 0)
    ensures r.Some? && e.EffectRuns? ==> r.value.runs == s.runs + 1 && !r.value.effectDue && r.value.retryCount == s.retryCount
    ensures r.Some? && e.EffectRuns? && !e.fails ==> r.value.error == s.error && r.value.pendingRetries == s.pendingRetries
    ensures r.Some? && e.EffectRuns? && e.fails ==>
      r.value.error == Some(LocalError) && (r.value.pendingRetries > s.pendingRetries <==> s.retryCount < MaxRetries)
    ensures r.Some? && e.RetryFires? ==>
      r.value.retryCount == s.retryCount + 1 && r.value.effectDue && r.value.runs == s.runs && r.value.error == s.error
  {
    match e
    case EffectRuns(fails) =>
      if !s.effectDue then None
      else if !fails then
        Some(s.(nowPlaying := Obj(map["id" := Str("test")]), topTracks := Arr([]), effectDue := false, runs := s.runs + 1))
      else
        Some(s.(error := Some(LocalError), effectDue := false, runs := s.runs + 1,
                pendingRetries := if s.retryCount < MaxRetries then s.pendingRetries + 1 else s.pendingRetries))
    case RetryFires =>
      if s.pendingRetries == 0 then None
      else Some(s.(pendingRetries := s.pendingRetries - 1, retryCount := s.retryCount + 1, effectDue := true))
  }

  /** The events in order, from `s`; `None` when one of them cannot happen. */
  function Replay(s: Session, events: seq<Event>): Option<Session>
    decreases |events|
  {
    if |events| == 0 then Some(s)
    else match Next(s, events[0])
      case None => None
      case Some(t) => Replay(t, events[1..])
  }

  /** Each run is the mount or answers one fired retry, a retry is pending only between a
      failed run and the next, and retries stop at the limit. */
  predicate Consistent(s: Session)
  {
    s.runs + (if s.effectDue then 1 else 0) == 1 + s.retryCount &&
    s.pendingRetries <= 1 && (s.pendingRetries == 1 ==> !s.effectDue) &&
    s.retryCount + s.pendingRetries <= MaxRetries &&
    (s.pendingRetries == 1 || s.retryCount > 0 ==> s.error == Some(LocalError)) &&
    (s.error.Some? ==> s.error == Some(LocalError))
  }

  lemma NextConsistent(s: Session, e: Event)
    requires Consistent(s) && Next(s, e).Some?
    ensures Consistent(Next(s, e).value)
    ensures s.error.Some? ==> Next(s, e).value.error == s.error
  {
  }

  /** From mount, whatever happens, the effect runs at most 1 + 3 times, the retry counter
      never passes 3, and the only error ever shown is "Local error", which nothing clears. */
  lemma {:induction false} RunsBounded(s: Session, events: seq<Event>)
    requires Consistent(s)
    requires Replay(s, events).Some?
    ensures Replay(s, events).value.runs <= 1 + MaxRetries
    ensures Replay(s, events).value.retryCount <= MaxRetries
    ensures Replay(s, events).value.error.Some? ==> Replay(s, events).value.error == Some(LocalError)
    ensures s.error.Some? ==> Replay(s, events).value.error.Some?
    decreases |events|
  {
    if |events| > 0 {
      NextConsistent(s, events[0]);
      RunsBounded(Next(s, events[0]).value, events[1..]);
    }
  }

  lemma MountedConsistent()
    ensures Consistent(Mounted)
  {
  }

  /** Three failing runs use up the retries: after the fourth failure no retry is pending. */
  lemma FourthFailureStops()
    ensures Replay(Mounted, [EffectRuns(true), RetryFires, EffectRuns(true), RetryFires,
                             EffectRuns(true), RetryFires, EffectRuns(true)]).Some?
    ensures var s := Replay(Mounted, [EffectRuns(true), RetryFires, EffectRuns(true), RetryFires,
                                      EffectRuns(true), RetryFires, EffectRuns(true)]).value;
      s.runs == 4 && s.retryCount == 3 && s.pendingRetries == 0 && !s.effectDue
  {
  }

  /** What the component renders: the error line, which takes precedence, or the display. */
  datatype View = ErrorLine(text: string) | Display(nowPlaying: Value, topTracks: Value)

  function Render(s: Session): (v: View)
    ensures v.ErrorLine? <==> s.error.Some? && s.error.value != ""
  {
    match s.error
    case Some(e) => if e != "" then ErrorLine("Error: " + e) else Display(s.nowPlaying, s.topTracks)
    case None => Display(s.nowPlaying, s.topTracks)
  }

  /** The component's cells as a class, each event a method. */
  class App {
    var session: Session

    constructor()
      ensures session == Mounted
    {
      session := Mounted;
    }

    method EffectRan(fails: bool)
      requires session.effectDue
      modifies this
      ensures Next(old(session), EffectRuns(fails)) == Some(session)
      ensures !fails ==> session.nowPlaying == Obj(map["id" := Str("test")]) && session.topTracks == Arr([]) && session.error == old(session.error)
    {
      if !fails {
        session := session.(nowPlaying := Obj(map["id" := Str("test")]), topTracks := Arr([]), effectDue := false, runs := session.runs + 1);
      } else {
        var pending := session.pendingRetries;
        if session.retryCount < MaxRetries {
          pending := pending + 1;
        }
        session := session.(error := Some(LocalError), effectDue := false, runs := session.runs + 1, pendingRetries := pending);
      }
    }

    /** A 5 s retry timer: `setRetryCount(prev => prev + 1)`, which makes the effect due. */
    method RetryTimerFired()
      requires session.pendingRetries > 0
      modifies this
      ensures Next(old(session), RetryFires) == Some(session)
      ensures session.retryCount == old(session.retryCount) + 1 && session.effectDue
    {
      session := session.(pendingRetries := session.pendingRetries - 1, retryCount := session.retryCount + 1, effectDue := true);
    }
  }
}
