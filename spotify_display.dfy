/** SpotifyDisplay.jsx: the now-playing embed and the recent-tracks list rendered from the
    component's two props, with the guards that drop missing or malformed entries. */
module SpotifyDisplay {
  import opened Base
  import opened Text
  import opened Js

  /** The now-playing section: the embedded track's link, or nothing for a falsy prop. */
  function NowPlayingLink(nowPlaying: Value): (link: Option<string>)
    ensures link.Some? <==> Truthy(nowPlaying)
    ensures link.Some? ==> link.value == "https://open.spotify.com/track/" + ToText(Get(nowPlaying, "id"))
  {
    if Truthy(nowPlaying) then Some("https://open.spotify.com/track/" + ToText(Get(nowPlaying, "id"))) else None
  }

  /** A track object links to its own id; one without an id links to the track "undefined". */
  lemma NowPlayingLinkOfTrack(properties: map<string, Value>, id: string)
    ensures "id" in properties && properties["id"] == Str(id) ==>
      NowPlayingLink(Obj(properties)) == Some("https://open.spotify.com/track/" + id)
    ensures "id" !in properties ==>
      NowPlayingLink(Obj(properties)) == Some("https://open.spotify.com/track/undefined")
  {
    assert "https://open.spotify.com/track/" + "undefined" == "https://open.spotify.com/track/undefined";
  }

  /** One rendered entry: its fade-in delay in milliseconds and its embed link. */
  datatype Entry = Entry(delay: int, link: string)

  /** The list section: nothing, the empty-list notice, or one optional entry per item. */
  datatype List = NoList | NoRecentTracks | Entries(entries: seq<Option<Entry>>)

  function TrackLink(songId: Value): string
  {
    "https://open.spotify.com/track/" + ToText(songId) + "?theme=0&backgroundColor=transparent"
  }

  /** An item the `map` renders: truthy, with a truthy `songID`. */
  predicate Renders(track: Value)
  {
    Truthy(track) && Truthy(Get(track, "songID"))
  }

  /** The `map` callback for item `i`. */
  function EntryAt(track: Value, i: int): Option<Entry>
  {
    if !Renders(track) then None else Some(Entry(1000 + i * 100, TrackLink(Get(track, "songID"))))
  }

  /** The IIFE over `topTracks`. */
  function TopTracks(topTracks: Value): (list: List)
    ensures list == NoList <==> !topTracks.Arr?
    ensures list == NoRecentTracks <==> topTracks == Arr([])
    ensures list.Entries? ==>
      |list.entries| == |topTracks.elements| &&
      forall i :: 0 <= i < |list.entries| ==> (list.entries[i].Some? <==> Renders(topTracks.elements[i]))
  {
    if !Truthy(topTracks) then NoList
    else if !IsArray(topTracks) then NoList
    else if |topTracks.elements| == 0 then NoRecentTracks
    else Entries(seq(|topTracks.elements|, i requires 0 <= i < |topTracks.elements| => EntryAt(topTracks.elements[i], i)))
  }

  /** The entries that reach the page, in order. */
  function Shown(entries: seq<Option<Entry>>): (shown: seq<Entry>)
    ensures |shown| <= |entries|
  {
    if |entries| == 0 then []
    else Shown(entries[..|entries| - 1]) + (match entries[|entries| - 1] case Some(e) => [e] case None => [])
  }

  /** A rendered item keeps the delay of its original index, so a dropped item still pushes
      the later ones back by 100 ms, and the item links to its own `songID`. */
  lemma DelayByOriginalIndex(topTracks: seq<Value>, i: int)
    requires 0 <= i < |topTracks| && Renders(topTracks[i])
    ensures TopTracks(Arr(topTracks)).entries[i] == Some(Entry(1000 + 100 * i, TrackLink(Get(topTracks[i], "songID"))))
  {
  }

  /** The delays of the entries `EntryAt` builds from `from` on: all at least `1000 + 100 * from`
      and strictly increasing, so the list fades in top to bottom. */
  lemma {:induction false} ShownDelaysIncrease(tracks: seq<Value>, from: int)
    requires from >= 0
    ensures var shown := Shown(seq(|tracks|, i requires 0 <= i < |tracks| => EntryAt(tracks[i], from + i)));
      (forall a :: 0 <= a < |shown| ==> 1000 + 100 * from <= shown[a].delay < 1000 + 100 * (from + |tracks|)) &&
      (forall a, b :: 0 <= a < b < |shown| ==> shown[a].delay < shown[b].delay)
  {
    var entries := seq(|tracks|, i requires 0 <= i < |tracks| => EntryAt(tracks[i], from + i));
    if |tracks| > 0 {
      var front := tracks[..|tracks| - 1];
      ShownDelaysIncrease(front, from);
      var before := seq(|front|, i requires 0 <= i < |front| => EntryAt(front[i], from + i));
      assert entries[..|entries| - 1] == before;
      var tail := match entries[|entries| - 1] case Some(e) => [e] case None => [];
      assert Shown(entries) == Shown(before) + tail;
      assert forall a :: 0 <= a < |tail| ==> tail[a].delay == 1000 + 100 * (from + |front|);
    }
  }
}
