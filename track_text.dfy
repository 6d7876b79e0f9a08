/** The track card text that components/NowPlaying.js and components/RecentlyPlayed.js both
    build with a template literal: the first album image, the name, the artist line and the
    duration, read from an upstream track object in template order. */
module TrackText {
  import opened Base
  import opened Text
  import opened Js
  import Duration

  datatype TrackText = TrackText(imageUrl: string, name: string, artists: string, duration: string)

  /** `v[i]` on a value that is not `null` or `undefined`. */
  function Index(v: Value, i: nat): (r: Value)
    requires !Nullish(v)
    ensures v.Arr? ==> r == if i < |v.elements| then v.elements[i] else Undefined
    ensures v.Str? ==> r == if i < |v.s| then Str([v.s[i]]) else Undefined
    ensures !v.Undefined? && !v.Null? ==> r == Get(v, NatToString(i))
  {
    ArrayIndexOfNatToString(i);
    match v
    case Arr(elements) => if i < |elements| then elements[i] else Undefined
    case Str(s) => if i < |s| then Str([s[i]]) else Undefined
    case Obj(props) => if NatToString(i) in props then props[NatToString(i)] else Undefined
    case _ => Undefined
  }

  /** `track.album.images[0].url`, or the TypeError of the first read that meets `null` or
      `undefined`. */
  function ImageUrl(track: Value): Result<string, string>
    requires !Nullish(track)
  {
    var album := Get(track, "album");
    if Nullish(album) then Err(ReadError(album, "images"))
    else
      var images := Get(album, "images");
      if Nullish(images) then Err(ReadError(images, "0"))
      else
        var first := Index(images, 0);
        if Nullish(first) then Err(ReadError(first, "url"))
        else Ok(ToText(Get(first, "url")))
  }

  /** The `artist.name` of each artist, or the TypeError of the first missing artist. */
  function NamesFrom(artists: seq<Value>, i: nat): (r: Result<seq<Value>, string>)
    requires i <= |artists|
    ensures r.Ok? <==> forall k :: i <= k < |artists| ==> !Nullish(artists[k])
    ensures r.Ok? ==> |r.value| == |artists| - i && forall k :: i <= k < |artists| ==> r.value[k - i] == Get(artists[k], "name")
    decreases |artists| - i
  {
    if i == |artists| then Ok([])
    else if Nullish(artists[i]) then Err(ReadError(artists[i], "name"))
    else match NamesFrom(artists, i + 1)
      case Err(e) => Err(e)
      case Ok(rest) => Ok([Get(artists[i], "name")] + rest)
  }

  /** `track.artists.map(artist => artist.name).join(', ')`: a missing name joins as empty. */
  function ArtistLine(track: Value, expression: string): Result<string, string>
    requires !Nullish(track)
  {
    var artists := Get(track, "artists");
    match artists
    case Arr(elements) =>
      (match NamesFrom(elements, 0)
       case Err(e) => Err(e)
       case Ok(names) => Ok(Join(ElementTexts(names), ", ")))
    case _ => if Nullish(artists) then Err(ReadError(artists, "map")) else Err(expression + ".artists.map is not a function")
  }

  /** `formatDuration(track.duration_ms)` for a number, `null` or a boolean (which JavaScript
      reads as 0, 0 and 0 or 1); anything else gives NaN in both fields. */
  function DurationText(ms: Value): string
  {
    match ms
    case Num(n) => Duration.Format(n)
    case Null => Duration.Format(0)
    case Bool(b) => Duration.Format(if b then 1 else 0)
    case _ => "NaN:NaN"
  }

  /** The card text, read in template order; `expression` is how the source names the track
      in the TypeError for a non-array `artists`. */
  function Describe(track: Value, expression: string): (r: Result<TrackText, string>)
    ensures r.Ok? ==> !Nullish(track) && ImageUrl(track).Ok? && ArtistLine(track, expression).Ok?
    ensures Nullish(track) ==> r == Err(ReadError(track, "album"))
  {
    if Nullish(track) then Err(ReadError(track, "album"))
    else match ImageUrl(track)
      case Err(e) => Err(e)
      case Ok(url) =>
        match ArtistLine(track, expression)
        case Err(e) => Err(e)
        case Ok(line) => Ok(TrackText(url, ToText(Get(track, "name")), line, DurationText(Get(track, "duration_ms"))))
  }

  /** The artist objects of a well-formed track. */
  function ArtistObjects(names: seq<string>): (artists: seq<Value>)
    ensures |artists| == |names|
  {
    seq(|names|, k requires 0 <= k < |names| => Obj(map["name" := Str(names[k])]))
  }

  /** Artists that each carry a name: every name is joined by ", " in order. */
  lemma ArtistLineOfNames(track: Value, names: seq<string>, expression: string)
    requires track.Obj? && "artists" in track.properties && track.properties["artists"] == Arr(ArtistObjects(names))
    ensures ArtistLine(track, expression) == Ok(Join(names, ", "))
  {
    var found := NamesFrom(ArtistObjects(names), 0);
    assert found.Ok?;
    forall k | 0 <= k < |names|
      ensures found.value[k] == Str(names[k])
    {
      assert found.value[k] == Get(ArtistObjects(names)[k], "name");
    }
    ElementTextsOfStrings(found.value, names);
  }

  /** A well-formed track object: its card shows the first image, its name, every artist name
      joined by ", " in order, and its duration as `m:ss`. */
  lemma DescribeWellFormed(url: string, name: string, artistNames: seq<string>, ms: int, expression: string)
    ensures var track := Obj(map["album" := Obj(map["images" := Arr([Obj(map["url" := Str(url)])])]),
                                "name" := Str(name), "artists" := Arr(ArtistObjects(artistNames)), "duration_ms" := Num(ms)]);
      Describe(track, expression) == Ok(TrackText(url, name, Join(artistNames, ", "), Duration.Format(ms)))
  {
    var album := Obj(map["images" := Arr([Obj(map["url" := Str(url)])])]);
    var track := Obj(map["album" := album, "name" := Str(name), "artists" := Arr(ArtistObjects(artistNames)),
                         "duration_ms" := Num(ms)]);
    ImageUrlOfAlbum(track, url);
    ArtistLineOfNames(track, artistNames, expression);
    DescribeParts(track, url, Join(artistNames, ", "), expression);
    assert track.properties["name"] == Str(name) && track.properties["duration_ms"] == Num(ms);
  }

  /** A track whose image URL and artist line can be read: the card shows them, with the name
      and the duration read from the track. */
  lemma DescribeParts(track: Value, url: string, line: string, expression: string)
    requires track.Obj? && ImageUrl(track) == Ok(url) && ArtistLine(track, expression) == Ok(line)
    ensures Describe(track, expression)
            == Ok(TrackText(url, ToText(Get(track, "name")), line, DurationText(Get(track, "duration_ms"))))
  {
  }

  /** A track whose album's first image has a URL: that URL. */
  lemma ImageUrlOfAlbum(track: Value, url: string)
    requires track.Obj? && "album" in track.properties
    requires track.properties["album"] == Obj(map["images" := Arr([Obj(map["url" := Str(url)])])])
    ensures ImageUrl(track) == Ok(url)
  {
    var images := Arr([Obj(map["url" := Str(url)])]);
    assert Get(track.properties["album"], "images") == images;
    assert Index(images, 0) == Obj(map["url" := Str(url)]);
  }

  /** An album whose `images` is a non-empty string: `images[0]` is its first character, which
      has no `url`, so the card shows the text "undefined" instead of failing. */
  lemma ImageUrlOfStringImages(track: Value, images: string)
    requires track.Obj? && "album" in track.properties
    requires track.properties["album"] == Obj(map["images" := Str(images)]) && images != ""
    ensures ImageUrl(track) == Ok("undefined")
  {
    assert Get(track.properties["album"], "images") == Str(images);
    assert Index(Str(images), 0) == Str([images[0]]);
  }

  /** Array-to-string conversion of strings gives back the strings. */
  lemma {:induction false} ElementTextsOfStrings(values: seq<Value>, texts: seq<string>)
    requires |values| == |texts| && forall k :: 0 <= k < |values| ==> values[k] == Str(texts[k])
    ensures ElementTexts(values) == texts
  {
    if |values| > 0 {
      ElementTextsOfStrings(values[1..], texts[1..]);
      assert texts == [texts[0]] + texts[1..];
    }
  }
}
