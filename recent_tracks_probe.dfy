/** test-recent-tracks.js: a diagnostic that fetches the deployed recent-tracks endpoint and
    classifies its body: HTML where JSON was expected, text that does not parse, JSON that
    is not an array, an empty array, or items checked for the fields the display reads.
    The fetch and `JSON.parse` are inputs; the title and error scraping of an HTML body
    (regular expressions) is not modelled. */
module RecentTracksProbe {
  import opened Base
  import opened Text
  import opened Js

  /** What the request produced: a reply with its status line and text, or the rejection. */
  datatype Reply = Answered(status: nat, statusText: string, text: string) | RequestFailed(message: string)

  /** The classification the script prints. */
  datatype Verdict =
    | RequestError(message: string)
    | Html
    | Unparsable(message: string)
    | NotArray(typeName: string)
    | EmptyArray
    | Items(count: nat, missing: seq<string>)

  /** What one run shows: the status line and preview when there was a reply, and the
      verdict. */
  datatype Probe = Probe(statusLine: Option<string>, preview: Option<string>, verdict: Verdict)

  const PreviewLength: nat := 500

  const RequiredFields := ["songID", "artist", "title", "album", "albumArt", "uri"]

  /** The logged preview: the first 500 characters, with `...` when there were more. */
  function Preview(raw: string): (p: string)
    ensures |raw| <= PreviewLength ==> p == raw
    ensures |raw| > PreviewLength ==> |p| == PreviewLength + 3 && p == raw[..PreviewLength] + "..."
  {
    Substring(raw, 0, PreviewLength) + (if |raw| > PreviewLength then "..." else "")
  }

  /** `rawText.trim().startsWith('<')`. */
  predicate LooksLikeHtml(raw: string)
  {
    StartsWith(Trim(raw), "<")
  }

  /** `typeof` of a parsed JSON value. */
  function TypeName(v: Value): string
  {
    match v
    case Undefined => "undefined"
    case Bool(_) => "boolean"
    case Num(_) => "number"
    case Str(_) => "string"
    case _ => "object"
  }

  /** Whether `item` lacks the field as an own property. */
  function Lacks(item: Value): string -> bool
    requires !Nullish(item)
  {
    (f: string) => !HasOwn(item, f)
  }

  /** The required fields the first item does not own, in list order. */
  function MissingFields(first: Value): (missing: seq<string>)
    requires !Nullish(first)
    ensures forall f :: f in missing <==> f in RequiredFields && !HasOwn(first, f)
    ensures Selects(RequiredFields, missing, KeptIndices(RequiredFields, Lacks(first)), Lacks(first))
  {
    FilterSelects(RequiredFields, Lacks(first));
    Filter(RequiredFields, Lacks(first))
  }

  /** The classification of a parsed body. Calling `hasOwnProperty` on a `null` first item
      throws inside the parsing `try`, so it is reported as a parse failure. */
  function Classify(parsed: Result<Value, string>): (v: Verdict)
    ensures parsed.Err? ==> v == Unparsable(parsed.error)
    ensures parsed.Ok? && !parsed.value.Arr? ==> v == NotArray(TypeName(parsed.value))
    ensures parsed.Ok? && parsed.value.Arr? && parsed.value.elements == [] ==> v == EmptyArray
    ensures v.Items? ==>
      parsed.Ok? && parsed.value.Arr? && v.count == |parsed.value.elements| > 0
      && !Nullish(parsed.value.elements[0])
      && forall f :: f in v.missing <==> f in RequiredFields && !HasOwn(parsed.value.elements[0], f)
  {
    match parsed
    case Err(message) => Unparsable(message)
    case Ok(data) =>
      if !data.Arr? then NotArray(TypeName(data))
      else if |data.elements| == 0 then EmptyArray
      else
        var first := data.elements[0];
        if Nullish(first) then Unparsable(ReadError(first, "hasOwnProperty"))
        else Items(|data.elements|, MissingFields(first))
  }

  /** One run of `testRecentTracksEndpoint`; `parse` is `JSON.parse`. */
  function Run(reply: Reply, parse: string -> Result<Value, string>): (p: Probe)
    ensures reply.RequestFailed? ==> p == Probe(None, None, RequestError(reply.message))
    ensures reply.Answered? ==>
      p.statusLine == Some(IntToString(reply.status) + " " + reply.statusText)
      && p.preview == Some(Preview(reply.text))
    ensures reply.Answered? ==> (p.verdict == Html <==> LooksLikeHtml(reply.text))
  {
    match reply
    case RequestFailed(message) => Probe(None, None, RequestError(message))
    case Answered(status, statusText, text) =>
      var verdict := if LooksLikeHtml(text) then Html else Classify(parse(text));
      Probe(Some(IntToString(status) + " " + statusText), Some(Preview(text)), verdict)
  }

  /** An HTML body is never handed to the JSON parser: the outcome is the same whatever
      the parser would have said. */
  lemma HtmlNeverParsed(reply: Reply, parse: string -> Result<Value, string>,
                        other: string -> Result<Value, string>)
    requires reply.Answered? && LooksLikeHtml(reply.text)
    ensures Run(reply, parse) == Run(reply, other)
    ensures Run(reply, parse).verdict == Html
  {
  }

  /** A body with leading white space before `<` still counts as HTML. */
  lemma IndentedHtmlDetected(padding: string, rest: string)
    requires forall k :: 0 <= k < |padding| ==> IsSpace(padding[k])
    requires rest != [] && rest[0] == '<'
    ensures LooksLikeHtml(padding + rest)
  {
    SkipPadding(padding, rest);
    var r := TrimEnd(rest);
    assert r[0] == rest[0];
    assert Trim(padding + rest) == r;
  }

  lemma {:induction false} SkipPadding(padding: string, rest: string)
    requires forall k :: 0 <= k < |padding| ==> IsSpace(padding[k])
    requires rest != [] && !IsSpace(rest[0])
    ensures TrimStart(padding + rest) == rest
    decreases |padding|
  {
    var s := padding + rest;
    if |padding| == 0 {
      assert s == rest;
    } else {
      assert s[1..] == padding[1..] + rest;
      SkipPadding(padding[1..], rest);
    }
  }

  /** An empty array is accepted, and any parsed body that is not an array is reported
      as such, with its `typeof`. */
  lemma ArrayVerdicts(reply: Reply, parse: string -> Result<Value, string>)
    requires reply.Answered? && !LooksLikeHtml(reply.text) && parse(reply.text).Ok?
    ensures parse(reply.text).value == Arr([]) ==> Run(reply, parse).verdict == EmptyArray
    ensures !parse(reply.text).value.Arr? ==>
      Run(reply, parse).verdict == NotArray(TypeName(parse(reply.text).value))
  {
  }
}
