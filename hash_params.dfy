/** The URL-fragment parser that data_analysis.js (lines 145-154) and
    components/SpotifyPlayer.js (lines 16-25) share: `hash.substring(1).split('&')` folded into
    an object, one `key=value` item at a time. `decodeURIComponent` is a parameter: `None`
    stands for the URIError it throws on a malformed escape. */
module HashParams {
  import opened Base
  import opened Text

  /** The items of the fragment: the text after its first character, split on `&`. */
  function Items(hash: string): seq<string>
  {
    Split(Substring(hash, 1, |hash|), '&')
  }

  /** The key of an item: the text before its first `=`. */
  function Key(item: string): string
  {
    Split(item, '=')[0]
  }

  /** The raw value of an item: the text between its first and second `=`, or `undefined`
      (which `decodeURIComponent` turns into the text "undefined") when it has no `=`. */
  function RawValue(item: string): string
  {
    var parts := Split(item, '=');
    if |parts| > 1 then parts[1] else "undefined"
  }

  /** The reduce callback: skip an empty item, otherwise store the decoded value under the key. */
  function Add(acc: map<string, string>, item: string, decode: string -> Option<string>): Option<map<string, string>>
  {
    if item == "" then Some(acc)
    else match decode(RawValue(item))
      case None => None
      case Some(v) => Some(acc[Key(item) := v])
  }

  /** The reduce over `items`, from the empty object; `None` when a decode throws. */
  function Fold(items: seq<string>, decode: string -> Option<string>): Option<map<string, string>>
  {
    if |items| == 0 then Some(map[])
    else match Fold(items[..|items| - 1], decode)
      case None => None
      case Some(acc) => Add(acc, items[|items| - 1], decode)
  }

  /** The fragment as an object: it throws exactly when some non-empty item fails to decode,
      and otherwise its keys are exactly the keys of the non-empty items. */
  function Parse(hash: string, decode: string -> Option<string>): (r: Option<map<string, string>>)
    ensures r.Some? <==> AllDecode(Items(hash), decode)
    ensures r.Some? ==> forall key :: key in r.value <==> KeyedFrom(Items(hash), 0, key)
  {
    FoldSucceedsExactly(Items(hash), decode);
    Fold(Items(hash), decode)
  }

  /** `hash.access_token` where the caller tests it for truth: a non-empty value only. */
  function AccessToken(params: map<string, string>): (token: Option<string>)
    ensures token.Some? <==> "access_token" in params && params["access_token"] != ""
    ensures token.Some? ==> token.value == params["access_token"]
  {
    if "access_token" in params && params["access_token"] != "" then Some(params["access_token"]) else None
  }

  /** The reduce as the loop it is, mutating its accumulator. */
  method ParseHash(hash: string, decode: string -> Option<string>) returns (r: Option<map<string, string>>)
    ensures r == Parse(hash, decode)
  {
    var items := Items(hash);
    var acc: map<string, string> := map[];
    var i := 0;
    while i < |items|
      invariant 0 <= i <= |items|
      invariant Fold(items[..i], decode) == Some(acc)
    {
      assert items[..i + 1][..i] == items[..i];
      var item := items[i];
      if item != "" {
        var v := decode(RawValue(item));
        if v.None? {
          NoRecovery(items, i + 1, decode);
          assert items[..|items|] == items;
          return None;
        }
        acc := acc[Key(item) := v.value];
      }
      i := i + 1;
    }
    assert items[..i] == items;
    r := Some(acc);
  }

  /** Once a decode has thrown, the fold stays failed. */
  lemma {:induction false} NoRecovery(items: seq<string>, i: nat, decode: string -> Option<string>)
    requires i <= |items| && Fold(items[..i], decode).None?
    ensures Fold(items, decode).None?
    decreases |items| - i
  {
    if i < |items| {
      assert items[..i + 1][..i] == items[..i];
      NoRecovery(items, i + 1, decode);
    } else {
      assert items[..i] == items;
    }
  }

  /** Every item decodes. */
  predicate AllDecode(items: seq<string>, decode: string -> Option<string>)
  {
    forall k :: 0 <= k < |items| && items[k] != "" ==> decode(RawValue(items[k])).Some?
  }

  /** Some non-empty item at `k` or later has this key. */
  predicate KeyedFrom(items: seq<string>, k: int, key: string)
  {
    exists j :: k <= j < |items| && j >= 0 && items[j] != "" && Key(items[j]) == key
  }

  /** When every item decodes, the fold succeeds, and its keys are exactly the keys of the
      non-empty items. */
  lemma {:induction false} KeysOfItems(items: seq<string>, decode: string -> Option<string>)
    requires AllDecode(items, decode)
    ensures Fold(items, decode).Some?
    ensures forall key :: key in Fold(items, decode).value <==> KeyedFrom(items, 0, key)
  {
    if |items| > 0 {
      var front := items[..|items| - 1];
      assert forall k :: 0 <= k < |front| ==> front[k] == items[k];
      KeysOfItems(front, decode);
      forall key
        ensures key in Fold(items, decode).value <==> KeyedFrom(items, 0, key)
      {
        if KeyedFrom(front, 0, key) {
          var j :| 0 <= j < |front| && front[j] != "" && Key(front[j]) == key;
          assert items[j] == front[j];
        }
        if KeyedFrom(items, 0, key) {
          var j :| 0 <= j < |items| && items[j] != "" && Key(items[j]) == key;
          if j < |front| {
            assert KeyedFrom(front, 0, key);
          }
        }
      }
    }
  }

  /** When every item decodes, a key maps to the decoded value of the last non-empty item
      that has it: a repeated key takes its last value. */
  lemma {:induction false} LastOccurrenceWins(items: seq<string>, decode: string -> Option<string>, k: nat)
    requires AllDecode(items, decode)
    requires k < |items| && items[k] != "" && !KeyedFrom(items, k + 1, Key(items[k]))
    ensures Fold(items, decode).Some? && Key(items[k]) in Fold(items, decode).value
    ensures Fold(items, decode).value[Key(items[k])] == decode(RawValue(items[k])).value
  {
    var key := Key(items[k]);
    var last := |items| - 1;
    var front := items[..last];
    assert forall i :: 0 <= i < |front| ==> front[i] == items[i];
    KeysOfItems(front, decode);
    var acc := Fold(front, decode).value;
    assert Fold(items, decode) == Add(acc, items[last], decode);
    if k < last {
      LastOccurrenceWins(front, decode, k);
      assert items[last] != "" ==> Key(items[last]) != key;
    }
  }

  /** The fold fails exactly when some non-empty item fails to decode, and a successful fold
      has the keys of the non-empty items. */
  lemma FoldSucceedsExactly(items: seq<string>, decode: string -> Option<string>)
    ensures Fold(items, decode).Some? <==> AllDecode(items, decode)
    ensures Fold(items, decode).Some? ==> forall key :: key in Fold(items, decode).value <==> KeyedFrom(items, 0, key)
  {
    if AllDecode(items, decode) {
      KeysOfItems(items, decode);
    } else {
      var k :| 0 <= k < |items| && items[k] != "" && decode(RawValue(items[k])).None?;
      DecodeFailurePropagates(items, decode, k);
    }
  }

  /** A malformed escape in any non-empty item makes the whole parse throw. */
  lemma DecodeFailurePropagates(items: seq<string>, decode: string -> Option<string>, k: nat)
    requires k < |items| && items[k] != "" && decode(RawValue(items[k])).None?
    ensures Fold(items, decode).None?
  {
    var prefix := items[..k + 1];
    assert prefix[..k] == items[..k];
    assert Fold(prefix, decode).None?;
    NoRecovery(items, k + 1, decode);
  }
}
