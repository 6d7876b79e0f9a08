/** Node's `querystring.stringify` and the percent-encoding (`querystring.escape`) it applies
    to keys and values. */
module QueryString {
  import opened Text

  /** The characters `querystring.escape` leaves as they are. */
  predicate Unreserved(c: char)
  {
    ('A' <= c <= 'Z') || ('a' <= c <= 'z') || ('0' <= c <= '9')
    || c == '-' || c == '_' || c == '.' || c == '!' || c == '~' || c == '*' || c == '\'' || c == '(' || c == ')'
  }

  function HexDigit(d: nat): (c: char)
    requires d < 16
    ensures ('0' <= c <= '9') || ('A' <= c <= 'F')
  {
    if d < 10 then ('0' as int + d) as char else ('A' as int + d - 10) as char
  }

  /** The UTF-8 encoding of one Unicode scalar value. */
  function Utf8(c: char): (bytes: seq<nat>)
    ensures 1 <= |bytes| <= 4
    ensures forall k :: 0 <= k < |bytes| ==> bytes[k] < 256
    ensures |bytes| == 1 <==> c as int < 0x80
    ensures |bytes| == 1 ==> bytes[0] == c as int
  {
    var v := c as int;
    if v < 0x80 then [v]
    else if v < 0x800 then [0xC0 + v / 64, 0x80 + v % 64]
    else if v < 0x10000 then [0xE0 + v / 4096, 0x80 + (v / 64) % 64, 0x80 + v % 64]
    else [0xF0 + v / 262144, 0x80 + (v / 4096) % 64, 0x80 + (v / 64) % 64, 0x80 + v % 64]
  }

  /** Text made only of unreserved characters and `%`: what escaping produces. */
  predicate EscapedText(s: string)
  {
    forall k :: 0 <= k < |s| ==> s[k] == '%' || Unreserved(s[k])
  }

  /** `%XY` for every byte, with upper-case hexadecimal digits. */
  function PercentBytes(bytes: seq<nat>): (r: string)
    requires forall k :: 0 <= k < |bytes| ==> bytes[k] < 256
    ensures |r| == 3 * |bytes| && EscapedText(r)
    ensures forall k :: 0 <= k < |bytes| ==>
              r[3 * k..3 * k + 3] == ['%', HexDigit(bytes[k] / 16), HexDigit(bytes[k] % 16)]
  {
    if |bytes| == 0 then ""
    else
      var rest := PercentBytes(bytes[1..]);
      var r := ['%', HexDigit(bytes[0] / 16), HexDigit(bytes[0] % 16)] + rest;
      assert forall k :: 1 <= k < |bytes| ==> r[3 * k..3 * k + 3] == rest[3 * (k - 1)..3 * (k - 1) + 3];
      r
  }

  function EscapeChar(c: char): (r: string)
    ensures EscapedText(r)
  {
    if Unreserved(c) then [c] else PercentBytes(Utf8(c))
  }

  /** `querystring.escape`: every character in turn, kept or percent-encoded. */
  function Escape(s: string): (r: string)
    ensures |r| >= |s| && EscapedText(r)
  {
    if |s| == 0 then "" else Escape(s[..|s| - 1]) + EscapeChar(s[|s| - 1])
  }

  lemma AppendAssociative(x: string, y: string, z: string)
    ensures (x + y) + z == x + (y + z)
  {
  }

  /** Escaping one more character appends its escape. */
  lemma EscapeSnoc(s: string, c: char)
    ensures Escape(s + [c]) == Escape(s) + EscapeChar(c)
  {
    assert (s + [c])[..|s|] == s;
  }

  /** Escaping works character by character. */
  lemma {:induction false} EscapeConcat(a: string, b: string)
    ensures Escape(a + b) == Escape(a) + Escape(b)
    decreases |b|
  {
    if |b| == 0 {
      assert a + b == a;
    } else {
      var init := b[..|b| - 1];
      var c := b[|b| - 1];
      assert b == init + [c];
      assert a + b == (a + init) + [c];
      EscapeConcat(a, init);
      calc {
        Escape(a + b);
        { EscapeSnoc(a + init, c); }
        Escape(a + init) + EscapeChar(c);
        (Escape(a) + Escape(init)) + EscapeChar(c);
        { AppendAssociative(Escape(a), Escape(init), EscapeChar(c)); }
        Escape(a) + (Escape(init) + EscapeChar(c));
        { EscapeSnoc(init, c); }
        Escape(a) + Escape(b);
      }
    }
  }

  /** A space becomes `%20`. */
  lemma EscapeSpace()
    ensures Escape(" ") == "%20"
  {
    assert Utf8(' ') == [32];
    assert PercentBytes([32]) == ['%', HexDigit(2), HexDigit(0)] + PercentBytes([]);
  }

  /** A string of unreserved characters is left unchanged, and only such a string is. */
  lemma {:induction false} EscapeIdentity(s: string)
    ensures Escape(s) == s <==> forall k :: 0 <= k < |s| ==> Unreserved(s[k])
    decreases |s|
  {
    if |s| > 0 {
      var init, c := s[..|s| - 1], s[|s| - 1];
      assert s == init + [c];
      EscapeIdentity(init);
      assert Escape(s) == Escape(init) + EscapeChar(c);
      if !Unreserved(c) {
        assert |EscapeChar(c)| >= 3;
        assert |Escape(s)| > |s|;
      } else {
        assert EscapeChar(c) == [c];
        if Escape(s) == s {
          assert Escape(init) == Escape(s)[..|init|];
        }
        if forall k :: 0 <= k < |s| ==> Unreserved(s[k]) {
          assert forall k :: 0 <= k < |init| ==> init[k] == s[k];
        }
      }
    }
  }

  /** Joining by a space and escaping gives the parts joined by `%20`. */
  lemma {:induction false} EscapeJoinedBySpace(parts: seq<string>)
    requires forall i, k :: 0 <= i < |parts| && 0 <= k < |parts[i]| ==> Unreserved(parts[i][k])
    ensures Escape(Join(parts, " ")) == Join(parts, "%20")
  {
    if |parts| == 1 {
      EscapeIdentity(parts[0]);
    } else if |parts| > 1 {
      var rest := Join(parts[1..], " ");
      assert Join(parts, " ") == (parts[0] + " ") + rest;
      assert Join(parts, "%20") == (parts[0] + "%20") + Join(parts[1..], "%20");
      EscapeConcat(parts[0] + " ", rest);
      EscapeConcat(parts[0], " ");
      EscapeSpace();
      EscapeIdentity(parts[0]);
      assert Escape(parts[0] + " ") == parts[0] + "%20";
      assert forall i, k :: 0 <= i < |parts[1..]| && 0 <= k < |parts[1..][i]| ==> parts[1..][i][k] == parts[i + 1][k];
      EscapeJoinedBySpace(parts[1..]);
    }
  }

  /** `key=value` with both sides escaped, so no `&` inside. */
  function Pair(key: string, value: string): (r: string)
    ensures '&' !in r
  {
    var k, v := Escape(key), Escape(value);
    assert '&' !in k && '&' !in v;
    k + "=" + v
  }

  /** A pair splits at `=` back into the escaped key and value, whatever they hold. */
  lemma PairSplits(key: string, value: string)
    ensures Split(Pair(key, value), '=') == [Escape(key), Escape(value)]
  {
    var k, v := Escape(key), Escape(value);
    assert '=' !in k && '=' !in v;
    SplitJoin([k, v], '=');
    assert Join([k, v], "=") == k + "=" + v;
  }

  /** Every property as `key=value`, in order. */
  function PairTexts(pairs: seq<(string, string)>): (texts: seq<string>)
    ensures |texts| == |pairs|
    ensures forall i :: 0 <= i < |pairs| ==> texts[i] == Pair(pairs[i].0, pairs[i].1)
  {
    seq(|pairs|, i requires 0 <= i < |pairs| => Pair(pairs[i].0, pairs[i].1))
  }

  /** `querystring.stringify` of an object whose values are strings, in property order.
      Whatever the keys and values hold, the text splits at `&` back into the pairs. */
  function Stringify(pairs: seq<(string, string)>): (r: string)
    ensures |pairs| >= 1 ==> Split(r, '&') == PairTexts(pairs)
  {
    var texts := PairTexts(pairs);
    if |pairs| == 0 then Join(texts, "&")
    else
      SplitJoin(texts, '&');
      Join(texts, "&")
  }
}
