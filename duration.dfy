/** `formatDuration`, which data_analysis.js, components/NowPlaying.js and
    components/RecentlyPlayed.js each define with the same body: milliseconds as `m:ss`. */
module Duration {
  import opened Base
  import opened Text
  import opened Js

  function Minutes(ms: int): int
  {
    ms / 60000   // Math.floor(ms / 60000): `/` by a positive divisor rounds down
  }

  function Seconds(ms: int): int
  {
    Remainder(ms, 60000) / 1000
  }

  /** `${minutes}:${seconds.toString().padStart(2, '0')}`. For a non-negative duration the
      minutes are unpadded decimal, the seconds exactly two digits, and reading the text back
      gives both fields. */
  function Format(ms: int): (r: string)
    ensures ms >= 0 ==> Parse(r) == Some((Minutes(ms), Seconds(ms)))
  {
    var r := IntToString(Minutes(ms)) + ":" + PadStart(IntToString(Seconds(ms)), 2, '0');
    if ms < 0 then r
    else
      FieldsBracketDuration(ms);
      PaddedSecondsValue(Seconds(ms));
      ParseFields(NatToString(Minutes(ms)), TwoDigits(Seconds(ms)));
      DigitsValueOfNatToString(Minutes(ms));
      r
  }

  /** For a non-negative duration the seconds are in `[0, 59]` and the two fields bracket it
      to the second: `minutes*60000 + seconds*1000 <= ms < that + 1000`. */
  lemma FieldsBracketDuration(ms: int)
    requires ms >= 0
    ensures 0 <= Seconds(ms) <= 59 && Minutes(ms) >= 0
    ensures Minutes(ms) * 60000 + Seconds(ms) * 1000 <= ms < Minutes(ms) * 60000 + Seconds(ms) * 1000 + 1000
  {
  }

  /** Reads `m:ss` back: the digits before the colon, without a leading zero unless there is
      only one, and the exactly two digits after it. */
  function Parse(text: string): Option<(nat, nat)>
  {
    var colon := IndexOf(text, ':');
    if colon == |text| then None
    else
      var m := text[..colon];
      var s := text[colon + 1..];
      if |m| >= 1 && (forall k :: 0 <= k < |m| ==> IsDigit(m[k])) && (|m| == 1 || m[0] != '0') &&
         |s| == 2 && IsDigit(s[0]) && IsDigit(s[1])
      then Some((DigitsValue(m), DigitsValue(s)))
      else None
  }

  /** Conversely, every text that reads back with seconds in `[0, 59]` is what `Format`
      prints for the duration of those fields, so no other spelling of a duration parses. */
  lemma ParseFormats(text: string, minutes: nat, seconds: nat)
    requires Parse(text) == Some((minutes, seconds)) && seconds <= 59
    ensures Format(minutes * 60000 + seconds * 1000) == text
  {
    ParsedFields(text);
    FormatOfFields(minutes, seconds);
  }

  /** A text that parses is the canonical spelling of its two fields. */
  lemma ParsedFields(text: string)
    requires Parse(text).Some? && Parse(text).value.1 <= 59
    ensures text == NatToString(Parse(text).value.0) + ":" + TwoDigits(Parse(text).value.1)
  {
    var colon := IndexOf(text, ':');
    var m, s := text[..colon], text[colon + 1..];
    assert text == m + ":" + s;
    CanonicalDigits(m);
    TwoDigitsOfField(s);
  }

  /** The text of a duration of whole minutes and seconds is made of those two fields. */
  lemma FormatOfFields(minutes: nat, seconds: nat)
    requires seconds <= 59
    ensures Format(minutes * 60000 + seconds * 1000) == NatToString(minutes) + ":" + TwoDigits(seconds)
  {
    FieldsOfDuration(minutes, seconds);
  }

  /** The duration of whole minutes and seconds splits back into them. */
  lemma FieldsOfDuration(minutes: nat, seconds: nat)
    requires seconds <= 59
    ensures Minutes(minutes * 60000 + seconds * 1000) == minutes
    ensures Seconds(minutes * 60000 + seconds * 1000) == seconds
  {
    var ms := minutes * 60000 + seconds * 1000;
    var q, r := ms / 60000, ms % 60000;
    assert ms == q * 60000 + r;
    assert (q - minutes) * 60000 == seconds * 1000 - r;
    assert q == minutes;
    assert r == seconds * 1000;
  }

  /** Two digits worth at most 59 are the seconds field of their value. */
  lemma TwoDigitsOfField(s: string)
    requires |s| == 2 && IsDigit(s[0]) && IsDigit(s[1]) && DigitsValue(s) <= 59
    ensures TwoDigits(DigitsValue(s)) == s
  {
    var v := DigitsValue(s);
    if s[0] == '0' {
      var last := s[1..];
      assert DigitsValue(s[..1]) == 0;
      assert v == DigitOf(s[1]) == DigitsValue(last);
      CanonicalDigits(last);
      assert NatToString(v) == last;
      assert seq(1, _ => '0') == "0";
      assert TwoDigits(v) == "0" + last;
      assert s == "0" + last;
    } else {
      CanonicalDigits(s);
      assert NatToString(v) == s;
      assert TwoDigits(v) == s;
    }
  }

  /** The seconds field padded to two digits reads back as the seconds. */
  lemma {:induction false} PaddedSecondsValue(sec: nat)
    requires sec <= 59
    ensures |TwoDigits(sec)| == 2 && IsDigit(TwoDigits(sec)[0]) && IsDigit(TwoDigits(sec)[1])
    ensures DigitsValue(TwoDigits(sec)) == sec
  {
    var s := TwoDigits(sec);
    DigitsValueOfNatToString(sec);
    if sec < 10 {
      assert s == "0" + NatToString(sec);
      assert s[..1] == "0";
    } else {
      assert s == NatToString(sec);
    }
  }

  /** `seconds.toString().padStart(2, '0')`. */
  function TwoDigits(sec: nat): string
  {
    PadStart(NatToString(sec), 2, '0')
  }

  /** Digits, a colon and two digits read back as the two numbers. */
  lemma ParseFields(m: string, s: string)
    requires |m| >= 1 && (forall k :: 0 <= k < |m| ==> IsDigit(m[k])) && (|m| == 1 || m[0] != '0')
    requires |s| == 2 && IsDigit(s[0]) && IsDigit(s[1])
    ensures Parse(m + ":" + s) == Some((DigitsValue(m), DigitsValue(s)))
  {
    var text := m + ":" + s;
    assert forall k :: 0 <= k < |m| ==> text[k] == m[k] && text[k] != ':';
    IndexOfAt(text, ':', |m|);
    assert text[..|m|] == m;
    assert text[|m| + 1..] == s;
  }
}
