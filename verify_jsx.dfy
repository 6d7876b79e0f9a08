/** verify-jsx.js: a pre-build sanity check of App.jsx. It compares the counts of `{` and `}`
    and flags every innermost `[...]` group whose contents are not a comma-separated list
    of identifiers, the shape of a React dependency array. The search for the `useEffect`
    call with the `[retryCount]` dependency is an input here. */
module VerifyJsx {
  import opened Base
  import opened Text

  /** A bracket pair with no other bracket between its ends: the only pairs the pattern
      `\[\s*([^[\]]*?)\s*\]` can match, because its middle excludes both brackets. */
  predicate InnermostPair(s: string, i: int, j: int)
  {
    0 <= i < j < |s| && s[i] == '[' && s[j] == ']'
    && forall k :: i < k < j ==> s[k] != '[' && s[k] != ']'
  }

  /** The first bracket at or after `from`, or `|s|` when there is none. */
  function NextBracket(s: string, from: nat): (j: nat)
    requires from <= |s|
    ensures from <= j <= |s|
    ensures j < |s| ==> s[j] == '[' || s[j] == ']'
    ensures forall k :: from <= k < j ==> s[k] != '[' && s[k] != ']'
    decreases |s| - from
  {
    if from == |s| || s[from] == '[' || s[from] == ']' then from else NextBracket(s, from + 1)
  }

  /** The text between the brackets of each match of the global pattern, scanning from
      `from`: a match starts at a `[` whose next bracket is a `]`, and the scan resumes
      after that `]`. */
  function Groups(s: string, from: nat): (groups: seq<string>)
    requires from <= |s|
    ensures forall g :: g in groups ==> '[' !in g && ']' !in g
    decreases |s| - from
  {
    if from == |s| then []
    else if s[from] == '[' then
      var j := NextBracket(s, from + 1);
      if j < |s| && s[j] == ']' then
        var inner := s[from + 1..j];
        assert forall k :: 0 <= k < |inner| ==> inner[k] == s[from + 1 + k];
        [inner] + Groups(s, j + 1)
      else Groups(s, from + 1)
    else Groups(s, from + 1)
  }

  /** Every group is the inside of an innermost bracket pair at or after `from`. */
  lemma {:induction false} GroupsAreInnermost(s: string, from: nat, g: string)
    requires from <= |s| && g in Groups(s, from)
    ensures exists i, j :: from <= i && InnermostPair(s, i, j) && g == s[i + 1..j]
    decreases |s| - from
  {
    if s[from] == '[' {
      var j := NextBracket(s, from + 1);
      if j < |s| && s[j] == ']' {
        if g == s[from + 1..j] {
          assert InnermostPair(s, from, j);
        } else {
          GroupsAreInnermost(s, j + 1, g);
        }
      } else {
        GroupsAreInnermost(s, from + 1, g);
      }
    } else {
      GroupsAreInnermost(s, from + 1, g);
    }
  }

  /** Every innermost bracket pair at or after `from` is matched. */
  lemma {:induction false} InnermostAreGroups(s: string, from: nat, i: nat, j: nat)
    requires from <= i && InnermostPair(s, i, j)
    ensures s[i + 1..j] in Groups(s, from)
    decreases |s| - from
  {
    if from == i {
      var j' := NextBracket(s, from + 1);
      assert j' == j;
    } else if s[from] == '[' {
      var j' := NextBracket(s, from + 1);
      if j' < |s| && s[j'] == ']' {
        assert j' < i;
        InnermostAreGroups(s, j' + 1, i, j);
      } else {
        InnermostAreGroups(s, from + 1, i, j);
      }
    } else {
      InnermostAreGroups(s, from + 1, i, j);
    }
  }

  /** `[a-zA-Z0-9_$]`. */
  predicate NameChar(c: char)
  {
    'a' <= c <= 'z' || 'A' <= c <= 'Z' || '0' <= c <= '9' || c == '_' || c == '$'
  }

  /** Where a left-to-right reading of `^name(\s*,\s*name)*$` stands: before the first name,
      inside a name, in white space after a name, or after a comma. */
  datatype Phase = Start | InName | AfterName | AfterComma

  function Next(p: Phase, c: char): Option<Phase>
  {
    match p
    case Start => if NameChar(c) then Some(InName) else None
    case InName =>
      if NameChar(c) then Some(InName)
      else if IsSpace(c) then Some(AfterName)
      else if c == ',' then Some(AfterComma)
      else None
    case AfterName =>
      if IsSpace(c) then Some(AfterName) else if c == ',' then Some(AfterComma) else None
    case AfterComma =>
      if IsSpace(c) then Some(AfterComma) else if NameChar(c) then Some(InName) else None
  }

  /** The rest `s` of the text is accepted from phase `p`; only a name may end the list. */
  predicate Accepts(p: Phase, s: string)
    decreases |s|
  {
    if s == [] then p == InName
    else
      match Next(p, s[0])
      case None => false
      case Some(q) => Accepts(q, s[1..])
  }

  /** `/^[a-zA-Z0-9_$]+(?:\s*,\s*[a-zA-Z0-9_$]+)*$/.test(s)`. */
  predicate NameList(s: string)
  {
    Accepts(Start, s)
  }

  predicate IsName(name: string)
  {
    name != [] && forall k :: 0 <= k < |name| ==> NameChar(name[k])
  }

  /** Reading a whole name from the start, from after a comma or from inside a name ends
      inside a name. */
  lemma {:induction false} ReadName(p: Phase, name: string, rest: string)
    requires p == Start || p == InName || p == AfterComma
    requires IsName(name)
    ensures Accepts(p, name + rest) == Accepts(InName, rest)
    decreases |name|
  {
    var s := name + rest;
    assert s[0] == name[0];
    assert Next(p, s[0]) == Some(InName);
    assert s[1..] == name[1..] + rest;
    if |name| > 1 {
      ReadName(InName, name[1..], rest);
    } else {
      assert s[1..] == rest;
    }
  }

  /** Names joined by `", "` form a list the pattern accepts. */
  lemma {:induction false} JoinedNamesAccepted(names: seq<string>)
    requires |names| >= 1
    requires forall k :: 0 <= k < |names| ==> IsName(names[k])
    ensures NameList(Join(names, ", "))
  {
    JoinedNamesFrom(Start, names);
  }

  lemma {:induction false} JoinedNamesFrom(p: Phase, names: seq<string>)
    requires p == Start || p == AfterComma
    requires |names| >= 1
    requires forall k :: 0 <= k < |names| ==> IsName(names[k])
    ensures Accepts(p, Join(names, ", "))
    decreases |names|
  {
    if |names| == 1 {
      ReadName(p, names[0], "");
      assert names[0] + "" == names[0];
    } else {
      var rest := Join(names[1..], ", ");
      JoinCons(names[0], names[1..], ", ");
      assert [names[0]] + names[1..] == names;
      assert Join(names, ", ") == names[0] + (", " + rest);
      ReadName(p, names[0], ", " + rest);
      assert (", " + rest)[1..] == " " + rest;
      assert (" " + rest)[1..] == rest;
      JoinedNamesFrom(AfterComma, names[1..]);
    }
  }

  /** What an accepted text looks like: it starts and ends with a name character and holds
      nothing but name characters, white space and commas. */
  lemma {:induction false} AcceptedShape(p: Phase, s: string)
    requires Accepts(p, s)
    ensures forall k :: 0 <= k < |s| ==> NameChar(s[k]) || IsSpace(s[k]) || s[k] == ','
    ensures s != [] ==> NameChar(s[|s| - 1])
    ensures p == Start ==> s != [] && NameChar(s[0])
    decreases |s|
  {
    if s != [] {
      var q := Next(p, s[0]).value;
      AcceptedShape(q, s[1..]);
      if |s| == 1 {
        assert q == InName;
      }
    }
  }

  /** A dependency group is reported when, trimmed, it is neither empty nor a name list. */
  predicate Malformed(deps: string)
  {
    deps != "" && !NameList(deps)
  }

  /** The trimmed contents of the groups, in order. */
  function Trimmed(groups: seq<string>): (r: seq<string>)
    ensures |r| == |groups| && forall k :: 0 <= k < |groups| ==> r[k] == Trim(groups[k])
  {
    seq(|groups|, k requires 0 <= k < |groups| => Trim(groups[k]))
  }

  datatype Verification =
    | ReadFailed
    | Verified(braceCount: nat, closingBraceCount: nat, mismatch: bool, useEffectFound: bool,
               malformed: seq<string>)

  /** One run of the script over the file's text (`None` when it cannot be read); the
      `useEffect` pattern's verdict is passed in. */
  function Verify(file: Option<string>, useEffectFound: bool): (r: Verification)
    ensures r.ReadFailed? <==> file.None?
    ensures r.Verified? ==>
      r.braceCount == Count(file.value, '{') && r.closingBraceCount == Count(file.value, '}')
    ensures r.Verified? ==> (r.mismatch <==> r.braceCount != r.closingBraceCount)
    ensures r.Verified? ==> r.useEffectFound == useEffectFound
    ensures r.Verified? ==> forall d :: d in r.malformed <==>
      d in Trimmed(Groups(file.value, 0)) && Malformed(d)
    ensures r.Verified? ==> var groups := Trimmed(Groups(file.value, 0));
      Selects(groups, r.malformed, KeptIndices(groups, Malformed), Malformed)
  {
    if file.None? then ReadFailed
    else
      var content := file.value;
      FilterSelects(Trimmed(Groups(content, 0)), Malformed);
      var braces := Count(content, '{');
      var closing := Count(content, '}');
      Verified(braces, closing, braces != closing, useEffectFound,
               Filter(Trimmed(Groups(content, 0)), Malformed))
  }

  /** A trimmed group is the trimmed inside of an innermost bracket pair, and back. */
  lemma TrimmedGroupsAreInnermost(content: string, d: string)
    ensures d in Trimmed(Groups(content, 0)) <==>
      exists i, j :: InnermostPair(content, i, j) && d == Trim(content[i + 1..j])
  {
    if d in Trimmed(Groups(content, 0)) {
      TrimmedGroupIsInnermost(content, d);
    }
    if exists i, j :: InnermostPair(content, i, j) && d == Trim(content[i + 1..j]) {
      var i, j :| InnermostPair(content, i, j) && d == Trim(content[i + 1..j]);
      InnermostIsTrimmedGroup(content, i, j);
    }
  }

  lemma TrimmedGroupIsInnermost(content: string, d: string)
    requires d in Trimmed(Groups(content, 0))
    ensures exists i, j :: InnermostPair(content, i, j) && d == Trim(content[i + 1..j])
  {
    var groups := Groups(content, 0);
    var k :| 0 <= k < |groups| && d == Trim(groups[k]);
    GroupsAreInnermost(content, 0, groups[k]);
  }

  lemma InnermostIsTrimmedGroup(content: string, i: nat, j: nat)
    requires InnermostPair(content, i, j)
    ensures Trim(content[i + 1..j]) in Trimmed(Groups(content, 0))
  {
    var groups := Groups(content, 0);
    InnermostAreGroups(content, 0, i, j);
    var k :| 0 <= k < |groups| && groups[k] == content[i + 1..j];
    assert Trimmed(groups)[k] == Trim(content[i + 1..j]);
  }

  /** The reported groups are exactly the malformed trimmed insides of the innermost
      bracket pairs. */
  lemma MalformedReportedExactly(content: string, useEffectFound: bool, d: string)
    ensures var r := Verify(Some(content), useEffectFound);
      r.Verified? && (d in r.malformed <==>
      Malformed(d) && exists i, j :: InnermostPair(content, i, j) && d == Trim(content[i + 1..j]))
  {
    TrimmedGroupsAreInnermost(content, d);
  }
}
