/** analyze-syntax.js: a one-pass scan of a source file that counts `{` and `}`, records the
    line of every brace, and reports a mismatch, the line of the first `else if`/`else {`
    pair and a known typo. Reading the file is an input: `None` stands for a failed read. */
module AnalyzeSyntax {
  import opened Base
  import opened Text

  datatype BraceKind = Open | Close

  /** One `{ type, line, position }` entry of `bracePositions`. */
  datatype BracePosition = BracePosition(kind: BraceKind, line: nat, position: nat)

  /** The `{ openBraces, closeBraces }` object the analysis returns. */
  datatype Counts = Counts(openBraces: nat, closeBraces: nat)

  /** The mismatch line and the positions listed after it. */
  datatype Mismatch = Mismatch(missing: nat, side: string, shown: seq<BracePosition>)

  /** The number of positions listed after a mismatch (`slice(-20)`). */
  const Shown: nat := 20

  function BraceChar(kind: BraceKind): char
  {
    if kind == Open then '{' else '}'
  }

  /** The 1-based line that index `i` of `content` lies on: one more than the line breaks
      before it. */
  function LineAt(content: string, i: nat): nat
    requires i <= |content|
  {
    1 + Count(content[..i], '\n')
  }

  lemma LineAtPrefix(content: string, i: nat, p: nat)
    requires p <= i <= |content|
    ensures LineAt(content[..i], p) == LineAt(content, p)
  {
    assert content[..i][..p] == content[..p];
  }

  /** The braces of `content` in scan order, each typed by its character and carrying the
      line it is on. */
  function Braces(content: string): (r: seq<BracePosition>)
    ensures |r| == Count(content, '{') + Count(content, '}')
    ensures forall k :: 0 <= k < |r| ==>
      r[k].position < |content| && content[r[k].position] == BraceChar(r[k].kind)
    ensures forall k :: 0 <= k < |r| ==> r[k].line == LineAt(content, r[k].position)
    ensures forall k, l :: 0 <= k < l < |r| ==> r[k].position < r[l].position
  {
    if |content| == 0 then []
    else
      var i := |content| - 1;
      var prev := Braces(content[..i]);
      forall k | 0 <= k < |prev|
        ensures content[prev[k].position] == BraceChar(prev[k].kind)
        ensures prev[k].line == LineAt(content, prev[k].position)
      {
        LineAtPrefix(content, i, prev[k].position);
      }
      var here :=
        if content[i] == '{' then [BracePosition(Open, LineAt(content, i), i)]
        else if content[i] == '}' then [BracePosition(Close, LineAt(content, i), i)]
        else [];
      prev + here
  }

  /** The scan loop of `analyzeFile`: the counts and the recorded positions. */
  method Scan(content: string) returns (counts: Counts, positions: seq<BracePosition>)
    ensures counts == Counts(Count(content, '{'), Count(content, '}'))
    ensures positions == Braces(content)
  {
    var openBraces: nat := 0;
    var closeBraces: nat := 0;
    var currentLine: nat := 1;
    positions := [];
    var i := 0;
    while i < |content|
      invariant 0 <= i <= |content|
      invariant openBraces == Count(content[..i], '{')
      invariant closeBraces == Count(content[..i], '}')
      invariant currentLine == LineAt(content, i)
      invariant positions == Braces(content[..i])
    {
      assert content[..i + 1][..i] == content[..i];
      if content[i] == '{' {
        openBraces := openBraces + 1;
        positions := positions + [BracePosition(Open, currentLine, i)];
      } else if content[i] == '}' {
        closeBraces := closeBraces + 1;
        positions := positions + [BracePosition(Close, currentLine, i)];
      } else if content[i] == '\n' {
        currentLine := currentLine + 1;
      }
      i := i + 1;
    }
    assert content[..i] == content;
    counts := Counts(openBraces, closeBraces);
  }

  /** The mismatch report: how many braces are missing, on which side, and the last twenty
      recorded positions. */
  function MismatchOf(counts: Counts, positions: seq<BracePosition>): (r: Option<Mismatch>)
    ensures r.Some? <==> counts.openBraces != counts.closeBraces
    ensures r.Some? ==>
      r.value.missing > 0
      && (counts.openBraces > counts.closeBraces ==> r.value.missing == counts.openBraces - counts.closeBraces)
      && (counts.openBraces < counts.closeBraces ==> r.value.missing == counts.closeBraces - counts.openBraces)
    ensures r.Some? ==> (r.value.side == "closing" <==> counts.openBraces > counts.closeBraces)
    ensures r.Some? ==> r.value.side == "closing" || r.value.side == "opening"
    ensures r.Some? ==>
      |r.value.shown| == (if |positions| < Shown then |positions| else Shown)
      && r.value.shown == positions[|positions| - |r.value.shown|..]
  {
    var open := counts.openBraces as int;
    var close := counts.closeBraces as int;
    if open == close then None
    else
      var start := if |positions| < Shown then 0 else |positions| - Shown;
      Some(Mismatch(if open > close then open - close else close - open,
                    if open > close then "closing" else "opening",
                    positions[start..]))
  }

  function Max(a: int, b: int): int
  {
    if a >= b then a else b
  }

  /** The `else if`/`else` check: the number of lines before the later of the first
      `else if` and the first `else {`. */
  function ElseLine(content: string): Option<nat>
  {
    if Contains(content, "else if") && Contains(content, "else {") then
      var at := Max(FindFirst(content, "else if"), FindFirst(content, "else {"));
      Some(|Split(Substring(content, 0, at), '\n')|)
    else None
  }

  lemma {:induction false} CountAppend(a: string, b: string, c: char)
    ensures Count(a + b, c) == Count(a, c) + Count(b, c)
    decreases |b|
  {
    if |b| > 0 {
      assert (a + b)[..|a + b| - 1] == a + b[..|b| - 1];
      assert (a + b)[|a + b| - 1] == b[|b| - 1];
      CountAppend(a, b[..|b| - 1], c);
    } else {
      assert a + b == a;
    }
  }

  /** Splitting at a character gives one more piece than there are occurrences of it. */
  lemma {:induction false} SplitPieces(s: string, sep: char)
    ensures |Split(s, sep)| == Count(s, sep) + 1
    decreases |s|
  {
    var i := IndexOf(s, sep);
    if i == |s| {
      assert sep !in s;
      NoOccurrence(s, sep);
    } else {
      SplitPieces(s[i + 1..], sep);
      assert s == s[..i] + [sep] + s[i + 1..];
      CountAppend(s[..i] + [sep], s[i + 1..], sep);
      CountAppend(s[..i], [sep], sep);
      assert sep !in s[..i];
      NoOccurrence(s[..i], sep);
      assert [sep][..0] == [];
    }
  }

  lemma {:induction false} NoOccurrence(s: string, c: char)
    requires c !in s
    ensures Count(s, c) == 0
    decreases |s|
  {
    if |s| > 0 {
      NoOccurrence(s[..|s| - 1], c);
    }
  }

  /** The reported line is the line on which the later of the two first matches starts. */
  lemma {:induction false} ElseLineIsLineOfLaterMatch(content: string)
    requires Contains(content, "else if") && Contains(content, "else {")
    ensures var at := Max(FindFirst(content, "else if"), FindFirst(content, "else {"));
      0 <= at < |content| && ElseLine(content) == Some(LineAt(content, at))
  {
    var at := Max(FindFirst(content, "else if"), FindFirst(content, "else {"));
    assert Substring(content, 0, at) == content[..at];
    SplitPieces(content[..at], '\n');
  }

  /** The typo warning for the fragment of "Try to parse" that lost its first letter. */
  predicate TypoWarning(content: string)
  {
    Contains(content, "ry to parse")
  }

  /** What one run of `analyzeFile` reports: nothing but the error when the file cannot be
      read, otherwise the counts it returns and the three checks. */
  datatype Analysis =
    | ReadFailed
    | Analyzed(counts: Counts, mismatch: Option<Mismatch>, elseLine: Option<nat>, typo: bool)

  method AnalyzeFile(file: Option<string>) returns (a: Analysis)
    ensures a.ReadFailed? <==> file.None?
    ensures a.Analyzed? ==> a.counts == Counts(Count(file.value, '{'), Count(file.value, '}'))
    ensures a.Analyzed? ==> a.mismatch == MismatchOf(a.counts, Braces(file.value))
    ensures a.Analyzed? ==> a.elseLine == ElseLine(file.value) && (a.typo <==> TypoWarning(file.value))
  {
    if file.None? {
      return ReadFailed;
    }
    var content := file.value;
    var counts, positions := Scan(content);
    a := Analyzed(counts, MismatchOf(counts, positions), ElseLine(content), TypoWarning(content));
  }

  /** A file whose braces balance draws no mismatch report; one with an extra `{` reports
      one closing brace missing, listing every brace when there are at most twenty. */
  lemma {:induction false} ExtraOpenReported(content: string)
    requires Count(content, '{') == Count(content, '}') + 1
    requires Count(content, '{') + Count(content, '}') <= Shown
    ensures MismatchOf(Counts(Count(content, '{'), Count(content, '}')), Braces(content))
      == Some(Mismatch(1, "closing", Braces(content)))
  {
    var r := MismatchOf(Counts(Count(content, '{'), Count(content, '}')), Braces(content));
    assert r.value.shown == Braces(content)[0..];
  }
}
