/**
 * The fenced-markdown extractor of the slide generator (`extract_markdown_content`):
 * the model's response is split into lines, the first two lines that start with three
 * backticks delimit the presentation, and the lines strictly between them are joined
 * with newlines. Without such a pair the response is returned unchanged.
 *
 * Line splitting follows `str.splitlines` restricted to the "\n" separator: the text
 * is cut at every newline and a final empty piece (after a trailing newline, or of
 * the empty text) is not a line.
 */
module Markdown {
  import opened Common

  const Fence: string := "```"

  /** `line.startswith("```")` */
  predicate IsFence(line: string) {
    |line| >= 3 && line[..3] == Fence
  }

  /** `text.split("\n")`: the pieces between newlines, always at least one. */
  function Split(text: string): (parts: seq<string>)
    ensures |parts| >= 1
    decreases |text|
  {
    if text == [] then [""]
    else
      var rest := Split(text[1..]);
      if text[0] == '\n' then [""] + rest
      else [[text[0]] + rest[0]] + rest[1..]
  }

  /** `text.splitlines()` when "\n" is the only line separator. */
  function SplitLines(text: string): seq<string> {
    var parts := Split(text);
    if parts[|parts| - 1] == "" then parts[..|parts| - 1] else parts
  }

  /** `"\n".join(lines)` */
  function JoinLines(lines: seq<string>): string
    decreases |lines|
  {
    if lines == [] then ""
    else if |lines| == 1 then lines[0]
    else lines[0] + "\n" + JoinLines(lines[1..])
  }

  ghost predicate NoNewlines(lines: seq<string>) {
    forall k :: 0 <= k < |lines| ==> '\n' !in lines[k]
  }

  /** The first fence line at index `from` or later. */
  function FenceFrom(lines: seq<string>, from: nat): (r: Option<nat>)
    requires from <= |lines|
    ensures r.Some? ==> from <= r.value < |lines| && IsFence(lines[r.value])
    ensures r.Some? ==> forall k :: from <= k < r.value ==> !IsFence(lines[k])
    ensures r.None? ==> forall k :: from <= k < |lines| ==> !IsFence(lines[k])
    decreases |lines| - from
  {
    if from == |lines| then None
    else if IsFence(lines[from]) then Some(from)
    else FenceFrom(lines, from + 1)
  }

  /** The number of fence lines. */
  function CountFences(lines: seq<string>): nat
    decreases |lines|
  {
    if lines == [] then 0
    else (if IsFence(lines[0]) then 1 else 0) + CountFences(lines[1..])
  }

  /** `s` and `e` are the first and second fence lines of `lines`. */
  ghost predicate FirstTwoFences(lines: seq<string>, s: nat, e: nat) {
    && s < e < |lines|
    && IsFence(lines[s]) && IsFence(lines[e])
    && (forall k :: 0 <= k < s ==> !IsFence(lines[k]))
    && (forall k :: s < k < e ==> !IsFence(lines[k]))
  }

  /** What `extract_markdown_content` returns for `text`. */
  function Extract(text: string): string {
    var lines := SplitLines(text);
    match FenceFrom(lines, 0)
    case None => text
    case Some(s) =>
      match FenceFrom(lines, s + 1)
      case None => text
      case Some(e) => JoinLines(lines[s + 1..e])
  }

  /** The loop of `extract_markdown_content`, with its `start`/`end` markers and `break`. */
  method ExtractMarkdownContent(text: string) returns (r: string)
    ensures r == Extract(text)
  {
    var lines := SplitLines(text);
    var start, end := -1, -1;
    var i := 0;
    while i < |lines|
      invariant 0 <= i <= |lines|
      invariant end == -1
      invariant start == -1 ==> FenceFrom(lines, 0) == FenceFrom(lines, i)
      invariant start != -1 ==> 0 <= start < i && FenceFrom(lines, 0) == Some(start)
      invariant start != -1 ==> FenceFrom(lines, start + 1) == FenceFrom(lines, i)
    {
      if IsFence(lines[i]) {
        if start == -1 {
          start := i;
        } else {
          end := i;
          break;
        }
      }
      i := i + 1;
    }
    if start != -1 && end != -1 {
      r := JoinLines(lines[start + 1..end]);
    } else {
      r := text;
    }
  }

  // ---------------------------------------------------------------------------
  // Splitting and joining lines

  lemma {:induction false} SplitWithoutNewline(a: string)
    requires '\n' !in a
    ensures Split(a) == [a]
    decreases |a|
  {
    if a != [] {
      SplitWithoutNewline(a[1..]);
      assert [a[0]] + a[1..] == a;
    }
  }

  /** A newline separates the pieces of what precedes it from those of what follows. */
  lemma {:induction false} SplitAtNewline(a: string, b: string)
    ensures Split(a + "\n" + b) == Split(a) + Split(b)
    decreases |a|
  {
    var t := a + "\n" + b;
    if a == [] {
      assert t[0] == '\n' && t[1..] == b;
    } else {
      SplitAtNewline(a[1..], b);
      assert t[0] == a[0] && t[1..] == a[1..] + "\n" + b;
    }
  }

  /** Joining with newlines and splitting at newlines are inverse on newline-free lines. */
  lemma {:induction false} SplitJoin(lines: seq<string>)
    requires lines != [] && NoNewlines(lines)
    ensures Split(JoinLines(lines)) == lines
    decreases |lines|
  {
    if |lines| == 1 {
      SplitWithoutNewline(lines[0]);
    } else {
      SplitJoin(lines[1..]);
      SplitWithoutNewline(lines[0]);
      SplitAtNewline(lines[0], JoinLines(lines[1..]));
      assert [lines[0]] + lines[1..] == lines;
    }
  }

  lemma {:induction false} JoinSplit(text: string)
    ensures JoinLines(Split(text)) == text
    decreases |text|
  {
    if text != [] {
      var rest := Split(text[1..]);
      JoinSplit(text[1..]);
      if text[0] == '\n' {
        assert text == "\n" + text[1..];
      } else if |rest| == 1 {
        assert text == [text[0]] + text[1..];
      } else {
        var head := [text[0]] + rest[0];
        assert ([head] + rest[1..])[1..] == rest[1..];
        assert rest == [rest[0]] + rest[1..];
        assert text == [text[0]] + text[1..];
      }
    }
  }

  lemma {:induction false} JoinAppend(lines: seq<string>, x: string)
    requires lines != []
    ensures JoinLines(lines + [x]) == JoinLines(lines) + "\n" + x
    decreases |lines|
  {
    if |lines| > 1 {
      JoinAppend(lines[1..], x);
      assert (lines + [x])[1..] == lines[1..] + [x];
    }
  }

  lemma {:induction false} SplitHasNoNewlines(text: string)
    ensures NoNewlines(Split(text))
    decreases |text|
  {
    if text != [] {
      SplitHasNoNewlines(text[1..]);
    }
  }

  /** No line produced by splitting contains a newline. */
  lemma SplitLinesHaveNoNewlines(text: string)
    ensures NoNewlines(SplitLines(text))
  {
    SplitHasNoNewlines(text);
  }

  /** Splitting the join gives the lines back, less a final empty line, which `splitlines` drops. */
  lemma SplitLinesJoinLines(lines: seq<string>)
    requires NoNewlines(lines)
    ensures SplitLines(JoinLines(lines)) ==
            if lines != [] && lines[|lines| - 1] == "" then lines[..|lines| - 1] else lines
  {
    var j := JoinLines(lines);
    if lines == [] {
      assert j == "" && Split(j) == [""];
    } else {
      SplitJoin(lines);
      assert Split(j) == lines;
    }
  }

  /** Joining the lines of a text gives the text back, less one trailing newline. */
  lemma JoinLinesSplitLines(text: string)
    ensures text != [] && text[|text| - 1] == '\n' ==> JoinLines(SplitLines(text)) + "\n" == text
    ensures !(text != [] && text[|text| - 1] == '\n') ==> JoinLines(SplitLines(text)) == text
  {
    var parts := Split(text);
    JoinSplit(text);
    var n := |parts|;
    if parts[n - 1] == "" {
      if n == 1 {
        assert text == [] by {
          if text != [] { SplitHasNoNewlines(text); SplitLastNonEmpty(text); }
        }
      } else {
        assert parts == parts[..n - 1] + [""];
        JoinAppend(parts[..n - 1], "");
      }
    } else {
      LastPieceEndsText(text);
    }
  }

  /** A non-empty text whose split is the single empty piece cannot exist. */
  lemma {:induction false} SplitLastNonEmpty(text: string)
    requires text != []
    ensures Split(text) != [""]
    decreases |text|
  {
    var rest := Split(text[1..]);
    if text[0] != '\n' {
      var head := [text[0]] + rest[0];
      assert Split(text)[0] == head && |head| > 0;
    } else {
      assert |Split(text)| == 1 + |rest| >= 2;
    }
  }

  /** When the last piece is not empty, the text does not end in a newline; when it is, it does. */
  lemma {:induction false} LastPieceEndsText(text: string)
    ensures var parts := Split(text);
            (text != [] && text[|text| - 1] == '\n') <==> (|parts| >= 2 && parts[|parts| - 1] == "")
    decreases |text|
  {
    if text != [] {
      LastPieceEndsText(text[1..]);
      var rest := Split(text[1..]);
      if text[0] != '\n' && |rest| == 1 {
        assert text[1..] == [] || text[|text| - 1] == text[1..][|text[1..]| - 1];
      }
      if text[1..] != [] {
        assert text[|text| - 1] == text[1..][|text[1..]| - 1];
      } else {
        assert Split(text[1..]) == [""];
      }
    }
  }

  // ---------------------------------------------------------------------------
  // Properties of the extractor

  lemma {:induction false} FenceFromCounts(lines: seq<string>, i: nat)
    requires i <= |lines|
    ensures FenceFrom(lines, i).None? <==> CountFences(lines[i..]) == 0
    ensures FenceFrom(lines, i).Some? ==>
              CountFences(lines[i..]) == 1 + CountFences(lines[FenceFrom(lines, i).value + 1..])
    decreases |lines| - i
  {
    if i < |lines| {
      FenceFromCounts(lines, i + 1);
      assert lines[i..][1..] == lines[i + 1..];
    }
  }

  /** With fewer than two fence lines the response text is returned as it is, not re-joined. */
  lemma FewerThanTwoFencesUnchanged(text: string)
    requires CountFences(SplitLines(text)) < 2
    ensures Extract(text) == text
  {
    var lines := SplitLines(text);
    FenceFromCounts(lines, 0);
    assert lines[0..] == lines;
    match FenceFrom(lines, 0)
    case None =>
    case Some(s) =>
      FenceFromCounts(lines, s + 1);
  }

  /** With at least two fence lines there is a first pair, and the lines strictly between them are the result. */
  lemma AtLeastTwoFencesExtracts(text: string)
    requires CountFences(SplitLines(text)) >= 2
    ensures exists s: nat, e: nat :: FirstTwoFences(SplitLines(text), s, e) &&
              Extract(text) == JoinLines(SplitLines(text)[s + 1..e])
  {
    var lines := SplitLines(text);
    FenceFromCounts(lines, 0);
    assert lines[0..] == lines;
    var s := FenceFrom(lines, 0).value;
    FenceFromCounts(lines, s + 1);
    var e := FenceFrom(lines, s + 1).value;
    assert FirstTwoFences(lines, s, e);
  }

  /** The first two fence lines determine the result: the join of what lies strictly between them. */
  lemma BetweenFirstTwoFences(text: string, s: nat, e: nat)
    requires FirstTwoFences(SplitLines(text), s, e)
    ensures Extract(text) == JoinLines(SplitLines(text)[s + 1..e])
  {
    var lines := SplitLines(text);
    FenceFromIs(lines, 0, s);
    FenceFromIs(lines, s + 1, e);
  }

  lemma {:induction false} FenceFromIs(lines: seq<string>, from: nat, f: nat)
    requires from <= f < |lines| && IsFence(lines[f])
    requires forall k :: from <= k < f ==> !IsFence(lines[k])
    ensures FenceFrom(lines, from) == Some(f)
    decreases f - from
  {
    if from < f {
      FenceFromIs(lines, from + 1, f);
    }
  }

  /** No line of the extracted presentation starts with a fence. */
  lemma ExtractedHasNoFence(text: string, s: nat, e: nat)
    requires FirstTwoFences(SplitLines(text), s, e)
    ensures forall line :: line in SplitLines(Extract(text)) ==> !IsFence(line)
  {
    var lines := SplitLines(text);
    BetweenFirstTwoFences(text, s, e);
    var body := lines[s + 1..e];
    SplitLinesHaveNoNewlines(text);
    assert NoNewlines(body) by {
      forall k | 0 <= k < |body| ensures '\n' !in body[k] {
        assert body[k] == lines[s + 1 + k];
      }
    }
    SplitLinesJoinLines(body);
    forall line | line in SplitLines(Extract(text)) ensures !IsFence(line) {
      var k :| 0 <= k < |SplitLines(Extract(text))| && SplitLines(Extract(text))[k] == line;
      assert line == body[k] == lines[s + 1 + k];
    }
  }

  /** Everything from the second fence line on is discarded: two texts that agree up to it extract alike. */
  lemma OnlyFirstTwoFencesMatter(t1: string, t2: string, s: nat, e: nat)
    requires FirstTwoFences(SplitLines(t1), s, e)
    requires |SplitLines(t2)| > e && SplitLines(t2)[..e + 1] == SplitLines(t1)[..e + 1]
    ensures Extract(t1) == Extract(t2)
  {
    var l1, l2 := SplitLines(t1), SplitLines(t2);
    forall k | 0 <= k <= e ensures l1[k] == l2[k] {
      assert l1[k] == l1[..e + 1][k] && l2[k] == l2[..e + 1][k];
    }
    assert FirstTwoFences(l2, s, e);
    BetweenFirstTwoFences(t1, s, e);
    BetweenFirstTwoFences(t2, s, e);
    assert l1[s + 1..e] == l2[s + 1..e];
  }

  /** Two adjacent fence lines give the empty presentation. */
  lemma AdjacentFencesEmpty(text: string, s: nat)
    requires FirstTwoFences(SplitLines(text), s, s + 1)
    ensures Extract(text) == ""
  {
    BetweenFirstTwoFences(text, s, s + 1);
  }
}
