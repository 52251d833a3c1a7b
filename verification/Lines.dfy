/** The line counter that the configure service, the renderer adapter and the apply adapter share. */
module Lines {

  predicate IsBreak(c: char) {
    c == '\n' || c == '\r'
  }

  predicate IsInk(c: char) {
    !IsBreak(c) && c != ' ' && c != '\t'
  }

  predicate HasInk(s: string) {
    exists i | 0 <= i < |s| :: IsInk(s[i])
  }

  predicate OneLine(s: string) {
    forall i | 0 <= i < |s| :: !IsBreak(s[i])
  }

  // Appending one character to a text whose segments are known.
  function Extended(segments: seq<string>, c: char): (extended: seq<string>)
    requires segments != []
    ensures extended != []
  {
    var n := |segments| - 1;
    if IsBreak(c) then segments + [""] else segments[..n] + [segments[n] + [c]]
  }

  // The segments between CR and LF characters; an empty text has one empty segment.
  function Segments(text: string): (segments: seq<string>)
    ensures segments != []
  {
    if text == "" then [""] else Extended(Segments(text[..|text| - 1]), text[|text| - 1])
  }

  function InkCount(segments: seq<string>): nat {
    if segments == [] then 0
    else InkCount(segments[..|segments| - 1]) + if HasInk(segments[|segments| - 1]) then 1 else 0
  }

  // What the counter is for: the number of lines that show something.
  function NonEmptyLines(text: string): nat {
    InkCount(Segments(text))
  }

  method CountNonEmptyLines(text: string) returns (count: nat)
    ensures count == NonEmptyLines(text)
  {
    count := 0;
    var inLine := false;
    for i := 0 to |text|
      invariant var segments := Segments(text[..i]);
        && inLine == HasInk(segments[|segments| - 1])
        && count == InkCount(segments[..|segments| - 1])
    {
      assert text[..i + 1][..i] == text[..i];
      ghost var before := Segments(text[..i]);
      InkGrows(before[|before| - 1], text[i]);
      var r := text[i];
      if IsBreak(r) {
        assert Segments(text[..i + 1]) == before + [""];
        assert (before + [""])[..|before|] == before;
        if inLine {
          count := count + 1;
          inLine := false;
        }
      } else if r == ' ' || r == '\t' {
        continue;
      } else {
        inLine := true;
      }
    }
    assert text[..|text|] == text;
    if inLine {
      count := count + 1;
    }
  }

  lemma InkGrows(line: string, c: char)
    ensures HasInk(line + [c]) <==> HasInk(line) || IsInk(c)
  {
    if HasInk(line) {
      var i :| 0 <= i < |line| && IsInk(line[i]);
      assert IsInk((line + [c])[i]);
    }
    if IsInk(c) {
      assert IsInk((line + [c])[|line|]);
    }
  }

  lemma {:induction false} InkCountConcat(a: seq<string>, b: seq<string>)
    ensures InkCount(a + b) == InkCount(a) + InkCount(b)
  {
    if b == [] {
      assert a + b == a;
    } else {
      InkCountConcat(a, b[..|b| - 1]);
      assert (a + b)[..|a + b| - 1] == a + b[..|b| - 1];
    }
  }

  lemma ExtendedConcat(a: seq<string>, b: seq<string>, c: char)
    requires b != []
    ensures Extended(a + b, c) == a + Extended(b, c)
  {
    assert (a + b)[..|a + b| - 1] == a + b[..|b| - 1];
  }

  lemma {:induction false} SegmentsConcat(a: string, c: char, b: string)
    requires IsBreak(c)
    ensures Segments(a + [c] + b) == Segments(a) + Segments(b)
  {
    if b == "" {
      assert a + [c] + b == a + [c];
      SegmentsGrow(a, c);
    } else {
      var init, last := b[..|b| - 1], b[|b| - 1];
      assert a + [c] + b == (a + [c] + init) + [last];
      assert b == init + [last];
      SegmentsGrow(a + [c] + init, last);
      SegmentsGrow(init, last);
      SegmentsConcat(a, c, init);
      ExtendedConcat(Segments(a), Segments(init), last);
    }
  }

  lemma SegmentsGrow(text: string, c: char)
    ensures Segments(text + [c]) == Extended(Segments(text), c)
  {
    assert (text + [c])[..|text|] == text;
  }

  // Counting is additive over any line break ...
  lemma {:induction false} CountIsAdditive(a: string, c: char, b: string)
    requires IsBreak(c)
    ensures NonEmptyLines(a + [c] + b) == NonEmptyLines(a) + NonEmptyLines(b)
  {
    SegmentsConcat(a, c, b);
    InkCountConcat(Segments(a), Segments(b));
  }

  // ... so a CR before an LF makes no difference.
  lemma CrlfCountsAsLf(a: string, b: string)
    ensures NonEmptyLines(a + ['\r'] + ['\n'] + b) == NonEmptyLines(a + ['\n'] + b)
  {
    CountIsAdditive(a + ['\r'], '\n', b);
    TrailingBreakAddsNothing(a, '\r');
    CountIsAdditive(a, '\n', b);
  }

  lemma TrailingBreakAddsNothing(a: string, c: char)
    requires IsBreak(c)
    ensures NonEmptyLines(a + [c]) == NonEmptyLines(a)
  {
    var whole := a + [c];
    assert whole[..|whole| - 1] == a;
    InkCountConcat(Segments(a), [""]);
    assert InkCount([""]) == InkCount([]);
  }

  function Breaks(text: string): string {
    if text == "" then ""
    else
      var last := text[|text| - 1];
      Breaks(text[..|text| - 1]) + if IsBreak(last) then [last] else ""
  }

  // The segments with the breaks between them.
  function Woven(segments: seq<string>, breaks: string): string
    requires |segments| == |breaks| + 1
    decreases |segments|
  {
    if breaks == "" then segments[0]
    else
      var n := |breaks| - 1;
      Woven(segments[..n + 1], breaks[..n]) + [breaks[n]] + segments[n + 1]
  }

  // The segments and the breaks spell the text.
  lemma {:induction false} SegmentsSpellText(text: string)
    ensures |Segments(text)| == |Breaks(text)| + 1 && Woven(Segments(text), Breaks(text)) == text
  {
    if text != "" {
      var n := |text| - 1;
      var segments, breaks := Segments(text[..n]), Breaks(text[..n]);
      SegmentsSpellText(text[..n]);
      assert text == text[..n] + [text[n]];
      if IsBreak(text[n]) {
        WeavesBreak(segments, breaks, text[n]);
      } else {
        assert breaks + "" == breaks;
        WeavesChar(segments, breaks, text[n]);
      }
    }
  }

  lemma WeavesBreak(segments: seq<string>, breaks: string, c: char)
    requires |segments| == |breaks| + 1
    ensures Woven(segments + [""], breaks + [c]) == Woven(segments, breaks) + [c]
  {
    assert (segments + [""])[..|breaks| + 1] == segments && (breaks + [c])[..|breaks|] == breaks;
    assert Woven(segments, breaks) + [c] + "" == Woven(segments, breaks) + [c];
  }

  lemma WeavesChar(segments: seq<string>, breaks: string, c: char)
    requires |segments| == |breaks| + 1
    ensures Woven(segments[..|breaks|] + [segments[|breaks|] + [c]], breaks) == Woven(segments, breaks) + [c]
  {
    var n := |breaks|;
    var more := segments[..n] + [segments[n] + [c]];
    if n > 0 {
      assert more[..n] == segments[..n];
      var front := Woven(segments[..n], breaks[..n - 1]) + [breaks[n - 1]];
      assert front + (segments[n] + [c]) == front + segments[n] + [c];
    }
  }

  // None of the segments holds a break, and they are as many as the breaks plus one.
  lemma SegmentsAreLines(text: string)
    ensures forall s :: s in Segments(text) ==> OneLine(s)
    ensures |Segments(text)| == 1 + |(set i | 0 <= i < |text| && IsBreak(text[i]))|
  {
    SegmentsAreBreakFree(text);
    SegmentsSpellText(text);
    BreaksAreCounted(text);
  }

  lemma {:induction false} SegmentsAreBreakFree(text: string)
    ensures forall s :: s in Segments(text) ==> OneLine(s)
  {
    if text == "" {
      assert Segments(text) == [""];
    } else {
      var n := |text| - 1;
      SegmentsAreBreakFree(text[..n]);
      ExtendedKeepsLines(Segments(text[..n]), text[n]);
    }
  }

  lemma {:induction false} BreaksAreCounted(text: string)
    ensures |Breaks(text)| == |(set i | 0 <= i < |text| && IsBreak(text[i]))|
  {
    if text != "" {
      var n := |text| - 1;
      BreaksAreCounted(text[..n]);
      var before := set i | 0 <= i < n && IsBreak(text[..n][i]);
      var now := set i | 0 <= i < |text| && IsBreak(text[i]);
      assert now == if IsBreak(text[n]) then before + {n} else before;
    }
  }

  lemma ExtendedKeepsLines(segments: seq<string>, c: char)
    requires segments != [] && forall s :: s in segments ==> OneLine(s)
    ensures forall s :: s in Extended(segments, c) ==> OneLine(s)
  {
    assert segments[|segments| - 1] in segments;
  }
}
