/** Character classes and the stock Option type shared by the other modules. */
module Text {

  datatype Option<+T> = None | Some(value: T)

  // The characters with the Unicode White_Space property, as Go's unicode.IsSpace tests them.
  predicate IsSpace(c: char) {
    || '\U{0009}' <= c <= '\U{000D}'
    || c == ' ' || c == '\U{0085}' || c == '\U{00A0}' || c == '\U{1680}'
    || '\U{2000}' <= c <= '\U{200A}'
    || c == '\U{2028}' || c == '\U{2029}' || c == '\U{202F}' || c == '\U{205F}' || c == '\U{3000}'
  }

  // A string that strings.TrimSpace reduces to the empty string.
  predicate Blank(s: string) {
    forall i | 0 <= i < |s| :: IsSpace(s[i])
  }

  function TrimLeft(s: string): string {
    if s != [] && IsSpace(s[0]) then TrimLeft(s[1..]) else s
  }

  function TrimRight(s: string): string {
    if s != [] && IsSpace(s[|s| - 1]) then TrimRight(s[..|s| - 1]) else s
  }

  function TrimSpace(s: string): string {
    TrimRight(TrimLeft(s))
  }

  // Blank is the test the source writes as strings.TrimSpace(s) == "".
  lemma {:induction false} BlankMeansTrimmedAway(s: string)
    ensures Blank(s) <==> TrimSpace(s) == ""
  {
    TrimLeftKeepsInk(s);
    TrimRightKeepsInk(TrimLeft(s));
  }

  lemma {:induction false} TrimLeftKeepsInk(s: string)
    ensures Blank(s) <==> Blank(TrimLeft(s))
    ensures Blank(s) ==> TrimLeft(s) == ""
  {
    if s != [] && IsSpace(s[0]) {
      TrimLeftKeepsInk(s[1..]);
      assert s == [s[0]] + s[1..];
    }
  }

  lemma {:induction false} TrimRightKeepsInk(s: string)
    ensures Blank(s) <==> Blank(TrimRight(s))
    ensures Blank(s) ==> TrimRight(s) == ""
  {
    if s != [] && IsSpace(s[|s| - 1]) {
      TrimRightKeepsInk(s[..|s| - 1]);
      assert s == s[..|s| - 1] + [s[|s| - 1]];
    }
  }

  predicate FreeOfSpace(s: string) {
    forall i | 0 <= i < |s| :: !IsSpace(s[i])
  }

  // Neither end is white space.
  predicate InkEnds(s: string) {
    s == "" || (!IsSpace(s[0]) && !IsSpace(s[|s| - 1]))
  }

  // Trimming always gives ink at both ends, and changes only what had none.
  lemma TrimGivesInkEnds(s: string)
    ensures InkEnds(TrimSpace(s))
    ensures TrimSpace(s) == s <==> InkEnds(s)
  {
    LeftIsInk(s);
    RightIsInk(TrimLeft(s));
  }

  lemma {:induction false} LeftIsInk(s: string)
    ensures TrimLeft(s) == "" || !IsSpace(TrimLeft(s)[0])
  {
    if s != [] && IsSpace(s[0]) {
      LeftIsInk(s[1..]);
    }
  }

  lemma {:induction false} RightIsInk(s: string)
    ensures TrimRight(s) == "" || (TrimRight(s)[0] == s[0] && !IsSpace(TrimRight(s)[|TrimRight(s)| - 1]))
  {
    if s != [] && IsSpace(s[|s| - 1]) {
      RightIsInk(s[..|s| - 1]);
    }
  }

  // Trimming takes white space away at both ends and nothing else.
  lemma TrimKeepsTheMiddle(s: string) returns (i: nat, j: nat)
    ensures i <= j <= |s| && TrimSpace(s) == s[i..j] && Blank(s[..i]) && Blank(s[j..])
  {
    i := LeftCut(s);
    j := RightCut(TrimLeft(s));
    j := i + j;
    assert s[i..][..j - i] == s[i..j] && s[i..][j - i..] == s[j..];
  }

  lemma {:induction false} LeftCut(s: string) returns (i: nat)
    ensures i <= |s| && TrimLeft(s) == s[i..] && Blank(s[..i])
  {
    i := 0;
    if s != [] && IsSpace(s[0]) {
      var rest := LeftCut(s[1..]);
      i := rest + 1;
      assert s[..i] == [s[0]] + s[1..][..rest];
    }
  }

  lemma {:induction false} RightCut(s: string) returns (j: nat)
    ensures j <= |s| && TrimRight(s) == s[..j] && Blank(s[j..])
  {
    j := |s|;
    if s != [] && IsSpace(s[|s| - 1]) {
      var n := |s| - 1;
      j := RightCut(s[..n]);
      assert s[j..] == s[..n][j..] + [s[n]];
    }
  }
}
