/** The "%s" pattern checks of the configuration validator, and the substitution they make safe. */
module Patterns {
  import opened Text

  // What a scan for format directives finds: only "%s", or the first directive that is something else.
  datatype Scan = Placeholders(count: nat) | Dangling | Unsupported(next: char)

  function ScanOf(value: string): Scan {
    if value == "" then Placeholders(0)
    else if value[0] != '%' then ScanOf(value[1..])
    else if |value| == 1 then Dangling
    else if value[1] != 's' then Unsupported(value[1])
    else Counting(1, ScanOf(value[2..]))
  }

  function Counting(more: nat, scan: Scan): Scan {
    match scan
    case Placeholders(count) => Placeholders(more + count)
    case _ => scan
  }

  datatype Problem =
    | Required
    | OuterSpace
    | InnerSpace
    | Wildcard
    | Directive(scan: Scan)
    | PlaceholderCount(expected: nat)

  method ValidateFormatPlaceholders(value: string, placeholders: nat) returns (problem: Option<Problem>)
    ensures problem == match ScanOf(value)
                       case Placeholders(count) => if count == placeholders then None else Some(PlaceholderCount(placeholders))
                       case bad => Some(Directive(bad))
    ensures problem.None? <==> IsPattern(value, placeholders)
  {
    CountedIffJoined(value, placeholders);
    var count := 0;
    var i := 0;
    while i < |value|
      invariant 0 <= i <= |value|
      invariant ScanOf(value) == Counting(count, ScanOf(value[i..]))
    {
      assert value[i..][1..] == value[i + 1..];
      if value[i] != '%' {
        i := i + 1;
        continue;
      }
      if i + 1 >= |value| {
        return Some(Directive(Dangling));
      }
      var next := value[i + 1];
      if next != 's' {
        return Some(Directive(Unsupported(next)));
      }
      assert value[i..][2..] == value[i + 2..];
      count := count + 1;
      i := i + 2;
    }
    if count != placeholders {
      return Some(PlaceholderCount(placeholders));
    }
    return None;
  }

  predicate PercentFree(s: string) {
    forall i | 0 <= i < |s| :: s[i] != '%'
  }

  // The literals with "%s" between each two of them.
  function Join(literals: seq<string>): string
    requires literals != []
  {
    if |literals| == 1 then literals[0] else literals[0] + "%s" + Join(literals[1..])
  }

  ghost predicate Spells(literals: seq<string>, value: string, placeholders: nat) {
    && |literals| == placeholders + 1
    && (forall l | l in literals :: PercentFree(l))
    && Join(literals) == value
  }

  // What the check accepts: n + 1 percent-free literals around n placeholders.
  ghost predicate IsPattern(value: string, placeholders: nat) {
    exists literals :: Spells(literals, value, placeholders)
  }

  lemma CountedIffJoined(value: string, placeholders: nat)
    ensures ScanOf(value) == Placeholders(placeholders) <==> IsPattern(value, placeholders)
  {
    if ScanOf(value) == Placeholders(placeholders) {
      var literals := Literals(value);
      assert Spells(literals, value, placeholders);
    }
    if IsPattern(value, placeholders) {
      var literals :| Spells(literals, value, placeholders);
      ScanOfJoin(literals);
    }
  }

  function Literals(value: string): (literals: seq<string>)
    requires ScanOf(value).Placeholders?
    ensures literals != [] && Spells(literals, value, ScanOf(value).count)
  {
    if value == "" then
      assert Spells([""], value, 0);
      [""]
    else if value[0] != '%' then
      var rest := Literals(value[1..]);
      var literals := [[value[0]] + rest[0]] + rest[1..];
      JoinGrows(rest, value[0]);
      assert PercentFree(rest[0]);
      assert value == [value[0]] + value[1..];
      literals
    else
      var rest := Literals(value[2..]);
      var literals := [""] + rest;
      assert literals[1..] == rest;
      assert value == "%s" + value[2..];
      literals
  }

  lemma JoinGrows(literals: seq<string>, c: char)
    requires literals != []
    ensures Join([[c] + literals[0]] + literals[1..]) == [c] + Join(literals)
  {
    var grown := [[c] + literals[0]] + literals[1..];
    assert grown[1..] == literals[1..];
    if |literals| > 1 {
      assert [c] + literals[0] + "%s" + Join(literals[1..]) == [c] + (literals[0] + "%s" + Join(literals[1..]));
    }
  }

  lemma {:induction false} ScanSkipsLiteral(literal: string, rest: string)
    requires PercentFree(literal)
    ensures ScanOf(literal + rest) == ScanOf(rest)
  {
    if literal == "" {
      assert literal + rest == rest;
    } else {
      ScanSkipsLiteral(literal[1..], rest);
      assert (literal + rest)[1..] == literal[1..] + rest;
    }
  }

  lemma {:induction false} ScanOfJoin(literals: seq<string>)
    requires literals != [] && forall l | l in literals :: PercentFree(l)
    ensures ScanOf(Join(literals)) == Placeholders(|literals| - 1)
  {
    if |literals| == 1 {
      ScanSkipsLiteral(literals[0], "");
      assert literals[0] + "" == literals[0];
    } else {
      var rest := "%s" + Join(literals[1..]);
      ScanOfJoin(literals[1..]);
      ScanSkipsLiteral(literals[0], rest);
      assert rest[2..] == Join(literals[1..]);
      assert literals[0] + "%s" + Join(literals[1..]) == literals[0] + rest;
    }
  }

  // Up to k the value is a pattern, and the directive at k is not "%s".
  ghost predicate StopsAt(value: string, k: nat) {
    && k < |value| && value[k] == '%' && !(k + 1 < |value| && value[k + 1] == 's')
    && exists n: nat :: IsPattern(value[..k], n)
  }

  // The directive complained of is the first one that is not "%s".
  lemma FirstBadDirective(value: string)
    ensures ScanOf(value) == Dangling <==> exists k: nat :: StopsAt(value, k) && k + 1 == |value|
    ensures forall c ::
              ScanOf(value) == Unsupported(c) <==> exists k: nat :: StopsAt(value, k) && k + 1 < |value| && value[k + 1] == c
  {
    if !ScanOf(value).Placeholders? {
      var k := Stop(value);
      CountedIffJoined(value[..k], ScanOf(value[..k]).count);
      assert StopsAt(value, k);
    }
    forall k: nat | StopsAt(value, k)
      ensures ScanOf(value) == if k + 1 == |value| then Dangling else Unsupported(value[k + 1])
    {
      var n: nat :| IsPattern(value[..k], n);
      CountedIffJoined(value[..k], n);
      ScanPasses(value[..k], value[k..]);
      assert value[..k] + value[k..] == value;
    }
  }

  lemma {:induction false} ScanPasses(head: string, rest: string)
    requires ScanOf(head).Placeholders?
    ensures ScanOf(head + rest) == Counting(ScanOf(head).count, ScanOf(rest))
  {
    if head == "" {
      assert head + rest == rest;
    } else {
      var n := if head[0] != '%' then 1 else 2;
      ScanPasses(head[n..], rest);
      assert (head + rest)[n..] == head[n..] + rest;
    }
  }

  lemma {:induction false} Stop(value: string) returns (k: nat)
    requires !ScanOf(value).Placeholders?
    ensures k < |value| && value[k] == '%' && ScanOf(value[..k]).Placeholders?
    ensures ScanOf(value) == if k + 1 == |value| then Dangling else Unsupported(value[k + 1])
    ensures k + 1 < |value| ==> value[k + 1] != 's'
  {
    if value[0] == '%' && (|value| == 1 || value[1] != 's') {
      k := 0;
    } else {
      var n := if value[0] != '%' then 1 else 2;
      var rest := Stop(value[n..]);
      k := n + rest;
      assert value[..k][n..] == value[n..][..rest];
    }
  }

  // Substitution as fmt.Sprintf does it for "%s"; undefined on any other directive or argument count.
  function Substitute(pattern: string, args: seq<string>): Option<string> {
    if pattern == "" then (if args == [] then Some("") else None)
    else if pattern[0] != '%' then Prefixed([pattern[0]], Substitute(pattern[1..], args))
    else if |pattern| == 1 || pattern[1] != 's' || args == [] then None
    else Prefixed(args[0], Substitute(pattern[2..], args[1..]))
  }

  function Prefixed(prefix: string, rest: Option<string>): Option<string> {
    match rest case None => None case Some(s) => Some(prefix + s)
  }

  // Substitution is total exactly on the accepted patterns.
  lemma {:induction false} SubstitutionIsTotal(pattern: string, args: seq<string>)
    ensures Substitute(pattern, args).Some? <==> IsPattern(pattern, |args|)
  {
    SubstitutesIffScans(pattern, args);
    CountedIffJoined(pattern, |args|);
  }

  lemma {:induction false} SubstitutesIffScans(pattern: string, args: seq<string>)
    ensures Substitute(pattern, args).Some? <==> ScanOf(pattern) == Placeholders(|args|)
  {
    if pattern == "" {
    } else if pattern[0] != '%' {
      SubstitutesIffScans(pattern[1..], args);
    } else if |pattern| > 1 && pattern[1] == 's' && args != [] {
      SubstitutesIffScans(pattern[2..], args[1..]);
    }
  }

  // With one placeholder, distinct targets give distinct subjects and distinct keys.
  lemma DistinctTargetsDistinctSubjects(pattern: string, target: string, other: string)
    requires IsPattern(pattern, 1)
    ensures Substitute(pattern, [target]).Some? && Substitute(pattern, [other]).Some?
    ensures Substitute(pattern, [target]) == Substitute(pattern, [other]) <==> target == other
  {
    SubstitutionIsTotal(pattern, [target]);
    SubstitutionIsTotal(pattern, [other]);
    var literals :| Spells(literals, pattern, 1);
    assert literals == [literals[0], literals[1]];
    OnePlaceholder(literals[0], literals[1], target);
    OnePlaceholder(literals[0], literals[1], other);
    var a, b := literals[0] + target + literals[1], literals[0] + other + literals[1];
    if a == b {
      assert target == a[|literals[0]|..|a| - |literals[1]|];
      assert other == b[|literals[0]|..|b| - |literals[1]|];
    }
  }

  lemma OnePlaceholder(before: string, after: string, target: string)
    requires PercentFree(before) && PercentFree(after)
    ensures Join([before, after]) == before + "%s" + after
    ensures Substitute(before + "%s" + after, [target]) == Some(before + target + after)
  {
    assert before + "%s" + after == before + ("%s" + after);
    assert after + "" == after;
    SubstituteSkipsLiteral(after, "", []);
    PlaceholderFirst(after, target);
    SubstituteSkipsLiteral(before, "%s" + after, [target]);
    assert before + (target + after) == before + target + after;
  }

  lemma PlaceholderFirst(after: string, target: string)
    ensures Substitute("%s" + after, [target]) == Prefixed(target, Substitute(after, []))
  {
    assert ("%s" + after)[2..] == after && [target][1..] == [];
  }

  lemma {:induction false} SubstituteSkipsLiteral(literal: string, rest: string, args: seq<string>)
    requires PercentFree(literal)
    ensures Substitute(literal + rest, args) == Prefixed(literal, Substitute(rest, args))
  {
    if literal == "" {
      assert literal + rest == rest;
      assert Substitute(rest, args).Some? ==> "" + Substitute(rest, args).value == Substitute(rest, args).value;
    } else {
      SubstituteSkipsLiteral(literal[1..], rest, args);
      assert (literal + rest)[1..] == literal[1..] + rest;
      PrefixedTwice(literal, Substitute(rest, args));
    }
  }

  lemma PrefixedTwice(literal: string, rest: Option<string>)
    requires literal != ""
    ensures Prefixed([literal[0]], Prefixed(literal[1..], rest)) == Prefixed(literal, rest)
  {
    if rest.Some? {
      assert [literal[0]] + (literal[1..] + rest.value) == literal + rest.value;
    }
  }

  predicate HasWildcard(s: string) {
    exists i | 0 <= i < |s| :: s[i] == '*' || s[i] == '>'
  }

  method ValidateSubjectPattern(pattern: string, placeholders: nat) returns (problem: Option<Problem>)
    ensures problem.None? <==>
            && pattern != "" && IsPattern(pattern, placeholders)
            && forall c | c in pattern :: !IsSpace(c) && c != '*' && c != '>'
    ensures problem == Some(Required) <==> pattern == ""
    ensures problem == Some(OuterSpace) <==> !InkEnds(pattern)
    ensures problem == Some(InnerSpace) <==> InkEnds(pattern) && !FreeOfSpace(pattern)
    ensures problem == Some(Wildcard) <==> FreeOfSpace(pattern) && HasWildcard(pattern)
  {
    if pattern == "" {
      return Some(Required);
    }
    TrimGivesInkEnds(pattern);
    if TrimSpace(pattern) != pattern {
      return Some(OuterSpace);
    }
    if !FreeOfSpace(pattern) {
      return Some(InnerSpace);
    }
    if HasWildcard(pattern) {
      return Some(Wildcard);
    }
    problem := ValidateFormatPlaceholders(pattern, placeholders);
  }

  // A key pattern may hold the wildcard characters.
  method ValidateKeyPattern(pattern: string) returns (problem: Option<Problem>)
    ensures problem.None? <==> pattern != "" && IsPattern(pattern, 1) && forall c | c in pattern :: !IsSpace(c)
    ensures problem == Some(Required) <==> pattern == ""
    ensures problem == Some(OuterSpace) <==> !InkEnds(pattern)
    ensures problem == Some(InnerSpace) <==> InkEnds(pattern) && !FreeOfSpace(pattern)
    ensures problem != Some(Wildcard)
  {
    if pattern == "" {
      return Some(Required);
    }
    TrimGivesInkEnds(pattern);
    if TrimSpace(pattern) != pattern {
      return Some(OuterSpace);
    }
    if !FreeOfSpace(pattern) {
      return Some(InnerSpace);
    }
    problem := ValidateFormatPlaceholders(pattern, 1);
  }
}
