/** What it means for a string to match a regular expression, and the plain checks
    of src/config/contracts.ts against the patterns they are written with. */
module Patterns {
  import opened Text
  import opened Json
  import opened Config
  import opened Unicode

  type Ranges = seq<(char, char)>

  /** A regular expression: a character class given by its ranges, one expression
      after another, either of two, or one that is repeated. */
  datatype Pattern =
    | Class(ranges: Ranges)
    | Then(first: Pattern, second: Pattern)
    | Either(left: Pattern, right: Pattern)
    | Repeat(of: Pattern, least: nat, most: Option<nat>)

  predicate InClass(c: char, ranges: Ranges) {
    exists i :: 0 <= i < |ranges| && ranges[i].0 <= c <= ranges[i].1
  }

  /** The expression matches the whole string. */
  predicate Matches(p: Pattern, s: string)
    decreases p, |s|, 0
  {
    match p
    case Class(ranges) => |s| == 1 && InClass(s[0], ranges)
    case Then(first, second) => exists k :: 0 <= k <= |s| && Matches(first, s[..k]) && Matches(second, s[k..])
    case Either(left, right) => Matches(left, s) || Matches(right, s)
    case Repeat(of, least, most) => Rounds(of, least, most, s)
  }

  /** As many rounds as allowed, none of them empty. */
  predicate Rounds(of: Pattern, least: nat, most: Option<nat>, s: string)
    decreases of, |s|, 1
  {
    if s == "" then least == 0
    else
      most != Some(0)
      && exists k :: 0 < k <= |s| && Matches(of, s[..k])
           && Rounds(of, if least > 0 then least - 1 else 0,
                     if most.Some? then Some(most.value - 1) else None, s[k..])
  }

  lemma {:induction false} ClassRounds(ranges: Ranges, least: nat, most: Option<nat>, s: string)
    ensures Rounds(Class(ranges), least, most, s) <==>
      least <= |s| && (most.Some? ==> |s| <= most.value) && forall i :: 0 <= i < |s| ==> InClass(s[i], ranges)
    decreases |s|
  {
    hide InClass;
    if s != "" {
      ClassRounds(ranges, if least > 0 then least - 1 else 0,
                  if most.Some? && most.value > 0 then Some(most.value - 1) else None, s[1..]);
      assert forall k :: 0 < k <= |s| && Matches(Class(ranges), s[..k]) ==> k == 1;
      assert s[..1] == [s[0]];
      assert forall i :: 1 <= i < |s| ==> s[i] == s[1..][i - 1];
      assert Matches(Class(ranges), s[..1]) <==> InClass(s[0], ranges);
    }
  }

  lemma OneRange(low: char, high: char)
    ensures forall c: char :: InClass(c, [(low, high)]) <==> low <= c <= high
  {
    var one := [(low, high)];
    assert one[0] == (low, high);
  }

  lemma TwoRanges(a: (char, char), b: (char, char))
    ensures forall c: char :: InClass(c, [a, b]) <==> a.0 <= c <= a.1 || b.0 <= c <= b.1
  {
    var both := [a, b];
    assert both[0] == a && both[1] == b;
  }

  lemma ThreeRanges(a: (char, char), b: (char, char), d: (char, char))
    ensures forall c: char :: InClass(c, [a, b, d]) <==> a.0 <= c <= a.1 || b.0 <= c <= b.1 || d.0 <= c <= d.1
  {
    var all := [a, b, d];
    assert all[0] == a && all[1] == b && all[2] == d;
  }

  /** A class in front takes the first character. */
  lemma ClassThen(ranges: Ranges, rest: Pattern, s: string)
    ensures Matches(Then(Class(ranges), rest), s) <==> s != "" && InClass(s[0], ranges) && Matches(rest, s[1..])
  {
    hide InClass;
    forall k | 0 <= k <= |s| ensures Matches(Class(ranges), s[..k]) <==> k == 1 && InClass(s[0], ranges) {}
  }

  // ------------------------------------------------------------------------ packs

  /** `[a-z][a-z0-9-]{0,62}` */
  const PACK_ID := Then(Class([('a', 'z')]), Repeat(Class([('a', 'z'), ('0', '9'), ('-', '-')]), 0, Some(62)))

  lemma PackIdIsPattern(s: string)
    ensures IsPackId(s) <==> Matches(PACK_ID, s)
  {
    OneRange('a', 'z');
    ThreeRanges(('a', 'z'), ('0', '9'), ('-', '-'));
    hide InClass;
    var rest: Ranges := [('a', 'z'), ('0', '9'), ('-', '-')];
    ClassThen([('a', 'z')], Repeat(Class(rest), 0, Some(62)), s);
    if s != "" {
      ClassRounds(rest, 0, Some(62), s[1..]);
      assert forall i :: 1 <= i < |s| ==> s[i] == s[1..][i - 1];
    }
  }

  /** `0|[1-9]\d*` */
  const NUMERAL := Either(Class([('0', '0')]), Then(Class([('1', '9')]), Repeat(Class([('0', '9')]), 0, None)))

  lemma NumeralIsPattern(s: string)
    ensures IsNumeral(s) <==> Matches(NUMERAL, s)
  {
    OneRange('0', '0');
    OneRange('1', '9');
    OneRange('0', '9');
    hide InClass;
    ClassThen([('1', '9')], Repeat(Class([('0', '9')]), 0, None), s);
    if s != "" {
      ClassRounds([('0', '9')], 0, None, s[1..]);
      assert forall i :: 1 <= i < |s| ==> s[i] == s[1..][i - 1];
    }
  }

  const DOT := Class([('.', '.')])

  /** `(0|[1-9]\d*)\.(0|[1-9]\d*)\.(0|[1-9]\d*)` */
  const VERSION := Then(NUMERAL, Then(DOT, Then(NUMERAL, Then(DOT, NUMERAL))))

  lemma NumeralHasNoDot(s: string)
    ensures IsNumeral(s) ==> '.' !in s
  {}

  lemma DotThen(more: Pattern, s: string)
    ensures Matches(Then(DOT, more), s) <==> s != "" && s[0] == '.' && Matches(more, s[1..])
  {
    OneRange('.', '.');
    ClassThen([('.', '.')], more, s);
  }

  /** Three numerals with dots between them. */
  predicate Dotted(s: string, a: string, b: string, c: string) {
    IsNumeral(a) && IsNumeral(b) && IsNumeral(c) && s == a + "." + b + "." + c
  }

  lemma JoinThree(a: string, b: string, c: string)
    ensures Join([a, b, c], ".") == a + "." + b + "." + c
  {
    assert [a, b, c][1..] == [b, c] && [b, c][1..] == [c];
    assert Join([b, c], ".") == b + "." + c;
  }

  lemma VersionIsDotted(s: string)
    ensures IsVersion(s) <==> exists a, b, c :: Dotted(s, a, b, c)
  {
    hide IsNumeral, Split;
    if IsVersion(s) {
      var parts := Split(s, '.');
      JoinSplit(s, '.');
      assert parts == [parts[0], parts[1], parts[2]];
      JoinThree(parts[0], parts[1], parts[2]);
      assert Dotted(s, parts[0], parts[1], parts[2]);
    }
    forall a, b, c | Dotted(s, a, b, c) ensures IsVersion(s) {
      NumeralHasNoDot(a);
      NumeralHasNoDot(b);
      NumeralHasNoDot(c);
      SplitJoin([a, b, c], '.');
      JoinThree(a, b, c);
    }
  }

  lemma ThenJoins(first: Pattern, second: Pattern, s: string, k: nat)
    requires k <= |s| && Matches(first, s[..k]) && Matches(second, s[k..])
    ensures Matches(Then(first, second), s)
  {}

  lemma NumeralDotMore(a: string, more: Pattern, rest: string)
    requires IsNumeral(a) && Matches(more, rest)
    ensures Matches(Then(NUMERAL, Then(DOT, more)), a + "." + rest)
  {
    hide *;
    var s := a + "." + rest;
    NumeralIsPattern(a);
    DotThen(more, "." + rest);
    assert ("." + rest)[1..] == rest;
    assert s[..|a|] == a && s[|a|..] == "." + rest;
    ThenJoins(NUMERAL, Then(DOT, more), s, |a|);
  }

  lemma DottedMatches(s: string, a: string, b: string, c: string)
    requires Dotted(s, a, b, c)
    ensures Matches(VERSION, s)
  {
    hide IsNumeral, Matches;
    NumeralIsPattern(c);
    NumeralDotMore(b, NUMERAL, c);
    NumeralDotMore(a, Then(NUMERAL, Then(DOT, NUMERAL)), b + "." + c);
    assert s == a + "." + (b + "." + c);
  }

  lemma ThenParts(first: Pattern, second: Pattern, s: string) returns (k: nat)
    requires Matches(Then(first, second), s)
    ensures k <= |s| && Matches(first, s[..k]) && Matches(second, s[k..])
  {
    k :| k <= |s| && Matches(first, s[..k]) && Matches(second, s[k..]);
  }

  lemma MatchesDotted(s: string) returns (a: string, b: string, c: string)
    requires Matches(VERSION, s)
    ensures Dotted(s, a, b, c)
  {
    hide Matches, IsNumeral;
    var k := ThenParts(NUMERAL, Then(DOT, Then(NUMERAL, Then(DOT, NUMERAL))), s);
    a := s[..k];
    DotThen(Then(NUMERAL, Then(DOT, NUMERAL)), s[k..]);
    var rest := s[k..][1..];
    var l := ThenParts(NUMERAL, Then(DOT, NUMERAL), rest);
    b := rest[..l];
    DotThen(NUMERAL, rest[l..]);
    c := rest[l..][1..];
    NumeralIsPattern(a);
    NumeralIsPattern(b);
    NumeralIsPattern(c);
    assert rest == b + "." + c;
    assert s == a + "." + rest;
  }

  lemma VersionIsPattern(s: string)
    ensures IsVersion(s) <==> Matches(VERSION, s)
  {
    hide Matches, Dotted, IsVersion;
    VersionIsDotted(s);
    if Matches(VERSION, s) {
      var a, b, c := MatchesDotted(s);
    }
    forall a, b, c | Dotted(s, a, b, c) ensures Matches(VERSION, s) {
      DottedMatches(s, a, b, c);
    }
  }

  /** `[a-f0-9]{40}(?:[a-f0-9]{24})?` */
  const COMMIT := Then(Repeat(Class([('a', 'f'), ('0', '9')]), 40, Some(40)),
                       Repeat(Repeat(Class([('a', 'f'), ('0', '9')]), 24, Some(24)), 0, Some(1)))

  lemma OnceOrNot(p: Pattern, s: string)
    ensures Matches(Repeat(p, 0, Some(1)), s) <==> s == "" || Matches(p, s)
  {
    if s != "" {
      assert s[..|s|] == s && s[|s|..] == "";
      assert forall k :: 0 < k <= |s| ==> (Rounds(p, 0, Some(0), s[k..]) <==> k == |s|);
    }
  }

  lemma CommitIsPattern(s: string)
    ensures IsCommit(s) <==> Matches(COMMIT, s)
  {
    TwoRanges(('a', 'f'), ('0', '9'));
    hide InClass, Rounds;
    var hex: Ranges := [('a', 'f'), ('0', '9')];
    forall k | 0 <= k <= |s|
      ensures Matches(Repeat(Class(hex), 40, Some(40)), s[..k]) <==>
        k == 40 && forall i :: 0 <= i < k ==> InClass(s[i], hex)
      ensures Matches(Repeat(Repeat(Class(hex), 24, Some(24)), 0, Some(1)), s[k..]) <==>
        |s| - k in {0, 24} && forall i :: k <= i < |s| ==> InClass(s[i], hex)
    {
      ClassRounds(hex, 40, Some(40), s[..k]);
      OnceOrNot(Repeat(Class(hex), 24, Some(24)), s[k..]);
      ClassRounds(hex, 24, Some(24), s[k..]);
      assert forall i :: k <= i < |s| ==> s[i] == s[k..][i - k];
    }
    if |s| >= 40 {
      assert Matches(Repeat(Class(hex), 40, Some(40)), s[..40]) <==> forall i :: 0 <= i < 40 ==> InClass(s[i], hex);
    }
  }

  // ------------------------------------------------------------------------ paths

  /** `[/\\]|[A-Za-z]:[/\\]` */
  const ABSOLUTE := Either(
    Class([('/', '/'), ('\\', '\\')]),
    Then(Class([('A', 'Z'), ('a', 'z')]), Then(Class([(':', ':')]), Class([('/', '/'), ('\\', '\\')]))))

  predicate Starts(p: Pattern, s: string) {
    exists k :: 0 <= k <= |s| && Matches(p, s[..k])
  }

  lemma AbsoluteIsPattern(s: string)
    ensures IsAbsolute(s) <==> Starts(ABSOLUTE, s)
  {
    TwoRanges(('/', '/'), ('\\', '\\'));
    TwoRanges(('A', 'Z'), ('a', 'z'));
    OneRange(':', ':');
    hide InClass;
    var slash: Ranges := [('/', '/'), ('\\', '\\')];
    var letter: Ranges := [('A', 'Z'), ('a', 'z')];
    forall k | 0 <= k <= |s|
      ensures Matches(ABSOLUTE, s[..k]) <==>
        (k == 1 && InClass(s[0], slash))
        || (k == 3 && InClass(s[0], letter) && s[1] == ':' && InClass(s[2], slash))
    {
      var t := s[..k];
      ClassThen(letter, Then(Class([(':', ':')]), Class(slash)), t);
      if t != "" {
        ClassThen([(':', ':')], Class(slash), t[1..]);
      }
    }
    hide Matches;
    if s != "" { assert Matches(ABSOLUTE, s[..1]) <==> InClass(s[0], slash); }
    if |s| > 2 { assert Matches(ABSOLUTE, s[..3]) <==> InClass(s[0], letter) && s[1] == ':' && InClass(s[2], slash); }
  }

  /** The same name, whatever the case of its letters. */
  predicate Spells(part: string, name: string) {
    |part| == |name|
    && forall i :: 0 <= i < |part| ==>
         part[i] == name[i] || ('a' <= name[i] <= 'z' && part[i] as int == name[i] as int - 32)
  }

  lemma SpellsLower(part: string, name: string)
    requires forall i :: 0 <= i < |name| ==> !('A' <= name[i] <= 'Z')
    ensures Spells(part, name) <==> LowerCase(part) == name
  {
    var lower := LowerCase(part);
    if |part| == |name| {
      forall i | 0 <= i < |part|
        ensures lower[i] == name[i] <==>
          part[i] == name[i] || ('a' <= name[i] <= 'z' && part[i] as int == name[i] as int - 32)
      {}
    }
  }

  /** `/^(con|prn|aux|nul|com[1-9]|lpt[1-9])$/i` */
  predicate Reserved(part: string) {
    Spells(part, "con") || Spells(part, "prn") || Spells(part, "aux") || Spells(part, "nul")
    || exists d: char :: '1' <= d <= '9' && (Spells(part, "com" + [d]) || Spells(part, "lpt" + [d]))
  }

  lemma ReservedIs(part: string)
    ensures IsReserved(part) <==> Reserved(part)
  {
    SpellsLower(part, "con");
    SpellsLower(part, "prn");
    SpellsLower(part, "aux");
    SpellsLower(part, "nul");
    forall d: char | '1' <= d <= '9'
      ensures Spells(part, "com" + [d]) <==> LowerCase(part) == "com" + [d]
      ensures Spells(part, "lpt" + [d]) <==> LowerCase(part) == "lpt" + [d]
    {
      SpellsLower(part, "com" + [d]);
      SpellsLower(part, "lpt" + [d]);
    }
    hide Spells;
    var name := LowerCase(part);
    if |name| == 4 {
      assert name == name[..3] + [name[3]];
    }
    hide LowerCase;
    assert IsReserved(part) ==> Reserved(part);
  }

  /** Characters and names that no segment of a path may have. */
  predicate SafePart(part: string) {
    part != "" && part != "." && part != ".." && !Reserved(part)
    && '<' !in part && '>' !in part && ':' !in part && '\"' !in part && '|' !in part && '?' !in part && '*' !in part
  }

  lemma SafeSegmentIs(part: string)
    ensures IsSafeSegment(part) <==> SafePart(part)
  {
    ReservedIs(part);
    hide Reserved, IsReserved;
    var banned := "<>:\"|?*";
    assert forall c: char :: c in banned <==>
      c == '<' || c == '>' || c == ':' || c == '\"' || c == '|' || c == '?' || c == '*';
  }

  /** A longest stretch without separators. */
  predicate Stretch(s: string, separators: string, i: int, j: int) {
    0 <= i <= j <= |s| && (i == 0 || s[i - 1] in separators) && (j == |s| || s[j] in separators)
    && forall k :: i <= k < j ==> s[k] !in separators
  }

  lemma FirstSeparator(s: string, separator: char) returns (k: nat)
    ensures k <= |s| && (k == |s| || s[k] == separator) && forall i :: 0 <= i < k ==> s[i] != separator
  {
    k := 0;
    while k < |s| && s[k] != separator
      invariant k <= |s| && forall i :: 0 <= i < k ==> s[i] != separator
    {
      k := k + 1;
    }
  }

  /** Splitting gives the stretches between the separators. */
  lemma {:induction false} SplitStretches(s: string, separator: char, part: string)
    ensures part in Split(s, separator) <==> exists i, j :: Stretch(s, [separator], i, j) && s[i..j] == part
    decreases |s|
  {
    hide Split;
    var k := FirstSeparator(s, separator);
    assert s == s[..k] + s[k..];
    SplitPart(s[..k], s[k..], separator);
    assert Stretch(s, [separator], 0, k);
    if k < |s| {
      var rest := s[k + 1..];
      assert s[k..][1..] == rest;
      SplitStretches(rest, separator, part);
      forall i, j | Stretch(rest, [separator], i, j)
        ensures Stretch(s, [separator], i + k + 1, j + k + 1) && s[i + k + 1..j + k + 1] == rest[i..j]
      {
        assert forall x :: 0 <= x < |rest| ==> rest[x] == s[x + k + 1];
      }
      forall i, j | Stretch(s, [separator], i, j) && i > 0
        ensures Stretch(rest, [separator], i - k - 1, j - k - 1) && rest[i - k - 1..j - k - 1] == s[i..j]
      {
        assert s[i - 1] == separator;
        assert forall x :: 0 <= x < |rest| ==> rest[x] == s[x + k + 1];
      }
    }
    forall j | Stretch(s, [separator], 0, j) ensures j == k {}
  }

  lemma StretchIsPart(s: string, separator: char, i: int, j: int)
    requires Stretch(s, [separator], i, j)
    ensures s[i..j] in Split(s, separator)
  {
    SplitStretches(s, separator, s[i..j]);
  }

  lemma PartIsStretch(s: string, separator: char, part: string) returns (i: int, j: int)
    requires part in Split(s, separator)
    ensures Stretch(s, [separator], i, j) && s[i..j] == part
  {
    SplitStretches(s, separator, part);
    i, j :| Stretch(s, [separator], i, j) && s[i..j] == part;
  }

  predicate AllSafe(parts: seq<string>) {
    forall i :: 0 <= i < |parts| ==> IsSafeSegment(parts[i])
  }

  lemma AllPartsSafe(s: string)
    ensures AllSafe(Split(s, '/')) <==> forall i, j :: Stretch(s, "/", i, j) ==> SafePart(s[i..j])
  {
    hide Split, SafePart, IsSafeSegment;
    var parts := Split(s, '/');
    if AllSafe(parts) {
      forall i, j | Stretch(s, "/", i, j) ensures SafePart(s[i..j]) {
        StretchIsPart(s, '/', i, j);
        SafeSegmentIs(s[i..j]);
      }
    } else {
      var x :| 0 <= x < |parts| && !IsSafeSegment(parts[x]);
      var i, j := PartIsStretch(s, '/', parts[x]);
      SafeSegmentIs(s[i..j]);
    }
  }

  /** A relative path with slashes and safe parts only, in Unicode normal form. */
  predicate Portable(s: string, rules: Rules) {
    s != "" && s[0] != '/' && '\\' !in s && rules.normal(s)
    && forall i, j :: 0 <= i <= j <= |s| && Stretch(s, "/", i, j) ==> SafePart(s[i..j])
  }

  /** Exactly which paths inside a repository are accepted. */
  lemma PortablePathExactlyWhen(s: string, rules: Rules)
    ensures IsPortablePath(s, rules) <==> Portable(s, rules)
  {
    AllPartsSafe(s);
    hide Split, SafePart, IsSafeSegment;
  }

  lemma SlashedStretch(s: string, i: int, j: int)
    ensures Stretch(Slashed(s), "/", i, j) <==> Stretch(s, "/\\", i, j)
    ensures Stretch(s, "/\\", i, j) ==> Slashed(s)[i..j] == s[i..j]
  {
    var t := Slashed(s);
    forall k | 0 <= k < |s| ensures t[k] in "/" <==> s[k] in "/\\" {}
  }

  lemma UpwardsIs(s: string)
    ensures ".." in Split(Slashed(s), '/') <==> exists i, j :: Stretch(s, "/\\", i, j) && s[i..j] == ".."
  {
    SplitStretches(Slashed(s), '/', "..");
    forall i, j
      ensures Stretch(Slashed(s), "/", i, j) <==> Stretch(s, "/\\", i, j)
      ensures Stretch(s, "/\\", i, j) ==> Slashed(s)[i..j] == s[i..j]
    {
      SlashedStretch(s, i, j);
    }
    hide Stretch, Slashed, Split;
  }

  lemma {:induction false} CodeUnitsAreUtf16(s: string)
    ensures CodeUnits(s) == |Utf16(s)|
  {
    if s != "" {
      CodeUnitsAreUtf16(s[1..]);
    }
  }

  /** At most 4096 UTF-16 code units, no line break or null character, in Unicode
      normal form; absolute without going upwards, or relative with slashes and safe
      parts only. */
  predicate RootLike(s: string, rules: Rules) {
    s != "" && |Utf16(s)| <= 4096 && rules.normal(s)
    && (forall i :: 0 <= i < |s| ==> s[i] as int != 13 && s[i] as int != 10 && s[i] as int != 0)
    && if Starts(ABSOLUTE, s)
       then forall i, j :: 0 <= i <= j <= |s| && Stretch(s, "/\\", i, j) ==> s[i..j] != ".."
       else '\\' !in s && forall i, j :: 0 <= i <= j <= |s| && Stretch(s, "/", i, j) ==> SafePart(s[i..j])
  }

  /** Exactly which worktree roots are accepted. */
  lemma WorktreeRootExactlyWhen(s: string, rules: Rules)
    ensures IsWorktreeRoot(s, rules) <==> RootLike(s, rules)
  {
    AllPartsSafe(s);
    UpwardsIs(s);
    CodeUnitsAreUtf16(s);
    AbsoluteIsPattern(s);
    hide Split, Slashed, SafePart, IsSafeSegment, CodeUnits, Utf16, IsAbsolute, Starts;
  }
}
