/** The JSON Pointer evaluator of the acceptance verifier
    (src/acceptance/service.ts), against RFC 6901. */
module Pointer {
  import opened Text
  import opened Json

  /** `String.prototype.replaceAll` with a literal pattern. */
  function ReplaceAll(s: string, pattern: string, replacement: string): string
    requires pattern != ""
  {
    if |s| < |pattern| then s
    else if s[..|pattern|] == pattern
    then replacement + ReplaceAll(s[|pattern|..], pattern, replacement)
    else [s[0]] + ReplaceAll(s[1..], pattern, replacement)
  }

  /** Decoding of one reference token: "~1" first, then "~0". */
  function Decode(token: string): string {
    ReplaceAll(ReplaceAll(token, "~1", "/"), "~0", "~")
  }

  function DecodeAll(tokens: seq<string>): (r: seq<string>)
    ensures |r| == |tokens|
    ensures forall i :: 0 <= i < |tokens| ==> r[i] == Decode(tokens[i])
  {
    if tokens == [] then [] else [Decode(tokens[0])] + DecodeAll(tokens[1..])
  }

  /** The array index a property name denotes. */
  function IndexOf(name: string): Option<nat> {
    if name != "" && (forall i :: 0 <= i < |name| ==> IsDigit(name[i]))
       && (name[0] == '0' ==> |name| == 1)
    then Some(Undecimal(name))
    else None
  }

  /** An own property, or undefined. */
  function Property(v: Json, name: string): Option<Json> {
    match v
    case Obj(fields) => if name in Keys(fields) then Some(Lookup(fields, name)) else None
    case Arr(items) =>
      if name == "length" then Some(Num(|items|))
      else
        (match IndexOf(name)
         case Some(i) => if i < |items| then Some(items[i]) else None
         case None => None)
    case _ => None
  }

  /** The reduction over the decoded tokens. */
  function Follow(v: Option<Json>, names: seq<string>): Option<Json>
    decreases names
  {
    if names == [] then v
    else Follow(if v.Some? then Property(v.value, names[0]) else None, names[1..])
  }

  /** `jsonPointer`. */
  function Evaluate(v: Json, pointer: string): Option<Json> {
    if pointer == "" then Some(v)
    else if pointer[0] != '/' then None
    else Follow(Some(v), DecodeAll(Split(pointer[1..], '/')))
  }

  // ---------------------------------------------------- RFC 6901, section 3

  function EncodeChar(c: char): string {
    if c == '~' then "~0" else if c == '/' then "~1" else [c]
  }

  /** The escaped form of a property name. */
  function Encode(name: string): string {
    if name == "" then "" else EncodeChar(name[0]) + Encode(name[1..])
  }

  function EncodeAll(path: seq<string>): (r: seq<string>)
    ensures |r| == |path|
    ensures forall i :: 0 <= i < |path| ==> r[i] == Encode(path[i])
  {
    if path == [] then [] else [Encode(path[0])] + EncodeAll(path[1..])
  }

  /** The pointer that names a path. */
  function Print(path: seq<string>): string {
    if path == [] then "" else "/" + Join(EncodeAll(path), "/")
  }

  /** The value at a path, one property at a time. */
  function ValueAt(v: Json, path: seq<string>): Option<Json>
    decreases path
  {
    if path == [] then Some(v)
    else
      match Property(v, path[0])
      case Some(w) => ValueAt(w, path[1..])
      case None => None
  }

  // ---------------------------------------------------- RFC 6901, section 4

  /** Reading a token once from the left, each escape where it stands. */
  function Unescape(token: string): string {
    if token == "" then ""
    else if |token| >= 2 && token[..2] == "~1" then "/" + Unescape(token[2..])
    else if |token| >= 2 && token[..2] == "~0" then "~" + Unescape(token[2..])
    else [token[0]] + Unescape(token[1..])
  }

  /** The first replacement leaves what a token starts with recognisable. */
  lemma FirstPassHead(token: string)
    requires token != "" && !(|token| >= 2 && token[..2] == "~1")
    ensures var first := ReplaceAll(token, "~1", "/");
            first == [token[0]] + ReplaceAll(token[1..], "~1", "/")
  {}

  lemma FirstPassZero(rest: string)
    ensures ReplaceAll("0" + rest, "~1", "/") == "0" + ReplaceAll(rest, "~1", "/")
  {}

  /** The first replacement never brings a "0" behind a "~". */
  lemma FirstPassSecond(rest: string)
    requires !(rest != "" && rest[0] == '0')
    ensures var first := ReplaceAll(rest, "~1", "/"); !(first != "" && first[0] == '0')
  {}

  lemma SecondPassPlain(c: char, rest: string)
    requires c == '~' ==> !(rest != "" && rest[0] == '0')
    ensures ReplaceAll([c] + rest, "~0", "~") == [c] + ReplaceAll(rest, "~0", "~")
  {
    assert ([c] + rest)[1..] == rest;
    if rest != "" { assert ([c] + rest)[..2] == [c, rest[0]]; }
  }

  lemma SecondPassEscape(rest: string)
    ensures ReplaceAll("~0" + rest, "~0", "~") == "~" + ReplaceAll(rest, "~0", "~")
  {
    assert ("~0" + rest)[2..] == rest && ("~0" + rest)[..2] == "~0";
  }

  /** The two replacements, in the order the code makes them, read every token
      as a single left-to-right pass does. */
  lemma {:induction false} DecodeIsUnescape(token: string)
    ensures Decode(token) == Unescape(token)
    decreases |token|
  {
    if token == "" {
    } else if |token| >= 2 && token[..2] == "~1" {
      DecodeIsUnescape(token[2..]);
      SecondPassPlain('/', ReplaceAll(token[2..], "~1", "/"));
    } else {
      FirstPassHead(token);
      var rest := token[1..];
      if |token| >= 2 && token[..2] == "~0" {
        var tail := token[2..];
        assert rest == "0" + tail;
        FirstPassZero(tail);
        assert [token[0]] + ("0" + ReplaceAll(tail, "~1", "/"))
            == "~0" + ReplaceAll(tail, "~1", "/");
        SecondPassEscape(ReplaceAll(tail, "~1", "/"));
        DecodeIsUnescape(tail);
      } else {
        if token[0] == '~' {
          assert rest != "" ==> token[..2] == ['~', rest[0]];
          FirstPassSecond(rest);
        }
        SecondPassPlain(token[0], ReplaceAll(rest, "~1", "/"));
        DecodeIsUnescape(rest);
      }
    }
  }

  /** Replacing "~0" first would turn "~01" into "/" instead of "~1". */
  lemma OtherOrderIsWrong()
    ensures ReplaceAll(ReplaceAll("~01", "~0", "~"), "~1", "/") == "/"
    ensures Unescape("~01") == Decode("~01") == "~1"
  {}

  lemma UnescapeChar(c: char, rest: string)
    ensures Unescape(EncodeChar(c) + rest) == [c] + Unescape(rest)
  {}

  lemma {:induction false} UnescapeEncode(name: string)
    ensures Unescape(Encode(name)) == name
    ensures '/' !in Encode(name)
  {
    if name != "" {
      UnescapeEncode(name[1..]);
      UnescapeChar(name[0], Encode(name[1..]));
      assert name == [name[0]] + name[1..];
    }
  }

  /** The first member of that name stands there. */
  predicate FirstNamed(fields: seq<Entry<Json>>, name: string, i: int) {
    0 <= i < |fields| && fields[i].key == name && forall j :: 0 <= j < i ==> fields[j].key != name
  }

  lemma {:induction false} MemberNamed(fields: seq<Entry<Json>>, name: string)
    ensures name in Keys(fields) <==> exists i :: FirstNamed(fields, name, i)
    ensures forall i :: FirstNamed(fields, name, i) ==> Property(Obj(fields), name) == Some(fields[i].value)
  {
    if fields != [] {
      var rest := fields[1..];
      MemberNamed(rest, name);
      if fields[0].key == name {
        assert FirstNamed(fields, name, 0);
      } else {
        if name in Keys(rest) {
          var i :| FirstNamed(rest, name, i);
          assert FirstNamed(fields, name, i + 1);
        }
        forall i | FirstNamed(fields, name, i) ensures FirstNamed(rest, name, i - 1) {}
      }
    }
  }

  /** Printing the value of some digits without leading zeros gives them back. */
  lemma {:induction false} UndecimalRoundTrip(digits: string)
    requires digits != "" && forall i :: 0 <= i < |digits| ==> IsDigit(digits[i])
    requires digits[0] == '0' ==> |digits| == 1
    ensures Decimal(Undecimal(digits)) == digits
    ensures Undecimal(digits) == 0 ==> digits[0] == '0'
  {
    var n := |digits| - 1;
    var last := digits[n];
    assert IsDigit(last);
    if n == 0 {
      assert digits[..0] == "" && digits == [last];
    } else {
      UndecimalRoundTrip(digits[..n]);
      assert digits == digits[..n] + [last];
    }
  }

  lemma SmallDecimal()
    ensures Decimal(0) == "0"
  {}

  lemma ElementNamed(items: seq<Json>, name: string)
    ensures forall w :: Property(Arr(items), name) == Some(w) <==>
      (name == "length" && w == Num(|items|))
      || exists i: nat :: i < |items| && Decimal(i) == name && items[i] == w
  {
    hide Decimal, Undecimal;
    assert !IsDigit("length"[0]);
    forall i: nat | Decimal(i) == name ensures name != "length" && IndexOf(name) == Some(i) {
      DecimalRoundTrip(i);
      if Decimal(i)[0] == '0' {
        assert i == 0;
        SmallDecimal();
      }
    }
    if IndexOf(name).Some? {
      UndecimalRoundTrip(name);
    }
  }

  /** What a property of a value is: of an object, the first member of that name;
      of an array, its length, or the element whose decimal index is that name;
      and nothing else. */
  lemma PropertyIs(v: Json, name: string)
    ensures forall w :: Property(v, name) == Some(w) <==>
      match v
      case Obj(fields) => exists i :: FirstNamed(fields, name, i) && fields[i].value == w
      case Arr(items) =>
        (name == "length" && w == Num(|items|))
        || exists i: nat :: i < |items| && Decimal(i) == name && items[i] == w
      case _ => false
  {
    match v
    case Obj(fields) => MemberNamed(fields, name);
    case Arr(items) => ElementNamed(items, name);
    case _ =>
  }

  lemma {:induction false} FollowIsValueAt(v: Option<Json>, names: seq<string>)
    ensures Follow(v, names) == if v.Some? then ValueAt(v.value, names) else None
    decreases names
  {
    if names != [] {
      FollowIsValueAt(if v.Some? then Property(v.value, names[0]) else None, names[1..]);
    }
  }

  /** Evaluating a printed pointer gives the value at its path, present or
      not, whatever characters its names hold. */
  lemma EvaluatePrinted(v: Json, path: seq<string>)
    ensures Evaluate(v, Print(path)) == ValueAt(v, path)
  {
    if path != [] {
      var tokens := EncodeAll(path);
      forall i | 0 <= i < |path| ensures '/' !in tokens[i] && Decode(tokens[i]) == path[i] {
        UnescapeEncode(path[i]);
        DecodeIsUnescape(tokens[i]);
      }
      SplitJoin(tokens, '/');
      assert Print(path)[1..] == Join(tokens, "/");
      assert DecodeAll(tokens) == path;
      FollowIsValueAt(Some(v), path);
    }
  }

  /** Array elements are reached by their decimal index. */
  lemma ElementByIndex(items: seq<Json>, i: nat)
    requires i < |items|
    ensures Evaluate(Arr(items), Print([Decimal(i)])) == Some(items[i])
  {
    EvaluatePrinted(Arr(items), [Decimal(i)]);
    DecimalRoundTrip(i);
    assert IndexOf(Decimal(i)) == Some(i) by {
      if Decimal(i)[0] == '0' { assert i == 0; }
    }
    assert Decimal(i) != "length" by { assert !IsDigit("length"[0]); }
  }
}
