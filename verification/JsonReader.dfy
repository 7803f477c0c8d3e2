/** A reader for JSON text without insignificant whitespace (RFC 8259,
    sections 4 to 7, integers only), and the proof that it inverts the
    canonical serializer. */
module JsonReader {
  import opened Text
  import opened Json

  /** A value read from the front of a text, with what follows it. */
  datatype Read<+T> = Fail | Done(value: T, rest: string)

  function HexValue(c: char): Option<nat> {
    if '0' <= c <= '9' then Some(c as int - '0' as int)
    else if 'a' <= c <= 'f' then Some(c as int - 'a' as int + 10)
    else if 'A' <= c <= 'F' then Some(c as int - 'A' as int + 10)
    else None
  }

  /** The character of a `\uXXXX` escape; surrogates stay outside the model. */
  function ReadUnicode(s: string): Read<char> {
    if |s| < 4 then Fail
    else
      match (HexValue(s[0]), HexValue(s[1]), HexValue(s[2]), HexValue(s[3]))
      case (Some(a), Some(b), Some(c), Some(d)) =>
        var code := ((a * 16 + b) * 16 + c) * 16 + d;
        if code < 0xD800 || 0xE000 <= code < 0x1_0000 then Done(code as char, s[4..]) else Fail
      case _ => Fail
  }

  /** One character of a string literal, escaped or not. */
  function ReadChar(s: string): (r: Read<char>)
    ensures r.Done? ==> |r.rest| < |s|
  {
    if s == "" || s[0] as int < 32 || s[0] == '\"' then Fail
    else if s[0] != '\\' then Done(s[0], s[1..])
    else if |s| < 2 then Fail
    else
      var tail := s[2..];
      match s[1]
      case '\"' => Done('\"', tail)
      case '\\' => Done('\\', tail)
      case '/' => Done('/', tail)
      case 'b' => Done(8 as char, tail)
      case 't' => Done(9 as char, tail)
      case 'n' => Done(10 as char, tail)
      case 'f' => Done(12 as char, tail)
      case 'r' => Done(13 as char, tail)
      case 'u' => ReadUnicode(tail)
      case _ => Fail
  }

  /** The rest of a string literal, after its opening quote. */
  function ReadString(s: string): (r: Read<string>)
    ensures r.Done? ==> |r.rest| < |s|
    decreases |s|
  {
    if s == "" then Fail
    else if s[0] == '\"' then Done("", s[1..])
    else
      match ReadChar(s)
      case Fail => Fail
      case Done(c, rest) =>
        match ReadString(rest)
        case Fail => Fail
        case Done(cs, rest') => Done([c] + cs, rest')
  }

  /** How many digits the text starts with. */
  function DigitCount(s: string): (n: nat)
    ensures n <= |s|
    ensures forall i :: 0 <= i < n ==> IsDigit(s[i])
  {
    if s == "" || !IsDigit(s[0]) then 0 else 1 + DigitCount(s[1..])
  }

  function ReadNatural(s: string): (r: Read<nat>)
    ensures r.Done? ==> |r.rest| < |s|
  {
    var n := DigitCount(s);
    if n == 0 || (n > 1 && s[0] == '0') then Fail else Done(Undecimal(s[..n]), s[n..])
  }

  /** The three literal names. */
  function ReadWord(s: string): (r: Read<Json>)
    ensures r.Done? ==> |r.rest| < |s|
  {
    if |s| >= 4 && s[..4] == "null" then Done(Null, s[4..])
    else if |s| >= 4 && s[..4] == "true" then Done(Bool(true), s[4..])
    else if |s| >= 5 && s[..5] == "false" then Done(Bool(false), s[5..])
    else Fail
  }

  function ReadNumber(s: string): (r: Read<Json>)
    ensures r.Done? ==> |r.rest| < |s|
  {
    var negative := s != "" && s[0] == '-';
    match ReadNatural(if negative then s[1..] else s)
    case Fail => Fail
    case Done(n, rest) => Done(Num(if negative then -(n as int) else n), rest)
  }

  /** A value other than an array or an object. */
  function ReadScalar(s: string): (r: Read<Json>)
    requires s != ""
    ensures r.Done? ==> |r.rest| < |s|
  {
    if s[0] == '\"' then
      match ReadString(s[1..])
      case Fail => Fail
      case Done(text, rest) => Done(Str(text), rest)
    else if s[0] == '-' || IsDigit(s[0]) then ReadNumber(s)
    else ReadWord(s)
  }

  function ReadValue(s: string): (r: Read<Json>)
    ensures r.Done? ==> |r.rest| < |s|
    decreases |s|, 1
  {
    if s == "" then Fail
    else if s[0] == '[' then ReadArray(s)
    else if s[0] == '{' then ReadObject(s)
    else ReadScalar(s)
  }

  function ReadArray(s: string): (r: Read<Json>)
    requires s != ""
    ensures r.Done? ==> |r.rest| < |s|
    decreases |s|, 0
  {
    if |s| > 1 && s[1] == ']' then Done(Arr([]), s[2..])
    else
      match ReadItems(s[1..])
      case Fail => Fail
      case Done(items, rest) => Done(Arr(items), rest)
  }

  function ReadObject(s: string): (r: Read<Json>)
    requires s != ""
    ensures r.Done? ==> |r.rest| < |s|
    decreases |s|, 0
  {
    if |s| > 1 && s[1] == '}' then Done(Obj([]), s[2..])
    else
      match ReadMembers(s[1..])
      case Fail => Fail
      case Done(fields, rest) => Done(Obj(fields), rest)
  }

  /** One or more values separated by commas, up to the closing bracket. */
  function ReadItems(s: string): (r: Read<seq<Json>>)
    ensures r.Done? ==> |r.rest| < |s|
    decreases |s|, 2
  {
    match ReadValue(s)
    case Fail => Fail
    case Done(v, rest) =>
      if rest == "" then Fail
      else if rest[0] == ']' then Done([v], rest[1..])
      else if rest[0] != ',' then Fail
      else
        match ReadItems(rest[1..])
        case Fail => Fail
        case Done(vs, rest') => Done([v] + vs, rest')
  }

  function ReadMember(s: string): (r: Read<Entry<Json>>)
    ensures r.Done? ==> |r.rest| < |s|
    decreases |s|, 2
  {
    if s == "" || s[0] != '\"' then Fail
    else
      match ReadString(s[1..])
      case Fail => Fail
      case Done(key, rest) =>
        if rest == "" || rest[0] != ':' then Fail
        else
          match ReadValue(rest[1..])
          case Fail => Fail
          case Done(v, rest') => Done(Entry(key, v), rest')
  }

  function ReadMembers(s: string): (r: Read<seq<Entry<Json>>>)
    ensures r.Done? ==> |r.rest| < |s|
    decreases |s|, 3
  {
    match ReadMember(s)
    case Fail => Fail
    case Done(m, rest) =>
      if rest == "" then Fail
      else if rest[0] == '}' then Done([m], rest[1..])
      else if rest[0] != ',' then Fail
      else
        match ReadMembers(rest[1..])
        case Fail => Fail
        case Done(ms, rest') => Done([m] + ms, rest')
  }

  // ------------------------------------------------------------- round trips

  lemma ReadCharEscape(c: char, tail: string)
    ensures ReadChar(Escape(c) + tail) == Done(c, tail)
  {}

  lemma EscapeHead(c: char)
    ensures Escape(c) != "" && Escape(c)[0] != '\"'
  {}

  lemma ReadStringSteps(s: string, c: char, after: string, cs: string, tail: string)
    requires s != "" && s[0] != '\"' && ReadChar(s) == Done(c, after)
    requires ReadString(after) == Done(cs, tail)
    ensures ReadString(s) == Done([c] + cs, tail)
  {}

  lemma {:induction false} ReadStringEscaped(text: string, tail: string)
    ensures ReadString(EscapeAll(text) + ("\"" + tail)) == Done(text, tail)
  {
    var close := "\"" + tail;
    if text == "" {
      assert EscapeAll(text) + close == close && close[1..] == tail;
    } else {
      var after := EscapeAll(text[1..]) + close;
      var s := Escape(text[0]) + after;
      assert EscapeAll(text) + close == s;
      EscapeHead(text[0]);
      ReadCharEscape(text[0], after);
      ReadStringEscaped(text[1..], tail);
      ReadStringSteps(s, text[0], after, text[1..], tail);
      assert text == [text[0]] + text[1..];
    }
  }

  /** What may follow a value: anything that cannot extend a number. */
  predicate Stops(rest: string) { rest == "" || !IsDigit(rest[0]) }

  lemma {:induction false} DigitCountOf(digits: string, rest: string)
    requires forall i :: 0 <= i < |digits| ==> IsDigit(digits[i])
    requires Stops(rest)
    ensures DigitCount(digits + rest) == |digits|
  {
    if digits == "" {
      assert digits + rest == rest;
    } else {
      assert (digits + rest)[1..] == digits[1..] + rest;
      DigitCountOf(digits[1..], rest);
    }
  }

  lemma ReadNaturalDecimal(n: nat, rest: string)
    requires Stops(rest)
    ensures ReadNatural(Decimal(n) + rest) == Done(n, rest)
  {
    DecimalRoundTrip(n);
    DigitCountOf(Decimal(n), rest);
    assert (Decimal(n) + rest)[..|Decimal(n)|] == Decimal(n);
    assert (Decimal(n) + rest)[|Decimal(n)|..] == rest;
    if |Decimal(n)| > 1 { assert n != 0; }
  }

  /** `text` reads back as `v` wherever a value may stand. */
  ghost predicate ReadsAs(text: string, v: Json) {
    text != "" && text[0] != ']'
    && forall rest :: Stops(rest) ==> ReadValue(text + rest) == Done(v, rest)
  }

  lemma ReadsHere(text: string, v: Json, rest: string)
    requires ReadsAs(text, v) && Stops(rest)
    ensures ReadValue(text + rest) == Done(v, rest)
  {}

  lemma ReadItemsSteps(s: string, v: Json, after: string, vs: seq<Json>, rest: string)
    requires ReadValue(s) == Done(v, after) && after != ""
    requires if vs == [] then after == "]" + rest
             else after[0] == ',' && ReadItems(after[1..]) == Done(vs, rest)
    ensures ReadItems(s) == Done([v] + vs, rest)
  {
    if vs == [] { assert after[1..] == rest && [v] + vs == [v]; }
  }

  lemma {:induction false} ReadItemsJoined(texts: seq<string>, vs: seq<Json>, rest: string)
    requires |texts| == |vs| >= 1
    requires forall i :: 0 <= i < |vs| ==> ReadsAs(texts[i], vs[i])
    ensures ReadItems(Join(texts, ",") + ("]" + rest)) == Done(vs, rest)
  {
    if |texts| == 1 {
      ReadsHere(texts[0], vs[0], "]" + rest);
      ReadItemsSteps(texts[0] + ("]" + rest), vs[0], "]" + rest, [], rest);
      assert vs == [vs[0]] + [];
    } else {
      var after := Join(texts[1..], ",") + ("]" + rest);
      JoinSplitsOff(texts, ",", "]" + rest);
      ReadsHere(texts[0], vs[0], "," + after);
      assert ("," + after)[1..] == after;
      ReadItemsJoined(texts[1..], vs[1..], rest);
      ReadItemsSteps(texts[0] + ("," + after), vs[0], "," + after, vs[1..], rest);
      assert vs == [vs[0]] + vs[1..];
    }
  }

  lemma ReadMemberSteps(s: string, key: string, after: string, v: Json, rest: string)
    requires s != "" && s[0] == '\"' && ReadString(s[1..]) == Done(key, after)
    requires after != "" && after[0] == ':' && ReadValue(after[1..]) == Done(v, rest)
    ensures ReadMember(s) == Done(Entry(key, v), rest)
  {}

  lemma ReadMemberText(m: Entry<string>, v: Json, rest: string)
    requires ReadsAs(m.value, v) && Stops(rest)
    ensures ReadMember(MemberText(m) + rest) == Done(Entry(m.key, v), rest)
  {
    var after := ":" + (m.value + rest);
    var body := EscapeAll(m.key) + ("\"" + after);
    MemberTextShape(m, rest);
    ReadStringEscaped(m.key, after);
    assert after[1..] == m.value + rest;
    assert ("\"" + body)[1..] == body;
    ReadsHere(m.value, v, rest);
    ReadMemberSteps("\"" + body, m.key, after, v, rest);
  }

  lemma MemberTextShape(m: Entry<string>, rest: string)
    ensures MemberText(m) + rest
         == "\"" + (EscapeAll(m.key) + ("\"" + (":" + (m.value + rest))))
  {}

  lemma ReadMembersSteps(
      s: string, f: Entry<Json>, after: string, fields: seq<Entry<Json>>, rest: string)
    requires ReadMember(s) == Done(f, after) && after != ""
    requires if fields == [] then after == "}" + rest
             else after[0] == ',' && ReadMembers(after[1..]) == Done(fields, rest)
    ensures ReadMembers(s) == Done([f] + fields, rest)
  {
    if fields == [] { assert after[1..] == rest && [f] + fields == [f]; }
  }

  lemma {:induction false} ReadMembersJoined(
      members: seq<Entry<string>>, fields: seq<Entry<Json>>, rest: string)
    requires |members| >= 1
    requires Aligned(members, fields, ReadsAs)
    ensures ReadMembers(Join(MemberTexts(members), ",") + ("}" + rest)) == Done(fields, rest)
  {
    var texts := MemberTexts(members);
    var f := Entry(members[0].key, fields[0].value);
    assert fields == [f] + fields[1..];
    if |members| == 1 {
      ReadMemberText(members[0], f.value, "}" + rest);
      ReadMembersSteps(texts[0] + ("}" + rest), f, "}" + rest, [], rest);
    } else {
      var after := Join(texts[1..], ",") + ("}" + rest);
      JoinSplitsOff(texts, ",", "}" + rest);
      ReadMemberText(members[0], f.value, "," + after);
      assert ("," + after)[1..] == after;
      assert texts[1..] == MemberTexts(members[1..]);
      ReadMembersJoined(members[1..], fields[1..], rest);
      ReadMembersSteps(texts[0] + ("," + after), f, "," + after, fields[1..], rest);
    }
  }

  lemma WordReads(v: Json)
    requires v.Null? || v.Bool?
    ensures ReadsAs(Canonical(v), v)
  {}

  lemma ReadNegativeSteps(s: string, body: string, m: nat, rest: string)
    requires s == "-" + body && ReadNatural(body) == Done(m, rest)
    ensures ReadNumber(s) == Done(Num(-(m as int)), rest)
  {
    assert s[1..] == body;
  }

  lemma NumberReadsHere(n: int, rest: string)
    requires Stops(rest)
    ensures ReadNumber(NumberText(n) + rest) == Done(Num(n), rest)
  {
    hide Decimal, Undecimal, ReadNatural;
    var m: nat := if n < 0 then -n else n;
    var digits := Decimal(m);
    DecimalRoundTrip(m);
    ReadNaturalDecimal(m, rest);
    if n < 0 {
      assert NumberText(n) + rest == "-" + (digits + rest);
      ReadNegativeSteps("-" + (digits + rest), digits + rest, m, rest);
    } else {
      assert (digits + rest)[0] == digits[0];
    }
  }

  lemma NumberReads(n: int)
    ensures ReadsAs(NumberText(n), Num(n))
  {
    hide Decimal, Undecimal, ReadNumber;
    DecimalRoundTrip(if n < 0 then -n else n);
    forall rest | Stops(rest) ensures ReadValue(NumberText(n) + rest) == Done(Num(n), rest) {
      NumberReadsHere(n, rest);
      var s := NumberText(n) + rest;
      assert s[0] == NumberText(n)[0];
    }
  }

  lemma StringReads(text: string)
    ensures ReadsAs(Quote(text), Str(text))
  {
    forall rest ensures ReadValue(Quote(text) + rest) == Done(Str(text), rest) {
      var body := EscapeAll(text) + ("\"" + rest);
      QuoteShape(text, rest);
      ReadStringEscaped(text, rest);
      ReadQuotedSteps("\"" + body, body, text, rest);
    }
  }

  lemma ReadArraySteps(s: string, body: string, vs: seq<Json>, rest: string)
    requires s == "[" + body && body != ""
    requires if vs == [] then body == "]" + rest
             else body[0] != ']' && ReadItems(body) == Done(vs, rest)
    ensures ReadValue(s) == Done(Arr(vs), rest)
  {
    assert s[1..] == body;
    if vs == [] { assert s[2..] == rest; }
  }

  lemma ArrayReads(texts: seq<string>, vs: seq<Json>)
    requires |texts| == |vs|
    requires forall i :: 0 <= i < |vs| ==> ReadsAs(texts[i], vs[i])
    ensures ReadsAs("[" + Join(texts, ",") + "]", Arr(vs))
  {
    var text := "[" + Join(texts, ",") + "]";
    forall rest | Stops(rest) ensures ReadValue(text + rest) == Done(Arr(vs), rest) {
      var body := Join(texts, ",") + ("]" + rest);
      assert text + rest == "[" + body;
      if vs == [] {
        assert body == "]" + rest;
      } else {
        ReadItemsJoined(texts, vs, rest);
        assert ReadsAs(texts[0], vs[0]);
        JoinHead(texts, ",");
        assert body[0] == texts[0][0];
      }
      ReadArraySteps("[" + body, body, vs, rest);
    }
  }

  lemma ObjectReads(members: seq<Entry<string>>, fields: seq<Entry<Json>>)
    requires Aligned(members, fields, ReadsAs)
    ensures ReadsAs("{" + Join(MemberTexts(members), ",") + "}", Obj(fields))
  {
    var joined := Join(MemberTexts(members), ",");
    var text := "{" + joined + "}";
    forall rest | Stops(rest) ensures ReadValue(text + rest) == Done(Obj(fields), rest) {
      var body := joined + ("}" + rest);
      assert text + rest == "{" + body;
      if fields == [] {
        assert body == "}" + rest;
      } else {
        ReadMembersJoined(members, fields, rest);
        JoinHead(MemberTexts(members), ",");
        assert body[0] == '\"';
      }
      ReadObjectSteps("{" + body, body, fields, rest);
    }
  }

  /** Reading the canonical text gives the value back, members ordered. */
  lemma {:induction false} CanonicalReads(v: Json)
    ensures ReadsAs(Canonical(v), Ordered(v))
    decreases v
  {
    match v
    case Num(n) => NumberReads(n);
    case Str(s) => StringReads(s);
    case Arr(items) =>
      forall i | 0 <= i < |items|
        ensures ReadsAs(ItemTexts(items)[i], OrderedItems(items)[i])
      {
        CanonicalReads(items[i]);
      }
      ArrayReads(ItemTexts(items), OrderedItems(items));
    case Obj(fields) =>
      forall i | 0 <= i < |fields|
        ensures ReadsAs(Members(fields)[i].value, OrderedFields(fields)[i].value)
      {
        CanonicalReads(fields[i].value);
      }
      SortAligned(Members(fields), OrderedFields(fields), ReadsAs);
      ObjectReads(Sort(Members(fields)), Sort(OrderedFields(fields)));
    case _ =>
      WordReads(v);
  }

  lemma QuoteShape(text: string, rest: string)
    ensures Quote(text) + rest == "\"" + (EscapeAll(text) + ("\"" + rest))
  {}

  lemma ReadQuotedSteps(s: string, body: string, text: string, rest: string)
    requires s == "\"" + body && ReadString(body) == Done(text, rest)
    ensures ReadValue(s) == Done(Str(text), rest)
  {
    assert s[1..] == body;
  }

  lemma ReadObjectSteps(s: string, body: string, fields: seq<Entry<Json>>, rest: string)
    requires s == "{" + body && body != ""
    requires if fields == [] then body == "}" + rest
             else body[0] != '}' && ReadMembers(body) == Done(fields, rest)
    ensures ReadValue(s) == Done(Obj(fields), rest)
  {
    assert s[1..] == body;
    if fields == [] { assert s[2..] == rest; }
  }

  /** The reader recovers every value from its canonical text. */
  lemma CanonicalRoundTrip(v: Json)
    ensures ReadValue(Canonical(v)) == Done(Ordered(v), "")
  {
    CanonicalReads(v);
    assert Canonical(v) + "" == Canonical(v);
    assert Stops("");
  }

  predicate Renders(v: Json, text: string) { Canonical(v) == text }

  lemma MembersOf(fields: seq<Entry<Json>>, members: seq<Entry<string>>)
    requires Aligned(fields, members, Renders)
    ensures Members(fields) == members
  {
    assert forall i :: 0 <= i < |fields| ==> Members(fields)[i].key == members[i].key;
  }

  lemma {:induction false} SortOfAscending<T(!new)>(entries: seq<Entry<T>>)
    requires Ascending(entries)
    ensures Sort(entries) == entries
  {
    if |entries| > 1 {
      SortOfAscending(entries[1..]);
    }
  }

  lemma SortedMembers(fields: seq<Entry<Json>>)
    requires DistinctKeys(fields)
    requires Aligned(OrderedFields(fields), Members(fields), Renders)
    ensures Sort(Members(Sort(OrderedFields(fields)))) == Sort(Members(fields))
  {
    SortAligned(OrderedFields(fields), Members(fields), Renders);
    MembersOf(Sort(OrderedFields(fields)), Sort(Members(fields)));
    SortAscending(Members(fields));
    SortOfAscending(Sort(Members(fields)));
  }

  /** Ordering the members first does not change the text. */
  lemma {:induction false} CanonicalOfOrdered(v: Json)
    requires WellFormed(v)
    ensures Canonical(Ordered(v)) == Canonical(v)
    decreases v
  {
    match v
    case Arr(items) =>
      forall i | 0 <= i < |items| ensures Canonical(Ordered(items[i])) == Canonical(items[i]) {
        CanonicalOfOrdered(items[i]);
      }
      assert ItemTexts(OrderedItems(items)) == ItemTexts(items);
    case Obj(fields) =>
      forall i | 0 <= i < |fields|
        ensures Renders(OrderedFields(fields)[i].value, Members(fields)[i].value)
      {
        CanonicalOfOrdered(fields[i].value);
      }
      SortedMembers(fields);
    case _ =>
  }

  /** The canonical text, and so the digest, identifies a JSON value exactly
      up to the order of object members. */
  lemma CanonicalIdentifies(a: Json, b: Json)
    requires WellFormed(a) && WellFormed(b)
    ensures Canonical(a) == Canonical(b) <==> Same(a, b)
    ensures DigestOf(a) == DigestOf(b) <==> Same(a, b)
  {
    CanonicalRoundTrip(a);
    CanonicalRoundTrip(b);
    SameIsOrderedEqual(a, b);
    if Same(a, b) {
      CanonicalOfOrdered(a);
      CanonicalOfOrdered(b);
    }
  }
}
