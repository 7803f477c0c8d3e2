/** The code units of strings: UTF-16, by whose order JavaScript sorts keys, and
    UTF-8, whose bytes a brief is measured in. */
module Unicode {
  import opened Text
  import opened Json
  import opened JsonReader

  // ---------------------------------------------------------------------- UTF-16

  /** The UTF-16 code units of a character: itself, or a surrogate pair. */
  function Units(c: char): seq<nat> {
    var code := c as nat;
    if code <= 0xFFFF then [code]
    else [0xD800 + (code - 0x1_0000) / 0x400, 0xDC00 + (code - 0x1_0000) % 0x400]
  }

  function Utf16(s: string): seq<nat> {
    if s == "" then [] else Units(s[0]) + Utf16(s[1..])
  }

  /** The sequences agree before this place, where the first ends or is smaller. */
  predicate FirstAt(a: seq<nat>, b: seq<nat>, i: nat) {
    i <= |a| && i < |b| && (forall k :: 0 <= k < i ==> a[k] == b[k]) && (i == |a| || a[i] < b[i])
  }

  /** Lexicographic order: a proper prefix comes first, and otherwise the first
      difference decides. */
  predicate First(a: seq<nat>, b: seq<nat>) {
    exists i :: 0 <= i <= |a| && FirstAt(a, b, i)
  }

  lemma FirstOfNothing(a: seq<nat>)
    ensures !First(a, [])
    ensures First([], a) <==> a != []
  {
    if a != [] {
      assert FirstAt([], a, 0);
    }
  }

  lemma FirstAtCons(x: nat, a: seq<nat>, y: nat, b: seq<nat>, i: nat)
    ensures FirstAt([x] + a, [y] + b, i) <==> if i == 0 then x < y else x == y && FirstAt(a, b, i - 1)
  {
    var a', b' := [x] + a, [y] + b;
    if i > 0 && x == y && FirstAt(a, b, i - 1) {
      forall k | 0 <= k < i ensures a'[k] == b'[k] {
        if k > 0 { assert a[k - 1] == b[k - 1]; }
      }
    }
    if i > 0 && FirstAt(a', b', i) {
      assert a'[0] == b'[0];
      forall k | 0 <= k < i - 1 ensures a[k] == b[k] {
        assert a'[k + 1] == b'[k + 1];
      }
    }
  }

  /** The first units decide, unless they are equal. */
  lemma FirstCons(x: nat, a: seq<nat>, y: nat, b: seq<nat>)
    ensures First([x] + a, [y] + b) <==> x < y || (x == y && First(a, b))
  {
    hide FirstAt;
    FirstAtCons(x, a, y, b, 0);
    if x == y && First(a, b) {
      var i :| 0 <= i <= |a| && FirstAt(a, b, i);
      FirstAtCons(x, a, y, b, i + 1);
    }
    if First([x] + a, [y] + b) {
      var i :| 0 <= i <= |[x] + a| && FirstAt([x] + a, [y] + b, i);
      FirstAtCons(x, a, y, b, i);
    }
  }

  /** Characters compare as their code units do. */
  lemma UnitsCompare(c: char, d: char, a: seq<nat>, b: seq<nat>)
    ensures First(Units(c) + a, Units(d) + b)
       <==> CodeUnitRank(c) < CodeUnitRank(d) || (c == d && First(a, b))
  {
    var u, v := Units(c), Units(d);
    FirstCons(u[0], u[1..] + a, v[0], v[1..] + b);
    assert u + a == [u[0]] + (u[1..] + a) && v + b == [v[0]] + (v[1..] + b);
    if |u| == |v| == 2 {
      FirstCons(u[1], a, v[1], b);
      assert u[1..] + a == [u[1]] + a && v[1..] + b == [v[1]] + b;
    } else if |u| == |v| {
      assert u[1..] + a == a && v[1..] + b == b;
    }
  }

  /** The order of keys is the lexicographic order of their UTF-16 code units. */
  lemma {:induction false} BeforeIsUtf16Order(a: string, b: string)
    ensures Before(a, b) <==> First(Utf16(a), Utf16(b))
  {
    FirstOfNothing(Utf16(a));
    FirstOfNothing(Utf16(b));
    if a != "" && b != "" {
      BeforeIsUtf16Order(a[1..], b[1..]);
      UnitsCompare(a[0], b[0], Utf16(a[1..]), Utf16(b[1..]));
      hide Units, First;
    }
  }

  /** In every object at any depth the members come in the order of their keys'
      UTF-16 code units. */
  predicate InOrder(v: Json)
    decreases v
  {
    match v
    case Arr(items) => forall i :: 0 <= i < |items| ==> InOrder(items[i])
    case Obj(fields) =>
      (forall i :: 0 <= i < |fields| ==> InOrder(fields[i].value))
      && forall i, j :: 0 <= i < j < |fields| ==> First(Utf16(fields[i].key), Utf16(fields[j].key))
    case _ => true
  }

  /** What sorting makes of the members of an object. */
  lemma SortedFields(fields: seq<Entry<Json>>)
    requires DistinctKeys(fields)
    ensures var sorted := Sort(OrderedFields(fields));
            |sorted| == |fields| && Ascending(sorted)
            && forall i :: 0 <= i < |sorted| ==>
                 exists j :: 0 <= j < |fields| && sorted[i] == Entry(fields[j].key, Ordered(fields[j].value))
  {
    hide Ordered, Sort, Ascending;
    var ordered := OrderedFields(fields);
    var sorted := Sort(ordered);
    assert DistinctKeys(ordered);
    SortAscending(ordered);
    SortElements(ordered);
    forall i | 0 <= i < |sorted|
      ensures exists j :: 0 <= j < |fields| && sorted[i] == Entry(fields[j].key, Ordered(fields[j].value))
    {
      assert sorted[i] in ordered;
      var j :| 0 <= j < |ordered| && ordered[j] == sorted[i];
    }
  }

  /** Ordering keeps a value well formed. */
  lemma {:induction false} OrderedIsWellFormed(v: Json)
    requires WellFormed(v)
    ensures WellFormed(Ordered(v))
    decreases v
  {
    match v
    case Arr(items) =>
      forall i | 0 <= i < |items| ensures WellFormed(Ordered(items[i])) {
        OrderedIsWellFormed(items[i]);
      }
    case Obj(fields) =>
      forall i | 0 <= i < |fields| ensures WellFormed(Ordered(fields[i].value)) {
        OrderedIsWellFormed(fields[i].value);
      }
      SortedFields(fields);
      var sorted := Sort(OrderedFields(fields));
      forall i, j | 0 <= i < j < |sorted| ensures sorted[i].key != sorted[j].key {
        BeforeTotal(sorted[i].key, sorted[j].key);
      }
    case _ =>
  }

  lemma {:induction false} OrderedInOrder(v: Json)
    requires WellFormed(v)
    ensures InOrder(Ordered(v))
    decreases v
  {
    hide First;
    match v
    case Arr(items) =>
      forall i | 0 <= i < |items| ensures InOrder(Ordered(items[i])) {
        OrderedInOrder(items[i]);
      }
    case Obj(fields) =>
      forall i | 0 <= i < |fields| ensures InOrder(Ordered(fields[i].value)) {
        OrderedInOrder(fields[i].value);
      }
      SortedFields(fields);
      var sorted := Sort(OrderedFields(fields));
      forall i, j | 0 <= i < j < |sorted| ensures First(Utf16(sorted[i].key), Utf16(sorted[j].key)) {
        BeforeIsUtf16Order(sorted[i].key, sorted[j].key);
      }
    case _ =>
  }

  /** What the canonical text is: read back, it is the same value up to the order of
      members, and in every object at any depth the members come in the order of
      their keys' UTF-16 code units. */
  lemma CanonicalInOrder(v: Json)
    requires WellFormed(v)
    ensures var read := ReadValue(Canonical(v));
            read.Done? && read.rest == "" && WellFormed(read.value) && Same(v, read.value) && InOrder(read.value)
  {
    hide Canonical, ReadValue, Ordered, InOrder;
    CanonicalRoundTrip(v);
    OrderedIsWellFormed(v);
    OrderedInOrder(v);
    CanonicalOfOrdered(v);
    CanonicalIdentifies(v, Ordered(v));
  }

  // -------------------------------------------------------------- string literals

  /** No way of writing a character in a string literal is shorter than the one taken. */
  lemma EscapeIsShortest(text: string)
    requires ReadChar(text).Done?
    ensures |text| - |ReadChar(text).rest| >= |Escape(ReadChar(text).value)|
  {}

  /** So no literal for the same string is shorter. */
  lemma {:induction false} QuoteIsShortest(text: string)
    requires ReadString(text).Done?
    ensures |text| - |ReadString(text).rest| + 1 >= |Quote(ReadString(text).value)|
    decreases |text|
  {
    if text[0] != '\"' {
      EscapeIsShortest(text);
      var c := ReadChar(text);
      QuoteIsShortest(c.rest);
      var cs := ReadString(c.rest).value;
      assert ([c.value] + cs)[1..] == cs;
    }
    hide ReadChar, Escape;
  }

  /** The hexadecimal digits of an escape are lower-case ones. */
  lemma EscapesInLowerCase(c: char)
    ensures |Escape(c)| == 6 ==>
      forall i :: 2 <= i < 6 ==> Escape(c)[i] in "0123456789abcdef"
  {}

  lemma HexDigitReads(d: nat)
    requires d < 16
    ensures HexValue("0123456789abcdef"[d]) == HexValue("0123456789ABCDEF"[d]) == Some(d)
  {}

  lemma HexIsSmall(c: char)
    ensures HexValue(c).Some? ==> HexValue(c).value < 16
  {}

  lemma FourDigitsRead(x: char, y: char, z: char, u: char, rest: string)
    requires HexValue(x).Some? && HexValue(y).Some? && HexValue(z).Some? && HexValue(u).Some?
    ensures var code := 4096 * HexValue(x).value + 256 * HexValue(y).value + 16 * HexValue(z).value + HexValue(u).value;
            code < 0x1_0000
            && ReadUnicode([x, y, z, u] + rest)
            == if 0xD800 <= code < 0xE000 then Fail else Done(code as char, rest)
  {
    HexIsSmall(x);
    HexIsSmall(y);
    HexIsSmall(z);
    HexIsSmall(u);
    hide HexValue;
  }

  /** Four hexadecimal digits, in either case, read as the character whose code they
      are, unless that is a surrogate's. */
  lemma EscapeReads(a: nat, b: nat, c: nat, d: nat, digits: string, rest: string)
    requires a < 16 && b < 16 && c < 16 && d < 16
    requires digits in {"0123456789abcdef", "0123456789ABCDEF"}
    ensures var code := 4096 * a + 256 * b + 16 * c + d;
            ReadUnicode([digits[a], digits[b], digits[c], digits[d]] + rest)
            == if 0xD800 <= code < 0xE000 then Fail else Done(code as char, rest)
  {
    HexDigitReads(a);
    HexDigitReads(b);
    HexDigitReads(c);
    HexDigitReads(d);
    FourDigitsRead(digits[a], digits[b], digits[c], digits[d], rest);
    hide *;
  }

  // ----------------------------------------------------------------------- UTF-8

  /** The UTF-8 bytes of a character (RFC 3629, section 3). */
  function Octets(c: char): seq<nat> {
    var code := c as nat;
    if code <= 0x7F then [code]
    else if code <= 0x7FF then [0xC0 + code / 0x40, 0x80 + code % 0x40]
    else if code <= 0xFFFF then [0xE0 + code / 0x1000, 0x80 + code / 0x40 % 0x40, 0x80 + code % 0x40]
    else [0xF0 + code / 0x4_0000, 0x80 + code / 0x1000 % 0x40, 0x80 + code / 0x40 % 0x40, 0x80 + code % 0x40]
  }

  function Utf8(s: string): seq<nat> {
    if s == "" then [] else Octets(s[0]) + Utf8(s[1..])
  }

  /** The size a brief is held to is the number of its UTF-8 bytes. */
  lemma {:induction false} ByteLengthIsUtf8(s: string)
    ensures ByteLength(s) == |Utf8(s)|
    ensures forall i :: 0 <= i < |Utf8(s)| ==> Utf8(s)[i] < 0x100
  {
    if s != "" {
      ByteLengthIsUtf8(s[1..]);
    }
  }
}
