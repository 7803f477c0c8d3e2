/** JSON values, the canonical serializer of the context brief
    (src/context-brief/contracts.ts), and equality up to the order of object
    members. */
module Json {
  import opened Text

  /** One own property of an object, or anything else filed under a key. */
  datatype Entry<T> = Entry(key: string, value: T)

  /** A JSON value without fractions or exponents. An object keeps its own
      properties in creation order, as a JavaScript object does. */
  datatype Json =
    | Null
    | Bool(b: bool)
    | Num(n: int)
    | Str(s: string)
    | Arr(items: seq<Json>)
    | Obj(fields: seq<Entry<Json>>)

  predicate DistinctKeys<T>(entries: seq<Entry<T>>) {
    forall i, j :: 0 <= i < j < |entries| ==> entries[i].key != entries[j].key
  }

  function Keys<T>(entries: seq<Entry<T>>): (keys: set<string>)
    ensures forall i :: 0 <= i < |entries| ==> entries[i].key in keys
  {
    if entries == [] then {} else {entries[0].key} + Keys(entries[1..])
  }

  /** The value of an own property. */
  function Lookup<T>(entries: seq<Entry<T>>, key: string): (v: T)
    requires key in Keys(entries)
    ensures Entry(key, v) in entries
  {
    if entries[0].key == key then entries[0].value else Lookup(entries[1..], key)
  }

  lemma LookupOnly<T>(entries: seq<Entry<T>>, i: nat)
    requires DistinctKeys(entries) && i < |entries|
    ensures Lookup(entries, entries[i].key) == entries[i].value
  {}

  /** No object anywhere in the value repeats a key. */
  predicate WellFormed(v: Json)
    decreases v
  {
    match v
    case Arr(items) => forall i :: 0 <= i < |items| ==> WellFormed(items[i])
    case Obj(fields) =>
      DistinctKeys(fields) && forall i :: 0 <= i < |fields| ==> WellFormed(fields[i].value)
    case _ => true
  }

  // ---------------------------------------------------------------- key order

  /** Orders characters as their UTF-16 code units do: every supplementary
      character starts with a surrogate and so sorts below U+E000. */
  function CodeUnitRank(c: char): int {
    if 0xE000 <= c as int < 0x1_0000 then c as int + 0x11_0000 else c as int
  }

  /** The default order of `Array.prototype.sort` on strings. */
  predicate Before(a: string, b: string) {
    if a == "" then b != ""
    else if b == "" then false
    else if a[0] == b[0] then Before(a[1..], b[1..])
    else CodeUnitRank(a[0]) < CodeUnitRank(b[0])
  }

  lemma {:induction false} BeforeTotal(a: string, b: string)
    ensures a == b || Before(a, b) || Before(b, a)
    ensures !(Before(a, b) && Before(b, a))
    ensures !Before(a, a)
  {
    if a != "" {
      BeforeTotal(a[1..], a[1..]);
      if b != "" {
        BeforeTotal(a[1..], b[1..]);
        assert a == [a[0]] + a[1..] && b == [b[0]] + b[1..];
      }
    }
  }

  lemma {:induction false} BeforeTransitive(a: string, b: string, c: string)
    requires Before(a, b) && Before(b, c)
    ensures Before(a, c)
  {
    if a != "" && a[0] == b[0] == c[0] {
      BeforeTransitive(a[1..], b[1..], c[1..]);
    }
  }

  function Insert<T>(e: Entry<T>, sorted: seq<Entry<T>>): seq<Entry<T>> {
    if sorted == [] || Before(e.key, sorted[0].key) then [e] + sorted
    else [sorted[0]] + Insert(e, sorted[1..])
  }

  /** `Object.keys(value).sort()`, keeping each key's value beside it. */
  function Sort<T>(entries: seq<Entry<T>>): seq<Entry<T>> {
    if entries == [] then [] else Insert(entries[0], Sort(entries[1..]))
  }

  predicate Ascending<T>(entries: seq<Entry<T>>) {
    forall i, j :: 0 <= i < j < |entries| ==> Before(entries[i].key, entries[j].key)
  }

  lemma {:induction false} InsertElements<T(!new)>(e: Entry<T>, sorted: seq<Entry<T>>)
    ensures |Insert(e, sorted)| == |sorted| + 1
    ensures forall x :: x in Insert(e, sorted) <==> x == e || x in sorted
  {
    if sorted != [] && !Before(e.key, sorted[0].key) {
      InsertElements(e, sorted[1..]);
      assert sorted == [sorted[0]] + sorted[1..];
    }
  }

  lemma {:induction false} SortElements<T(!new)>(entries: seq<Entry<T>>)
    ensures |Sort(entries)| == |entries|
    ensures forall x :: x in Sort(entries) <==> x in entries
  {
    if entries != [] {
      SortElements(entries[1..]);
      InsertElements(entries[0], Sort(entries[1..]));
      assert entries == [entries[0]] + entries[1..];
    }
  }

  lemma {:induction false} InsertAscending<T(!new)>(e: Entry<T>, sorted: seq<Entry<T>>)
    requires Ascending(sorted)
    requires forall x :: x in sorted ==> x.key != e.key
    ensures Ascending(Insert(e, sorted))
  {
    if sorted == [] {
    } else if Before(e.key, sorted[0].key) {
      forall j | 0 < j < |sorted| ensures Before(e.key, sorted[j].key) {
        BeforeTransitive(e.key, sorted[0].key, sorted[j].key);
      }
    } else {
      BeforeTotal(e.key, sorted[0].key);
      assert sorted[0] in sorted;
      InsertAscending(e, sorted[1..]);
      InsertElements(e, sorted[1..]);
      var rest := Insert(e, sorted[1..]);
      forall j | 0 <= j < |rest| ensures Before(sorted[0].key, rest[j].key) {
        assert rest[j] in rest;
        if rest[j] != e {
          var i :| 0 <= i < |sorted[1..]| && sorted[1..][i] == rest[j];
          assert sorted[i + 1] == rest[j];
        }
      }
    }
  }

  lemma {:induction false} SortAscending<T(!new)>(entries: seq<Entry<T>>)
    requires DistinctKeys(entries)
    ensures Ascending(Sort(entries))
  {
    if entries != [] {
      var rest := entries[1..];
      SortAscending(rest);
      SortElements(rest);
      forall x | x in Sort(rest) ensures x.key != entries[0].key {
        assert x in rest;
        var i :| 0 <= i < |rest| && rest[i] == x;
        assert entries[i + 1] == x;
      }
      InsertAscending(entries[0], Sort(rest));
    }
  }

  lemma AscendingTail<T(!new)>(a: seq<Entry<T>>, x: Entry<T>)
    requires Ascending(a) && a != []
    ensures x in a[1..] <==> x in a && x != a[0]
  {
    BeforeTotal(a[0].key, a[0].key);
    assert a == [a[0]] + a[1..];
    if x in a[1..] {
      var i :| 0 <= i < |a[1..]| && a[1..][i] == x;
      assert Before(a[0].key, a[i + 1].key);
    }
  }

  /** Two ascending lists with the same elements are the same list. */
  lemma {:induction false} AscendingUnique<T(!new)>(a: seq<Entry<T>>, b: seq<Entry<T>>)
    requires Ascending(a) && Ascending(b)
    requires forall x :: x in a <==> x in b
    ensures a == b
  {
    if a == [] {
      assert forall i :: 0 <= i < |b| ==> b[i] in b;
    } else {
      assert a[0] in b;
      assert b != [] && b[0] in a;
      if a[0] != b[0] {
        var i :| 0 <= i < |b| && b[i] == a[0];
        var j :| 0 <= j < |a| && a[j] == b[0];
        assert Before(b[0].key, a[0].key) && Before(a[0].key, b[0].key);
        BeforeTotal(a[0].key, b[0].key);
        assert false;
      }
      forall x ensures x in a[1..] <==> x in b[1..] {
        AscendingTail(a, x);
        AscendingTail(b, x);
      }
      AscendingUnique(a[1..], b[1..]);
      assert a == [a[0]] + a[1..] && b == [b[0]] + b[1..];
    }
  }

  /** Sorting moves values with their keys: lists that agree position by
      position still agree after both are sorted. */
  ghost predicate Aligned<T(!new), U(!new)>(a: seq<Entry<T>>, b: seq<Entry<U>>, related: (T, U) -> bool) {
    |a| == |b|
    && forall i :: 0 <= i < |a| ==> a[i].key == b[i].key && related(a[i].value, b[i].value)
  }

  lemma {:induction false} InsertAligned<T(!new), U(!new)>(
      e: Entry<T>, f: Entry<U>, a: seq<Entry<T>>, b: seq<Entry<U>>, related: (T, U) -> bool)
    requires e.key == f.key && related(e.value, f.value)
    requires Aligned(a, b, related)
    ensures Aligned(Insert(e, a), Insert(f, b), related)
  {
    if a != [] && !Before(e.key, a[0].key) {
      InsertAligned(e, f, a[1..], b[1..], related);
    }
  }

  lemma {:induction false} SortAligned<T(!new), U(!new)>(
      a: seq<Entry<T>>, b: seq<Entry<U>>, related: (T, U) -> bool)
    requires Aligned(a, b, related)
    ensures Aligned(Sort(a), Sort(b), related)
  {
    if a != [] {
      SortAligned(a[1..], b[1..], related);
      InsertAligned(a[0], b[0], Sort(a[1..]), Sort(b[1..]), related);
    }
  }

  // --------------------------------------------------------------- serializer

  function HexDigit(d: nat): char
    requires d < 16
  {
    if d < 10 then '0' + d as char else 'a' + (d - 10) as char
  }

  function Escape(c: char): string {
    if c == '\"' then ['\\', '\"']
    else if c == '\\' then ['\\', '\\']
    else if c as int == 8 then ['\\', 'b']
    else if c as int == 9 then ['\\', 't']
    else if c as int == 10 then ['\\', 'n']
    else if c as int == 12 then ['\\', 'f']
    else if c as int == 13 then ['\\', 'r']
    else if c as int < 32 then
      ['\\', 'u', '0', '0', HexDigit(c as int / 16), HexDigit(c as int % 16)]
    else [c]
  }

  function EscapeAll(s: string): string {
    if s == "" then "" else Escape(s[0]) + EscapeAll(s[1..])
  }

  /** `JSON.stringify` of a string. */
  function Quote(s: string): string {
    "\"" + EscapeAll(s) + "\""
  }

  function NumberText(n: int): string {
    if n < 0 then "-" + Decimal(-n) else Decimal(n)
  }

  function MemberText(m: Entry<string>): string {
    Quote(m.key) + ":" + m.value
  }

  function MemberTexts(members: seq<Entry<string>>): (texts: seq<string>)
    ensures |texts| == |members|
    ensures forall i :: 0 <= i < |members| ==> texts[i] == MemberText(members[i])
  {
    if members == [] then [] else [MemberText(members[0])] + MemberTexts(members[1..])
  }

  /** `canonicalBriefJson`: every object's members in ascending key order. */
  function Canonical(v: Json): string
    decreases v, 1
  {
    match v
    case Null => "null"
    case Bool(b) => if b then "true" else "false"
    case Num(n) => NumberText(n)
    case Str(s) => Quote(s)
    case Arr(items) => "[" + Join(ItemTexts(items), ",") + "]"
    case Obj(fields) => "{" + Join(MemberTexts(Sort(Members(fields))), ",") + "}"
  }

  function ItemTexts(items: seq<Json>): (texts: seq<string>)
    ensures |texts| == |items|
    ensures forall i :: 0 <= i < |items| ==> texts[i] == Canonical(items[i])
    decreases items, 0
  {
    if items == [] then [] else [Canonical(items[0])] + ItemTexts(items[1..])
  }

  function Members(fields: seq<Entry<Json>>): (members: seq<Entry<string>>)
    ensures |members| == |fields|
    ensures forall i :: 0 <= i < |fields| ==>
      members[i] == Entry(fields[i].key, Canonical(fields[i].value))
    decreases fields, 0
  {
    if fields == [] then []
    else [Entry(fields[0].key, Canonical(fields[0].value))] + Members(fields[1..])
  }

  /** SHA-256, idealised as injective. */
  datatype Digest = Sha256(text: string)

  /** `digestBriefJson`. */
  function DigestOf(v: Json): Digest { Sha256(Canonical(v)) }

  // ----------------------------------------------- equality up to member order

  /** Equal JSON values when member order is not observed. */
  predicate Same(a: Json, b: Json)
    decreases a
  {
    match (a, b)
    case (Arr(xs), Arr(ys)) =>
      |xs| == |ys| && forall i :: 0 <= i < |xs| ==> Same(xs[i], ys[i])
    case (Obj(fs), Obj(gs)) =>
      Keys(fs) == Keys(gs)
      && forall i :: 0 <= i < |fs| ==> Same(fs[i].value, Lookup(gs, fs[i].key))
    case _ => a == b && !a.Arr? && !a.Obj?
  }

  /** The representative with every object's members in ascending key order. */
  function Ordered(v: Json): Json
    decreases v, 1
  {
    match v
    case Arr(items) => Arr(OrderedItems(items))
    case Obj(fields) => Obj(Sort(OrderedFields(fields)))
    case _ => v
  }

  function OrderedItems(items: seq<Json>): (r: seq<Json>)
    ensures |r| == |items|
    ensures forall i :: 0 <= i < |items| ==> r[i] == Ordered(items[i])
    decreases items, 0
  {
    if items == [] then [] else [Ordered(items[0])] + OrderedItems(items[1..])
  }

  function OrderedFields(fields: seq<Entry<Json>>): (r: seq<Entry<Json>>)
    ensures |r| == |fields|
    ensures forall i :: 0 <= i < |fields| ==>
      r[i] == Entry(fields[i].key, Ordered(fields[i].value))
    decreases fields, 0
  {
    if fields == [] then []
    else [Entry(fields[0].key, Ordered(fields[0].value))] + OrderedFields(fields[1..])
  }

  lemma {:induction false} OrderedKeys(fs: seq<Entry<Json>>)
    ensures Keys(OrderedFields(fs)) == Keys(fs)
  {
    if fs != [] {
      OrderedKeys(fs[1..]);
      assert OrderedFields(fs)[1..] == OrderedFields(fs[1..]);
    }
  }

  lemma {:induction false} OrderedLookup(fs: seq<Entry<Json>>, key: string)
    requires key in Keys(fs)
    ensures key in Keys(OrderedFields(fs))
    ensures Lookup(OrderedFields(fs), key) == Ordered(Lookup(fs, key))
  {
    OrderedKeys(fs);
    assert OrderedFields(fs)[1..] == OrderedFields(fs[1..]);
    if fs[0].key != key {
      OrderedLookup(fs[1..], key);
    }
  }

  lemma KeysAre<T>(entries: seq<Entry<T>>)
    ensures forall k :: k in Keys(entries) <==> exists i :: 0 <= i < |entries| && entries[i].key == k
  {}

  predicate AgreesAt<T(==)>(a: seq<Entry<T>>, b: seq<Entry<T>>, i: nat)
    requires Keys(a) == Keys(b) && i < |a|
  {
    a[i].value == Lookup(b, a[i].key)
  }

  /** The same keys, with the same values. */
  predicate Agree<T(==)>(a: seq<Entry<T>>, b: seq<Entry<T>>) {
    Keys(a) == Keys(b) && forall i :: 0 <= i < |a| ==> AgreesAt(a, b, i)
  }

  lemma SameElementsIffAgree<T(!new)>(a: seq<Entry<T>>, b: seq<Entry<T>>)
    requires DistinctKeys(a) && DistinctKeys(b)
    ensures (forall i :: 0 <= i < |a| ==> a[i] in b) && (forall j :: 0 <= j < |b| ==> b[j] in a) <==> Agree(a, b)
  {
    KeysAre(a);
    KeysAre(b);
    hide Keys;
    forall i, j | 0 <= i < |a| && 0 <= j < |b| && a[i] == b[j]
      ensures Lookup(b, a[i].key) == a[i].value
    {
      LookupOnly(b, j);
    }
    hide Lookup;
    if Agree(a, b) {
      forall i | 0 <= i < |a| ensures a[i] in b {
        assert AgreesAt(a, b, i);
      }
      forall j | 0 <= j < |b| ensures b[j] in a {
        LookupOnly(b, j);
        assert b[j].key in Keys(b);
        var i :| 0 <= i < |a| && a[i].key == b[j].key;
        assert AgreesAt(a, b, i);
      }
    }
  }

  lemma SortEqualIffSameElements<T(!new)>(a: seq<Entry<T>>, b: seq<Entry<T>>)
    requires DistinctKeys(a) && DistinctKeys(b)
    ensures Sort(a) == Sort(b) <==>
      (forall i :: 0 <= i < |a| ==> a[i] in b) && (forall j :: 0 <= j < |b| ==> b[j] in a)
  {
    SortElements(a);
    SortElements(b);
    SortAscending(a);
    SortAscending(b);
    if Sort(a) == Sort(b) {
      assert forall x :: x in a <==> x in b;
    } else if (forall i :: 0 <= i < |a| ==> a[i] in b) && (forall j :: 0 <= j < |b| ==> b[j] in a) {
      AscendingUnique(Sort(a), Sort(b));
    }
  }

  lemma SortEqualIffAgree<T(!new)>(a: seq<Entry<T>>, b: seq<Entry<T>>)
    requires DistinctKeys(a) && DistinctKeys(b)
    ensures Sort(a) == Sort(b) <==> Agree(a, b)
  {
    hide Sort, Agree;
    SortEqualIffSameElements(a, b);
    SameElementsIffAgree(a, b);
  }

  predicate SameAt(fs: seq<Entry<Json>>, gs: seq<Entry<Json>>, i: nat)
    requires Keys(fs) == Keys(gs) && i < |fs|
  {
    Same(fs[i].value, Lookup(gs, fs[i].key))
  }

  lemma ObjectsSame(fs: seq<Entry<Json>>, gs: seq<Entry<Json>>)
    ensures Keys(fs) == Keys(gs) ==> forall i :: 0 <= i < |fs| ==> fs[i].key in Keys(gs)
    ensures Same(Obj(fs), Obj(gs)) <==>
      Keys(fs) == Keys(gs) && forall i :: 0 <= i < |fs| ==> Same(fs[i].value, Lookup(gs, fs[i].key))
  {}

  lemma SameObjects(fs: seq<Entry<Json>>, gs: seq<Entry<Json>>)
    ensures Same(Obj(fs), Obj(gs)) <==> Keys(fs) == Keys(gs) && forall i :: 0 <= i < |fs| ==> SameAt(fs, gs, i)
  {
    hide Same, Keys, Lookup;
    ObjectsSame(fs, gs);
    if Keys(fs) == Keys(gs) && forall i :: 0 <= i < |fs| ==> SameAt(fs, gs, i) {
      forall i | 0 <= i < |fs| ensures Same(fs[i].value, Lookup(gs, fs[i].key)) {
        assert SameAt(fs, gs, i);
      }
    }
  }

  lemma MembersMatch(fs: seq<Entry<Json>>, gs: seq<Entry<Json>>, i: nat)
    requires Keys(fs) == Keys(gs) && i < |fs|
    requires Same(fs[i].value, Lookup(gs, fs[i].key)) <==> Ordered(fs[i].value) == Ordered(Lookup(gs, fs[i].key))
    ensures Keys(OrderedFields(fs)) == Keys(OrderedFields(gs))
    ensures AgreesAt(OrderedFields(fs), OrderedFields(gs), i) <==> SameAt(fs, gs, i)
  {
    OrderedKeys(fs);
    OrderedKeys(gs);
    OrderedLookup(gs, fs[i].key);
    hide Same, Ordered;
  }

  /** The object case of `SameIsOrderedEqual`, its members already settled. */
  lemma SameFieldsIsSameOrder(fs: seq<Entry<Json>>, gs: seq<Entry<Json>>)
    requires DistinctKeys(fs) && DistinctKeys(gs)
    requires Keys(fs) == Keys(gs) ==>
      forall i :: 0 <= i < |fs| ==>
        (Same(fs[i].value, Lookup(gs, fs[i].key)) <==>
         Ordered(fs[i].value) == Ordered(Lookup(gs, fs[i].key)))
    ensures Same(Obj(fs), Obj(gs)) <==> Sort(OrderedFields(fs)) == Sort(OrderedFields(gs))
  {
    SortEqualIffAgree(OrderedFields(fs), OrderedFields(gs));
    SameObjects(fs, gs);
    OrderedKeys(fs);
    OrderedKeys(gs);
    if Keys(fs) == Keys(gs) {
      forall i | 0 <= i < |fs|
        ensures AgreesAt(OrderedFields(fs), OrderedFields(gs), i) <==> SameAt(fs, gs, i)
      {
        MembersMatch(fs, gs, i);
      }
    }
    hide Same, Ordered, OrderedFields, Sort, Keys, Lookup, SameAt, AgreesAt;
  }

  lemma {:induction false} SameIsOrderedEqual(a: Json, b: Json)
    requires WellFormed(a) && WellFormed(b)
    ensures Same(a, b) <==> Ordered(a) == Ordered(b)
    decreases a
  {
    match (a, b)
    case (Arr(xs), Arr(ys)) =>
      if |xs| == |ys| {
        forall i | 0 <= i < |xs|
          ensures Same(xs[i], ys[i]) <==> OrderedItems(xs)[i] == OrderedItems(ys)[i]
        {
          SameIsOrderedEqual(xs[i], ys[i]);
        }
      }
    case (Obj(fs), Obj(gs)) =>
      if Keys(fs) == Keys(gs) {
        forall i | 0 <= i < |fs|
          ensures Same(fs[i].value, Lookup(gs, fs[i].key))
             <==> Ordered(fs[i].value) == Ordered(Lookup(gs, fs[i].key))
        {
          var j :| 0 <= j < |gs| && gs[j] == Entry(fs[i].key, Lookup(gs, fs[i].key));
          SameIsOrderedEqual(fs[i].value, Lookup(gs, fs[i].key));
        }
      }
      SameFieldsIsSameOrder(fs, gs);
    case _ =>
  }
}
