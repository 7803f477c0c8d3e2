/** Byte size of a canonical document, and in-place property assignment.
    `bytesOf` re-serializes the whole nested document on every trial
    (src/context-brief/service.ts); here its value is shown to be additive,
    so that one assignment changes it by exactly the size difference. */
module BriefSize {
  import opened Text
  import opened Json

  /** `bytesOf`. */
  function BytesOf(v: Json): nat { ByteLength(Canonical(v)) }

  /** The size of a value computed from its parts, in any member order. */
  function Size(v: Json): nat
    decreases v, 1
  {
    match v
    case Arr(items) => if items == [] then 2 else 1 + ItemsSize(items)
    case Obj(fields) => if fields == [] then 2 else 1 + FieldsSize(fields)
    case _ => BytesOf(v)
  }

  /** Each item with the comma or bracket that follows it. */
  function ItemsSize(items: seq<Json>): nat
    decreases items, 0
  {
    if items == [] then 0 else Size(items[0]) + 1 + ItemsSize(items[1..])
  }

  function FieldsSize(fields: seq<Entry<Json>>): nat
    decreases fields, 0
  {
    if fields == [] then 0
    else
      ByteLength(Quote(fields[0].key)) + 1 + Size(fields[0].value) + 1 + FieldsSize(fields[1..])
  }

  function TextsSize(texts: seq<string>): nat {
    if texts == [] then 0 else ByteLength(texts[0]) + 1 + TextsSize(texts[1..])
  }

  function MembersSize(members: seq<Entry<string>>): nat {
    if members == [] then 0
    else
      ByteLength(Quote(members[0].key)) + 1 + ByteLength(members[0].value) + 1
      + MembersSize(members[1..])
  }

  lemma {:induction false} JoinSize(texts: seq<string>)
    requires |texts| >= 1
    ensures ByteLength(Join(texts, ",")) + 1 == TextsSize(texts)
  {
    if |texts| > 1 {
      JoinSize(texts[1..]);
      ByteLengthAppend(texts[0] + ",", Join(texts[1..], ","));
      ByteLengthAppend(texts[0], ",");
    }
  }

  /** Delimiters add one byte on each side. */
  lemma WrapSize(open: char, body: string, close: char)
    requires CharBytes(open) == CharBytes(close) == 1
    ensures ByteLength([open] + body + [close]) == ByteLength(body) + 2
  {
    ByteLengthAppend([open] + body, [close]);
    ByteLengthAppend([open], body);
  }

  lemma {:induction false} MemberTextsSize(members: seq<Entry<string>>)
    ensures TextsSize(MemberTexts(members)) == MembersSize(members)
  {
    if members != [] {
      var m := members[0];
      ByteLengthAppend(Quote(m.key) + ":", m.value);
      ByteLengthAppend(Quote(m.key), ":");
      MemberTextsSize(members[1..]);
      assert MemberTexts(members)[1..] == MemberTexts(members[1..]);
    }
  }

  lemma {:induction false} InsertSize(m: Entry<string>, sorted: seq<Entry<string>>)
    ensures MembersSize(Insert(m, sorted)) == MembersSize([m] + sorted)
  {
    assert ([m] + sorted)[1..] == sorted;
    if sorted != [] && !Before(m.key, sorted[0].key) {
      InsertSize(m, sorted[1..]);
      assert ([m] + sorted[1..])[1..] == sorted[1..];
    }
  }

  /** Sorting the members does not change their total size. */
  lemma {:induction false} SortSize(members: seq<Entry<string>>)
    ensures MembersSize(Sort(members)) == MembersSize(members)
  {
    if members != [] {
      SortSize(members[1..]);
      InsertSize(members[0], Sort(members[1..]));
      assert ([members[0]] + Sort(members[1..]))[1..] == Sort(members[1..]);
    }
  }

  /** The measured length of the canonical text is the additive size. */
  lemma {:induction false} BytesOfIsSize(v: Json)
    ensures BytesOf(v) == Size(v)
    decreases v, 1
  {
    match v
    case Arr(items) =>
      ItemTextsSize(items);
      WrapSize('[', Join(ItemTexts(items), ","), ']');
      if items != [] { JoinSize(ItemTexts(items)); }
    case Obj(fields) =>
      var members := Members(fields);
      FieldMembersSize(fields);
      SortSize(members);
      SortElements(members);
      MemberTextsSize(Sort(members));
      WrapSize('{', Join(MemberTexts(Sort(members)), ","), '}');
      if fields != [] { JoinSize(MemberTexts(Sort(members))); }
    case _ =>
  }

  lemma {:induction false} ItemTextsSize(items: seq<Json>)
    ensures TextsSize(ItemTexts(items)) == ItemsSize(items)
    decreases items, 0
  {
    if items != [] {
      BytesOfIsSize(items[0]);
      ItemTextsSize(items[1..]);
      assert ItemTexts(items)[1..] == ItemTexts(items[1..]);
    }
  }

  lemma {:induction false} FieldMembersSize(fields: seq<Entry<Json>>)
    ensures MembersSize(Members(fields)) == FieldsSize(fields)
    decreases fields, 0
  {
    if fields != [] {
      BytesOfIsSize(fields[0].value);
      FieldMembersSize(fields[1..]);
      assert Members(fields)[1..] == Members(fields[1..]);
    }
  }

  // ------------------------------------------------------ property assignment

  type Path = seq<string>

  /** Every step of the path names an own property. */
  predicate Has(v: Json, path: Path)
    decreases path
  {
    path == []
    || (v.Obj? && path[0] in Keys(v.fields) && Has(Lookup(v.fields, path[0]), path[1..]))
  }

  function Get(v: Json, path: Path): Json
    requires Has(v, path)
    decreases path
  {
    if path == [] then v else Get(Lookup(v.fields, path[0]), path[1..])
  }

  /** Assignment to an existing own property keeps its place. */
  function Assign(fields: seq<Entry<Json>>, key: string, w: Json): seq<Entry<Json>>
    requires key in Keys(fields)
  {
    if fields[0].key == key then [Entry(key, w)] + fields[1..]
    else [fields[0]] + Assign(fields[1..], key, w)
  }

  /** `document.a.b = w`. */
  function Put(v: Json, path: Path, w: Json): Json
    requires Has(v, path)
    decreases path
  {
    if path == [] then w
    else Obj(Assign(v.fields, path[0], Put(Lookup(v.fields, path[0]), path[1..], w)))
  }

  lemma {:induction false} AssignLookup(fields: seq<Entry<Json>>, key: string, w: Json, other: string)
    requires key in Keys(fields)
    ensures Keys(Assign(fields, key, w)) == Keys(fields)
    ensures Lookup(Assign(fields, key, w), key) == w
    ensures other != key && other in Keys(fields) ==>
      Lookup(Assign(fields, key, w), other) == Lookup(fields, other)
  {
    if fields[0].key != key {
      AssignLookup(fields[1..], key, w, other);
    }
  }

  lemma {:induction false} AssignTwice(fields: seq<Entry<Json>>, key: string, w: Json, w': Json)
    requires key in Keys(fields) && key in Keys(Assign(fields, key, w))
    ensures Assign(Assign(fields, key, w), key, w') == Assign(fields, key, w')
  {
    if fields[0].key != key {
      AssignLookup(fields[1..], key, w, key);
      AssignTwice(fields[1..], key, w, w');
    }
  }

  lemma {:induction false} AssignSize(fields: seq<Entry<Json>>, key: string, w: Json)
    requires key in Keys(fields)
    ensures FieldsSize(Assign(fields, key, w)) + Size(Lookup(fields, key))
         == FieldsSize(fields) + Size(w)
    ensures Assign(fields, key, w) != []
  {
    if fields[0].key == key {
      assert Assign(fields, key, w)[1..] == fields[1..];
    } else {
      AssignSize(fields[1..], key, w);
      assert Assign(fields, key, w)[1..] == Assign(fields[1..], key, w);
    }
  }

  /** One assignment changes the size of the whole document by the difference
      between the new value and the old. */
  lemma {:induction false} PutSize(v: Json, path: Path, w: Json)
    requires Has(v, path)
    ensures BytesOf(Put(v, path, w)) + BytesOf(Get(v, path)) == BytesOf(v) + BytesOf(w)
    decreases path
  {
    BytesOfIsSize(v);
    BytesOfIsSize(w);
    BytesOfIsSize(Get(v, path));
    BytesOfIsSize(Put(v, path, w));
    if path != [] {
      var child := Lookup(v.fields, path[0]);
      var child' := Put(child, path[1..], w);
      PutSize(child, path[1..], w);
      BytesOfIsSize(child);
      BytesOfIsSize(child');
      AssignSize(v.fields, path[0], child');
    }
  }

  /** Assigning reads back, and a second assignment supersedes the first. */
  lemma {:induction false} PutGet(v: Json, path: Path, w: Json)
    requires Has(v, path)
    ensures Has(Put(v, path, w), path) && Get(Put(v, path, w), path) == w
    decreases path
  {
    if path != [] {
      var child' := Put(Lookup(v.fields, path[0]), path[1..], w);
      PutGet(Lookup(v.fields, path[0]), path[1..], w);
      AssignLookup(v.fields, path[0], child', path[0]);
    }
  }

  lemma {:induction false} PutPut(v: Json, path: Path, w: Json, w': Json)
    requires Has(v, path) && Has(Put(v, path, w), path)
    ensures Put(Put(v, path, w), path, w') == Put(v, path, w')
    decreases path
  {
    if path != [] {
      var child := Lookup(v.fields, path[0]);
      PutGet(child, path[1..], w);
      PutPut(child, path[1..], w, w');
      var child' := Put(child, path[1..], w);
      AssignLookup(v.fields, path[0], child', path[0]);
      AssignTwice(v.fields, path[0], child', Put(child, path[1..], w'));
    }
  }

  /** Neither path passes through the other. */
  predicate Apart(p: Path, q: Path) {
    p != [] && q != [] && (p[0] != q[0] || Apart(p[1..], q[1..]))
  }

  /** An assignment leaves every property away from its path alone. */
  lemma {:induction false} PutApart(v: Json, p: Path, w: Json, q: Path)
    requires Has(v, p) && Apart(p, q)
    ensures Has(Put(v, p, w), q) <==> Has(v, q)
    ensures Has(v, q) ==> Get(Put(v, p, w), q) == Get(v, q)
    decreases p
  {
    var child := Lookup(v.fields, p[0]);
    AssignLookup(v.fields, p[0], Put(child, p[1..], w), q[0]);
    if p[0] == q[0] {
      PutApart(child, p[1..], w, q[1..]);
    }
  }

  lemma {:induction false} AssignSame(fields: seq<Entry<Json>>, key: string)
    requires key in Keys(fields)
    ensures Assign(fields, key, Lookup(fields, key)) == fields
  {
    if fields[0].key != key { AssignSame(fields[1..], key); }
  }

  /** Assigning the value a property already has changes nothing. */
  lemma {:induction false} PutSame(v: Json, path: Path)
    requires Has(v, path)
    ensures Put(v, path, Get(v, path)) == v
    decreases path
  {
    if path != [] {
      PutSame(Lookup(v.fields, path[0]), path[1..]);
      AssignSame(v.fields, path[0]);
    }
  }

  // -------------------------------------------------------------------- lists

  lemma {:induction false} ItemsSizeAppend(a: seq<Json>, b: seq<Json>)
    ensures ItemsSize(a + b) == ItemsSize(a) + ItemsSize(b)
  {
    if a == [] {
      assert a + b == b;
    } else {
      assert (a + b)[1..] == a[1..] + b;
      ItemsSizeAppend(a[1..], b);
    }
  }
}
