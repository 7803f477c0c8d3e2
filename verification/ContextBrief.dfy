/** The budget-fitting tail of `assembleContextBrief`
    (src/context-brief/service.ts): a mandatory document that must fit as it
    stands, then seven optional sections filled in a fixed order. */
module ContextBrief {
  import opened Text
  import opened Json
  import opened BriefSize
  import opened GreedyFill

  const MIN_BYTES := 512
  const MAX_BYTES := 256 * 1024
  const BYTES_PER_TOKEN := 4

  /** An offered list item: its rendering, and how it is named when dropped. */
  datatype Item = Item(value: Json, id: string, sourceRef: string)

  datatype Omitted = Omitted(section: string, id: string, sourceRef: string)

  function Values(items: seq<Item>): (vs: seq<Json>)
    ensures |vs| == |items|
    ensures forall i :: 0 <= i < |items| ==> vs[i] == items[i].value
  {
    if items == [] then [] else [items[0].value] + Values(items[1..])
  }

  function Rendered(items: seq<Item>): Json { Arr(Values(items)) }

  function Entries(section: string, items: seq<Item>): (r: seq<Omitted>)
    ensures |r| == |items|
    ensures forall i :: 0 <= i < |items| ==>
      r[i] == Omitted(section, items[i].id, items[i].sourceRef)
  {
    seq(|items|, i requires 0 <= i < |items| => Omitted(section, items[i].id, items[i].sourceRef))
  }

  /** The `apply` callback: the section's list is assigned in place. */
  function Apply(doc: Json, path: Path, list: seq<Item>): Json
    requires Has(doc, path)
  {
    Put(doc, path, Rendered(list))
  }

  /** Does the whole document fit once a list stands at `path`? */
  function FitsAt(doc: Json, path: Path, budget: int): seq<Item> -> bool
    requires Has(doc, path)
  {
    list => BytesOf(Apply(doc, path, list)) <= budget
  }

  /** What `growList` keeps of the items offered at `path`. */
  function KeptAt(doc: Json, path: Path, budget: int, items: seq<Item>): seq<Item>
    requires Has(doc, path)
  {
    Kept(items, FitsAt(doc, path, budget))
  }

  /** What it logs. */
  function LoggedAt(doc: Json, path: Path, budget: int, section: string, items: seq<Item>): seq<Omitted>
    requires Has(doc, path)
  {
    Entries(section, Dropped(items, FitsAt(doc, path, budget)))
  }

  // ------------------------------------------------------------------ sizes

  lemma SizePositive(v: Json)
    ensures BytesOf(v) >= 1
  {
    BytesOfIsSize(v);
    if v.Num? { DecimalRoundTrip(if v.n < 0 then -v.n else v.n); }
  }

  /** Extending a list never makes its rendering smaller. */
  lemma LongerIsLarger(a: seq<Item>, b: seq<Item>)
    requires a <= b
    ensures 2 <= BytesOf(Rendered(a)) <= BytesOf(Rendered(b))
  {
    var tail := Values(b)[|a|..];
    assert Values(b) == Values(a) + tail;
    ItemsSizeAppend(Values(a), tail);
    BytesOfIsSize(Rendered(a));
    BytesOfIsSize(Rendered(b));
    if a != [] {
      SizePositive(Values(a)[0]);
      BytesOfIsSize(Values(a)[0]);
    } else if b != [] {
      SizePositive(Values(b)[0]);
      BytesOfIsSize(Values(b)[0]);
    }
  }

  lemma FitsIsShrinkable(doc: Json, path: Path, budget: int)
    requires Has(doc, path)
    ensures Shrinkable(FitsAt(doc, path, budget))
  {
    hide Put, Get, Has, Canonical, Values;
    var fits := FitsAt(doc, path, budget);
    forall a: seq<Item>, b: seq<Item> | a <= b && fits(b) ensures fits(a) {
      LongerIsLarger(a, b);
      PutSize(doc, path, Rendered(a));
      PutSize(doc, path, Rendered(b));
    }
  }

  // --------------------------------------------------------------- sections

  /** One optional section: where its list lives, and the flag, if any, that
      reports truncation. */
  datatype Section = Section(name: string, path: Path, flag: Option<Path>)

  const CHANGE := "changeSinceLastRun"

  /** The seven sections in filling order. */
  const SECTIONS: seq<Section> := [
    Section("changeSinceLastRun.missingDependencyLinks", [CHANGE, "missingDependencyLinks"], None),
    Section("changeSinceLastRun.workNeedingAttention", [CHANGE, "workNeedingAttention"], None),
    Section("changeSinceLastRun.reconciliationsSince", [CHANGE, "reconciliationsSince"],
            Some([CHANGE, "reconciliationsSinceTruncated"])),
    Section("changeSinceLastRun.completedWorkRemaining", [CHANGE, "completedWorkRemaining"], None),
    Section("reconciliationOutcomes", ["reconciliationOutcomes"],
            Some(["reconciliationOutcomesTruncated"])),
    Section("planReferences", ["planReferences"], None),
    Section("historicalObservations", ["historicalObservations"], None)
  ]

  const COUNT := 7

  function SectionAt(i: nat): Section
    requires i < COUNT
  {
    SECTIONS[i]
  }

  /** Section `s` holds its empty list and its cleared flag. */
  ghost predicate Blank(doc: Json, s: Section) {
    Has(doc, s.path) && Get(doc, s.path) == Arr([])
    && (s.flag.Some? ==> Has(doc, s.flag.value) && Get(doc, s.flag.value) == Bool(false))
  }

  /** The document once a section has been filled. */
  function Filled(doc: Json, s: Section, items: seq<Item>, budget: int): Json
    requires Has(doc, s.path)
  {
    var kept := Kept(items, FitsAt(doc, s.path, budget));
    var listed := Put(doc, s.path, Rendered(kept));
    if s.flag.Some? && Has(listed, s.flag.value)
    then Put(listed, s.flag.value, Bool(|kept| < |items|))
    else listed
  }

  /** A path that no part of the section touches. */
  ghost predicate Outside(s: Section, q: Path) {
    Apart(s.path, q) && (s.flag.Some? ==> Apart(s.flag.value, q))
  }

  lemma LiteralSize(b: bool)
    ensures BytesOf(Bool(b)) == if b then 4 else 5
  {
    ByteLengthAppend("tr", "ue");
    ByteLengthAppend("fa", "lse");
    assert Canonical(Bool(b)) == if b then "tr" + "ue" else "fa" + "lse";
  }

  /** Setting a flag anywhere in a document makes the document one byte shorter
      if the flag turns true, one byte longer if it turns false. */
  lemma FlagSize(doc: Json, flag: Path, b: bool)
    requires Has(doc, flag) && Get(doc, flag).Bool?
    ensures BytesOf(Put(doc, flag, Bool(b))) + (if b then 1 else 0)
      == BytesOf(doc) + (if Get(doc, flag).b then 1 else 0)
  {
    hide Put, Get, Has;
    LiteralSize(b);
    LiteralSize(Get(doc, flag).b);
    PutSize(doc, flag, Bool(b));
  }

  /** Filling one section: how the document and its size change. */
  lemma FilledEffect(doc: Json, s: Section, items: seq<Item>, budget: int)
    requires Blank(doc, s) && BytesOf(doc) <= budget
    requires s.flag.Some? ==> Apart(s.path, s.flag.value) && Apart(s.flag.value, s.path)
    ensures var kept := Kept(items, FitsAt(doc, s.path, budget));
            var doc' := Filled(doc, s, items, budget);
            var saved := if s.flag.Some? && |kept| < |items| then 1 else 0;
            Has(doc', s.path) && Get(doc', s.path) == Rendered(kept)
            && (s.flag.Some? ==>
                  Has(Put(doc, s.path, Rendered(kept)), s.flag.value)
                  && Has(doc', s.flag.value)
                  && Get(doc', s.flag.value) == Bool(|kept| < |items|))
            && BytesOf(doc') == BytesOf(doc) - 2 + BytesOf(Rendered(kept)) - saved
            && BytesOf(doc') <= budget
            && BytesOf(doc') >= BytesOf(doc) - saved
  {
    hide Put, Get, Has, Apart, Canonical, Values, Greedy, Select;
    var fits := FitsAt(doc, s.path, budget);
    var kept := Kept(items, fits);
    assert BytesOf(Arr([])) == 2 by { BytesOfIsSize(Arr([])); }
    LongerIsLarger([], kept);
    assert Rendered([]) == Arr([]) by { assert Values([]) == []; }
    PutSize(doc, s.path, Rendered([]));
    KeptFits(items, fits);
    PutSize(doc, s.path, Rendered(kept));
    PutGet(doc, s.path, Rendered(kept));
    if s.flag.Some? {
      var flag := s.flag.value;
      var listed := Put(doc, s.path, Rendered(kept));
      PutApart(doc, s.path, Rendered(kept), flag);
      FlagSize(listed, flag, |kept| < |items|);
      PutGet(listed, flag, Bool(|kept| < |items|));
      PutApart(listed, flag, Bool(|kept| < |items|), s.path);
    }
  }

  lemma FilledElsewhere(doc: Json, s: Section, items: seq<Item>, budget: int, q: Path)
    requires Has(doc, s.path) && Outside(s, q)
    ensures var doc' := Filled(doc, s, items, budget);
            (Has(doc', q) <==> Has(doc, q)) && (Has(doc, q) ==> Get(doc', q) == Get(doc, q))
  {
    hide Put, Get, Has, Apart, Values, Greedy, Select;
    var kept := Kept(items, FitsAt(doc, s.path, budget));
    var listed := Put(doc, s.path, Rendered(kept));
    PutApart(doc, s.path, Rendered(kept), q);
    if s.flag.Some? && Has(listed, s.flag.value) {
      PutApart(listed, s.flag.value, Bool(|kept| < |items|), q);
    }
  }

  /** Different sections touch different properties, and a section's list and
      its flag are different properties. */
  ghost predicate Separate(s: Section, t: Section) {
    Outside(s, t.path) && (t.flag.Some? ==> Outside(s, t.flag.value))
  }

  lemma SectionsAreSeparate(i: nat, j: nat)
    requires i < COUNT && j < COUNT
    ensures i != j ==> Separate(SectionAt(i), SectionAt(j))
    ensures var s := SectionAt(i);
            s.flag.Some? ==> Apart(s.path, s.flag.value) && Apart(s.flag.value, s.path)
  {
  }

  // --------------------------------------------------------- the whole filling

  /** The items offered to each section, most important first. */
  type Offer = o: seq<seq<Item>> | |o| == COUNT witness seq(COUNT, i => [])

  /** The mandatory document: every list empty, every flag cleared. */
  ghost predicate Mandatory(doc: Json) {
    forall i :: 0 <= i < COUNT ==> Blank(doc, SectionAt(i))
  }

  /** The document after the first `k` sections. */
  function After(doc: Json, offer: Offer, budget: int, k: nat): Json
    requires k <= COUNT
  {
    if k == 0 then doc
    else
      var before := After(doc, offer, budget, k - 1);
      var s := SectionAt(k - 1);
      if Has(before, s.path) then Filled(before, s, offer[k - 1], budget) else before
  }

  /** The fitting test section `i` meets. */
  function TestOf(doc: Json, offer: Offer, budget: int, i: nat): seq<Item> -> bool
    requires i < COUNT
  {
    var before := After(doc, offer, budget, i);
    if Has(before, SectionAt(i).path) then FitsAt(before, SectionAt(i).path, budget)
    else (list: seq<Item>) => false
  }

  function KeptIn(doc: Json, offer: Offer, budget: int, i: nat): seq<Item>
    requires i < COUNT
  {
    Kept(offer[i], TestOf(doc, offer, budget, i))
  }

  function OmittedFrom(doc: Json, offer: Offer, budget: int, i: nat): seq<Omitted>
    requires i < COUNT
  {
    Entries(SectionAt(i).name, Dropped(offer[i], TestOf(doc, offer, budget, i)))
  }

  /** The omission log after the first `k` sections. */
  function OmittedUpTo(doc: Json, offer: Offer, budget: int, k: nat): seq<Omitted>
    requires k <= COUNT
  {
    if k == 0 then []
    else OmittedUpTo(doc, offer, budget, k - 1) + OmittedFrom(doc, offer, budget, k - 1)
  }

  /** How many truncation flags are set in section `k` or later. */
  function FlagsFrom(k: nat): nat {
    (if k <= 2 then 1 else 0) + (if k <= 4 then 1 else 0)
  }

  /** What section `i` looks like once it has been filled. */
  ghost predicate Settled(doc: Json, s: Section, kept: seq<Item>, offered: nat) {
    Has(doc, s.path) && Get(doc, s.path) == Rendered(kept)
    && (s.flag.Some? ==>
          Has(doc, s.flag.value) && Get(doc, s.flag.value) == Bool(|kept| < offered))
  }

  /** Sections before `k` are settled, the others still blank, and the
      document has never exceeded the budget. */
  ghost predicate FilledUpTo(doc: Json, offer: Offer, budget: int, k: nat)
    requires k <= COUNT
  {
    var doc' := After(doc, offer, budget, k);
    BytesOf(doc') <= budget
    && (forall i :: 0 <= i < k ==>
          Settled(doc', SectionAt(i), KeptIn(doc, offer, budget, i), |offer[i]|))
    && (forall i :: k <= i < COUNT ==> Blank(doc', SectionAt(i)))
  }

  lemma NothingFilled(doc: Json, offer: Offer, budget: int)
    requires Mandatory(doc) && BytesOf(doc) <= budget
    ensures FilledUpTo(doc, offer, budget, 0)
  {
    hide Filled, SectionAt, KeptIn, Blank, Settled, BytesOf;
  }

  lemma AfterUnfold(doc: Json, offer: Offer, budget: int, k: nat)
    requires k < COUNT && Has(After(doc, offer, budget, k), SectionAt(k).path)
    ensures After(doc, offer, budget, k + 1)
         == Filled(After(doc, offer, budget, k), SectionAt(k), offer[k], budget)
    ensures TestOf(doc, offer, budget, k)
         == FitsAt(After(doc, offer, budget, k), SectionAt(k).path, budget)
  {}

  lemma FlaggedSections(k: nat)
    requires k < COUNT
    ensures SectionAt(k).flag.Some? <==> k == 2 || k == 4
  {}

  /** Filling section `k` settles it and keeps the budget. */
  lemma AfterStep(doc: Json, offer: Offer, budget: int, k: nat)
    requires k < COUNT
    requires BytesOf(After(doc, offer, budget, k)) <= budget
    requires Blank(After(doc, offer, budget, k), SectionAt(k))
    ensures var before, after := After(doc, offer, budget, k), After(doc, offer, budget, k + 1);
            var kept := KeptIn(doc, offer, budget, k);
            after == Filled(before, SectionAt(k), offer[k], budget)
            && BytesOf(after) <= budget
            && Settled(after, SectionAt(k), kept, |offer[k]|)
            && BytesOf(after) + FlagsFrom(k) >= BytesOf(before) + FlagsFrom(k + 1)
            && BytesOf(after) + FlagsFrom(k) + 2
               >= BytesOf(before) + BytesOf(Rendered(kept)) + FlagsFrom(k + 1)
  {
    hide After, Filled, Kept, Greedy, Select, Has, Get, Put, BytesOf, Rendered, SectionAt;
    var s := SectionAt(k);
    AfterUnfold(doc, offer, budget, k);
    SectionsAreSeparate(k, k);
    FlaggedSections(k);
    FilledEffect(After(doc, offer, budget, k), s, offer[k], budget);
  }

  /** Filling section `k` leaves the other sections as they were. */
  lemma StepElsewhere(doc: Json, offer: Offer, budget: int, k: nat, i: nat, kept: seq<Item>)
    requires k < COUNT && i < COUNT && i != k
    requires Blank(After(doc, offer, budget, k), SectionAt(k))
    ensures var before, after := After(doc, offer, budget, k), After(doc, offer, budget, k + 1);
            var s := SectionAt(i);
            (Blank(before, s) ==> Blank(after, s))
            && (Settled(before, s, kept, |offer[i]|) ==> Settled(after, s, kept, |offer[i]|))
  {
    hide Filled, Kept, Has, Get, BytesOf, Rendered, SectionAt, Outside;
    var before := After(doc, offer, budget, k);
    var s := SectionAt(i);
    SectionsAreSeparate(k, i);
    FilledElsewhere(before, SectionAt(k), offer[k], budget, s.path);
    if s.flag.Some? { FilledElsewhere(before, SectionAt(k), offer[k], budget, s.flag.value); }
  }

  lemma FilledUpToStep(doc: Json, offer: Offer, budget: int, k: nat)
    requires k < COUNT && FilledUpTo(doc, offer, budget, k)
    ensures FilledUpTo(doc, offer, budget, k + 1)
  {
    hide After, Filled, SectionAt, Kept, KeptIn, Blank, Settled, BytesOf, Rendered, FlagsFrom;
    AfterStep(doc, offer, budget, k);
    forall i | 0 <= i < k
      ensures Settled(After(doc, offer, budget, k + 1), SectionAt(i), KeptIn(doc, offer, budget, i), |offer[i]|)
    {
      StepElsewhere(doc, offer, budget, k, i, KeptIn(doc, offer, budget, i));
    }
    forall i | k + 1 <= i < COUNT ensures Blank(After(doc, offer, budget, k + 1), SectionAt(i)) {
      StepElsewhere(doc, offer, budget, k, i, []);
    }
  }

  lemma {:induction false} AfterInvariant(doc: Json, offer: Offer, budget: int, k: nat)
    requires Mandatory(doc) && BytesOf(doc) <= budget && k <= COUNT
    ensures FilledUpTo(doc, offer, budget, k)
  {
    hide FilledUpTo, Mandatory, After, BytesOf;
    if k == 0 {
      NothingFilled(doc, offer, budget);
    } else {
      AfterInvariant(doc, offer, budget, k - 1);
      FilledUpToStep(doc, offer, budget, k - 1);
    }
  }

  lemma NextIsBlank(doc: Json, offer: Offer, budget: int, k: nat)
    requires k < COUNT && FilledUpTo(doc, offer, budget, k)
    ensures Blank(After(doc, offer, budget, k), SectionAt(k))
    ensures BytesOf(After(doc, offer, budget, k)) <= budget
  {
    hide After, SectionAt, Blank, Settled, BytesOf, KeptIn;
  }

  lemma StepSize(doc: Json, offer: Offer, budget: int, k: nat)
    requires k < COUNT && FilledUpTo(doc, offer, budget, k)
    ensures BytesOf(After(doc, offer, budget, k + 1)) + FlagsFrom(k)
         >= BytesOf(After(doc, offer, budget, k)) + FlagsFrom(k + 1)
  {
    hide After, BytesOf, FilledUpTo, FlagsFrom, Filled, Settled, Blank, KeptIn, SectionAt;
    NextIsBlank(doc, offer, budget, k);
    AfterStep(doc, offer, budget, k);
  }

  /** Later sections never shrink the document, except for the flags. */
  lemma {:induction false} LaterIsLarger(doc: Json, offer: Offer, budget: int, i: nat, j: nat)
    requires Mandatory(doc) && BytesOf(doc) <= budget && i <= j <= COUNT
    ensures BytesOf(After(doc, offer, budget, j)) + FlagsFrom(i)
         >= BytesOf(After(doc, offer, budget, i)) + FlagsFrom(j)
  {
    hide After, BytesOf, FilledUpTo, FlagsFrom, Mandatory;
    if i < j {
      LaterIsLarger(doc, offer, budget, i, j - 1);
      AfterInvariant(doc, offer, budget, j - 1);
      StepSize(doc, offer, budget, j - 1);
    }
  }

  // ---------------------------------------------------------------- main results

  function Final(doc: Json, offer: Offer, budget: int): Json {
    After(doc, offer, budget, COUNT)
  }

  /** A finished brief fits the budget, and has lost at most one byte per flag
      from its mandatory size. */
  lemma FinalWithinBudget(doc: Json, offer: Offer, budget: int)
    requires Mandatory(doc) && BytesOf(doc) <= budget
    ensures BytesOf(doc) - 2 <= BytesOf(Final(doc, offer, budget)) <= budget
  {
    hide BytesOf;
    AfterInvariant(doc, offer, budget, COUNT);
    LaterIsLarger(doc, offer, budget, 0, COUNT);
  }

  lemma BlankHas(doc: Json, s: Section)
    requires Blank(doc, s)
    ensures Has(doc, s.path)
  {}

  lemma AfterBase(doc: Json, offer: Offer, budget: int)
    ensures After(doc, offer, budget, 0) == doc && OmittedUpTo(doc, offer, budget, 0) == []
  {}

  /** Every mandatory property, at any depth, is left as it was. */
  lemma {:induction false} MandatoryUnchanged(doc: Json, offer: Offer, budget: int, k: nat, q: Path)
    requires Mandatory(doc) && BytesOf(doc) <= budget && k <= COUNT
    requires forall i: nat :: i < COUNT ==> Outside(SectionAt(i), q)
    ensures var doc' := After(doc, offer, budget, k);
            (Has(doc', q) <==> Has(doc, q)) && (Has(doc, q) ==> Get(doc', q) == Get(doc, q))
  {
    hide *;
    AfterBase(doc, offer, budget);
    if k > 0 {
      MandatoryUnchanged(doc, offer, budget, k - 1, q);
      AfterInvariant(doc, offer, budget, k - 1);
      NextIsBlank(doc, offer, budget, k - 1);
      AfterStep(doc, offer, budget, k - 1);
      BlankHas(After(doc, offer, budget, k - 1), SectionAt(k - 1));
      FilledElsewhere(After(doc, offer, budget, k - 1), SectionAt(k - 1), offer[k - 1], budget, q);
    }
  }

  /** Each section keeps the lexicographically greatest fitting sublist. */
  lemma SectionIsGreatest(doc: Json, offer: Offer, budget: int, i: nat, m: seq<bool>)
    requires Mandatory(doc) && BytesOf(doc) <= budget && i < COUNT
    requires |m| == |offer[i]| && Has(After(doc, offer, budget, i), SectionAt(i).path)
    requires BytesOf(Put(After(doc, offer, budget, i), SectionAt(i).path, Rendered(Select(offer[i], m))))
          <= budget
    ensures AtMost(m, Greedy(offer[i], TestOf(doc, offer, budget, i)))
  {
    hide After, Select, Greedy, Put, Has, BytesOf, Rendered;
    FitsIsShrinkable(After(doc, offer, budget, i), SectionAt(i).path, budget);
    GreedyIsGreatest(offer[i], TestOf(doc, offer, budget, i), m);
  }

  lemma EmptyListSize()
    ensures BytesOf(Arr([])) == 2
  {
    BytesOfIsSize(Arr([]));
  }

  /** Putting a dropped item back into the finished document, with whatever
      selection of the items after it, would exceed the budget less the bytes
      that flags may save from that section on. */
  lemma DroppedStaysOut(doc: Json, offer: Offer, budget: int, i: nat, m: seq<bool>, k: nat)
    requires Mandatory(doc) && BytesOf(doc) <= budget && i < COUNT
    requires |m| == |offer[i]| && k < |m|
    requires var g := Greedy(offer[i], TestOf(doc, offer, budget, i));
             m[..k] == g[..k] && m[k] && !g[k]
    ensures var final := Final(doc, offer, budget);
            Has(final, SectionAt(i).path)
            && BytesOf(Put(final, SectionAt(i).path, Rendered(Select(offer[i], m))))
               > budget - FlagsFrom(i)
  {
    hide After, Select, Greedy, Put, Has, Get, BytesOf, Rendered, Filled;
    var before, final := After(doc, offer, budget, i), Final(doc, offer, budget);
    var path := SectionAt(i).path;
    var list := Rendered(Select(offer[i], m));
    AfterInvariant(doc, offer, budget, i);
    AfterStep(doc, offer, budget, i);
    AfterInvariant(doc, offer, budget, COUNT);
    assert Blank(before, SectionAt(i));
    assert Settled(final, SectionAt(i), KeptIn(doc, offer, budget, i), |offer[i]|);
    FitsIsShrinkable(before, path, budget);
    DroppedDoesNotFit(offer[i], TestOf(doc, offer, budget, i), m, k);
    assert BytesOf(Arr([])) == 2 by { EmptyListSize(); }
    PutSize(before, path, list);
    PutSize(final, path, list);
    LaterIsLarger(doc, offer, budget, i + 1, COUNT);
  }

  /** In the finished document each list holds exactly what its section kept;
      what it kept and what it dropped partition what was offered, each in the
      order offered; and its flag is set exactly when something was dropped. */
  lemma SectionsPartition(doc: Json, offer: Offer, budget: int, i: nat)
    requires Mandatory(doc) && BytesOf(doc) <= budget && i < COUNT
    ensures var final, s := Final(doc, offer, budget), SectionAt(i);
            var kept := KeptIn(doc, offer, budget, i);
            var dropped := Dropped(offer[i], TestOf(doc, offer, budget, i));
            var mask := Greedy(offer[i], TestOf(doc, offer, budget, i));
            Has(final, s.path) && Get(final, s.path) == Rendered(kept)
            && kept == Select(offer[i], mask) && dropped == Select(offer[i], Complement(mask))
            && multiset(kept) + multiset(dropped) == multiset(offer[i])
            && (s.flag.Some? ==>
                  Has(final, s.flag.value) && Get(final, s.flag.value) == Bool(dropped != []))
  {
    hide After, Has, Get, BytesOf, Kept, Dropped, Rendered, SectionAt;
    AfterInvariant(doc, offer, budget, COUNT);
    assert Settled(Final(doc, offer, budget), SectionAt(i), KeptIn(doc, offer, budget, i), |offer[i]|);
    Partition(offer[i], TestOf(doc, offer, budget, i));
    TakenByOppositeMasks(offer[i], TestOf(doc, offer, budget, i));
    var kept := KeptIn(doc, offer, budget, i);
    var dropped := Dropped(offer[i], TestOf(doc, offer, budget, i));
    assert |offer[i]| == |multiset(offer[i])| == |multiset(kept)| + |multiset(dropped)|
        == |kept| + |dropped|;
  }

  // ------------------------------------------------------ the mandatory document

  /** The rendered values that are never optional. */
  datatype Parts = Parts(
    taskId: Json, taskRevision: Json, taskState: Json, intentDigest: Json, criteriaDigest: Json,
    source: Json, workflow: Json, authorizations: Json, acceptedDecisions: Json,
    confirmedAssumptions: Json, pendingDecisions: Json, openAssumptions: Json,
    openQuestions: Json, criteria: Json, nextAction: Json, deliveryNote: Json,
    resumeGuidance: Json, available: Json, reason: Json, sinceDigest: Json, boundAt: Json,
    unreconciledChange: Json)

  function ChangeFields(p: Parts): seq<Entry<Json>> {
    [Entry("available", p.available), Entry("reason", p.reason),
     Entry("sinceDigest", p.sinceDigest), Entry("boundAt", p.boundAt),
     Entry("reconciliationsSince", Arr([])), Entry("reconciliationsSinceTruncated", Bool(false)),
     Entry("unreconciledChange", p.unreconciledChange),
     Entry("workNeedingAttention", Arr([])), Entry("completedWorkRemaining", Arr([])),
     Entry("missingDependencyLinks", Arr([]))]
  }

  function ContentFields(p: Parts): seq<Entry<Json>> {
    [Entry("schemaVersion", Num(1)), Entry("taskId", p.taskId),
     Entry("taskRevision", p.taskRevision), Entry("taskState", p.taskState),
     Entry("intentDigest", p.intentDigest), Entry("criteriaDigest", p.criteriaDigest),
     Entry("source", p.source), Entry("workflow", p.workflow),
     Entry("authorizations", p.authorizations), Entry("acceptedDecisions", p.acceptedDecisions),
     Entry("confirmedAssumptions", p.confirmedAssumptions),
     Entry("pendingDecisions", p.pendingDecisions), Entry("openAssumptions", p.openAssumptions),
     Entry("openQuestions", p.openQuestions), Entry("historicalObservations", Arr([])),
     Entry("criteria", p.criteria), Entry("reconciliationOutcomes", Arr([])),
     Entry("reconciliationOutcomesTruncated", Bool(false)), Entry("planReferences", Arr([])),
     Entry("nextAction", p.nextAction), Entry(CHANGE, Obj(ChangeFields(p))),
     Entry("deliveryNote", p.deliveryNote), Entry("resumeGuidance", p.resumeGuidance)]
  }

  /** The `content` object before any section is filled. */
  function Content(p: Parts): Json { Obj(ContentFields(p)) }

  lemma {:induction false} LookupFirst(fields: seq<Entry<Json>>, i: nat)
    requires i < |fields|
    requires forall j :: 0 <= j < i ==> fields[j].key != fields[i].key
    ensures fields[i].key in Keys(fields) && Lookup(fields, fields[i].key) == fields[i].value
  {
    if i > 0 { LookupFirst(fields[1..], i - 1); }
  }

  lemma TopSlot(fields: seq<Entry<Json>>, i: nat)
    requires i < |fields|
    requires forall j :: 0 <= j < i ==> fields[j].key != fields[i].key
    ensures Has(Obj(fields), [fields[i].key])
    ensures Get(Obj(fields), [fields[i].key]) == fields[i].value
  {
    LookupFirst(fields, i);
  }

  lemma InnerSlot(fields: seq<Entry<Json>>, i: nat, inner: seq<Entry<Json>>, j: nat)
    requires i < |fields| && fields[i].value == Obj(inner) && j < |inner|
    requires forall k :: 0 <= k < i ==> fields[k].key != fields[i].key
    requires forall k :: 0 <= k < j ==> inner[k].key != inner[j].key
    ensures Has(Obj(fields), [fields[i].key, inner[j].key])
    ensures Get(Obj(fields), [fields[i].key, inner[j].key]) == inner[j].value
  {
    LookupFirst(fields, i);
    TopSlot(inner, j);
    assert [fields[i].key, inner[j].key][1..] == [inner[j].key];
  }

  lemma ContentKeysFirst(p: Parts, i: nat)
    requires i == 14 || 16 <= i <= 18 || i == 20
    ensures i < |ContentFields(p)|
    ensures forall j :: 0 <= j < i ==> ContentFields(p)[j].key != ContentFields(p)[i].key
  {}

  lemma ChangeKeysFirst(p: Parts, i: nat)
    requires 4 <= i <= 5 || 7 <= i <= 9
    ensures i < |ChangeFields(p)|
    ensures forall j :: 0 <= j < i ==> ChangeFields(p)[j].key != ChangeFields(p)[i].key
  {}

  lemma TopSlotOf(p: Parts, i: nat, key: string, v: Json)
    requires i == 14 || 16 <= i <= 18
    requires ContentFields(p)[i] == Entry(key, v)
    ensures Has(Content(p), [key]) && Get(Content(p), [key]) == v
  {
    hide ContentFields, Has, Get;
    ContentKeysFirst(p, i);
    TopSlot(ContentFields(p), i);
  }

  lemma InnerSlotOf(p: Parts, i: nat, key: string, v: Json)
    requires 4 <= i <= 5 || 7 <= i <= 9
    requires ChangeFields(p)[i] == Entry(key, v)
    ensures Has(Content(p), [CHANGE, key]) && Get(Content(p), [CHANGE, key]) == v
  {
    assert ContentFields(p)[20] == Entry(CHANGE, Obj(ChangeFields(p)));
    hide ContentFields, ChangeFields, Has, Get;
    ContentKeysFirst(p, 20);
    ChangeKeysFirst(p, i);
    InnerSlot(ContentFields(p), 20, ChangeFields(p), i);
  }

  lemma SlotsOfContent(p: Parts, i: nat)
    requires i < COUNT
    ensures Blank(Content(p), SectionAt(i))
  {
    hide Has, Get, Content;
    if i == 0 { InnerSlotOf(p, 9, "missingDependencyLinks", Arr([])); }
    else if i == 1 { InnerSlotOf(p, 7, "workNeedingAttention", Arr([])); }
    else if i == 2 {
      InnerSlotOf(p, 4, "reconciliationsSince", Arr([]));
      InnerSlotOf(p, 5, "reconciliationsSinceTruncated", Bool(false));
    }
    else if i == 3 { InnerSlotOf(p, 8, "completedWorkRemaining", Arr([])); }
    else if i == 4 {
      TopSlotOf(p, 16, "reconciliationOutcomes", Arr([]));
      TopSlotOf(p, 17, "reconciliationOutcomesTruncated", Bool(false));
    }
    else if i == 5 { TopSlotOf(p, 18, "planReferences", Arr([])); }
    else { TopSlotOf(p, 14, "historicalObservations", Arr([])); }
  }

  /** The document the source builds offers every section an empty list. */
  lemma ContentIsMandatory(p: Parts)
    ensures Mandatory(Content(p))
  {
    hide Blank, Content, SectionAt;
    forall i | 0 <= i < COUNT ensures Blank(Content(p), SectionAt(i)) {
      SlotsOfContent(p, i);
    }
  }

  // ------------------------------------------------------------------ assembly

  datatype Outcome =
    | BadBudget
    | TooLarge(mandatoryBytes: nat)
    | Brief(content: Json, omitted: seq<Omitted>, mandatoryBytes: nat, usedBytes: nat,
            estimatedTokens: nat, digest: Digest)

  lemma EntriesSnoc(section: string, items: seq<Item>, item: Item)
    ensures Entries(section, items + [item])
         == Entries(section, items) + [Omitted(section, item.id, item.sourceRef)]
  {}

  /** One iteration of `growList`. */
  lemma GrowStep(doc: Json, path: Path, budget: int, section: string, items: seq<Item>, n: nat)
    requires Has(doc, path) && n < |items|
    ensures var kept := KeptAt(doc, path, budget, items[..n]);
            var fit := BytesOf(Apply(doc, path, kept + [items[n]])) <= budget;
            KeptAt(doc, path, budget, items[..n + 1]) == (if fit then kept + [items[n]] else kept)
            && LoggedAt(doc, path, budget, section, items[..n + 1])
            == LoggedAt(doc, path, budget, section, items[..n])
               + (if fit then [] else [Omitted(section, items[n].id, items[n].sourceRef)])
  {
    hide Apply, Has, BytesOf, Greedy, Select, Kept, Dropped;
    var fits := FitsAt(doc, path, budget);
    GreedySnoc(items[..n], items[n], fits);
    assert items[..n + 1] == items[..n] + [items[n]];
    EntriesSnoc(section, Dropped(items[..n], fits), items[n]);
  }

  lemma NothingKept(doc: Json, path: Path, budget: int, section: string)
    requires Has(doc, path)
    ensures KeptAt(doc, path, budget, []) == []
    ensures LoggedAt(doc, path, budget, section, []) == []
  {
    hide Has;
  }

  lemma Reapplies(doc: Json, path: Path, a: seq<Item>, b: seq<Item>)
    requires Has(doc, path)
    ensures Has(Apply(doc, path, a), path)
    ensures Apply(Apply(doc, path, a), path, b) == Apply(doc, path, b)
  {
    hide Put, Has, Rendered;
    PutGet(doc, path, Rendered(a));
    PutPut(doc, path, Rendered(a), Rendered(b));
  }

  lemma PutEmpty(doc: Json, path: Path)
    requires Has(doc, path) && Get(doc, path) == Arr([])
    ensures Put(doc, path, Rendered([])) == doc
  {
    PutSame(doc, path);
    assert Values([]) == [];
  }

  class Assembler {
    var content: Json
    var omitted: seq<Omitted>

    constructor (content: Json)
      ensures this.content == content && omitted == []
    {
      this.content := content;
      omitted := [];
    }

    /** `growList`, assigning through `path`. */
    method GrowList(items: seq<Item>, path: Path, budget: int, section: string)
      returns (kept: seq<Item>)
      requires Has(content, path)
      modifies this
      ensures kept == KeptAt(old(content), path, budget, items)
      ensures content == if items == [] then old(content) else Apply(old(content), path, kept)
      ensures omitted == old(omitted) + LoggedAt(old(content), path, budget, section, items)
    {
      ghost var before := content;
      hide *;
      NothingKept(before, path, budget, section);
      assert items[..0] == [];
      kept := [];
      for n := 0 to |items|
        invariant kept == KeptAt(before, path, budget, items[..n])
        invariant content == if n == 0 then before else Apply(before, path, kept)
        invariant omitted == old(omitted) + LoggedAt(before, path, budget, section, items[..n])
      {
        var item := items[n];
        var candidate := kept + [item];
        GrowStep(before, path, budget, section, items, n);
        Reapplies(before, path, kept, candidate);
        Reapplies(before, path, candidate, kept);
        content := Apply(content, path, candidate);
        if BytesOf(content) <= budget {
          kept := candidate;
        } else {
          content := Apply(content, path, kept);
          omitted := omitted + [Omitted(section, item.id, item.sourceRef)];
        }
      }
      assert items[..|items|] == items;
    }

    /** The mandatory check, the seven fillings with their flags, and the
        figures reported with the brief. */
    method Assemble(offer: Offer, budget: int) returns (r: Outcome)
      requires Mandatory(content) && omitted == []
      modifies this
      ensures r.BadBudget? <==> !(MIN_BYTES <= budget <= MAX_BYTES)
      ensures r.TooLarge? <==>
                MIN_BYTES <= budget <= MAX_BYTES && BytesOf(old(content)) > budget
      ensures r.TooLarge? ==> r.mandatoryBytes == BytesOf(old(content))
      ensures !r.Brief? ==> content == old(content) && omitted == []
      ensures r.Brief? ==>
                r.content == content == Final(old(content), offer, budget)
                && r.omitted == omitted
                == OmittedUpTo(old(content), offer, budget, COUNT)
                && r.mandatoryBytes == BytesOf(old(content))
                && r.usedBytes == BytesOf(content)
                && r.mandatoryBytes - 2 <= r.usedBytes <= budget
                && 4 * (r.estimatedTokens - 1) < r.usedBytes <= 4 * r.estimatedTokens
                && r.digest == DigestOf(content)
    {
      if !(MIN_BYTES <= budget <= MAX_BYTES) { return BadBudget; }
      var mandatoryBytes := BytesOf(content);
      if mandatoryBytes > budget { return TooLarge(mandatoryBytes); }
      ghost var doc := content;
      hide BytesOf, After, OmittedUpTo, Mandatory;
      FillAll(offer, budget);
      FinalWithinBudget(doc, offer, budget);
      var usedBytes := BytesOf(content);
      r := Brief(content, omitted, mandatoryBytes, usedBytes,
                 (usedBytes + BYTES_PER_TOKEN - 1) / BYTES_PER_TOKEN, DigestOf(content));
    }

    method FillAll(offer: Offer, budget: int)
      requires Mandatory(content) && BytesOf(content) <= budget && omitted == []
      modifies this
      ensures content == Final(old(content), offer, budget)
      ensures omitted == OmittedUpTo(old(content), offer, budget, COUNT)
    {
      ghost var doc := content;
      hide After, OmittedUpTo, BytesOf, Mandatory;
      AfterBase(doc, offer, budget);
      Fill(doc, offer, budget, 0);
      Fill(doc, offer, budget, 1);
      Fill(doc, offer, budget, 2);
      Fill(doc, offer, budget, 3);
      Fill(doc, offer, budget, 4);
      Fill(doc, offer, budget, 5);
      Fill(doc, offer, budget, 6);
    }

    /** One `growList` call and, where the section has one, its flag. */
    method Fill(ghost doc: Json, offer: Offer, budget: int, k: nat)
      requires k < COUNT
      requires Mandatory(doc) && BytesOf(doc) <= budget
      requires content == After(doc, offer, budget, k)
      requires omitted == OmittedUpTo(doc, offer, budget, k)
      modifies this
      ensures content == After(doc, offer, budget, k + 1)
      ensures omitted == OmittedUpTo(doc, offer, budget, k + 1)
    {
      hide After, Has, Get, Put, BytesOf, Kept, Dropped, SectionAt, Rendered;
      AfterInvariant(doc, offer, budget, k);
      var s := SectionAt(k);
      assert Blank(content, s);
      AfterUnfold(doc, offer, budget, k);
      NothingKept(content, s.path, budget, s.name);
      PutEmpty(content, s.path);
      SectionsAreSeparate(k, k);
      FilledEffect(content, s, offer[k], budget);
      var kept := GrowList(offer[k], s.path, budget, s.name);
      assert content == Put(After(doc, offer, budget, k), s.path, Rendered(kept));
      if s.flag.Some? {
        content := Put(content, s.flag.value, Bool(|kept| < |offer[k]|));
      }
    }
  }
}
