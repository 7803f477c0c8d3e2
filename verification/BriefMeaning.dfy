/** The finished brief written out: which list stands under which name, which flag
    tells of which list, and with what else in place each list is chosen
    (`assembleContextBrief` of src/context-brief/service.ts). */
module BriefMeaning {
  import opened Text
  import opened Json
  import opened BriefSize
  import opened GreedyFill
  import opened ContextBrief
  import Unicode

  /** The optional lists of a brief, in the order in which they are filled. */
  datatype Optional = Optional(
    missingDependencyLinks: seq<Item>, workNeedingAttention: seq<Item>, reconciliationsSince: seq<Item>,
    completedWorkRemaining: seq<Item>, reconciliationOutcomes: seq<Item>, planReferences: seq<Item>,
    historicalObservations: seq<Item>)

  const NOTHING := Optional([], [], [], [], [], [], [])

  function ChangeMembers(p: Parts, o: Optional, sinceTruncated: bool): seq<Entry<Json>> {
    [Entry("available", p.available), Entry("reason", p.reason),
     Entry("sinceDigest", p.sinceDigest), Entry("boundAt", p.boundAt),
     Entry("reconciliationsSince", Rendered(o.reconciliationsSince)),
     Entry("reconciliationsSinceTruncated", Bool(sinceTruncated)),
     Entry("unreconciledChange", p.unreconciledChange),
     Entry("workNeedingAttention", Rendered(o.workNeedingAttention)),
     Entry("completedWorkRemaining", Rendered(o.completedWorkRemaining)),
     Entry("missingDependencyLinks", Rendered(o.missingDependencyLinks))]
  }

  function Members(p: Parts, o: Optional, sinceTruncated: bool, outcomesTruncated: bool): seq<Entry<Json>> {
    [Entry("schemaVersion", Num(1)), Entry("taskId", p.taskId),
     Entry("taskRevision", p.taskRevision), Entry("taskState", p.taskState),
     Entry("intentDigest", p.intentDigest), Entry("criteriaDigest", p.criteriaDigest),
     Entry("source", p.source), Entry("workflow", p.workflow),
     Entry("authorizations", p.authorizations), Entry("acceptedDecisions", p.acceptedDecisions),
     Entry("confirmedAssumptions", p.confirmedAssumptions),
     Entry("pendingDecisions", p.pendingDecisions), Entry("openAssumptions", p.openAssumptions),
     Entry("openQuestions", p.openQuestions),
     Entry("historicalObservations", Rendered(o.historicalObservations)),
     Entry("criteria", p.criteria),
     Entry("reconciliationOutcomes", Rendered(o.reconciliationOutcomes)),
     Entry("reconciliationOutcomesTruncated", Bool(outcomesTruncated)),
     Entry("planReferences", Rendered(o.planReferences)), Entry("nextAction", p.nextAction),
     Entry("changeSinceLastRun", Obj(ChangeMembers(p, o, sinceTruncated))),
     Entry("deliveryNote", p.deliveryNote), Entry("resumeGuidance", p.resumeGuidance)]
  }

  /** A brief with these lists and these two flags. */
  function Document(p: Parts, o: Optional, sinceTruncated: bool, outcomesTruncated: bool): Json {
    Obj(Members(p, o, sinceTruncated, outcomesTruncated))
  }

  /** A document is measured in the UTF-8 bytes of its canonical text. */
  lemma MeasuredInUtf8(v: Json)
    ensures BytesOf(v) == |Unicode.Utf8(Canonical(v))|
  {
    hide Canonical;
    Unicode.ByteLengthIsUtf8(Canonical(v));
  }

  predicate FitsWith(p: Parts, o: Optional, sinceTruncated: bool, outcomesTruncated: bool, budget: int) {
    BytesOf(Document(p, o, sinceTruncated, outcomesTruncated)) <= budget
  }

  /** Whether the brief fits with this list in one of the places. */
  function LinksFit(p: Parts, o: Optional, since: bool, outcomes: bool, budget: int): seq<Item> -> bool {
    list => FitsWith(p, o.(missingDependencyLinks := list), since, outcomes, budget)
  }

  function AttentionFit(p: Parts, o: Optional, since: bool, outcomes: bool, budget: int): seq<Item> -> bool {
    list => FitsWith(p, o.(workNeedingAttention := list), since, outcomes, budget)
  }

  function SinceFit(p: Parts, o: Optional, since: bool, outcomes: bool, budget: int): seq<Item> -> bool {
    list => FitsWith(p, o.(reconciliationsSince := list), since, outcomes, budget)
  }

  function CompletedFit(p: Parts, o: Optional, since: bool, outcomes: bool, budget: int): seq<Item> -> bool {
    list => FitsWith(p, o.(completedWorkRemaining := list), since, outcomes, budget)
  }

  function OutcomesFit(p: Parts, o: Optional, since: bool, outcomes: bool, budget: int): seq<Item> -> bool {
    list => FitsWith(p, o.(reconciliationOutcomes := list), since, outcomes, budget)
  }

  function PlansFit(p: Parts, o: Optional, since: bool, outcomes: bool, budget: int): seq<Item> -> bool {
    list => FitsWith(p, o.(planReferences := list), since, outcomes, budget)
  }

  function ObservationsFit(p: Parts, o: Optional, since: bool, outcomes: bool, budget: int): seq<Item> -> bool {
    list => FitsWith(p, o.(historicalObservations := list), since, outcomes, budget)
  }

  // ------------------------------------------------------- what each list is to be

  /** Each list is the greedy choice from what is offered, with the lists before it
      as chosen, the lists after it still empty, and no flag set but those of lists
      before it. */
  function WithLinks(p: Parts, offers: Optional, budget: int): Optional {
    NOTHING.(missingDependencyLinks := Kept(offers.missingDependencyLinks, LinksFit(p, NOTHING, false, false, budget)))
  }

  function WithAttention(p: Parts, offers: Optional, budget: int): Optional {
    var o := WithLinks(p, offers, budget);
    o.(workNeedingAttention := Kept(offers.workNeedingAttention, AttentionFit(p, o, false, false, budget)))
  }

  function WithReconciliations(p: Parts, offers: Optional, budget: int): Optional {
    var o := WithAttention(p, offers, budget);
    o.(reconciliationsSince := Kept(offers.reconciliationsSince, SinceFit(p, o, false, false, budget)))
  }

  /** The reconciliations since the last run are not all there. */
  predicate SinceTruncated(p: Parts, offers: Optional, budget: int) {
    |WithReconciliations(p, offers, budget).reconciliationsSince| < |offers.reconciliationsSince|
  }

  function WithCompleted(p: Parts, offers: Optional, budget: int): Optional {
    var o, since := WithReconciliations(p, offers, budget), SinceTruncated(p, offers, budget);
    o.(completedWorkRemaining := Kept(offers.completedWorkRemaining, CompletedFit(p, o, since, false, budget)))
  }

  function WithOutcomes(p: Parts, offers: Optional, budget: int): Optional {
    var o, since := WithCompleted(p, offers, budget), SinceTruncated(p, offers, budget);
    o.(reconciliationOutcomes := Kept(offers.reconciliationOutcomes, OutcomesFit(p, o, since, false, budget)))
  }

  /** The reconciliation outcomes are not all there. */
  predicate OutcomesTruncated(p: Parts, offers: Optional, budget: int) {
    |WithOutcomes(p, offers, budget).reconciliationOutcomes| < |offers.reconciliationOutcomes|
  }

  function WithPlans(p: Parts, offers: Optional, budget: int): Optional {
    var o := WithOutcomes(p, offers, budget);
    var since, outcomes := SinceTruncated(p, offers, budget), OutcomesTruncated(p, offers, budget);
    o.(planReferences := Kept(offers.planReferences, PlansFit(p, o, since, outcomes, budget)))
  }

  /** All seven lists. */
  function Chosen(p: Parts, offers: Optional, budget: int): Optional {
    var o := WithPlans(p, offers, budget);
    var since, outcomes := SinceTruncated(p, offers, budget), OutcomesTruncated(p, offers, budget);
    o.(historicalObservations := Kept(offers.historicalObservations, ObservationsFit(p, o, since, outcomes, budget)))
  }

  // ---------------------------------------------------------------- assignments

  lemma {:induction false} AssignAt(fields: seq<Entry<Json>>, i: nat, w: Json)
    requires i < |fields| && forall j :: 0 <= j < i ==> fields[j].key != fields[i].key
    requires fields[i].key in Keys(fields)
    ensures Assign(fields, fields[i].key, w) == fields[i := Entry(fields[i].key, w)]
  {
    if i > 0 {
      assert fields[i].key in Keys(fields[1..]) by { LookupFirst(fields[1..], i - 1); }
      AssignAt(fields[1..], i - 1, w);
    }
  }

  lemma PutTop(fields: seq<Entry<Json>>, i: nat, w: Json)
    requires i < |fields| && forall j :: 0 <= j < i ==> fields[j].key != fields[i].key
    ensures Has(Obj(fields), [fields[i].key])
    ensures Put(Obj(fields), [fields[i].key], w) == Obj(fields[i := Entry(fields[i].key, w)])
  {
    LookupFirst(fields, i);
    AssignAt(fields, i, w);
  }

  lemma PutInner(fields: seq<Entry<Json>>, i: nat, inner: seq<Entry<Json>>, j: nat, w: Json)
    requires i < |fields| && fields[i].value == Obj(inner) && j < |inner|
    requires forall k :: 0 <= k < i ==> fields[k].key != fields[i].key
    requires forall k :: 0 <= k < j ==> inner[k].key != inner[j].key
    ensures Has(Obj(fields), [fields[i].key, inner[j].key])
    ensures Put(Obj(fields), [fields[i].key, inner[j].key], w)
         == Obj(fields[i := Entry(fields[i].key, Obj(inner[j := Entry(inner[j].key, w)]))])
  {
    LookupFirst(fields, i);
    PutTop(inner, j, w);
    AssignAt(fields, i, Obj(inner[j := Entry(inner[j].key, w)]));
    assert [fields[i].key, inner[j].key][1..] == [inner[j].key];
  }

  /** The place of each of the optional members. */
  lemma MembersFirst(p: Parts, o: Optional, a: bool, b: bool, i: nat)
    requires i == 14 || 16 <= i <= 18 || i == 20
    ensures i < |Members(p, o, a, b)|
    ensures forall j :: 0 <= j < i ==> Members(p, o, a, b)[j].key != Members(p, o, a, b)[i].key
  {
    hide ChangeMembers, Rendered;
  }

  lemma ChangeMembersFirst(p: Parts, o: Optional, a: bool, i: nat)
    requires 4 <= i <= 5 || 7 <= i <= 9
    ensures i < |ChangeMembers(p, o, a)|
    ensures forall j :: 0 <= j < i ==> ChangeMembers(p, o, a)[j].key != ChangeMembers(p, o, a)[i].key
  {
    hide Rendered;
  }

  lemma PutMember(p: Parts, o: Optional, a: bool, b: bool, i: nat, key: string, w: Json)
    requires i == 14 || 16 <= i <= 18
    requires Members(p, o, a, b)[i].key == key
    ensures Has(Document(p, o, a, b), [key])
    ensures Put(Document(p, o, a, b), [key], w) == Obj(Members(p, o, a, b)[i := Entry(key, w)])
  {
    hide Members, Has, Put;
    MembersFirst(p, o, a, b, i);
    PutTop(Members(p, o, a, b), i, w);
  }

  lemma PutChangeMember(p: Parts, o: Optional, a: bool, b: bool, j: nat, key: string, w: Json)
    requires 4 <= j <= 5 || 7 <= j <= 9
    requires ChangeMembers(p, o, a)[j].key == key
    ensures Has(Document(p, o, a, b), ["changeSinceLastRun", key])
    ensures Put(Document(p, o, a, b), ["changeSinceLastRun", key], w)
         == Obj(Members(p, o, a, b)[20 := Entry("changeSinceLastRun", Obj(ChangeMembers(p, o, a)[j := Entry(key, w)]))])
  {
    assert Members(p, o, a, b)[20] == Entry("changeSinceLastRun", Obj(ChangeMembers(p, o, a)));
    hide Members, ChangeMembers, Has, Put;
    MembersFirst(p, o, a, b, 20);
    ChangeMembersFirst(p, o, a, j);
    PutInner(Members(p, o, a, b), 20, ChangeMembers(p, o, a), j, w);
  }

  lemma SameChange(p: Parts, o: Optional, o': Optional, a: bool)
    requires o.reconciliationsSince == o'.reconciliationsSince && o.workNeedingAttention == o'.workNeedingAttention
    requires o.completedWorkRemaining == o'.completedWorkRemaining
    requires o.missingDependencyLinks == o'.missingDependencyLinks
    ensures ChangeMembers(p, o, a) == ChangeMembers(p, o', a)
  {}

  lemma PutPlans(p: Parts, o: Optional, a: bool, b: bool, list: seq<Item>)
    ensures Has(Document(p, o, a, b), ["planReferences"])
    ensures Put(Document(p, o, a, b), ["planReferences"], Rendered(list))
         == Document(p, o.(planReferences := list), a, b)
  {
    hide Rendered, Has, Put, ChangeMembers;
    PutMember(p, o, a, b, 18, "planReferences", Rendered(list));
    var o' := o.(planReferences := list);
    assert ChangeMembers(p, o', a) == ChangeMembers(p, o, a) by { SameChange(p, o, o', a); }
    assert Members(p, o, a, b)[18 := Entry("planReferences", Rendered(list))] == Members(p, o', a, b);
  }

  lemma PutOutcomes(p: Parts, o: Optional, a: bool, b: bool, list: seq<Item>)
    ensures Has(Document(p, o, a, b), ["reconciliationOutcomes"])
    ensures Put(Document(p, o, a, b), ["reconciliationOutcomes"], Rendered(list))
         == Document(p, o.(reconciliationOutcomes := list), a, b)
  {
    hide Rendered, Has, Put, ChangeMembers;
    PutMember(p, o, a, b, 16, "reconciliationOutcomes", Rendered(list));
    var o' := o.(reconciliationOutcomes := list);
    SameChange(p, o, o', a);
    assert Members(p, o, a, b)[16 := Entry("reconciliationOutcomes", Rendered(list))] == Members(p, o', a, b);
  }

  lemma PutObservations(p: Parts, o: Optional, a: bool, b: bool, list: seq<Item>)
    ensures Has(Document(p, o, a, b), ["historicalObservations"])
    ensures Put(Document(p, o, a, b), ["historicalObservations"], Rendered(list))
         == Document(p, o.(historicalObservations := list), a, b)
  {
    hide Rendered, Has, Put, ChangeMembers;
    PutMember(p, o, a, b, 14, "historicalObservations", Rendered(list));
    var o' := o.(historicalObservations := list);
    SameChange(p, o, o', a);
    assert Members(p, o, a, b)[14 := Entry("historicalObservations", Rendered(list))] == Members(p, o', a, b);
  }

  lemma PutOutcomesFlag(p: Parts, o: Optional, a: bool, b: bool, flag: bool)
    ensures Has(Document(p, o, a, b), ["reconciliationOutcomesTruncated"])
    ensures Put(Document(p, o, a, b), ["reconciliationOutcomesTruncated"], Bool(flag)) == Document(p, o, a, flag)
  {
    hide Rendered, Has, Put, ChangeMembers;
    PutMember(p, o, a, b, 17, "reconciliationOutcomesTruncated", Bool(flag));
    assert Members(p, o, a, b)[17 := Entry("reconciliationOutcomesTruncated", Bool(flag))] == Members(p, o, a, flag);
  }

  lemma ChangePut(p: Parts, o: Optional, o': Optional, a: bool, a': bool, b: bool)
    requires o.reconciliationOutcomes == o'.reconciliationOutcomes && o.planReferences == o'.planReferences
    requires o.historicalObservations == o'.historicalObservations
    ensures Members(p, o, a, b)[20 := Entry("changeSinceLastRun", Obj(ChangeMembers(p, o', a')))]
         == Members(p, o', a', b)
  {
    hide Rendered, ChangeMembers;
  }

  lemma PutSinceFlag(p: Parts, o: Optional, a: bool, b: bool, flag: bool)
    ensures Has(Document(p, o, a, b), ["changeSinceLastRun", "reconciliationsSinceTruncated"])
    ensures Put(Document(p, o, a, b), ["changeSinceLastRun", "reconciliationsSinceTruncated"], Bool(flag))
         == Document(p, o, flag, b)
  {
    hide Rendered, Has, Put, Members;
    PutChangeMember(p, o, a, b, 5, "reconciliationsSinceTruncated", Bool(flag));
    assert ChangeMembers(p, o, a)[5 := Entry("reconciliationsSinceTruncated", Bool(flag))] == ChangeMembers(p, o, flag);
    ChangePut(p, o, o, a, flag, b);
  }

  lemma PutSince(p: Parts, o: Optional, a: bool, b: bool, list: seq<Item>)
    ensures Has(Document(p, o, a, b), ["changeSinceLastRun", "reconciliationsSince"])
    ensures Put(Document(p, o, a, b), ["changeSinceLastRun", "reconciliationsSince"], Rendered(list))
         == Document(p, o.(reconciliationsSince := list), a, b)
  {
    hide Rendered, Has, Put, Members;
    PutChangeMember(p, o, a, b, 4, "reconciliationsSince", Rendered(list));
    var o' := o.(reconciliationsSince := list);
    assert ChangeMembers(p, o, a)[4 := Entry("reconciliationsSince", Rendered(list))] == ChangeMembers(p, o', a);
    ChangePut(p, o, o', a, a, b);
  }

  lemma PutAttention(p: Parts, o: Optional, a: bool, b: bool, list: seq<Item>)
    ensures Has(Document(p, o, a, b), ["changeSinceLastRun", "workNeedingAttention"])
    ensures Put(Document(p, o, a, b), ["changeSinceLastRun", "workNeedingAttention"], Rendered(list))
         == Document(p, o.(workNeedingAttention := list), a, b)
  {
    hide Rendered, Has, Put, Members;
    PutChangeMember(p, o, a, b, 7, "workNeedingAttention", Rendered(list));
    var o' := o.(workNeedingAttention := list);
    assert ChangeMembers(p, o, a)[7 := Entry("workNeedingAttention", Rendered(list))] == ChangeMembers(p, o', a);
    ChangePut(p, o, o', a, a, b);
  }

  lemma PutCompleted(p: Parts, o: Optional, a: bool, b: bool, list: seq<Item>)
    ensures Has(Document(p, o, a, b), ["changeSinceLastRun", "completedWorkRemaining"])
    ensures Put(Document(p, o, a, b), ["changeSinceLastRun", "completedWorkRemaining"], Rendered(list))
         == Document(p, o.(completedWorkRemaining := list), a, b)
  {
    hide Rendered, Has, Put, Members;
    PutChangeMember(p, o, a, b, 8, "completedWorkRemaining", Rendered(list));
    var o' := o.(completedWorkRemaining := list);
    assert ChangeMembers(p, o, a)[8 := Entry("completedWorkRemaining", Rendered(list))] == ChangeMembers(p, o', a);
    ChangePut(p, o, o', a, a, b);
  }

  lemma PutLinks(p: Parts, o: Optional, a: bool, b: bool, list: seq<Item>)
    ensures Has(Document(p, o, a, b), ["changeSinceLastRun", "missingDependencyLinks"])
    ensures Put(Document(p, o, a, b), ["changeSinceLastRun", "missingDependencyLinks"], Rendered(list))
         == Document(p, o.(missingDependencyLinks := list), a, b)
  {
    hide Rendered, Has, Put, Members;
    PutChangeMember(p, o, a, b, 9, "missingDependencyLinks", Rendered(list));
    var o' := o.(missingDependencyLinks := list);
    assert ChangeMembers(p, o, a)[9 := Entry("missingDependencyLinks", Rendered(list))] == ChangeMembers(p, o', a);
    ChangePut(p, o, o', a, a, b);
  }

  // ------------------------------------------------------------------ the filling

  /** The greedy choice depends on what the test answers only. */
  lemma {:induction false} SameChoice<T(!new)>(items: seq<T>, f: seq<T> -> bool, g: seq<T> -> bool)
    requires forall list :: f(list) == g(list)
    ensures Greedy(items, f) == Greedy(items, g)
  {
    if items != [] {
      var n := |items| - 1;
      SameChoice(items[..n], f, g);
      var list: seq<T> := Select(items[..n], Greedy(items[..n], f)) + [items[n]];
      assert f(list) == g(list);
    }
  }

  /** The offers in the order of the sections. */
  function OfferOf(offers: Optional): Offer {
    [offers.missingDependencyLinks, offers.workNeedingAttention, offers.reconciliationsSince,
     offers.completedWorkRemaining, offers.reconciliationOutcomes, offers.planReferences,
     offers.historicalObservations]
  }

  /** What a dropped item is logged as. */
  function Missing(name: string, items: seq<Item>): (omitted: seq<Omitted>)
    ensures |omitted| == |items|
    ensures forall i :: 0 <= i < |items| ==> omitted[i] == Omitted(name, items[i].id, items[i].sourceRef)
  {
    if items == [] then []
    else [Omitted(name, items[0].id, items[0].sourceRef)] + Missing(name, items[1..])
  }

  lemma ContentIs(p: Parts)
    ensures Content(p) == Document(p, NOTHING, false, false)
  {
    assert Rendered([]) == Arr([]) by { assert Values([]) == []; }
    hide Rendered;
    assert ChangeFields(p) == ChangeMembers(p, NOTHING, false);
    hide ChangeFields, ChangeMembers;
    assert ContentFields(p) == Members(p, NOTHING, false, false);
  }

  /** The places of the sections, by number. */
  lemma SectionsAre()
    ensures SectionAt(0)
         == Section("changeSinceLastRun.missingDependencyLinks", ["changeSinceLastRun", "missingDependencyLinks"], None)
    ensures SectionAt(1)
         == Section("changeSinceLastRun.workNeedingAttention", ["changeSinceLastRun", "workNeedingAttention"], None)
    ensures SectionAt(2)
         == Section("changeSinceLastRun.reconciliationsSince", ["changeSinceLastRun", "reconciliationsSince"],
                    Some(["changeSinceLastRun", "reconciliationsSinceTruncated"]))
    ensures SectionAt(3)
         == Section("changeSinceLastRun.completedWorkRemaining", ["changeSinceLastRun", "completedWorkRemaining"], None)
    ensures SectionAt(4)
         == Section("reconciliationOutcomes", ["reconciliationOutcomes"], Some(["reconciliationOutcomesTruncated"]))
    ensures SectionAt(5) == Section("planReferences", ["planReferences"], None)
    ensures SectionAt(6) == Section("historicalObservations", ["historicalObservations"], None)
  {}

  /** The `k`th list replaced. */
  function WithList(o: Optional, k: nat, list: seq<Item>): Optional {
    if k == 0 then o.(missingDependencyLinks := list)
    else if k == 1 then o.(workNeedingAttention := list)
    else if k == 2 then o.(reconciliationsSince := list)
    else if k == 3 then o.(completedWorkRemaining := list)
    else if k == 4 then o.(reconciliationOutcomes := list)
    else if k == 5 then o.(planReferences := list)
    else o.(historicalObservations := list)
  }

  lemma PutList(p: Parts, o: Optional, a: bool, b: bool, k: nat, list: seq<Item>)
    requires k < COUNT
    ensures Has(Document(p, o, a, b), SectionAt(k).path)
    ensures Put(Document(p, o, a, b), SectionAt(k).path, Rendered(list)) == Document(p, WithList(o, k, list), a, b)
  {
    hide Document, Has, Put, Rendered, SectionAt;
    SectionsAre();
    match k
    case 0 => PutLinks(p, o, a, b, list);
    case 1 => PutAttention(p, o, a, b, list);
    case 2 => PutSince(p, o, a, b, list);
    case 3 => PutCompleted(p, o, a, b, list);
    case 4 => PutOutcomes(p, o, a, b, list);
    case 5 => PutPlans(p, o, a, b, list);
    case _ => PutObservations(p, o, a, b, list);
  }

  lemma PutFlag(p: Parts, o: Optional, a: bool, b: bool, k: nat, flag: bool)
    requires k < COUNT
    ensures SectionAt(k).flag.Some? <==> k in {2, 4}
    ensures k in {2, 4} ==> Has(Document(p, o, a, b), SectionAt(k).flag.value)
    ensures k in {2, 4} ==>
      Put(Document(p, o, a, b), SectionAt(k).flag.value, Bool(flag))
      == Document(p, o, if k == 2 then flag else a, if k == 4 then flag else b)
  {
    hide Document, Has, Put, SectionAt;
    SectionsAre();
    PutSinceFlag(p, o, a, b, flag);
    PutOutcomesFlag(p, o, a, b, flag);
  }

  ghost predicate Stage(p: Parts, offers: Optional, budget: int, k: nat, o: Optional, a: bool, b: bool)
    requires k <= COUNT
  {
    After(Content(p), OfferOf(offers), budget, k) == Document(p, o, a, b)
  }

  /** Filling one section of the document. */
  lemma NextStage(
      p: Parts, offers: Optional, budget: int, k: nat, o: Optional, a: bool, b: bool, test: seq<Item> -> bool)
    requires k < COUNT && Stage(p, offers, budget, k, o, a, b)
    requires forall list :: test(list) == FitsWith(p, WithList(o, k, list), a, b, budget)
    ensures var items := OfferOf(offers)[k];
            var kept := Kept(items, test);
            Stage(p, offers, budget, k + 1, WithList(o, k, kept),
                  if k == 2 then |kept| < |items| else a, if k == 4 then |kept| < |items| else b)
            && OmittedFrom(Content(p), OfferOf(offers), budget, k) == Missing(SectionAt(k).name, Dropped(items, test))
  {
    hide BytesOf, Has, Put, After, SectionAt, Rendered, Greedy, Select, Document, WithList, OfferOf, Content;
    var now, s, items := Document(p, o, a, b), SectionAt(k), OfferOf(offers)[k];
    PutList(p, o, a, b, k, []);
    AfterUnfold(Content(p), OfferOf(offers), budget, k);
    var fits := FitsAt(now, s.path, budget);
    forall list: seq<Item> ensures fits(list) == test(list) {
      PutList(p, o, a, b, k, list);
    }
    SameChoice(items, fits, test);
    var kept := Kept(items, test);
    PutList(p, o, a, b, k, kept);
    PutFlag(p, WithList(o, k, kept), a, b, k, |kept| < |items|);
    assert Entries(s.name, Dropped(items, test)) == Missing(s.name, Dropped(items, test));
  }

  /** The log of a brief: list by list, what it lacks of its own offer. */
  function AllMissing(p: Parts, offers: Optional, budget: int): seq<Omitted> {
    var since, outcomes := SinceTruncated(p, offers, budget), OutcomesTruncated(p, offers, budget);
    Missing("changeSinceLastRun.missingDependencyLinks",
            Dropped(offers.missingDependencyLinks, LinksFit(p, NOTHING, false, false, budget)))
    + Missing("changeSinceLastRun.workNeedingAttention",
              Dropped(offers.workNeedingAttention,
                      AttentionFit(p, WithLinks(p, offers, budget), false, false, budget)))
    + Missing("changeSinceLastRun.reconciliationsSince",
              Dropped(offers.reconciliationsSince,
                      SinceFit(p, WithAttention(p, offers, budget), false, false, budget)))
    + Missing("changeSinceLastRun.completedWorkRemaining",
              Dropped(offers.completedWorkRemaining,
                      CompletedFit(p, WithReconciliations(p, offers, budget), since, false, budget)))
    + Missing("reconciliationOutcomes",
              Dropped(offers.reconciliationOutcomes,
                      OutcomesFit(p, WithCompleted(p, offers, budget), since, false, budget)))
    + Missing("planReferences",
              Dropped(offers.planReferences, PlansFit(p, WithOutcomes(p, offers, budget), since, outcomes, budget)))
    + Missing("historicalObservations",
              Dropped(offers.historicalObservations,
                      ObservationsFit(p, WithPlans(p, offers, budget), since, outcomes, budget)))
  }

  lemma OmittedMore(p: Parts, offers: Optional, budget: int, k: nat)
    requires k < COUNT
    ensures OmittedUpTo(Content(p), OfferOf(offers), budget, k + 1)
         == OmittedUpTo(Content(p), OfferOf(offers), budget, k) + OmittedFrom(Content(p), OfferOf(offers), budget, k)
  {}

  /** The first three fillings. */
  lemma FirstThree(p: Parts, offers: Optional, budget: int)
    ensures Stage(p, offers, budget, 3, WithReconciliations(p, offers, budget),
                  SinceTruncated(p, offers, budget), false)
    ensures OmittedUpTo(Content(p), OfferOf(offers), budget, 3)
         == Missing("changeSinceLastRun.missingDependencyLinks",
                    Dropped(offers.missingDependencyLinks, LinksFit(p, NOTHING, false, false, budget)))
            + Missing("changeSinceLastRun.workNeedingAttention",
                      Dropped(offers.workNeedingAttention,
                              AttentionFit(p, WithLinks(p, offers, budget), false, false, budget)))
            + Missing("changeSinceLastRun.reconciliationsSince",
                      Dropped(offers.reconciliationsSince,
                              SinceFit(p, WithAttention(p, offers, budget), false, false, budget)))
  {
    hide FitsWith, After, Document, Greedy, Select, OmittedFrom, Content, SectionAt, Missing, OmittedUpTo;
    SectionsAre();
    ContentIs(p);
    AfterBase(Content(p), OfferOf(offers), budget);
    NextStage(p, offers, budget, 0, NOTHING, false, false, LinksFit(p, NOTHING, false, false, budget));
    OmittedMore(p, offers, budget, 0);
    var o1 := WithLinks(p, offers, budget);
    NextStage(p, offers, budget, 1, o1, false, false, AttentionFit(p, o1, false, false, budget));
    OmittedMore(p, offers, budget, 1);
    var o2 := WithAttention(p, offers, budget);
    NextStage(p, offers, budget, 2, o2, false, false, SinceFit(p, o2, false, false, budget));
    OmittedMore(p, offers, budget, 2);
  }

  lemma ChosenIs(p: Parts, offers: Optional, budget: int)
    ensures SinceTruncated(p, offers, budget)
       <==> |Chosen(p, offers, budget).reconciliationsSince| < |offers.reconciliationsSince|
    ensures OutcomesTruncated(p, offers, budget)
       <==> |Chosen(p, offers, budget).reconciliationOutcomes| < |offers.reconciliationOutcomes|
  {
    hide Greedy, Select, FitsWith;
  }

  /** The seven fillings of a brief come to the document with the chosen lists. */
  lemma FinalIs(p: Parts, offers: Optional, budget: int)
    ensures Final(Content(p), OfferOf(offers), budget)
         == Document(p, Chosen(p, offers, budget), SinceTruncated(p, offers, budget),
                     OutcomesTruncated(p, offers, budget))
    ensures OmittedUpTo(Content(p), OfferOf(offers), budget, COUNT) == AllMissing(p, offers, budget)
  {
    hide FitsWith, After, Document, Greedy, Select, OmittedFrom, Content, SectionAt, Missing, OmittedUpTo,
         WithReconciliations, SinceTruncated;
    SectionsAre();
    FirstThree(p, offers, budget);
    var since, outcomes := SinceTruncated(p, offers, budget), OutcomesTruncated(p, offers, budget);
    var o3 := WithReconciliations(p, offers, budget);
    NextStage(p, offers, budget, 3, o3, since, false, CompletedFit(p, o3, since, false, budget));
    OmittedMore(p, offers, budget, 3);
    var o4 := WithCompleted(p, offers, budget);
    NextStage(p, offers, budget, 4, o4, since, false, OutcomesFit(p, o4, since, false, budget));
    OmittedMore(p, offers, budget, 4);
    var o5 := WithOutcomes(p, offers, budget);
    NextStage(p, offers, budget, 5, o5, since, outcomes, PlansFit(p, o5, since, outcomes, budget));
    OmittedMore(p, offers, budget, 5);
    var o6 := WithPlans(p, offers, budget);
    NextStage(p, offers, budget, 6, o6, since, outcomes, ObservationsFit(p, o6, since, outcomes, budget));
    OmittedMore(p, offers, budget, 6);
  }

  /** The budget-fitting tail of `assembleContextBrief`, from the mandatory values and
      the seven offers to the brief: refused with a budget below 512 bytes or above
      256 KiB, or below the mandatory size; otherwise the chosen lists under their
      names, each flag true exactly when the list beside it is shorter than its own
      offer, and everything a list lacks logged under that list's name. */
  method AssembleBrief(p: Parts, offers: Optional, budget: int) returns (r: Outcome)
    ensures r.BadBudget? <==> !(512 <= budget <= 262144)
    ensures r.TooLarge? <==>
      512 <= budget <= 262144 && !FitsWith(p, NOTHING, false, false, budget)
    ensures r.TooLarge? ==> r.mandatoryBytes == BytesOf(Document(p, NOTHING, false, false))
    ensures r.Brief? ==>
      var kept := Chosen(p, offers, budget);
      r.content == Document(p, kept, |kept.reconciliationsSince| < |offers.reconciliationsSince|,
                            |kept.reconciliationOutcomes| < |offers.reconciliationOutcomes|)
      && r.omitted == AllMissing(p, offers, budget)
      && r.mandatoryBytes == BytesOf(Document(p, NOTHING, false, false)) && r.usedBytes == BytesOf(r.content)
      && r.mandatoryBytes - 2 <= r.usedBytes <= budget
      && 4 * (r.estimatedTokens - 1) < r.usedBytes <= 4 * r.estimatedTokens
      && r.digest == Sha256(Canonical(r.content))
  {
    ContentIsMandatory(p);
    ContentIs(p);
    FinalIs(p, offers, budget);
    ChosenIs(p, offers, budget);
    hide BytesOf, Document, Content, Chosen, Canonical, Mandatory, Final, OmittedUpTo, AllMissing, SinceTruncated,
         OutcomesTruncated;
    var assembler := new Assembler(Content(p));
    r := assembler.Assemble(OfferOf(offers), budget);
  }
}
