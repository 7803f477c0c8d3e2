/** Which checks a verification reuses: `evaluateEvidenceReuse` and
    `buildVerificationPlan` of src/verification/contracts.ts. The declared changed
    paths are any JSON value, since the local server passes the body of a request to
    run an enrolled task's checks on without looking into it
    (src/server.ts:908-910, src/acceptance/service.ts:915-935). */
module ReusePlan {
  import opened Text
  import opened Json

  datatype Source = Source(revision: string, fingerprint: string)

  datatype Criterion = Criterion(id: string, revision: int)

  datatype Evidence = Evidence(criterion: string, revision: int, kind: string, passed: bool, source: Source)

  datatype Check = Check(id: string, criterion: string, watch: seq<string>)

  /** `changed` is `None` when no changed paths are given. */
  datatype Request = Request(
    standard: bool, checks: seq<Check>, criteria: seq<Criterion>, evidence: seq<Evidence>,
    current: Source, changed: Option<Json>)

  datatype Decision = Rerun | Reuse | Throws

  /** The last criterion of that ID, as a map built from the list holds it. */
  function CriterionOf(criteria: seq<Criterion>, id: string): Option<Criterion> {
    if criteria == [] then None
    else
      var last := criteria[|criteria| - 1];
      if last.id == id then Some(last) else CriterionOf(criteria[..|criteria| - 1], id)
  }

  /** The last evidence of the plain kind about a criterion as it stands. */
  function Latest(evidence: seq<Evidence>, c: Criterion): Option<Evidence> {
    if evidence == [] then None
    else
      var last := evidence[|evidence| - 1];
      if last.criterion == c.id && last.revision == c.revision && last.kind == "check" then Some(last)
      else Latest(evidence[..|evidence| - 1], c)
  }

  // ------------------------------------------------------- an untyped argument

  predicate Truthy(v: Json) {
    match v
    case Null => false
    case Bool(b) => b
    case Num(n) => n != 0
    case Str(s) => s != ""
    case _ => true
  }

  /** The `length` a value answers with; `None` is `undefined`. */
  function LengthOf(v: Json): Option<Json>
    requires !v.Null?
  {
    match v
    case Str(s) => Some(Num(|s|))
    case Arr(items) => Some(Num(|items|))
    case Obj(fields) => if "length" in Keys(fields) then Some(Lookup(fields, "length")) else None
    case _ => None
  }

  /** `v?.length` counts as true. */
  predicate HasLength(v: Json) {
    !v.Null? && LengthOf(v).Some? && Truthy(LengthOf(v).value)
  }

  predicate Under(path: string, watch: seq<string>) {
    exists i :: 0 <= i < |watch| && (path == watch[i] || watch[i] + "/" <= path)
  }

  datatype Affected = Yes | No | Threw

  /** Whether some changed path is under a watched one; anything but a string
      has no `startsWith`. */
  function AnyUnder(items: seq<Json>, watch: seq<string>): Affected {
    if items == [] then No
    else if !items[0].Str? then Threw
    else if Under(items[0].s, watch) then Yes
    else AnyUnder(items[1..], watch)
  }

  /** `isCheckAffected`, for a check that watches something. */
  function IsAffected(watch: seq<string>, changed: Json): Affected {
    if !HasLength(changed) then Yes
    else if !changed.Arr? then Threw
    else AnyUnder(changed.items, watch)
  }

  // -------------------------------------------------------------------- the plan

  /** A check's latest evidence passed, so that it can be considered for reuse. */
  predicate Eligible(r: Request, check: Check) {
    !r.standard
    && CriterionOf(r.criteria, check.criterion).Some?
    && Latest(r.evidence, CriterionOf(r.criteria, check.criterion).value).Some?
    && Latest(r.evidence, CriterionOf(r.criteria, check.criterion).value).value.passed
  }

  /** `evaluateEvidenceReuse`; standard mode reruns everything. */
  function Decide(r: Request, check: Check): Decision {
    if !Eligible(r, check) then Rerun
    else
      match r.changed
      case None =>
        var latest := Latest(r.evidence, CriterionOf(r.criteria, check.criterion).value).value;
        if latest.source == r.current then Reuse else Rerun
      case Some(changed) =>
        if check.watch != [] then
          match IsAffected(check.watch, changed)
          case Yes => Rerun
          case No => Reuse
          case Threw => Throws
        else if changed.Null? then Throws
        else if LengthOf(changed) == Some(Num(0)) then Reuse
        else Rerun
  }

  predicate PlanThrows(r: Request) {
    exists i :: 0 <= i < |r.checks| && Decide(r, r.checks[i]) == Throws
  }

  /** The reused checks of a plan that is built. */
  function Reusable(r: Request): set<string> {
    set i | 0 <= i < |r.checks| && Decide(r, r.checks[i]) == Reuse :: r.checks[i].id
  }

  /** `buildVerificationPlan`; `None` is a throw. */
  method BuildPlan(r: Request) returns (reusable: Option<set<string>>)
    ensures reusable == if PlanThrows(r) then None else Some(Reusable(r))
    ensures reusable.Some? ==> forall id :: id in reusable.value <==>
      exists k :: 0 <= k < |r.checks| && r.checks[k].id == id && Decide(r, r.checks[k]) == Reuse
  {
    var ids: set<string> := {};
    for n := 0 to |r.checks|
      invariant forall i :: 0 <= i < n ==> Decide(r, r.checks[i]) != Throws
      invariant ids == set i | 0 <= i < n && Decide(r, r.checks[i]) == Reuse :: r.checks[i].id
    {
      hide Decide;
      var decision := Decide(r, r.checks[n]);
      if decision == Throws {
        return None;
      }
      if decision == Reuse {
        ids := ids + {r.checks[n].id};
      }
    }
    reusable := Some(ids);
  }

  // ------------------------------------------------- what the plan comes to, spelled out

  /** The last criterion of this ID stands there. */
  predicate LastCriterion(criteria: seq<Criterion>, id: string, c: int) {
    0 <= c < |criteria| && criteria[c].id == id && forall d :: c < d < |criteria| ==> criteria[d].id != id
  }

  /** Evidence of the plain kind about a criterion as it stands. */
  predicate About(e: Evidence, c: Criterion) {
    e.criterion == c.id && e.revision == c.revision && e.kind == "check"
  }

  /** The last such evidence about a check's criterion stands there, and passed. */
  ghost predicate PassedLast(r: Request, check: Check, i: int) {
    exists c :: LastCriterion(r.criteria, check.criterion, c)
      && 0 <= i < |r.evidence| && About(r.evidence[i], r.criteria[c]) && r.evidence[i].passed
      && forall j :: i < j < |r.evidence| ==> !About(r.evidence[j], r.criteria[c])
  }

  /** The changed path is a watched one or below it, segment by segment. */
  predicate Inside(path: string, watch: seq<string>) {
    exists i :: 0 <= i < |watch| && Split(watch[i], '/') <= Split(path, '/')
  }

  predicate OwnLength(fields: seq<Entry<Json>>, i: int) {
    0 <= i < |fields| && fields[i].key == "length" && forall j :: 0 <= j < i ==> fields[j].key != "length"
  }

  /** A value with a `length` that is neither zero nor empty. */
  ghost predicate Countable(v: Json) {
    match v
    case Str(s) => s != ""
    case Arr(items) => items != []
    case Obj(fields) => exists i :: OwnLength(fields, i) && fields[i].value !in {Null, Bool(false), Num(0), Str("")}
    case _ => false
  }

  /** A value whose `length` is zero. */
  ghost predicate Counted(v: Json) {
    match v
    case Str(s) => s == ""
    case Arr(items) => items == []
    case Obj(fields) => exists i :: OwnLength(fields, i) && fields[i].value == Num(0)
    case _ => false
  }

  /** Something other than a string stands among the changed paths before any of
      them settles the matter. */
  predicate Malformed(items: seq<Json>, watch: seq<string>) {
    exists i :: 0 <= i < |items| && !items[i].Str?
      && forall j :: 0 <= j < i ==> items[j].Str? && !Inside(items[j].s, watch)
  }

  lemma {:induction false} LastCriterionIs(criteria: seq<Criterion>, id: string) returns (c: int)
    ensures CriterionOf(criteria, id).Some? <==> LastCriterion(criteria, id, c)
    ensures forall d :: LastCriterion(criteria, id, d) ==> d == c
    ensures LastCriterion(criteria, id, c) ==> CriterionOf(criteria, id) == Some(criteria[c])
  {
    c := -1;
    if criteria != [] {
      var n := |criteria| - 1;
      if criteria[n].id == id {
        c := n;
      } else {
        c := LastCriterionIs(criteria[..n], id);
        assert forall d :: LastCriterion(criteria, id, d) ==> LastCriterion(criteria[..n], id, d);
      }
    }
  }

  lemma {:induction false} LatestIs(evidence: seq<Evidence>, c: Criterion) returns (i: int)
    ensures -1 <= i < |evidence| && (Latest(evidence, c).Some? <==> i >= 0)
    ensures i >= 0 ==> Latest(evidence, c) == Some(evidence[i]) && About(evidence[i], c)
    ensures forall j :: i < j < |evidence| ==> !About(evidence[j], c)
  {
    i := -1;
    if evidence != [] {
      var n := |evidence| - 1;
      if About(evidence[n], c) {
        i := n;
      } else {
        i := LatestIs(evidence[..n], c);
        forall j | i < j < |evidence| ensures !About(evidence[j], c) {
          if j < n { assert evidence[j] == evidence[..n][j]; }
        }
      }
    }
  }

  /** A check can be considered for reuse exactly outside standard mode, when the last
      evidence of the plain kind about its criterion, as that stands, has passed. */
  lemma EligibleExactlyWhen(r: Request, check: Check) returns (i: int)
    ensures Eligible(r, check) <==> !r.standard && PassedLast(r, check, i)
    ensures forall j :: PassedLast(r, check, j) ==> j == i
    ensures Eligible(r, check) ==>
      Latest(r.evidence, CriterionOf(r.criteria, check.criterion).value) == Some(r.evidence[i])
  {
    hide CriterionOf, Latest;
    i := -1;
    var c := LastCriterionIs(r.criteria, check.criterion);
    if CriterionOf(r.criteria, check.criterion).Some? {
      i := LatestIs(r.evidence, r.criteria[c]);
    }
  }

  lemma PrefixIsSegments(path: string, entry: string)
    ensures path == entry || entry + "/" <= path <==> Split(entry, '/') <= Split(path, '/')
  {
    hide Split, Join;
    var parts, whole := Split(entry, '/'), Split(path, '/');
    JoinSplit(entry, '/');
    JoinSplit(path, '/');
    if entry + "/" <= path {
      var rest := path[|entry| + 1..];
      assert path == entry + ['/'] + rest;
      SplitAppend(entry, rest, '/');
    }
    if parts <= whole && parts != whole {
      JoinConcat(parts, whole[|parts|..], "/");
      assert whole == parts + whole[|parts|..];
    }
  }

  lemma UnderIsInside(path: string, watch: seq<string>)
    ensures Under(path, watch) <==> Inside(path, watch)
  {
    forall i | 0 <= i < |watch|
      ensures path == watch[i] || watch[i] + "/" <= path <==> Split(watch[i], '/') <= Split(path, '/')
    {
      PrefixIsSegments(path, watch[i]);
    }
    hide Split;
  }

  lemma {:induction false} LengthAt(fields: seq<Entry<Json>>) returns (i: int)
    requires "length" in Keys(fields)
    ensures OwnLength(fields, i) && Lookup(fields, "length") == fields[i].value
    ensures forall j :: OwnLength(fields, j) ==> j == i
  {
    if fields[0].key == "length" {
      i := 0;
    } else {
      i := LengthAt(fields[1..]);
      i := i + 1;
    }
  }

  lemma LengthIs(v: Json)
    ensures HasLength(v) <==> Countable(v)
    ensures !v.Null? ==> (LengthOf(v) == Some(Num(0)) <==> Counted(v))
  {
    if v.Obj? && "length" in Keys(v.fields) {
      var i := LengthAt(v.fields);
      assert OwnLength(v.fields, i);
    } else if v.Obj? {
      KeysAre(v.fields);
    }
  }

  lemma MalformedTail(items: seq<Json>, watch: seq<string>)
    requires items != [] && items[0].Str?
    ensures Malformed(items, watch) <==> !Inside(items[0].s, watch) && Malformed(items[1..], watch)
  {
    hide Inside;
    var rest := items[1..];
    if !Inside(items[0].s, watch) && Malformed(rest, watch) {
      var i :| 0 <= i < |rest| && !rest[i].Str? && forall j :: 0 <= j < i ==> rest[j].Str? && !Inside(rest[j].s, watch);
      assert !items[i + 1].Str?;
      forall j | 0 <= j < i + 1 ensures items[j].Str? && !Inside(items[j].s, watch) {
        if j > 0 { assert items[j] == rest[j - 1]; }
      }
    }
    if Malformed(items, watch) {
      var i :| 0 <= i < |items| && !items[i].Str?
        && forall j :: 0 <= j < i ==> items[j].Str? && !Inside(items[j].s, watch);
      assert !rest[i - 1].Str?;
      assert forall j :: 0 <= j < i - 1 ==> rest[j] == items[j + 1];
    }
  }

  lemma {:induction false} AnyUnderIs(items: seq<Json>, watch: seq<string>)
    ensures AnyUnder(items, watch) == Threw <==> Malformed(items, watch)
    ensures AnyUnder(items, watch) == No <==>
      forall i :: 0 <= i < |items| ==> items[i].Str? && !Inside(items[i].s, watch)
  {
    hide Inside, Under;
    if items != [] {
      AnyUnderIs(items[1..], watch);
      assert forall i :: 1 <= i < |items| ==> items[i] == items[1..][i - 1];
      if items[0].Str? {
        UnderIsInside(items[0].s, watch);
        MalformedTail(items, watch);
      }
    }
  }

  /** Exactly when building the plan throws: outside standard mode, for a check
      whose last evidence passed, when the changed paths are null and the check
      watches nothing, or it watches something and they are no list, though with a
      length, or a list in which something other than a string comes before any
      path inside a watched one. */
  lemma ThrowsExactlyWhen(r: Request)
    ensures PlanThrows(r) <==> exists k ::
      0 <= k < |r.checks| && !r.standard && (exists i :: PassedLast(r, r.checks[k], i)) && r.changed.Some?
      && if r.checks[k].watch == [] then r.changed == Some(Null)
         else Countable(r.changed.value)
              && (r.changed.value.Arr? ==> Malformed(r.changed.value.items, r.checks[k].watch))
  {
    hide Eligible, HasLength, Malformed, AnyUnder, PassedLast, Countable, Counted;
    forall k | 0 <= k < |r.checks|
      ensures Eligible(r, r.checks[k]) <==> !r.standard && exists i :: PassedLast(r, r.checks[k], i)
      ensures r.changed.Some? && r.changed.value.Arr? ==>
        (AnyUnder(r.changed.value.items, r.checks[k].watch) == Threw
         <==> Malformed(r.changed.value.items, r.checks[k].watch))
    {
      var i := EligibleExactlyWhen(r, r.checks[k]);
      if r.changed.Some? && r.changed.value.Arr? {
        AnyUnderIs(r.changed.value.items, r.checks[k].watch);
      }
    }
    if r.changed.Some? {
      LengthIs(r.changed.value);
    }
  }

  /** Changed paths of the declared type: none given, or a list of strings. */
  predicate WellTyped(r: Request) {
    r.changed.None?
    || (r.changed.value.Arr? && forall i :: 0 <= i < |r.changed.value.items| ==> r.changed.value.items[i].Str?)
  }

  /** A well-typed request never throws. */
  lemma WellTypedNeverThrows(r: Request)
    requires WellTyped(r)
    ensures !PlanThrows(r)
  {
    hide PlanThrows, PassedLast, Countable;
    ThrowsExactlyWhen(r);
  }

  lemma CountedIs(v: Json)
    ensures !v.Null? ==> (LengthOf(v) == Some(Num(0)) <==> Counted(v))
    ensures v.Null? ==> !Counted(v)
    ensures v.Arr? ==> (HasLength(v) <==> v.items != [])
  {
    LengthIs(v);
  }

  /** Exactly which checks are reused: outside standard mode, those whose last
      evidence passed, on this very source when no changed paths are given; with
      nothing changed when the check watches nothing; and otherwise only when
      something changed, and all of it outside the watched paths. */
  lemma ReusesExactlyWhen(r: Request, check: Check)
    ensures Decide(r, check) == Reuse <==>
      !r.standard
      && exists i :: PassedLast(r, check, i)
           && match r.changed
              case None => r.evidence[i].source == r.current
              case Some(changed) =>
                if check.watch == [] then Counted(changed)
                else changed.Arr? && changed.items != []
                     && forall k :: 0 <= k < |changed.items| ==>
                          changed.items[k].Str? && !Inside(changed.items[k].s, check.watch)
  {
    hide Eligible, AnyUnder, CriterionOf, Latest, PassedLast, Inside, Counted, LengthOf, HasLength;
    var i := EligibleExactlyWhen(r, check);
    if r.changed.Some? {
      CountedIs(r.changed.value);
      if r.changed.value.Arr? {
        AnyUnderIs(r.changed.value.items, check.watch);
      }
    }
  }

  const SOURCE := Source("r", "f")

  /** A request whose changed paths are null, for a check that passed before. The
      evidence must be of the plain kind: the verifier records its own runs of an
      enrolled task's checks under a kind of their own
      (src/acceptance/service.ts:853-861), so it comes from elsewhere, such as a run
      before the task was enrolled. */
  const NULL_REQUEST := Request(
    false, [Check("check", "criterion", [])], [Criterion("criterion", 1)],
    [Evidence("criterion", 1, "check", true, SOURCE)], SOURCE, Some(Null))

  /** With no change at all, a check that watches something is run again, though
      none of the changed paths is under a watched one. */
  lemma NoChangeReruns()
    ensures var check := Check("check", "criterion", ["src"]);
            Decide(NULL_REQUEST.(checks := [check], changed := Some(Arr([]))), check) == Rerun
  {}

  /** A real input: null reaches the length test. */
  lemma NullThrows()
    ensures PlanThrows(NULL_REQUEST)
  {
    var check := NULL_REQUEST.checks[0];
    assert CriterionOf(NULL_REQUEST.criteria, check.criterion) == Some(NULL_REQUEST.criteria[0]);
    assert Latest(NULL_REQUEST.evidence, NULL_REQUEST.criteria[0]) == Some(NULL_REQUEST.evidence[0]);
    assert Decide(NULL_REQUEST, check) == Throws;
  }
}
