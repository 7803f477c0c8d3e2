/** The acceptance verifier of src/acceptance/service.ts: the check loop of
    `verify`, the source re-check of `executeOne`, and the `ACTIVE` map. */
module Acceptance {
  import opened Text
  import opened ReusePlan

  datatype Outcome = Passed | Failed | SkippedOutcome | OtherOutcome(name: string)

  datatype CheckResult = CheckResult(checkId: string, outcome: Outcome, status: string, reused: bool)

  /** How a check came to its result: from earlier evidence, not at all for
      lack of budget, or by running, with what the run itself answered and the
      source before and after it. `inspected` is the source found once the
      result was recorded. */
  datatype Course =
    | Reused
    | Skipped(inspected: Source)
    | Ran(before: Source, after: Source, outcome: Outcome, status: string, inspected: Source)

  /** The result recorded for a check. */
  function ResultOf(checkId: string, course: Course): CheckResult {
    match course
    case Reused => CheckResult(checkId, Passed, "reused", true)
    case Skipped(_) => CheckResult(checkId, SkippedOutcome, "fast-mode-budget-exceeded", false)
    case Ran(before, after, outcome, status, _) =>
      if before != after && outcome == Passed then CheckResult(checkId, Failed, "source-changed", false)
      else CheckResult(checkId, outcome, status, false)
  }

  /** The results for the first checks. */
  function ResultsOf(checks: seq<string>, courses: seq<Course>): (results: seq<CheckResult>)
    requires |courses| <= |checks|
    ensures |results| == |courses|
  {
    seq(|courses|, i requires 0 <= i < |courses| => ResultOf(checks[i], courses[i]))
  }

  function RanCount(courses: seq<Course>): nat {
    if courses == [] then 0
    else RanCount(courses[..|courses| - 1]) + (if courses[|courses| - 1].Ran? then 1 else 0)
  }

  function ReusedCount(courses: seq<Course>): nat {
    if courses == [] then 0
    else ReusedCount(courses[..|courses| - 1]) + (if courses[|courses| - 1].Reused? then 1 else 0)
  }

  /** The skipped checks, in order. */
  function SkippedIds(checks: seq<string>, courses: seq<Course>): seq<string>
    requires |courses| <= |checks|
  {
    if courses == [] then []
    else
      var n := |courses| - 1;
      SkippedIds(checks, courses[..n]) + (if courses[n].Skipped? then [checks[n]] else [])
  }

  /** What decides the courses: the checks that the plan reuses, and for fast
      mode the number of executions it allows. */
  datatype Setting = Setting(reusable: set<string>, executions: Option<nat>)

  /** What the environment does around one check: whether the run is aborted
      before it, whether the time is up, whether its record is refused, what the
      check answers, and the source found after it and after its record. */
  datatype Moment = Moment(
    aborted: bool, late: bool, refused: bool,
    outcome: Outcome, status: string, after: Source, inspected: Source)

  predicate AnySkipped(courses: seq<Course>) {
    exists j :: 0 <= j < |courses| && courses[j].Skipped?
  }

  /** The budget is used up when a check's turn comes. */
  predicate Over(courses: seq<Course>, setting: Setting, moment: Moment) {
    setting.executions.Some? && (moment.late || RanCount(courses) >= setting.executions.value)
  }

  /** The courses keep to the plan and the budget and record what happened: a
      check is reused exactly if the plan says so, and skipped exactly if it is
      not and the budget is used up at its turn or a check was skipped before. */
  predicate Orderly(checks: seq<string>, courses: seq<Course>, setting: Setting, moments: seq<Moment>)
    requires |courses| <= |checks| == |moments|
  {
    forall i :: 0 <= i < |courses| ==>
      (courses[i].Reused? <==> checks[i] in setting.reusable)
      && (courses[i].Skipped? <==>
            checks[i] !in setting.reusable
            && (Over(courses[..i], setting, moments[i]) || AnySkipped(courses[..i])))
      && (!courses[i].Reused? ==> courses[i].inspected == moments[i].inspected)
      && (courses[i].Ran? ==>
            courses[i].outcome == moments[i].outcome && courses[i].status == moments[i].status
            && courses[i].after == moments[i].after)
  }

  /** The source last inspected. */
  function SourceAfter(initial: Source, courses: seq<Course>): Source {
    if courses == [] then initial
    else
      var last := courses[|courses| - 1];
      if last.Reused? then SourceAfter(initial, courses[..|courses| - 1]) else last.inspected
  }

  /** Every check ran on the source last inspected before it. */
  predicate Chained(initial: Source, courses: seq<Course>) {
    forall i :: 0 <= i < |courses| && courses[i].Ran? ==>
      courses[i].before == SourceAfter(initial, courses[..i])
  }

  /** The figure reported as reused: all checks the plan reuses, whether the run
      got to them or not. */
  function PlannedReuse(checks: seq<string>, reusable: set<string>): nat {
    if checks == [] then 0
    else PlannedReuse(checks[..|checks| - 1], reusable) + (if checks[|checks| - 1] in reusable then 1 else 0)
  }

  datatype Report = Report(
    passed: bool, results: seq<CheckResult>, reused: nat, executed: nat, skippedForBudget: nat,
    fallback: bool, nextChecks: seq<string>)

  /** What the report says of the courses. */
  predicate Reports(r: Report, checks: seq<string>, courses: seq<Course>, setting: Setting)
    requires |courses| <= |checks|
  {
    r.results == ResultsOf(checks, courses)
    && (r.passed <==> |courses| == |checks| && forall i :: 0 <= i < |r.results| ==> r.results[i].outcome == Passed)
    && r.reused == PlannedReuse(checks, setting.reusable)
    && r.executed == RanCount(courses) && r.nextChecks == SkippedIds(checks, courses)
    && r.skippedForBudget == |r.nextChecks| && (r.fallback <==> r.skippedForBudget > 0)
  }

  lemma ReportsIs(r: Report, checks: seq<string>, courses: seq<Course>, setting: Setting)
    requires |courses| <= |checks| && |r.results| == |courses|
    ensures Reports(r, checks, courses, setting) <==>
      r.results == ResultsOf(checks, courses)
      && (r.passed <==> |r.results| == |checks| && forall i :: 0 <= i < |r.results| ==> r.results[i].outcome == Passed)
      && r.reused == PlannedReuse(checks, setting.reusable)
      && r.executed == RanCount(courses) && r.nextChecks == SkippedIds(checks, courses)
      && r.skippedForBudget == |r.nextChecks| && (r.fallback <==> r.skippedForBudget > 0)
  {}

  /** What the variables of the loop record of the checks so far. */
  predicate Recorded(
      checks: seq<string>, courses: seq<Course>, setting: Setting, moments: seq<Moment>, initial: Source,
      source: Source, results: seq<CheckResult>, executed: nat, nextChecks: seq<string>)
    requires |courses| <= |checks| == |moments|
  {
    Orderly(checks, courses, setting, moments) && Chained(initial, courses)
    && source == SourceAfter(initial, courses) && results == ResultsOf(checks, courses)
    && executed == RanCount(courses) && nextChecks == SkippedIds(checks, courses)
  }

  lemma RecordedMeans(
      checks: seq<string>, courses: seq<Course>, setting: Setting, moments: seq<Moment>, initial: Source,
      source: Source, results: seq<CheckResult>, executed: nat, nextChecks: seq<string>)
    requires |courses| <= |checks| == |moments|
    requires Recorded(checks, courses, setting, moments, initial, source, results, executed, nextChecks)
    ensures Orderly(checks, courses, setting, moments) && Chained(initial, courses)
    ensures source == SourceAfter(initial, courses) && results == ResultsOf(checks, courses)
    ensures executed == RanCount(courses) && nextChecks == SkippedIds(checks, courses)
  {}

  lemma OneMoreResult(checks: seq<string>, courses: seq<Course>, course: Course)
    requires |courses| < |checks|
    ensures ResultsOf(checks, courses + [course]) == ResultsOf(checks, courses) + [ResultOf(checks[|courses|], course)]
  {
    hide ResultOf;
  }

  lemma OneMoreCount(checks: seq<string>, courses: seq<Course>, course: Course)
    requires |courses| < |checks|
    ensures RanCount(courses + [course]) == RanCount(courses) + (if course.Ran? then 1 else 0)
    ensures SkippedIds(checks, courses + [course])
         == SkippedIds(checks, courses) + (if course.Skipped? then [checks[|courses|]] else [])
    ensures AnySkipped(courses + [course]) <==> AnySkipped(courses) || course.Skipped?
  {
    var more := courses + [course];
    assert more[..|courses|] == courses && more[|courses|] == course;
    forall j | 0 <= j < |courses| && courses[j].Skipped? ensures AnySkipped(more) {
      assert more[j].Skipped?;
    }
  }

  lemma OneMoreOrderly(
      checks: seq<string>, courses: seq<Course>, course: Course, setting: Setting, moments: seq<Moment>)
    requires |courses| < |checks| == |moments| && Orderly(checks, courses, setting, moments)
    requires course.Reused? <==> checks[|courses|] in setting.reusable
    requires course.Skipped? <==>
      checks[|courses|] !in setting.reusable
      && (Over(courses, setting, moments[|courses|]) || AnySkipped(courses))
    requires !course.Reused? ==> course.inspected == moments[|courses|].inspected
    requires course.Ran? ==>
      var m := moments[|courses|];
      course.outcome == m.outcome && course.status == m.status && course.after == m.after
    ensures Orderly(checks, courses + [course], setting, moments)
  {
    hide Over, AnySkipped;
    var more := courses + [course];
    assert more[..|courses|] == courses;
    forall i | 0 <= i < |courses| ensures more[..i] == courses[..i] {}
  }

  lemma OneMoreChained(initial: Source, courses: seq<Course>, course: Course)
    requires Chained(initial, courses)
    requires course.Ran? ==> course.before == SourceAfter(initial, courses)
    ensures Chained(initial, courses + [course])
    ensures SourceAfter(initial, courses + [course])
         == if course.Reused? then SourceAfter(initial, courses) else course.inspected
  {
    var more := courses + [course];
    assert more[..|courses|] == courses;
    forall i | 0 <= i < |courses| ensures more[..i] == courses[..i] {}
  }

  /** One round of the loop. */
  lemma OneMore(
      checks: seq<string>, courses: seq<Course>, setting: Setting, moments: seq<Moment>, initial: Source,
      source: Source, results: seq<CheckResult>, executed: nat, nextChecks: seq<string>, course: Course)
    requires |courses| < |checks| == |moments|
    requires Recorded(checks, courses, setting, moments, initial, source, results, executed, nextChecks)
    requires course.Reused? <==> checks[|courses|] in setting.reusable
    requires course.Skipped? <==>
      checks[|courses|] !in setting.reusable
      && (Over(courses, setting, moments[|courses|]) || AnySkipped(courses))
    requires var m := moments[|courses|];
      match course
      case Reused => true
      case Skipped(inspected) => inspected == m.inspected
      case Ran(before, after, outcome, status, inspected) =>
        before == source && after == m.after && outcome == m.outcome && status == m.status
        && inspected == m.inspected
    ensures Recorded(checks, courses + [course], setting, moments, initial,
                     if course.Reused? then source else moments[|courses|].inspected,
                     results + [ResultOf(checks[|courses|], course)],
                     executed + (if course.Ran? then 1 else 0),
                     if course.Skipped? then nextChecks + [checks[|courses|]] else nextChecks)
    ensures AnySkipped(courses + [course]) <==> AnySkipped(courses) || course.Skipped?
    ensures ResultOf(checks[|courses|], Reused) == CheckResult(checks[|courses|], Passed, "reused", true)
    ensures course.Skipped? ==>
      ResultOf(checks[|courses|], course)
      == CheckResult(checks[|courses|], SkippedOutcome, "fast-mode-budget-exceeded", false)
  {
    OneMoreResult(checks, courses, course);
    OneMoreCount(checks, courses, course);
    OneMoreOrderly(checks, courses, course, setting, moments);
    OneMoreChained(initial, courses, course);
    hide ResultsOf, RanCount, SkippedIds, AnySkipped, Orderly, Chained, SourceAfter, Over;
  }

  lemma OverIs(courses: seq<Course>, setting: Setting, moment: Moment)
    ensures Over(courses, setting, moment) <==>
      setting.executions.Some? && (moment.late || RanCount(courses) >= setting.executions.value)
  {}

  lemma NothingYet(checks: seq<string>, setting: Setting, moments: seq<Moment>, initial: Source)
    requires |moments| == |checks|
    ensures Recorded(checks, [], setting, moments, initial, initial, [], 0, []) && !AnySkipped([])
  {}

  lemma NoneChained(initial: Source)
    ensures Chained(initial, []) && SourceAfter(initial, []) == initial
  {}

  /** `executeOne`: whatever the check answers, a pass on a source that is
      afterwards another one is recorded as a failure. */
  method ExecuteOne(checkId: string, source: Source, moment: Moment) returns (result: CheckResult)
    ensures result == ResultOf(checkId, Ran(source, moment.after, moment.outcome, moment.status, moment.inspected))
    ensures result ==
      if moment.outcome == Passed && source != moment.after
      then CheckResult(checkId, Failed, "source-changed", false)
      else CheckResult(checkId, moment.outcome, moment.status, false)
  {
    var outcome, status, after := moment.outcome, moment.status, moment.after;
    if (source.revision != after.revision || source.fingerprint != after.fingerprint) && outcome == Passed {
      outcome, status := Failed, "source-changed";
    }
    result := CheckResult(checkId, outcome, status, false);
  }

  /** The check loop of `verify`; `None` stands for an exception on the way,
      which only a refused record causes. */
  method Verify(checks: seq<string>, setting: Setting, initial: Source, moments: seq<Moment>)
    returns (report: Option<Report>, courses: seq<Course>)
    requires |moments| == |checks|
    ensures |courses| <= |checks| && Orderly(checks, courses, setting, moments) && Chained(initial, courses)
    ensures forall i :: 0 <= i < |courses| ==> !moments[i].aborted
    ensures report.None? ==> |courses| < |checks| && !moments[|courses|].aborted && moments[|courses|].refused
    ensures report.Some? ==> |courses| == |checks| || moments[|courses|].aborted
    ensures report.Some? ==> Reports(report.value, checks, courses, setting)
  {
    hide *;
    var results: seq<CheckResult> := [];
    var executed, skippedForBudget := 0, 0;
    var fallback := false;
    var nextChecks: seq<string> := [];
    var source := initial;
    courses := [];
    report := None;
    NothingYet(checks, setting, moments, initial);
    for n := 0 to |checks|
      invariant |courses| == n
      invariant Recorded(checks, courses, setting, moments, initial, source, results, executed, nextChecks)
      invariant skippedForBudget == |nextChecks| && (fallback <==> skippedForBudget > 0)
      invariant fallback <==> AnySkipped(courses)
      invariant forall i :: 0 <= i < n ==> !moments[i].aborted
    {
      var checkId, moment := checks[n], moments[n];
      if moment.aborted { break; }
      RecordedMeans(checks, courses, setting, moments, initial, source, results, executed, nextChecks);
      OverIs(courses, setting, moment);
      var course, result;
      if checkId in setting.reusable {
        course, result := Reused, CheckResult(checkId, Passed, "reused", true);
      } else {
        if setting.executions.Some? && (moment.late || executed >= setting.executions.value) {
          fallback := true;
        }
        if fallback {
          if moment.refused { return; }
          course := Skipped(moment.inspected);
          result := CheckResult(checkId, SkippedOutcome, "fast-mode-budget-exceeded", false);
        } else {
          course := Ran(source, moment.after, moment.outcome, moment.status, moment.inspected);
          result := ExecuteOne(checkId, source, moment);
          if moment.refused { return; }
        }
      }
      OneMore(checks, courses, setting, moments, initial, source, results, executed, nextChecks, course);
      courses := courses + [course];
      results := results + [result];
      match course {
        case Reused =>
        case Skipped(_) =>
          skippedForBudget := skippedForBudget + 1;
          nextChecks := nextChecks + [checkId];
          source := moment.inspected;
        case Ran(_, _, _, _, _) =>
          executed := executed + 1;
          source := moment.inspected;
      }
    }
    RecordedMeans(checks, courses, setting, moments, initial, source, results, executed, nextChecks);
    var passed := |results| == |checks| && forall i :: 0 <= i < |results| ==> results[i].outcome == Passed;
    report := Some(Report(passed, results, PlannedReuse(checks, setting.reusable),
                          executed, skippedForBudget, fallback, nextChecks));
    ReportsIs(report.value, checks, courses, setting);
  }

  // ---------------------------------------------------------- what a run shows

  /** Every result is for its check, in order, and the counts add up. */
  lemma {:induction false} CountsAddUp(checks: seq<string>, courses: seq<Course>)
    requires |courses| <= |checks|
    ensures forall i :: 0 <= i < |courses| ==> ResultsOf(checks, courses)[i].checkId == checks[i]
    ensures RanCount(courses) + ReusedCount(courses) + |SkippedIds(checks, courses)| == |ResultsOf(checks, courses)|
  {
    if courses != [] {
      CountsAddUp(checks, courses[..|courses| - 1]);
    }
  }

  lemma {:induction false} RanFigure(courses: seq<Course>)
    ensures RanCount(courses) == |set i | 0 <= i < |courses| && courses[i].Ran?|
  {
    if courses != [] {
      var n := |courses| - 1;
      RanFigure(courses[..n]);
      var before := set i | 0 <= i < n && courses[..n][i].Ran?;
      assert (set i | 0 <= i < |courses| && courses[i].Ran?) == before + (if courses[n].Ran? then {n} else {});
    }
  }

  lemma {:induction false} PlannedFigure(checks: seq<string>, reusable: set<string>)
    ensures PlannedReuse(checks, reusable) == |set i | 0 <= i < |checks| && checks[i] in reusable|
  {
    if checks != [] {
      var n := |checks| - 1;
      PlannedFigure(checks[..n], reusable);
      var before := set i | 0 <= i < n && checks[..n][i] in reusable;
      assert (set i | 0 <= i < |checks| && checks[i] in reusable)
        == before + (if checks[n] in reusable then {n} else {});
    }
  }

  lemma {:induction false} SkippedFigure(checks: seq<string>, courses: seq<Course>)
    requires |courses| <= |checks|
    ensures |SkippedIds(checks, courses)| == |set i | 0 <= i < |courses| && courses[i].Skipped?|
    ensures forall id :: id in SkippedIds(checks, courses) <==>
      exists i :: 0 <= i < |courses| && courses[i].Skipped? && checks[i] == id
  {
    if courses != [] {
      var n := |courses| - 1;
      SkippedFigure(checks, courses[..n]);
      var before := set i | 0 <= i < n && courses[..n][i].Skipped?;
      assert (set i | 0 <= i < |courses| && courses[i].Skipped?)
        == before + (if courses[n].Skipped? then {n} else {});
    }
  }

  /** The figures are numbers of places, and the skipped checks those of theirs. */
  lemma FiguresAre(checks: seq<string>, courses: seq<Course>, reusable: set<string>)
    requires |courses| <= |checks|
    ensures RanCount(courses) == |set i | 0 <= i < |courses| && courses[i].Ran?|
    ensures PlannedReuse(checks, reusable) == |set i | 0 <= i < |checks| && checks[i] in reusable|
    ensures |SkippedIds(checks, courses)| == |set i | 0 <= i < |courses| && courses[i].Skipped?|
    ensures forall id :: id in SkippedIds(checks, courses) <==>
      exists i :: 0 <= i < |courses| && courses[i].Skipped? && checks[i] == id
  {
    RanFigure(courses);
    PlannedFigure(checks, reusable);
    SkippedFigure(checks, courses);
  }

  lemma {:induction false} PlannedReuseSplits(checks: seq<string>, reusable: set<string>, n: nat)
    requires n <= |checks|
    ensures PlannedReuse(checks, reusable) == PlannedReuse(checks[..n], reusable) + PlannedReuse(checks[n..], reusable)
  {
    if n == |checks| {
      assert checks[..n] == checks;
    } else {
      var m := |checks| - 1;
      PlannedReuseSplits(checks[..m], reusable, n);
      assert checks[..m][..n] == checks[..n] && checks[..m][n..] == checks[n..][..m - n];
    }
  }

  lemma {:induction false} NoPlannedReuse(checks: seq<string>, reusable: set<string>)
    ensures PlannedReuse(checks, reusable) == 0 <==> forall i :: 0 <= i < |checks| ==> checks[i] !in reusable
  {
    if checks != [] {
      NoPlannedReuse(checks[..|checks| - 1], reusable);
    }
  }

  lemma LastIsOrderly(checks: seq<string>, courses: seq<Course>, setting: Setting, moments: seq<Moment>)
    requires 0 < |courses| <= |checks| == |moments| && Orderly(checks, courses, setting, moments)
    ensures Orderly(checks, courses[..|courses| - 1], setting, moments)
    ensures courses[|courses| - 1].Ran? ==> !Over(courses[..|courses| - 1], setting, moments[|courses| - 1])
  {
    hide Over, AnySkipped;
    var n := |courses| - 1;
    assert forall i :: 0 <= i < n ==> courses[..n][..i] == courses[..i];
  }

  lemma {:induction false} ReusedAsPlanned(
      checks: seq<string>, courses: seq<Course>, setting: Setting, moments: seq<Moment>)
    requires |courses| <= |checks| == |moments| && Orderly(checks, courses, setting, moments)
    ensures ReusedCount(courses) == PlannedReuse(checks[..|courses|], setting.reusable)
  {
    if courses != [] {
      var n := |courses| - 1;
      LastIsOrderly(checks, courses, setting, moments);
      ReusedAsPlanned(checks, courses[..n], setting, moments);
      assert checks[..|courses|][..n] == checks[..n];
    }
  }

  /** The reported figures (executed, reused and skipped) add up to the results
      exactly when the plan reuses no check beyond the one the run was aborted at. */
  lemma ReportAddsUp(checks: seq<string>, courses: seq<Course>, setting: Setting, moments: seq<Moment>)
    requires |courses| <= |checks| == |moments| && Orderly(checks, courses, setting, moments)
    ensures RanCount(courses) + PlannedReuse(checks, setting.reusable) + |SkippedIds(checks, courses)|
            == |ResultsOf(checks, courses)|
       <==> forall i :: |courses| <= i < |checks| ==> checks[i] !in setting.reusable
  {
    hide Orderly, RanCount, SkippedIds, PlannedReuse, ResultOf;
    CountsAddUp(checks, courses);
    ReusedAsPlanned(checks, courses, setting, moments);
    PlannedReuseSplits(checks, setting.reusable, |courses|);
    var rest := checks[|courses|..];
    NoPlannedReuse(rest, setting.reusable);
    assert forall i :: |courses| <= i < |checks| ==> checks[i] == rest[i - |courses|];
  }

  /** A run, aborted before its second check, that reports one executed and one
      reused check for a single result. */
  lemma AbortedReportOvercounts(source: Source)
    ensures var done := Moment(false, false, false, Passed, "completed", source, source);
            var checks, setting, moments := ["one", "two"], Setting({"two"}, None), [done, done.(aborted := true)];
            var courses := [Ran(source, source, Passed, "completed", source)];
            Orderly(checks, courses, setting, moments) && Chained(source, courses)
            && RanCount(courses) == 1 && PlannedReuse(checks, setting.reusable) == 1
            && |ResultsOf(checks, courses)| == 1
  {
    var course := Ran(source, source, Passed, "completed", source);
    NoneChained(source);
    OneMoreChained(source, [], course);
    OneMoreCount(["one", "two"], [], course);
    assert [] + [course] == [course];
    assert ["one", "two"][..1] == ["one"] && ["one"][..0] == [];
  }

  /** Once the budget fallback starts, only reuse and skipping follow. */
  lemma NothingRunsAfterFallback(
      checks: seq<string>, courses: seq<Course>, setting: Setting, moments: seq<Moment>, i: nat, j: nat)
    requires |courses| <= |checks| == |moments| && Orderly(checks, courses, setting, moments)
    requires i < j < |courses| && courses[i].Skipped?
    ensures courses[j] == if checks[j] in setting.reusable then Reused else Skipped(moments[j].inspected)
  {
    hide Over;
    assert courses[..j][i].Skipped?;
  }

  /** At this check's turn, not to be reused, fast mode found the time up or its
      executions used up. */
  predicate SpentAt(
      checks: seq<string>, courses: seq<Course>, setting: Setting, moments: seq<Moment>, j: nat)
    requires j < |courses| <= |checks| == |moments|
  {
    checks[j] !in setting.reusable && setting.executions.Some?
    && (moments[j].late || |set k | 0 <= k < j && courses[k].Ran?| >= setting.executions.value)
  }

  /** Exactly which checks are skipped: those not reused, from the first one on at
      whose turn fast mode found its budget used up. */
  lemma {:induction false} SkippedExactlyWhen(
      checks: seq<string>, courses: seq<Course>, setting: Setting, moments: seq<Moment>, i: nat)
    requires |courses| <= |checks| == |moments| && Orderly(checks, courses, setting, moments) && i < |courses|
    ensures courses[i].Skipped? <==>
      checks[i] !in setting.reusable
      && exists j :: 0 <= j <= i && SpentAt(checks, courses, setting, moments, j)
    decreases i
  {
    forall j | 0 <= j <= i
      ensures SpentAt(checks, courses, setting, moments, j) <==>
        checks[j] !in setting.reusable && Over(courses[..j], setting, moments[j])
    {
      RanFigure(courses[..j]);
      assert (set k | 0 <= k < j && courses[k].Ran?) == set k | 0 <= k < |courses[..j]| && courses[..j][k].Ran?;
    }
    forall j | 0 <= j < i
      ensures courses[j].Skipped? <==>
        checks[j] !in setting.reusable
        && exists k :: 0 <= k <= j && SpentAt(checks, courses, setting, moments, k)
    {
      SkippedExactlyWhen(checks, courses, setting, moments, j);
    }
    hide SpentAt, Over;
    assert AnySkipped(courses[..i]) <==> exists j :: 0 <= j < i && courses[j].Skipped? by {
      forall j | 0 <= j < i && courses[j].Skipped? ensures AnySkipped(courses[..i]) {
        assert courses[..i][j].Skipped?;
      }
    }
  }

  /** Only in fast mode is anything skipped. */
  lemma {:induction false} FirstSkipIsOver(
      checks: seq<string>, courses: seq<Course>, setting: Setting, moments: seq<Moment>, i: nat)
    requires |courses| <= |checks| == |moments| && Orderly(checks, courses, setting, moments)
    requires i < |courses| && courses[i].Skipped?
    ensures setting.executions.Some?
  {
    hide RanCount;
    if !Over(courses[..i], setting, moments[i]) {
      var j :| 0 <= j < i && courses[..i][j].Skipped?;
      FirstSkipIsOver(checks, courses, setting, moments, j);
    }
  }

  /** The executions allowed are never exceeded. */
  lemma {:induction false} ExecutionsWithin(
      checks: seq<string>, courses: seq<Course>, setting: Setting, moments: seq<Moment>)
    requires |courses| <= |checks| == |moments| && Orderly(checks, courses, setting, moments)
    ensures setting.executions.Some? ==> RanCount(courses) <= setting.executions.value
    ensures setting.executions.None? ==> SkippedIds(checks, courses) == []
  {
    hide Orderly;
    if courses != [] {
      var n := |courses| - 1;
      LastIsOrderly(checks, courses, setting, moments);
      ExecutionsWithin(checks, courses[..n], setting, moments);
      if courses[n].Skipped? && setting.executions.None? {
        FirstSkipIsOver(checks, courses, setting, moments, n);
      }
    }
  }

  /** A run passes exactly when every declared check was reused, or ran, passed
      by itself, and found the source afterwards as it was before. */
  lemma PassedMeans(checks: seq<string>, courses: seq<Course>)
    requires |courses| <= |checks|
    ensures (|courses| == |checks|
             && forall i :: 0 <= i < |courses| ==> ResultsOf(checks, courses)[i].outcome == Passed)
       <==> (|courses| == |checks| && forall i :: 0 <= i < |courses| ==>
               courses[i].Reused?
               || (courses[i].Ran? && courses[i].outcome == Passed && courses[i].before == courses[i].after))
  {
    forall i | 0 <= i < |courses|
      ensures ResultsOf(checks, courses)[i].outcome == Passed <==>
        courses[i].Reused? || (courses[i].Ran? && courses[i].outcome == Passed && courses[i].before == courses[i].after)
    {
      assert ResultsOf(checks, courses)[i] == ResultOf(checks[i], courses[i]);
    }
  }

  /** A check ran right after another one that was not reused, but for reuse. */
  predicate Follows(courses: seq<Course>, i: nat, j: nat) {
    i < j < |courses| && !courses[i].Reused? && courses[j].Ran?
    && forall k :: i < k < j ==> courses[k].Reused?
  }

  lemma {:induction false} SourceAfterIs(initial: Source, courses: seq<Course>) returns (i: int)
    ensures -1 <= i < |courses| && forall k :: i < k < |courses| ==> courses[k].Reused?
    ensures if i == -1 then SourceAfter(initial, courses) == initial
            else !courses[i].Reused? && SourceAfter(initial, courses) == courses[i].inspected
  {
    i := |courses| - 1;
    if courses != [] && courses[i].Reused? {
      i := SourceAfterIs(initial, courses[..i]);
    }
  }

  /** Every execution starts from the source that the last inspection before it
      found, or the one the run began with. */
  lemma StartsFromLastInspected(initial: Source, courses: seq<Course>, i: nat) returns (last: int)
    requires Chained(initial, courses) && i < |courses| && courses[i].Ran?
    ensures -1 <= last < i && forall k :: last < k < i ==> courses[k].Reused?
    ensures if last == -1 then courses[i].before == initial
            else !courses[last].Reused? && courses[i].before == courses[last].inspected
  {
    last := SourceAfterIs(initial, courses[..i]);
    assert forall k :: last < k < i ==> courses[..i][k] == courses[k];
  }

  /** Exactly when all executions of a run are on the source it began with: every
      inspection that an execution follows, with only reuse in between, found it. */
  lemma RunsOnOneSource(
      checks: seq<string>, courses: seq<Course>, setting: Setting, moments: seq<Moment>, initial: Source)
    requires |courses| <= |checks| == |moments| && Orderly(checks, courses, setting, moments)
    requires Chained(initial, courses)
    ensures (forall j :: 0 <= j < |courses| && courses[j].Ran? ==> courses[j].before == initial)
       <==> (forall i: nat, j: nat :: Follows(courses, i, j) ==> moments[i].inspected == initial)
  {
    hide Over, AnySkipped, SourceAfter;
    forall i: nat, j: nat | Follows(courses, i, j)
      ensures courses[j].before == moments[i].inspected
    {
      var k := SourceAfterIs(initial, courses[..j]);
      assert !courses[..j][i].Reused?;
      assert k == i;
    }
    forall j | 0 <= j < |courses| && courses[j].Ran? && courses[j].before != initial
      ensures exists i: nat :: Follows(courses, i, j) && moments[i].inspected != initial
    {
      var k := SourceAfterIs(initial, courses[..j]);
      assert forall m :: k < m < j ==> courses[..j][m] == courses[m];
      assert Follows(courses, k, j);
    }
  }

  /** What a pass does not show: the source may move between two checks, so a
      passed run can rest on two different sources. */
  lemma PassOnTwoSources(a: Source, b: Source)
    requires a != b
    ensures var courses := [Ran(a, a, Passed, "completed", b), Ran(b, b, Passed, "completed", b)];
            var moments := [Moment(false, false, false, Passed, "completed", a, b),
                            Moment(false, false, false, Passed, "completed", b, b)];
            Orderly(["one", "two"], courses, Setting({}, None), moments) && Chained(a, courses)
            && forall r :: r in ResultsOf(["one", "two"], courses) ==> r.outcome == Passed
  {}

  // ----------------------------------------------------------------- the ACTIVE map

  /** The project root and the task. */
  type Key = (string, string)

  datatype Run = Run(key: Key, request: Request, planning: bool)

  /** `active` is the `ACTIVE` map; `lost` are the keys whose plan building has thrown. */
  datatype World = World(active: set<Key>, runs: map<nat, Run>, lost: set<Key>)

  datatype Step =
    | Start(run: nat, key: Key, request: Request)
    | PlanBuilt(run: nat)
    | PlanThrew(run: nat)
    | Finish(run: nat)

  /** The check for a running verification and the entry into the map happen in
      one step, as nothing is awaited in between. */
  predicate Enabled(w: World, step: Step) {
    match step
    case Start(run, key, _) => run !in w.runs && key !in w.active
    case PlanBuilt(run) => run in w.runs && w.runs[run].planning && !PlanThrows(w.runs[run].request)
    case PlanThrew(run) => run in w.runs && w.runs[run].planning && PlanThrows(w.runs[run].request)
    case Finish(run) => run in w.runs && !w.runs[run].planning
  }

  function After(w: World, step: Step): World
    requires Enabled(w, step)
  {
    match step
    case Start(run, key, request) => World(w.active + {key}, w.runs[run := Run(key, request, true)], w.lost)
    case PlanBuilt(run) => w.(runs := w.runs[run := w.runs[run].(planning := false)])
    // Plan building comes before the `try`, so nothing clears the entry.
    case PlanThrew(run) => World(w.active, w.runs - {run}, w.lost + {w.runs[run].key})
    case Finish(run) => World(w.active - {w.runs[run].key}, w.runs - {run}, w.lost)
  }

  function Steps(w: World, steps: seq<Step>): Option<World> {
    if steps == [] then Some(w)
    else
      match Steps(w, steps[..|steps| - 1])
      case None => None
      case Some(before) =>
        if Enabled(before, steps[|steps| - 1]) then Some(After(before, steps[|steps| - 1])) else None
  }

  /** The keys of the active runs. */
  function KeysOf(runs: map<nat, Run>): set<Key> {
    set r | r in runs :: runs[r].key
  }

  predicate OnePerKey(runs: map<nat, Run>) {
    forall a, b :: a in runs && b in runs && a != b ==> runs[a].key != runs[b].key
  }

  predicate Exclusive(w: World) {
    OnePerKey(w.runs) && w.active == w.lost + KeysOf(w.runs) && w.lost !! KeysOf(w.runs)
  }

  lemma KeysMore(runs: map<nat, Run>, run: nat, r: Run)
    requires run !in runs
    ensures KeysOf(runs[run := r]) == KeysOf(runs) + {r.key}
  {
    var more := runs[run := r];
    assert more[run].key == r.key;
    forall k | k in KeysOf(runs) ensures k in KeysOf(more) {
      var a :| a in runs && runs[a].key == k;
      assert more[a].key == k;
    }
  }

  lemma KeysLess(runs: map<nat, Run>, run: nat)
    requires run in runs && OnePerKey(runs)
    ensures KeysOf(runs - {run}) == KeysOf(runs) - {runs[run].key}
    ensures runs[run].key in KeysOf(runs)
  {
    var less := runs - {run};
    forall k | k in KeysOf(runs) && k != runs[run].key ensures k in KeysOf(less) {
      var a :| a in runs && runs[a].key == k;
      assert less[a].key == k;
    }
  }

  lemma KeysSame(runs: map<nat, Run>, run: nat)
    requires run in runs
    ensures KeysOf(runs[run := runs[run].(planning := false)]) == KeysOf(runs)
  {
    var after := runs[run := runs[run].(planning := false)];
    forall k ensures k in KeysOf(after) <==> k in KeysOf(runs) {
      if k in KeysOf(runs) {
        var a :| a in runs && runs[a].key == k;
        assert after[a].key == k;
      }
    }
  }

  lemma KeysHave(runs: map<nat, Run>)
    ensures forall a :: a in runs ==> runs[a].key in KeysOf(runs)
  {}

  lemma StepKeepsExclusive(w: World, step: Step)
    requires Exclusive(w) && Enabled(w, step)
    ensures Exclusive(After(w, step))
  {
    hide KeysOf;
    match step
    case Start(run, key, request) =>
      KeysMore(w.runs, run, Run(key, request, true));
      assert forall a :: a in w.runs ==> w.runs[a].key in KeysOf(w.runs) by { KeysHave(w.runs); }
    case PlanBuilt(run) => KeysSame(w.runs, run);
    case PlanThrew(run) => KeysLess(w.runs, run);
    case Finish(run) => KeysLess(w.runs, run);
  }

  /** In every interleaving, a task never has two verifications active, and a
      new one is turned away exactly when one is active or an earlier one died
      while its plan was built. */
  lemma {:induction false} NeverTwiceActive(steps: seq<Step>)
    requires Steps(World({}, map[], {}), steps).Some?
    ensures Exclusive(Steps(World({}, map[], {}), steps).value)
  {
    if steps != [] {
      var n := |steps| - 1;
      NeverTwiceActive(steps[..n]);
      hide Exclusive, After, Enabled;
      StepKeepsExclusive(Steps(World({}, map[], {}), steps[..n]).value, steps[n]);
    }
  }

  /** And then for good: no later step lets such a task be verified again. */
  lemma {:induction false} LostForGood(w: World, steps: seq<Step>, key: Key)
    requires Exclusive(w) && key in w.lost && Steps(w, steps).Some?
    ensures Exclusive(Steps(w, steps).value) && key in Steps(w, steps).value.lost
    ensures key in Steps(w, steps).value.active
    ensures key !in KeysOf(Steps(w, steps).value.runs)
  {
    hide KeysOf, OnePerKey;
    if steps != [] {
      var n := |steps| - 1;
      LostForGood(w, steps[..n], key);
      StepKeepsExclusive(Steps(w, steps[..n]).value, steps[n]);
      hide Enabled;
    }
  }

  const NOTHING := World({}, map[], {})

  /** Some run for the key was started with a request whose plan throws. */
  predicate StartedThrowing(steps: seq<Step>, key: Key) {
    exists i :: 0 <= i < |steps| && steps[i].Start? && steps[i].key == key && PlanThrows(steps[i].request)
  }

  /** Where runs and lost keys come from. */
  lemma {:induction false} OnlyThrowsLose(steps: seq<Step>)
    requires Steps(NOTHING, steps).Some?
    ensures var w := Steps(NOTHING, steps).value;
            (forall k :: k in w.lost ==> StartedThrowing(steps, k))
            && forall r :: r in w.runs ==> exists i ::
                 0 <= i < |steps| && steps[i] == Start(r, w.runs[r].key, w.runs[r].request)
  {
    hide PlanThrows;
    if steps != [] {
      var n := |steps| - 1;
      OnlyThrowsLose(steps[..n]);
      var before, after := Steps(NOTHING, steps[..n]).value, Steps(NOTHING, steps).value;
      forall k | k in before.lost ensures StartedThrowing(steps, k) {
        var i :| 0 <= i < |steps[..n]| && steps[..n][i].Start? && steps[..n][i].key == k
          && PlanThrows(steps[..n][i].request);
        assert steps[i] == steps[..n][i];
      }
      forall r | r in before.runs
        ensures exists i :: 0 <= i < n && steps[i] == Start(r, before.runs[r].key, before.runs[r].request)
      {
        var i :| 0 <= i < |steps[..n]| && steps[..n][i] == Start(r, before.runs[r].key, before.runs[r].request);
        assert steps[i] == steps[..n][i];
      }
    }
  }

  /** In every interleaving, a run whose plan is built has a request whose plan does
      not throw, and any other one either builds its plan or throws, never both. */
  lemma {:induction false} PlansBuiltAreSound(steps: seq<Step>)
    requires Steps(NOTHING, steps).Some?
    ensures var w := Steps(NOTHING, steps).value;
            forall r :: r in w.runs ==>
              if w.runs[r].planning then Enabled(w, PlanBuilt(r)) <==> !Enabled(w, PlanThrew(r))
              else !PlanThrows(w.runs[r].request) && Enabled(w, Finish(r))
  {
    hide PlanThrows;
    if steps != [] {
      PlansBuiltAreSound(steps[..|steps| - 1]);
    }
  }

  /** As long as all requests are well typed, nothing is ever lost. */
  lemma WellTypedLosesNothing(steps: seq<Step>)
    requires Steps(NOTHING, steps).Some?
    requires forall i :: 0 <= i < |steps| && steps[i].Start? ==> WellTyped(steps[i].request)
    ensures Steps(NOTHING, steps).value.lost == {}
  {
    hide Steps, PlanThrows, WellTyped;
    OnlyThrowsLose(steps);
    forall i | 0 <= i < |steps| && steps[i].Start? ensures !PlanThrows(steps[i].request) {
      WellTypedNeverThrows(steps[i].request);
    }
  }

  /** A request with null for its changed paths loses its task. */
  lemma NullLosesTask(key: Key)
    ensures Steps(NOTHING, [Start(0, key, NULL_REQUEST), PlanThrew(0)]).Some?
    ensures key in Steps(NOTHING, [Start(0, key, NULL_REQUEST), PlanThrew(0)]).value.lost
  {
    NullThrows();
    hide PlanThrows;
    var start, threw := Start(0, key, NULL_REQUEST), PlanThrew(0);
    assert [start, threw][..1] == [start] && [start][..0] == [];
    assert Steps(NOTHING, [start]) == Some(After(NOTHING, start));
  }
}
