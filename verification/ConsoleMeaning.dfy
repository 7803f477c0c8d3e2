/** What the console shows, read off the steps of a run: which response the shown
    memory and the shown plan come from, and which steps write each field. Nothing
    here speaks of generations, fences or what a waiting task carries. */
module ConsoleMeaning {
  import opened Text
  import opened ConsoleStore

  /** The task that a step starts or resumes. */
  function TaskOf(step: Step): Option<nat> {
    match step
    case Select(_, _, _) => None
    case SetWorkspace(_) => None
    case _ => Some(step.task)
  }

  /** A reload or a user action begins. */
  predicate Begins(step: Step) {
    step.Poll? || step.Reload? || step.Act? || (step.Resume? && step.response.StateIs?)
  }

  function Beginnings(steps: seq<Step>): nat {
    if steps == [] then 0
    else Beginnings(steps[..|steps| - 1]) + if Begins(steps[|steps| - 1]) then 1 else 0
  }

  /** The reload that the task is waiting for was asked for in this step. */
  predicate AskedAt(steps: seq<Step>, t: nat, k: int) {
    0 <= k < |steps| && Begins(steps[k]) && TaskOf(steps[k]) == Some(t)
    && forall j :: k < j < |steps| ==> TaskOf(steps[j]) != Some(t)
  }

  predicate NothingBeganSince(steps: seq<Step>, k: int)
    requires 0 <= k < |steps|
  {
    forall j :: k < j < |steps| ==> !Begins(steps[j])
  }

  lemma {:induction false} BeginningsSince(steps: seq<Step>, k: nat)
    requires k < |steps|
    ensures Beginnings(steps[..k + 1]) <= Beginnings(steps)
    ensures Beginnings(steps[..k + 1]) == Beginnings(steps) <==> NothingBeganSince(steps, k)
  {
    hide Begins;
    var n := |steps| - 1;
    if k == n {
      assert steps[..k + 1] == steps;
    } else {
      BeginningsSince(steps[..n], k);
      assert steps[..n][..k + 1] == steps[..k + 1];
    }
  }

  // ---------------------------------------------------------- what a waiting reload knows

  /** A waiting reload was asked for there: its generation counts the beginnings up
      to then, and a background refresh remembers what was shown. */
  ghost predicate ToldAt(steps: seq<Step>, t: nat, task: Task, k: int) {
    AskedAt(steps, t, k) && task.Reloading? && task.generation == Beginnings(steps[..k + 1])
    && Run(steps[..k]).Some?
    && (task.purpose.Background? <==> steps[k].Poll?)
    && (steps[k].Poll? ==> task.purpose.prior == Run(steps[..k]).value.memory)
  }

  ghost predicate Told(steps: seq<Step>, w: World) {
    w.generation == Beginnings(steps)
    && forall t :: t in w.tasks && w.tasks[t].Reloading? ==> exists k :: ToldAt(steps, t, w.tasks[t], k)
  }

  /** Nothing begins, no reload is waited for, and the other tasks stay. */
  ghost predicate GoesOn(w: World, after: World, t: nat) {
    after.generation == w.generation
    && (t in after.tasks ==> !after.tasks[t].Reloading?)
    && forall u :: u != t && u in after.tasks ==> u in w.tasks && after.tasks[u] == w.tasks[u]
  }

  lemma FailureGoesOn(w: World, t: nat, conflict: bool)
    requires t in w.tasks
    ensures GoesOn(w, Failed(w, t, conflict), t)
  {
    match w.tasks[t]
    case Operating(_, _) =>
    case _ =>
  }

  lemma OperationGoesOn(w: World, t: nat, response: Response)
    requires t in w.tasks && w.tasks[t].Operating? && Answers(w.tasks[t], response) && !response.ErrorIs?
    ensures GoesOn(w, Resumed(w, t, response), t)
  {
    OperationResumes(w, t, w.tasks[t].operation, w.tasks[t].begun, response);
    hide Answers, Resumed, Ended;
  }

  lemma WorkbenchGoesOn(w: World, t: nat, memory: Memory)
    requires t in w.tasks && w.tasks[t].Reloading?
    ensures GoesOn(w, Resumed(w, t, WorkbenchIs(memory)), t)
  {
    ReloadedTasks(w, t, memory);
  }

  lemma StateBegins(w: World, t: nat, server: Server)
    requires t in w.tasks && (w.tasks[t].Starting? || w.tasks[t].Recovering?)
    ensures var after := Resumed(w, t, StateIs(server));
            after.generation == w.generation + 1
            && after.tasks.Keys == w.tasks.Keys && (forall u :: u in w.tasks && u != t ==> after.tasks[u] == w.tasks[u])
            && after.tasks[t].Reloading? && after.tasks[t].generation == w.generation + 1
            && !after.tasks[t].purpose.Background?
  {}

  lemma ResumeTasks(w: World, t: nat, response: Response)
    requires Enabled(w, Resume(t, response))
    ensures var after := After(w, Resume(t, response));
            if response.StateIs?
            then after.generation == w.generation + 1
                 && after.tasks.Keys == w.tasks.Keys
                 && (forall u :: u in w.tasks && u != t ==> after.tasks[u] == w.tasks[u])
                 && after.tasks[t].Reloading? && after.tasks[t].generation == w.generation + 1
                 && !after.tasks[t].purpose.Background?
            else GoesOn(w, after, t)
  {
    hide Failed, Resumed, GoesOn;
    if response.ErrorIs? {
      FailureGoesOn(w, t, response.conflict);
    } else {
      match w.tasks[t]
      case Operating(_, _) => OperationGoesOn(w, t, response);
      case Reloading(_, _) => WorkbenchGoesOn(w, t, response.memory);
      case _ => StateBegins(w, t, response.server);
    }
  }

  lemma StepsTasks(w: World, step: Step)
    requires Enabled(w, step)
    ensures After(w, step).generation == w.generation + if Begins(step) then 1 else 0
    ensures forall u :: TaskOf(step) != Some(u) && u in After(w, step).tasks ==>
      u in w.tasks && After(w, step).tasks[u] == w.tasks[u]
  {
    hide Chosen, Idles, Failed, Resumed;
    match step
    case Resume(u, response) => ResumeTasks(w, u, response);
    case _ =>
  }

  lemma OwnReload(w: World, step: Step, t: nat)
    requires Enabled(w, step) && TaskOf(step) == Some(t)
    requires t in After(w, step).tasks && After(w, step).tasks[t].Reloading?
    ensures Begins(step) && After(w, step).tasks[t].generation == w.generation + 1
    ensures After(w, step).tasks[t].purpose.Background? <==> step.Poll?
    ensures step.Poll? ==> After(w, step).tasks[t].purpose.prior == w.memory
  {
    hide Chosen, Idles, Failed, Resumed;
    match step
    case Resume(u, response) => ResumeTasks(w, u, response);
    case _ =>
  }

  lemma ToldStays(steps: seq<Step>, step: Step, t: nat, task: Task, k: int)
    requires ToldAt(steps, t, task, k) && TaskOf(step) != Some(t)
    ensures ToldAt(steps + [step], t, task, k)
  {
    hide Begins, Beginnings, Run;
    assert (steps + [step])[..k + 1] == steps[..k + 1] && (steps + [step])[..k] == steps[..k];
  }

  lemma ToldNow(steps: seq<Step>, step: Step, t: nat, task: Task)
    requires Run(steps).Some? && Begins(step) && TaskOf(step) == Some(t) && task.Reloading?
    requires task.generation == Beginnings(steps) + 1
    requires task.purpose.Background? <==> step.Poll?
    requires step.Poll? ==> task.purpose.prior == Run(steps).value.memory
    ensures ToldAt(steps + [step], t, task, |steps|)
  {
    hide Begins, Run, TaskOf;
    var more := steps + [step];
    assert more[..|steps|] == steps && more[..|steps| + 1] == more;
  }

  lemma StepKeepsTold(steps: seq<Step>, step: Step, w: World)
    requires Run(steps) == Some(w) && Told(steps, w) && Enabled(w, step)
    ensures Told(steps + [step], After(w, step))
  {
    StepsTasks(w, step);
    assert (steps + [step])[..|steps|] == steps;
    assert Beginnings(steps + [step]) == Beginnings(steps) + if Begins(step) then 1 else 0;
    hide After, Enabled, Run, Begins, Beginnings, ToldAt, TaskOf;
    var after := After(w, step);
    forall t | t in after.tasks && after.tasks[t].Reloading?
      ensures exists k :: ToldAt(steps + [step], t, after.tasks[t], k)
    {
      if TaskOf(step) == Some(t) {
        OwnReload(w, step, t);
        ToldNow(steps, step, t, after.tasks[t]);
      } else {
        var k :| ToldAt(steps, t, w.tasks[t], k);
        ToldStays(steps, step, t, w.tasks[t], k);
      }
    }
  }

  lemma {:induction false} EveryReloadIsTold(steps: seq<Step>)
    requires Run(steps).Some?
    ensures Told(steps, Run(steps).value)
  {
    hide After, Enabled, ToldAt;
    if steps != [] {
      var n := |steps| - 1;
      EveryReloadIsTold(steps[..n]);
      hide Told;
      StepKeepsTold(steps[..n], steps[n], Run(steps[..n]).value);
      assert steps[..n] + [steps[n]] == steps;
    }
  }

  lemma FailureShows(w: World, t: nat, conflict: bool)
    requires t in w.tasks
    ensures var after := Failed(w, t, conflict);
            after.state == w.state && after.selection == w.selection && after.memory == w.memory
            && after.plan == (if conflict && w.tasks[t].Operating? then None else w.plan)
            && after.changed == (w.changed || (conflict && w.tasks[t].Operating?))
            && after.tasks ==
              (if conflict && w.tasks[t].Operating? then w.tasks[t := Recovering(w.selection)] else w.tasks - {t})
  {}

  // --------------------------------------------------------------------- shown memory

  lemma MemoryOfReload(w: World, t: nat, memory: Memory)
    requires t in w.tasks && w.tasks[t].Reloading? && TaskKnows(w.tasks[t])
    ensures
      var shown := if w.tasks[t].generation == w.generation then Some(memory) else w.memory;
      After(w, Resume(t, WorkbenchIs(memory))).memory ==
        match w.tasks[t].purpose
        case Background(_, prior) =>
          if prior.Some? && prior.value.query != "" && shown.Some? && shown.value.query == "" then prior else shown
        case _ => shown
  {}

  /** In every run, a workbench response is shown exactly when no reload and no user
      action has begun since it was asked for, and otherwise leaves what is shown;
      except that a background refresh that began over a search, and then finds the
      shown memory without one, shows again what was shown when it began. */
  lemma ShownAfterWorkbench(steps: seq<Step>, t: nat, memory: Memory) returns (k: nat)
    requires Run(steps).Some? && Enabled(Run(steps).value, Resume(t, WorkbenchIs(memory)))
    ensures AskedAt(steps, t, k) && Run(steps[..k]).Some?
    ensures
      var began := Run(steps[..k]).value.memory;
      var shown := if NothingBeganSince(steps, k) then Some(memory) else Run(steps).value.memory;
      Run(steps + [Resume(t, WorkbenchIs(memory))]).value.memory ==
        if steps[k].Poll? && began.Some? && began.value.query != "" && shown.Some? && shown.value.query == ""
        then began else shown
  {
    var w := Run(steps).value;
    EveryReloadIsTold(steps);
    EveryPollKnows(steps);
    assert w.tasks[t].Reloading?;
    assert TaskKnows(w.tasks[t]);
    hide Run, TaskKnows;
    RunMore(steps, Resume(t, WorkbenchIs(memory)));
    MemoryOfReload(w, t, memory);
    k :| ToldAt(steps, t, w.tasks[t], k);
    BeginningsSince(steps, k);
    hide After, Enabled, Beginnings, NothingBeganSince;
  }

  /** Apart from those, only a search's own response changes what is shown. */
  lemma ShownAfterOthers(w: World, step: Step)
    requires Enabled(w, step) && !(step.Resume? && step.response.WorkbenchIs?)
    ensures After(w, step).memory ==
      if step.Resume? && step.response.Found? then Some(step.response.memory) else w.memory
  {
    hide Chosen, Idles, Failed;
    match step
    case Resume(t, ErrorIs(conflict)) => FailureShows(w, t, conflict);
    case _ =>
  }

  // ------------------------------------------------------------------------ the plan

  /** What takes the shown plan away: another plan, an edit, a sync, a saved
      configuration, or a conflict that ends a user action. */
  predicate PlanGoes(w: World, step: Step) {
    match step
    case Select(_, _, _) => true
    case SetWorkspace(_) => true
    case Resume(_, PlanIs(_)) => true
    case Resume(_, Synced) => true
    case Resume(_, SavedAs(_)) => w.state.Some?
    case Resume(t, ErrorIs(conflict)) => conflict && t in w.tasks && w.tasks[t].Operating?
    case _ => false
  }

  /** The plan came in this step, and nothing has taken it away since. */
  ghost predicate PlanFrom(steps: seq<Step>, plan: string, k: int) {
    0 <= k < |steps| && steps[k].Resume? && steps[k].response == PlanIs(plan)
    && forall j :: k < j < |steps| ==> Run(steps[..j]).Some? && !PlanGoes(Run(steps[..j]).value, steps[j])
  }

  lemma PlanWritten(w: World, step: Step)
    requires Enabled(w, step)
    ensures After(w, step).plan ==
      if step.Resume? && step.response.PlanIs? then Some(step.response.plan)
      else if PlanGoes(w, step) then None
      else w.plan
  {
    hide Chosen, Idles, Failed;
    match step
    case Resume(t, ErrorIs(conflict)) => FailureShows(w, t, conflict);
    case _ =>
  }

  lemma PlanFromMore(steps: seq<Step>, step: Step, plan: string, k: int)
    requires Run(steps).Some?
    ensures k < |steps| ==>
      (PlanFrom(steps + [step], plan, k) <==> PlanFrom(steps, plan, k) && !PlanGoes(Run(steps).value, step))
    ensures k >= |steps| ==>
      (PlanFrom(steps + [step], plan, k) <==> k == |steps| && step.Resume? && step.response == PlanIs(plan))
  {
    hide Run, PlanGoes;
    var more := steps + [step];
    assert more[..|steps|] == steps;
    assert forall j :: 0 <= j <= |steps| ==> more[..j] == steps[..j];
    assert steps[..|steps|] == steps;
    if k < |steps| && PlanFrom(more, plan, k) {
      assert more[|steps|] == step;
    }
  }

  lemma InPlanFrom(steps: seq<Step>, plan: string, k: int)
    requires PlanFrom(steps, plan, k)
    ensures k < |steps|
  {}

  lemma PlanFromMoreAny(steps: seq<Step>, step: Step, plan: string)
    requires Run(steps).Some?
    ensures (exists k :: PlanFrom(steps + [step], plan, k)) <==>
      (step.Resume? && step.response == PlanIs(plan))
      || (!PlanGoes(Run(steps).value, step) && exists k :: PlanFrom(steps, plan, k))
  {
    hide Run, PlanGoes, PlanFrom;
    forall k
      ensures PlanFrom(steps + [step], plan, k) <==>
        if k < |steps| then PlanFrom(steps, plan, k) && !PlanGoes(Run(steps).value, step)
        else k == |steps| && step.Resume? && step.response == PlanIs(plan)
    {
      PlanFromMore(steps, step, plan, k);
    }
    if step.Resume? && step.response == PlanIs(plan) {
      assert PlanFrom(steps + [step], plan, |steps|);
    }
    if !PlanGoes(Run(steps).value, step) && exists k :: PlanFrom(steps, plan, k) {
      var k :| PlanFrom(steps, plan, k);
      InPlanFrom(steps, plan, k);
      assert PlanFrom(steps + [step], plan, k);
    }
    if exists k :: PlanFrom(steps + [step], plan, k) {
      var k :| PlanFrom(steps + [step], plan, k);
      if k < |steps| {
        assert PlanFrom(steps, plan, k);
      }
    }
  }

  lemma NoPlanFrom(plan: string)
    ensures forall k :: !PlanFrom([], plan, k)
  {}

  lemma NewPlanGoes(w: World, step: Step)
    ensures step.Resume? && step.response.PlanIs? ==> PlanGoes(w, step)
  {}

  /** In every run, a plan is shown exactly when it came with some response and
      since then there was no newer plan, no edit, no sync, no saved configuration
      and no conflict. */
  lemma {:induction false} PlanShownExactlyWhen(steps: seq<Step>, plan: string)
    requires Run(steps).Some?
    ensures Run(steps).value.plan == Some(plan) <==> exists k :: PlanFrom(steps, plan, k)
  {
    hide After, Enabled, PlanFrom, PlanGoes;
    if steps == [] {
      NoPlanFrom(plan);
    } else {
      var n := |steps| - 1;
      PlanShownExactlyWhen(steps[..n], plan);
      assert steps[..n] + [steps[n]] == steps;
      PlanFromMoreAny(steps[..n], steps[n], plan);
      PlanWritten(Run(steps[..n]).value, steps[n]);
      NewPlanGoes(Run(steps[..n]).value, steps[n]);
    }
  }

  // ----------------------------------------------------------- the other shown fields

  /** Which steps write the state, and with what. */
  lemma StateWritten(w: World, step: Step)
    requires Enabled(w, step)
    ensures After(w, step).state ==
      match step
      case Resume(_, StateIs(server)) => Some(server)
      case Resume(_, SavedAs(server)) => if w.state.Some? then Some(server) else None
      case _ => w.state
  {
    hide Chosen, Idles, Failed;
    match step
    case Resume(t, ErrorIs(conflict)) => FailureShows(w, t, conflict);
    case _ =>
  }

  /** Which steps write the selection, and with what: an unticked ID goes wherever
      it stands, and everything else keeps its place. */
  lemma SelectionWritten(w: World, step: Step)
    requires Enabled(w, step)
    ensures
      var was := w.selection;
      After(w, step).selection ==
        match step
        case Select(Providers, id, true) => Selection(was.providers + [id], was.skills, was.workspace)
        case Select(Providers, id, false) => Selection(Without(was.providers, id), was.skills, was.workspace)
        case Select(Skills, id, true) => Selection(was.providers, was.skills + [id], was.workspace)
        case Select(Skills, id, false) => Selection(was.providers, Without(was.skills, id), was.workspace)
        case SetWorkspace(workspace) => Selection(was.providers, was.skills, Some(workspace))
        case Resume(t, StateIs(server)) =>
          if w.tasks[t].Starting? then server.config
          else Selection(w.tasks[t].pending.providers, w.tasks[t].pending.skills, server.config.workspace)
        case Resume(_, SavedAs(server)) => if w.state.Some? then server.config else was
        case _ => was
  {
    hide Idles, Failed;
    match step
    case Resume(t, ErrorIs(conflict)) => FailureShows(w, t, conflict);
    case _ =>
  }

  lemma WithoutSteps(values: seq<string>, id: string)
    ensures Without([], id) == []
    ensures values != [] ==>
      Without(values, id) == (if values[0] == id then [] else [values[0]]) + Without(values[1..], id)
  {}

  lemma {:induction false} WithoutBoth(values: seq<string>, more: seq<string>, id: string)
    ensures Without(values + more, id) == Without(values, id) + Without(more, id)
  {
    hide *;
    WithoutSteps(values, id);
    if values == [] {
      assert values + more == more;
    } else {
      WithoutBoth(values[1..], more, id);
      WithoutSteps(values + more, id);
      assert (values + more)[1..] == values[1..] + more;
    }
  }

  lemma WithoutOne(v: string, id: string)
    ensures Without([v], id) == if v == id then [] else [v]
  {
    assert [v][1..] == [];
  }

  /** What unticking takes out: the ID wherever it stands, and nothing else. */
  lemma WithoutIs(values: seq<string>, v: string, id: string)
    ensures Without([], id) == []
    ensures Without(values + [v], id) == Without(values, id) + if v == id then [] else [v]
  {
    WithoutBoth(values, [v], id);
    WithoutOne(v, id);
  }

  /** What has not been previewed is marked as changed by edits and conflicts, and
      unmarked by a new plan. */
  lemma ChangedWritten(w: World, step: Step)
    requires Enabled(w, step)
    ensures After(w, step).changed ==
      match step
      case Select(_, _, _) => true
      case SetWorkspace(_) => true
      case Resume(_, PlanIs(_)) => false
      case Resume(t, ErrorIs(conflict)) => w.changed || (conflict && w.tasks[t].Operating?)
      case _ => w.changed
  {
    hide Chosen, Idles, Failed;
    match step
    case Resume(t, ErrorIs(conflict)) => FailureShows(w, t, conflict);
    case _ =>
  }

  /** The same IDs, in any order and number, and the same workspace setting. */
  predicate SameSelection(a: Selection, b: Selection) {
    (forall i :: 0 <= i < |a.providers| ==> a.providers[i] in b.providers)
    && (forall i :: 0 <= i < |b.providers| ==> b.providers[i] in a.providers)
    && (forall i :: 0 <= i < |a.skills| ==> a.skills[i] in b.skills)
    && (forall i :: 0 <= i < |b.skills| ==> b.skills[i] in a.skills)
    && a.workspace == b.workspace
  }

  lemma SameIds(a: seq<string>, b: seq<string>)
    ensures (set p | p in a) == (set p | p in b) <==>
      (forall i :: 0 <= i < |a| ==> a[i] in b) && (forall i :: 0 <= i < |b| ==> b[i] in a)
  {
    var left, right := set p | p in a, set p | p in b;
    if left == right {
      assert forall i :: 0 <= i < |a| ==> a[i] in left;
      assert forall i :: 0 <= i < |b| ==> b[i] in right;
    }
  }

  /** A user action always sends its request, except `apply`: it sends one exactly
      when a plan is shown and the selection is the saved one, or none is known. */
  lemma SendsExactlyWhen(w: World, t: nat, operation: Operation)
    requires Enabled(w, Act(t, operation))
    ensures var after := After(w, Act(t, operation));
            (t in after.tasks <==>
             operation == Apply ==>
               w.plan.Some? && (w.state.Some? ==> SameSelection(w.state.value.config, w.selection)))
            && (after.busy <==> t in after.tasks)
            && (t in after.tasks ==> after.tasks[t] == Operating(operation, w.selection))
  {
    if w.state.Some? {
      SameIds(w.state.value.config.providers, w.selection.providers);
      SameIds(w.state.value.config.skills, w.selection.skills);
    }
    hide Chosen;
  }

  /** Only a user action that meets a conflict goes on, reloading the state; any
      other failure ends its task. */
  lemma FailureEnds(w: World, t: nat, conflict: bool)
    requires Enabled(w, Resume(t, ErrorIs(conflict)))
    ensures After(w, Resume(t, ErrorIs(conflict))).tasks ==
      if conflict && w.tasks[t].Operating? then w.tasks[t := Recovering(w.selection)] else w.tasks - {t}
  {
    hide Failed;
    FailureShows(w, t, conflict);
  }
}
