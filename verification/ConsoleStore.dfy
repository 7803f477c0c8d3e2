/** The console store of web/console-store.ts as a system of atomic steps: an
    asynchronous function runs from one `await` to the next without
    interruption, and responses come back in any order. */
module ConsoleStore {
  import opened Text

  datatype Selection = Selection(providers: seq<string>, skills: seq<string>, workspace: Option<string>)

  datatype Kind = Providers | Skills

  function Without(values: seq<string>, id: string): seq<string> {
    if values == [] then []
    else (if values[0] == id then [] else [values[0]]) + Without(values[1..], id)
  }

  function Toggled(values: seq<string>, id: string, checked: bool): seq<string> {
    if checked then values + [id] else Without(values, id)
  }

  function Chosen(s: Selection, kind: Kind, id: string, checked: bool): Selection {
    match kind
    case Providers => s.(providers := Toggled(s.providers, id, checked))
    case Skills => s.(skills := Toggled(s.skills, id, checked))
  }

  datatype Server = Server(config: Selection, revision: string)

  datatype Memory = Memory(query: string, page: string)

  datatype Operation = Save | Preview | Apply | PreviewAgain | Search(query: string) | Custom

  /** What a workbench reload was started for. */
  datatype Purpose = Alone | Startup | Recovery(kept: Selection) | Background(query: string, prior: Option<Memory>)

  /** An asynchronous function waiting for its response. An operation remembers
      the selection the user started it with. */
  datatype Task =
    | Starting
    | Operating(operation: Operation, begun: Selection)
    | Recovering(pending: Selection)
    | Reloading(generation: nat, purpose: Purpose)

  datatype Response =
    | StateIs(server: Server)
    | WorkbenchIs(memory: Memory)
    | SavedAs(server: Server)
    | PlanIs(plan: string)
    | Synced
    | Found(memory: Memory)
    | Finished
    | ErrorIs(conflict: bool)

  /** A beginning that fences off older workbench responses. */
  datatype Fence = ByReload(task: nat) | ByAction(task: nat)

  datatype World = World(
    state: Option<Server>, selection: Selection, busy: bool, plan: Option<string>, changed: bool,
    memory: Option<Memory>, generation: nat, refreshing: bool,
    // Not in the program: the waiting tasks, whether `initialize` ran, every
    // fence so far, and the generations of the responses installed so far.
    tasks: map<nat, Task>, initialized: bool, fences: seq<Fence>, installed: seq<nat>)

  const START := World(None, Selection([], [], None), true, None, false, None, 0, false, map[], false, [], [])

  /** `dirty`: repetitions and order of the selected IDs do not count. */
  predicate Dirty(state: Option<Server>, selection: Selection) {
    state.Some?
    && var saved := state.value.config;
       !((set p | p in saved.providers) == (set p | p in selection.providers)
         && (set p | p in saved.skills) == (set p | p in selection.skills)
         && saved.workspace == selection.workspace)
  }

  /** With no plan, or unsaved edits, `apply` has nothing to apply and returns at once. */
  predicate Idles(operation: Operation, state: Option<Server>, selection: Selection, plan: Option<string>) {
    operation == Apply && (plan.None? || Dirty(state, selection))
  }

  datatype Step =
    | Initialize(task: nat)
    | Poll(task: nat)
    | Reload(task: nat)
    | Act(task: nat, operation: Operation)
    | Select(kind: Kind, id: string, checked: bool)
    | SetWorkspace(workspace: string)
    | Resume(task: nat, response: Response)

  /** Whether a task can be waiting for this response. */
  predicate Answers(task: Task, response: Response) {
    response.ErrorIs?
    || match task
       case Starting => response.StateIs?
       case Recovering(_) => response.StateIs?
       case Reloading(_, _) => response.WorkbenchIs?
       case Operating(Save, _) => response.SavedAs?
       case Operating(Preview, _) => response.PlanIs?
       case Operating(Apply, _) => response.Synced?
       case Operating(PreviewAgain, _) => response.PlanIs?
       case Operating(Search(_), _) => response.Found?
       case Operating(Custom, _) => response.Finished?
  }

  predicate Enabled(w: World, step: Step) {
    match step
    case Initialize(t) => t !in w.tasks && !w.initialized
    case Poll(t) => t !in w.tasks && !w.busy && !w.refreshing
    case Reload(t) => t !in w.tasks
    case Act(t, operation) =>
      t !in w.tasks && !w.busy && operation != PreviewAgain
    case Select(_, _, _) => !w.busy
    case SetWorkspace(_) => !w.busy
    case Resume(t, response) => t in w.tasks && Answers(w.tasks[t], response)
  }

  /** The start of `reloadWorkbench`. */
  function Requested(w: World, t: nat, purpose: Purpose): World {
    w.(generation := w.generation + 1,
       tasks := w.tasks[t := Reloading(w.generation + 1, purpose)],
       fences := w.fences + [ByReload(t)])
  }

  function Ended(w: World, t: nat): World {
    w.(busy := false, tasks := w.tasks - {t})
  }

  /** The rest of `reloadWorkbench`, if no newer reload or action has begun. */
  function Installed(w: World, generation: nat, memory: Memory): World {
    if generation != w.generation then w
    else w.(memory := Some(memory), installed := w.installed + [generation])
  }

  function Reloaded(w: World, t: nat, purpose: Purpose): World {
    match purpose
    case Alone => w.(tasks := w.tasks - {t})
    case Background(query, prior) =>
      var after := w.(refreshing := false, tasks := w.tasks - {t});
      if query != "" && w.memory.Some? && w.memory.value.query == "" then after.(memory := prior) else after
    case _ => Ended(w, t)
  }

  function Failed(w: World, t: nat, conflict: bool): World
    requires t in w.tasks
  {
    match w.tasks[t]
    case Operating(_, _) =>
      if conflict then w.(plan := None, changed := true, tasks := w.tasks[t := Recovering(w.selection)])
      else Ended(w, t)
    case Reloading(_, Alone) => w.(tasks := w.tasks - {t})
    case Reloading(_, Background(_, _)) => w.(refreshing := false, tasks := w.tasks - {t})
    case _ => Ended(w, t)
  }

  /** A task goes on with its response, up to its next wait or its end. */
  function Resumed(w: World, t: nat, response: Response): World
    requires t in w.tasks && Answers(w.tasks[t], response) && !response.ErrorIs?
  {
    match w.tasks[t]
    case Starting =>
      Requested(w.(state := Some(response.server), selection := response.server.config), t, Startup)
    case Recovering(pending) =>
      var merged := response.server.config.(providers := pending.providers, skills := pending.skills);
      Requested(w.(state := Some(response.server), selection := merged), t, Recovery(pending))
    case Reloading(generation, purpose) => Reloaded(Installed(w, generation, response.memory), t, purpose)
    case Operating(Save, _) =>
      Ended(if w.state.Some?
            then w.(state := Some(response.server), selection := response.server.config, plan := None) else w, t)
    case Operating(Preview, _) => Ended(w.(plan := Some(response.plan), changed := false), t)
    case Operating(Apply, begun) => w.(plan := None, tasks := w.tasks[t := Operating(PreviewAgain, begun)])
    case Operating(PreviewAgain, _) => Ended(w.(plan := Some(response.plan), changed := false), t)
    case Operating(Search(_), _) => Ended(w.(memory := Some(response.memory)), t)
    case Operating(Custom, _) => Ended(w, t)
  }

  function After(w: World, step: Step): World
    requires Enabled(w, step)
  {
    match step
    case Initialize(t) => w.(tasks := w.tasks[t := Starting], initialized := true)
    case Poll(t) =>
      Requested(w.(refreshing := true), t,
                Background(if w.memory.Some? then w.memory.value.query else "", w.memory))
    case Reload(t) => Requested(w, t, Alone)
    case Act(t, operation) =>
      var fenced := w.(generation := w.generation + 1, fences := w.fences + [ByAction(t)]);
      if Idles(operation, w.state, w.selection, w.plan) then fenced
      else fenced.(busy := true, tasks := w.tasks[t := Operating(operation, w.selection)])
    case Select(kind, id, checked) =>
      w.(selection := Chosen(w.selection, kind, id, checked), plan := None, changed := true)
    case SetWorkspace(workspace) =>
      w.(selection := w.selection.(workspace := Some(workspace)), plan := None, changed := true)
    case Resume(t, ErrorIs(conflict)) => Failed(w, t, conflict)
    case Resume(t, response) => Resumed(w, t, response)
  }

  function Run(steps: seq<Step>): Option<World> {
    if steps == [] then Some(START)
    else
      match Run(steps[..|steps| - 1])
      case None => None
      case Some(before) =>
        if Enabled(before, steps[|steps| - 1]) then Some(After(before, steps[|steps| - 1])) else None
  }

  // ------------------------------------------------------------------- invariants

  /** The task keeps the store busy: a user action, its recovery, or the start. */
  predicate Holds(task: Task) {
    !task.Reloading? || task.purpose.Startup? || task.purpose.Recovery?
  }

  predicate IsPoll(task: Task) {
    task.Reloading? && task.purpose.Background?
  }

  type Tasks = map<nat, Task>

  predicate SomeHolder(tasks: Tasks) {
    exists t :: t in tasks && Holds(tasks[t])
  }

  predicate SomePoll(tasks: Tasks) {
    exists t :: t in tasks && IsPoll(tasks[t])
  }

  predicate OneHolder(tasks: Tasks) {
    forall a, b :: a in tasks && b in tasks && Holds(tasks[a]) && Holds(tasks[b]) ==> a == b
  }

  predicate OnePoll(tasks: Tasks) {
    forall a, b :: a in tasks && b in tasks && IsPoll(tasks[a]) && IsPoll(tasks[b]) ==> a == b
  }

  /** The store is busy exactly before the start and while the start or a user
      action is in flight; of these, and of the background polls, there is
      never more than one. */
  predicate OneAtATime(w: World) {
    OneHolder(w.tasks) && OnePoll(w.tasks) && (w.refreshing <==> SomePoll(w.tasks))
    && (w.initialized ==> (w.busy <==> SomeHolder(w.tasks)))
    && (!w.initialized ==> w.busy && !SomeHolder(w.tasks))
  }

  lemma TaskGone(tasks: Tasks, t: nat)
    requires t in tasks && OneHolder(tasks) && OnePoll(tasks)
    ensures OneHolder(tasks - {t}) && OnePoll(tasks - {t})
    ensures SomeHolder(tasks - {t}) <==> SomeHolder(tasks) && !Holds(tasks[t])
    ensures SomePoll(tasks - {t}) <==> SomePoll(tasks) && !IsPoll(tasks[t])
  {
    hide Holds, IsPoll;
    var less := tasks - {t};
    assert forall a :: a in less ==> a in tasks && less[a] == tasks[a];
    if SomeHolder(tasks) && !Holds(tasks[t]) {
      var a :| a in tasks && Holds(tasks[a]);
      assert a in less;
    }
    if SomePoll(tasks) && !IsPoll(tasks[t]) {
      var a :| a in tasks && IsPoll(tasks[a]);
      assert a in less;
    }
  }

  /** A task comes in, or goes on as another. */
  lemma TaskSet(tasks: Tasks, t: nat, task: Task)
    requires OneHolder(tasks) && OnePoll(tasks)
    requires Holds(task) ==> !SomeHolder(tasks) || (t in tasks && Holds(tasks[t]))
    requires IsPoll(task) ==> !SomePoll(tasks) || (t in tasks && IsPoll(tasks[t]))
    requires t in tasks && Holds(tasks[t]) ==> Holds(task)
    requires t in tasks && IsPoll(tasks[t]) ==> IsPoll(task)
    ensures OneHolder(tasks[t := task]) && OnePoll(tasks[t := task])
    ensures SomeHolder(tasks[t := task]) <==> SomeHolder(tasks) || Holds(task)
    ensures SomePoll(tasks[t := task]) <==> SomePoll(tasks) || IsPoll(task)
  {
    hide Holds, IsPoll;
    var more := tasks[t := task];
    assert more[t] == task;
    assert forall a :: a in tasks && a != t ==> a in more && more[a] == tasks[a];
    if SomeHolder(tasks) {
      var a :| a in tasks && Holds(tasks[a]);
      assert a in more && Holds(more[a]);
    }
    if SomePoll(tasks) {
      var a :| a in tasks && IsPoll(tasks[a]);
      assert a in more && IsPoll(more[a]);
    }
  }

  lemma HolderThere(tasks: Tasks, t: nat)
    requires t in tasks
    ensures Holds(tasks[t]) ==> SomeHolder(tasks)
    ensures IsPoll(tasks[t]) ==> SomePoll(tasks)
  {}

  lemma ResumeKeepsOne(w: World, t: nat, response: Response)
    requires OneAtATime(w) && Enabled(w, Resume(t, response))
    ensures OneAtATime(After(w, Resume(t, response)))
  {
    hide OneHolder, OnePoll, SomeHolder, SomePoll;
    HolderThere(w.tasks, t);
    TaskGone(w.tasks, t);
    match w.tasks[t]
    case Starting => TaskSet(w.tasks, t, Reloading(w.generation + 1, Startup));
    case Recovering(pending) => TaskSet(w.tasks, t, Reloading(w.generation + 1, Recovery(pending)));
    case Operating(operation, begun) =>
      TaskSet(w.tasks, t, Recovering(w.selection));
      TaskSet(w.tasks, t, Operating(PreviewAgain, begun));
    case _ =>
  }

  lemma StepKeepsOne(w: World, step: Step)
    requires OneAtATime(w) && Enabled(w, step)
    ensures OneAtATime(After(w, step))
  {
    hide OneHolder, OnePoll, SomeHolder, SomePoll, Chosen, Idles;
    match step
    case Initialize(t) => TaskSet(w.tasks, t, Starting);
    case Poll(t) =>
      var query := if w.memory.Some? then w.memory.value.query else "";
      TaskSet(w.tasks, t, Reloading(w.generation + 1, Background(query, w.memory)));
    case Reload(t) => TaskSet(w.tasks, t, Reloading(w.generation + 1, Alone));
    case Act(t, operation) => TaskSet(w.tasks, t, Operating(operation, w.selection));
    case Resume(t, response) => ResumeKeepsOne(w, t, response);
    case _ =>
  }

  // ----------------------------------------------------------------------- fences

  predicate TaskFenced(t: nat, task: Task, fences: seq<Fence>, installed: seq<nat>) {
    task.Reloading? ==>
      1 <= task.generation <= |fences| && fences[task.generation - 1] == ByReload(t)
      && task.generation !in installed
  }

  predicate InstalledInOrder(installed: seq<nat>, n: nat) {
    (forall i :: 0 <= i < |installed| ==> 1 <= installed[i] <= n)
    && forall i, j :: 0 <= i < j < |installed| ==> installed[i] < installed[j]
  }

  /** Every waiting reload knows its own fence, and responses were installed in
      the order of their requests. */
  predicate Fenced(w: World) {
    w.generation == |w.fences| && InstalledInOrder(w.installed, |w.fences|)
    && forall t :: t in w.tasks ==> TaskFenced(t, w.tasks[t], w.fences, w.installed)
  }

  lemma FenceMore(w: World, fence: Fence, purpose: Purpose)
    requires Fenced(w)
    ensures InstalledInOrder(w.installed, |w.fences| + 1)
    ensures forall t :: t in w.tasks ==> TaskFenced(t, w.tasks[t], w.fences + [fence], w.installed)
    ensures fence.ByReload? ==>
      TaskFenced(fence.task, Reloading(|w.fences| + 1, purpose), w.fences + [fence], w.installed)
  {}

  lemma InstallInOrder(w: World, t: nat)
    requires Fenced(w) && t in w.tasks && w.tasks[t].Reloading? && w.tasks[t].generation == w.generation
    ensures InstalledInOrder(w.installed + [w.generation], |w.fences|)
    ensures forall u :: u in w.tasks && u != t ==> TaskFenced(u, w.tasks[u], w.fences, w.installed + [w.generation])
  {
    assert TaskFenced(t, w.tasks[t], w.fences, w.installed);
    assert forall i :: 0 <= i < |w.installed| ==> w.installed[i] in w.installed;
  }

  lemma StartingIsFenced(t: nat, task: Task, fences: seq<Fence>, installed: seq<nat>)
    requires !task.Reloading?
    ensures TaskFenced(t, task, fences, installed)
  {}

  lemma FencedStays(w: World, after: World, t: nat, task: Task)
    requires Fenced(w) && t in w.tasks
    requires after.generation == w.generation && after.fences == w.fences && after.installed == w.installed
    requires after.tasks == w.tasks - {t}
          || (after.tasks == w.tasks[t := task] && TaskFenced(t, task, w.fences, w.installed))
    ensures Fenced(after)
  {
    hide TaskFenced, InstalledInOrder;
  }

  lemma FailedKeepsFenced(w: World, t: nat, conflict: bool)
    requires Fenced(w) && t in w.tasks
    ensures Fenced(Failed(w, t, conflict))
  {
    StartingIsFenced(t, Recovering(w.selection), w.fences, w.installed);
    hide Fenced, TaskFenced;
    FencedStays(w, Failed(w, t, conflict), t, Recovering(w.selection));
  }

  lemma ReloadedKeepsFenced(w: World, t: nat, memory: Memory)
    requires Fenced(w) && t in w.tasks && w.tasks[t].Reloading?
    ensures Fenced(Reloaded(Installed(w, w.tasks[t].generation, memory), t, w.tasks[t].purpose))
  {
    hide TaskFenced, InstalledInOrder;
    if w.tasks[t].generation == w.generation {
      InstallInOrder(w, t);
    }
  }

  lemma OperatedKeepsFenced(w: World, t: nat, response: Response)
    requires Fenced(w) && t in w.tasks && w.tasks[t].Operating?
    requires Answers(w.tasks[t], response) && !response.ErrorIs?
    ensures Fenced(Resumed(w, t, response))
  {}

  lemma ResumeKeepsFenced(w: World, t: nat, response: Response)
    requires Fenced(w) && Enabled(w, Resume(t, response))
    ensures Fenced(After(w, Resume(t, response)))
  {
    hide TaskFenced, InstalledInOrder, Failed, Reloaded, Installed;
    if response.ErrorIs? {
      FailedKeepsFenced(w, t, response.conflict);
    } else {
      match w.tasks[t]
      case Starting => FenceMore(w, ByReload(t), Startup);
      case Recovering(pending) => FenceMore(w, ByReload(t), Recovery(pending));
      case Operating(operation, begun) => OperatedKeepsFenced(w, t, response);
      case Reloading(_, _) => ReloadedKeepsFenced(w, t, response.memory);
    }
  }

  lemma StepKeepsFenced(w: World, step: Step)
    requires Fenced(w) && Enabled(w, step)
    ensures Fenced(After(w, step))
  {
    hide Chosen, Idles, TaskFenced, InstalledInOrder;
    match step
    case Initialize(t) => StartingIsFenced(t, Starting, w.fences, w.installed);
    case Poll(t) =>
      FenceMore(w, ByReload(t), Background(if w.memory.Some? then w.memory.value.query else "", w.memory));
    case Reload(t) => FenceMore(w, ByReload(t), Alone);
    case Act(t, operation) =>
      FenceMore(w, ByAction(t), Alone);
      StartingIsFenced(t, Operating(operation, w.selection), w.fences + [ByAction(t)], w.installed);
    case Resume(t, response) => ResumeKeepsFenced(w, t, response);
    case _ =>
  }

  // ---------------------------------------------------------------- kept selections

  predicate TaskKept(task: Task, state: Option<Server>, selection: Selection) {
    match task
    case Operating(_, begun) => selection == begun
    case Recovering(pending) => selection == pending
    case Reloading(_, Recovery(kept)) =>
      state.Some? && selection == state.value.config.(providers := kept.providers, skills := kept.skills)
    case _ => true
  }

  /** What the user had selected when an operation began stays until it ends;
      after a conflict and a reload, its providers and skills do. */
  predicate Kept(w: World) {
    forall t :: t in w.tasks ==> TaskKept(w.tasks[t], w.state, w.selection)
  }

  /** Only the task that keeps the store busy has anything to keep. */
  lemma OthersKeepNothing(w: World)
    requires OneAtATime(w)
    ensures w.initialized && !w.busy ==> forall t, state, selection ::
      t in w.tasks ==> TaskKept(w.tasks[t], state, selection)
    ensures forall t, u, state, selection :: t in w.tasks && u in w.tasks && t != u && Holds(w.tasks[t]) ==>
      TaskKept(w.tasks[u], state, selection)
  {}

  lemma RecoveryIsKept(state: Option<Server>, selection: Selection)
    ensures TaskKept(Recovering(selection), state, selection)
  {}

  lemma FailedKeepsKept(w: World, t: nat, conflict: bool)
    requires Kept(w) && t in w.tasks
    ensures Kept(Failed(w, t, conflict))
  {
    hide TaskKept;
    RecoveryIsKept(w.state, w.selection);
  }

  lemma ReloadedKeepsKept(w: World, t: nat, memory: Memory)
    requires Kept(w) && t in w.tasks && w.tasks[t].Reloading?
    ensures Kept(Reloaded(Installed(w, w.tasks[t].generation, memory), t, w.tasks[t].purpose))
  {
    hide TaskKept;
  }

  lemma StateKeepsKept(w: World, t: nat, response: Response)
    requires OneAtATime(w) && t in w.tasks && (w.tasks[t].Starting? || w.tasks[t].Recovering?)
    requires Answers(w.tasks[t], response) && !response.ErrorIs?
    ensures Kept(Resumed(w, t, response))
  {
    OthersKeepNothing(w);
    hide OneHolder, OnePoll, SomeHolder, SomePoll;
  }

  lemma OperatedKeepsKept(w: World, t: nat, response: Response)
    requires OneAtATime(w) && Kept(w) && t in w.tasks && w.tasks[t].Operating?
    requires Answers(w.tasks[t], response) && !response.ErrorIs?
    ensures Kept(Resumed(w, t, response))
  {}

  lemma ResumeKeepsKept(w: World, t: nat, response: Response)
    requires OneAtATime(w) && Kept(w) && Enabled(w, Resume(t, response))
    ensures Kept(After(w, Resume(t, response)))
  {
    hide OneAtATime, Kept, Failed, Reloaded, Installed;
    if response.ErrorIs? {
      FailedKeepsKept(w, t, response.conflict);
    } else {
      match w.tasks[t]
      case Operating(_, _) => OperatedKeepsKept(w, t, response);
      case Reloading(_, _) => ReloadedKeepsKept(w, t, response.memory);
      case _ => StateKeepsKept(w, t, response);
    }
  }

  lemma StepKeepsKept(w: World, step: Step)
    requires OneAtATime(w) && Kept(w) && Enabled(w, step)
    ensures Kept(After(w, step))
  {
    OthersKeepNothing(w);
    hide Chosen, Idles, OneHolder, OnePoll, SomeHolder, SomePoll;
    match step
    case Resume(t, response) => ResumeKeepsKept(w, t, response);
    case _ =>
  }

  // ------------------------------------------------------------------- every run

  lemma StartIsFine()
    ensures OneAtATime(START) && Fenced(START) && Kept(START)
  {}

  /** In every ordering of the responses: one user action at a time, fences and
      installed responses in order, selections kept. */
  lemma {:induction false} EveryRun(steps: seq<Step>)
    requires Run(steps).Some?
    ensures OneAtATime(Run(steps).value) && Fenced(Run(steps).value) && Kept(Run(steps).value)
  {
    hide OneAtATime, Fenced, Kept, Enabled, After;
    if steps == [] {
      StartIsFine();
    } else {
      var n := |steps| - 1;
      EveryRun(steps[..n]);
      var w := Run(steps[..n]).value;
      StepKeepsOne(w, steps[n]);
      StepKeepsFenced(w, steps[n]);
      StepKeepsKept(w, steps[n]);
    }
  }

  lemma InstallsIffCurrent(w: World, t: nat, memory: Memory)
    requires t in w.tasks && w.tasks[t].Reloading?
    ensures Enabled(w, Resume(t, WorkbenchIs(memory)))
    ensures After(w, Resume(t, WorkbenchIs(memory))).installed
         == if w.tasks[t].generation == w.generation then w.installed + [w.generation] else w.installed
  {}

  lemma FencedMeans(w: World, t: nat)
    requires Fenced(w) && t in w.tasks && w.tasks[t].Reloading?
    ensures 1 <= w.tasks[t].generation <= |w.fences| == w.generation
    ensures w.fences[w.tasks[t].generation - 1] == ByReload(t)
  {
    hide InstalledInOrder;
    assert TaskFenced(t, w.tasks[t], w.fences, w.installed);
  }

  /** A workbench response is installed exactly when no reload and no user
      action has begun since it was requested: the newest fence is its own. */
  lemma InstalledIffNewest(steps: seq<Step>, t: nat, memory: Memory)
    requires Run(steps).Some? && t in Run(steps).value.tasks && Run(steps).value.tasks[t].Reloading?
    ensures var w := Run(steps).value;
            var g := w.tasks[t].generation;
            1 <= g <= |w.fences| && w.fences[g - 1] == ByReload(t)
            && (After(w, Resume(t, WorkbenchIs(memory))).installed
                == if g == |w.fences| then w.installed + [g] else w.installed)
  {
    hide *;
    EveryRun(steps);
    var w := Run(steps).value;
    InstallsIffCurrent(w, t, memory);
    FencedMeans(w, t);
  }

  /** Installed responses follow the order of their requests. */
  lemma InstalledFollowRequests(steps: seq<Step>, i: nat, j: nat)
    requires Run(steps).Some? && i < j < |Run(steps).value.installed|
    ensures Run(steps).value.installed[i] < Run(steps).value.installed[j] <= |Run(steps).value.fences|
  {
    EveryRun(steps);
    hide OneAtATime, Kept, Run;
  }

  /** At most one user action is in flight, and none while the store starts. */
  lemma OneActionInFlight(steps: seq<Step>, a: nat, b: nat)
    requires Run(steps).Some?
    requires a in Run(steps).value.tasks && b in Run(steps).value.tasks
    requires Holds(Run(steps).value.tasks[a]) && Holds(Run(steps).value.tasks[b])
    ensures a == b && Run(steps).value.busy
  {
    EveryRun(steps);
    hide Fenced, Kept, Run, Holds;
  }

  /** A conflict keeps what the user had selected when the action began, up to
      the reload; after a reload that succeeds, it keeps the providers and the
      skills, and takes everything else, workspace settings included, from the
      server. */
  lemma ConflictKeepsProvidersAndSkills(steps: seq<Step>, t: nat, server: Server)
    requires Run(steps).Some? && t in Run(steps).value.tasks
    ensures var w := Run(steps).value;
            match w.tasks[t]
            case Operating(_, begun) =>
              After(w, Resume(t, ErrorIs(true))).selection == begun
              && After(w, Resume(t, ErrorIs(true))).tasks[t] == Recovering(begun)
            case Recovering(pending) =>
              After(w, Resume(t, StateIs(server))).selection
                == server.config.(providers := pending.providers, skills := pending.skills)
              && After(w, Resume(t, ErrorIs(false))).selection == pending
            case Reloading(_, Recovery(kept)) =>
              w.state.Some?
              && w.selection == w.state.value.config.(providers := kept.providers, skills := kept.skills)
            case _ => true
  {
    EveryRun(steps);
    hide OneAtATime, Fenced, Run;
    var w := Run(steps).value;
    assert TaskKept(w.tasks[t], w.state, w.selection);
  }

  /** Of the selection, a conflict followed by a reload keeps everything exactly
      when the server's workspace setting is the user's. */
  lemma ConflictKeepsAllIff(steps: seq<Step>, t: nat, server: Server)
    requires Run(steps).Some? && t in Run(steps).value.tasks && Run(steps).value.tasks[t].Recovering?
    ensures var w := Run(steps).value;
            var after := After(w, Resume(t, StateIs(server)));
            (after.selection == w.selection <==> server.config.workspace == w.selection.workspace)
            && after.selection.providers == w.selection.providers && after.selection.skills == w.selection.skills
  {
    EveryRun(steps);
    hide OneAtATime, Fenced, Run;
    assert TaskKept(Run(steps).value.tasks[t], Run(steps).value.state, Run(steps).value.selection);
  }

  lemma RunMore(steps: seq<Step>, step: Step)
    requires Run(steps).Some? && Enabled(Run(steps).value, step)
    ensures Run(steps + [step]) == Some(After(Run(steps).value, step))
  {
    hide After, Enabled;
    assert (steps + [step])[..|steps|] == steps;
  }

  const SERVED := Server(Selection([], [], None), "r1")

  /** The server's state once somebody else has saved. */
  const MOVED := Server(Selection(["theirs"], [], None), "r2")

  const STARTED: seq<Step> := [Initialize(0), Resume(0, StateIs(SERVED)), Resume(0, WorkbenchIs(Memory("", "all")))]

  /** The store as it stands once it has started. */
  const READY := World(
    Some(SERVED), SERVED.config, false, None, false, Some(Memory("", "all")), 1, false, map[], true,
    [ByReload(0)], [1])

  lemma StartedIsReady()
    ensures Run(STARTED) == Some(READY)
  {
    var a, b, c := STARTED[0], STARTED[1], STARTED[2];
    assert STARTED == [] + [a] + [b] + [c];
    RunMore([], a);
    RunMore([] + [a], b);
    RunMore([] + [a] + [b], c);
    hide Run;
    var w := After(After(After(START, a), b), c);
    assert w.tasks == READY.tasks && w.fences == READY.fences && w.installed == READY.installed;
  }

  /** A run in which a workspace edit is lost to a conflict. */
  lemma ConflictLosesWorkspace()
    ensures var edit, save := SetWorkspace("mine"), Act(1, Save);
            var edited := STARTED + [edit];
            var lost := edited + [save] + [Resume(1, ErrorIs(true))] + [Resume(1, StateIs(MOVED))];
            Run(edited).Some? && Run(edited).value.selection.workspace == Some("mine")
            && Run(lost).Some? && Run(lost).value.selection.workspace == None
  {
    StartedIsReady();
    hide Run;
    var edit, save := SetWorkspace("mine"), Act(1, Save);
    var conflict, state := Resume(1, ErrorIs(true)), Resume(1, StateIs(MOVED));
    var w1 := After(READY, edit);
    RunMore(STARTED, edit);
    var w2 := After(w1, save);
    RunMore(STARTED + [edit], save);
    var w3 := After(w2, conflict);
    RunMore(STARTED + [edit] + [save], conflict);
    RunMore(STARTED + [edit] + [save] + [conflict], state);
  }

  // ------------------------------------------------------- refreshes and searches

  predicate TaskKnows(task: Task) {
    IsPoll(task) ==>
      task.purpose.query == if task.purpose.prior.Some? then task.purpose.prior.value.query else ""
  }

  /** A background refresh remembers the search it began over. */
  predicate PollsKnow(tasks: Tasks) {
    forall t :: t in tasks ==> TaskKnows(tasks[t])
  }

  lemma OthersKnow(task: Task)
    requires !IsPoll(task)
    ensures TaskKnows(task)
  {}

  lemma PollsKnowStay(tasks: Tasks, t: nat, task: Task)
    requires PollsKnow(tasks) && !IsPoll(task)
    ensures PollsKnow(tasks - {t}) && PollsKnow(tasks[t := task])
  {
    hide TaskKnows;
    assert TaskKnows(task) by { OthersKnow(task); }
  }

  lemma FailedTasks(w: World, t: nat, conflict: bool)
    requires t in w.tasks
    ensures Failed(w, t, conflict).tasks in {w.tasks - {t}, w.tasks[t := Recovering(w.selection)]}
  {}

  lemma ReloadedTasks(w: World, t: nat, memory: Memory)
    requires t in w.tasks && w.tasks[t].Reloading?
    ensures Reloaded(Installed(w, w.tasks[t].generation, memory), t, w.tasks[t].purpose).tasks == w.tasks - {t}
  {}

  lemma OperatedTasks(w: World, t: nat, response: Response)
    requires t in w.tasks && w.tasks[t].Operating? && Answers(w.tasks[t], response) && !response.ErrorIs?
    ensures Resumed(w, t, response).tasks in
      {w.tasks - {t}, w.tasks[t := Operating(PreviewAgain, w.tasks[t].begun)]}
  {}

  lemma ResumeKeepsPollsKnow(w: World, t: nat, response: Response)
    requires PollsKnow(w.tasks) && Enabled(w, Resume(t, response))
    ensures PollsKnow(After(w, Resume(t, response)).tasks)
  {
    hide PollsKnow, Failed, Reloaded, Installed;
    if response.ErrorIs? {
      FailedTasks(w, t, response.conflict);
      PollsKnowStay(w.tasks, t, Recovering(w.selection));
    } else {
      match w.tasks[t]
      case Starting => PollsKnowStay(w.tasks, t, Reloading(w.generation + 1, Startup));
      case Recovering(pending) => PollsKnowStay(w.tasks, t, Reloading(w.generation + 1, Recovery(pending)));
      case Reloading(_, _) =>
        ReloadedTasks(w, t, response.memory);
        PollsKnowStay(w.tasks, t, Starting);
      case Operating(_, begun) =>
        OperatedTasks(w, t, response);
        PollsKnowStay(w.tasks, t, Operating(PreviewAgain, begun));
    }
  }

  lemma StepKeepsPollsKnow(w: World, step: Step)
    requires PollsKnow(w.tasks) && Enabled(w, step)
    ensures PollsKnow(After(w, step).tasks)
  {
    hide Chosen, Idles;
    match step
    case Resume(t, response) => ResumeKeepsPollsKnow(w, t, response);
    case _ =>
  }

  lemma {:induction false} EveryPollKnows(steps: seq<Step>)
    requires Run(steps).Some?
    ensures PollsKnow(Run(steps).value.tasks)
  {
    hide After, Enabled;
    if steps != [] {
      var n := |steps| - 1;
      EveryPollKnows(steps[..n]);
      hide PollsKnow;
      StepKeepsPollsKnow(Run(steps[..n]).value, steps[n]);
    }
  }

  /** Exactly when a refresh that was fenced off leaves the shown memory alone:
      unless it began over a search and now finds none. */
  lemma FencedRefreshKeepsMemory(steps: seq<Step>, t: nat, memory: Memory)
    requires Run(steps).Some? && t in Run(steps).value.tasks && IsPoll(Run(steps).value.tasks[t])
    requires Run(steps).value.generation != Run(steps).value.tasks[t].generation
    ensures var w := Run(steps).value;
            After(w, Resume(t, WorkbenchIs(memory))).memory == w.memory <==>
            !(w.tasks[t].purpose.query != "" && w.memory.Some? && w.memory.value.query == "")
  {
    EveryPollKnows(steps);
    hide Run;
    assert TaskKnows(Run(steps).value.tasks[t]);
  }

  const SEARCHED := Memory("query", "found")
  const CLEARED := Memory("", "all again")
  const SHOWN := READY.(memory := Some(SEARCHED), generation := 2, fences := [ByReload(0), ByAction(1)])

  const BEHIND := SHOWN.(
    memory := Some(CLEARED), generation := 4, refreshing := true,
    tasks := map[2 := Reloading(3, Background("query", Some(SEARCHED)))],
    fences := [ByReload(0), ByAction(1), ByReload(2), ByAction(3)])

  lemma Searching()
    ensures Enabled(READY, Act(1, Search("query")))
    ensures var w := After(READY, Act(1, Search("query")));
            Enabled(w, Resume(1, Found(SEARCHED))) && After(w, Resume(1, Found(SEARCHED))) == SHOWN
  {
    var w := After(After(READY, Act(1, Search("query"))), Resume(1, Found(SEARCHED)));
    assert w.tasks == SHOWN.tasks && w.fences == SHOWN.fences;
  }

  lemma Clearing()
    ensures Enabled(SHOWN, Poll(2)) && Enabled(After(SHOWN, Poll(2)), Act(3, Search("")))
    ensures var w := After(After(SHOWN, Poll(2)), Act(3, Search("")));
            Enabled(w, Resume(3, Found(CLEARED))) && After(w, Resume(3, Found(CLEARED))) == BEHIND
  {
    var w := After(After(After(SHOWN, Poll(2)), Act(3, Search(""))), Resume(3, Found(CLEARED)));
    assert w.tasks == BEHIND.tasks && w.fences == BEHIND.fences;
  }

  lemma Refreshing()
    ensures Enabled(BEHIND, Resume(2, WorkbenchIs(Memory("", "stale"))))
    ensures var w := After(BEHIND, Resume(2, WorkbenchIs(Memory("", "stale"))));
            w.memory == Some(SEARCHED) && w.installed == BEHIND.installed
  {}

  /** A run in which a background refresh, though fenced off, brings back a search
      that the user has cleared in the meantime. */
  lemma RefreshUndoesClearedSearch()
    ensures var cleared := STARTED + [Act(1, Search("query"))] + [Resume(1, Found(SEARCHED))] + [Poll(2)]
                           + [Act(3, Search(""))] + [Resume(3, Found(CLEARED))];
            var late := cleared + [Resume(2, WorkbenchIs(Memory("", "stale")))];
            Run(cleared).Some? && Run(cleared).value.memory == Some(CLEARED)
            && Run(late).Some? && Run(late).value.memory == Some(SEARCHED)
            && Run(late).value.installed == Run(cleared).value.installed
  {
    hide Run;
    var s1, s2, s3, s4, s5 := Act(1, Search("query")), Resume(1, Found(SEARCHED)), Poll(2), Act(3, Search("")),
                              Resume(3, Found(CLEARED));
    var late := Resume(2, WorkbenchIs(Memory("", "stale")));
    StartedIsReady();
    Searching();
    RunMore(STARTED, s1);
    RunMore(STARTED + [s1], s2);
    Clearing();
    RunMore(STARTED + [s1] + [s2], s3);
    RunMore(STARTED + [s1] + [s2] + [s3], s4);
    RunMore(STARTED + [s1] + [s2] + [s3] + [s4], s5);
    Refreshing();
    RunMore(STARTED + [s1] + [s2] + [s3] + [s4] + [s5], late);
    hide After, Enabled;
  }

  // ------------------------------------------------------------------ the program

  lemma OperationResumes(w: World, t: nat, operation: Operation, begun: Selection, response: Response)
    requires t in w.tasks && w.tasks[t] == Operating(operation, begun)
    requires Answers(w.tasks[t], response) && !response.ErrorIs?
    ensures Enabled(w, Resume(t, response))
    ensures After(w, Resume(t, response)) ==
      match operation
      case Save =>
        if w.state.None? then w.(busy := false, tasks := w.tasks - {t})
        else w.(state := Some(response.server), selection := response.server.config, plan := None,
                busy := false, tasks := w.tasks - {t})
      case Apply => w.(plan := None, tasks := w.tasks[t := Operating(PreviewAgain, begun)])
      case Search(_) => w.(memory := Some(response.memory), busy := false, tasks := w.tasks - {t})
      case Custom => w.(busy := false, tasks := w.tasks - {t})
      case _ => w.(plan := Some(response.plan), changed := false, busy := false, tasks := w.tasks - {t})
  {}

  /** The closure variables of `createConsoleStore`. A method runs from one
      `await` to the next; what a suspended function holds is passed back in. */
  class Store {
    var state: Option<Server>
    var selection: Selection
    var busy: bool
    var plan: Option<string>
    var changed: bool
    var memory: Option<Memory>
    var workbenchGeneration: nat
    var refreshing: bool
    ghost var tasks: Tasks
    ghost var initialized: bool
    ghost var fences: seq<Fence>
    ghost var installed: seq<nat>

    ghost function Abstract(): World
      reads this
    {
      World(state, selection, busy, plan, changed, memory, workbenchGeneration, refreshing,
            tasks, initialized, fences, installed)
    }

    constructor ()
      ensures Abstract() == START
    {
      state, selection, busy := None, Selection([], [], None), true;
      plan, changed, memory := None, false, None;
      workbenchGeneration, refreshing := 0, false;
      tasks, initialized, fences, installed := map[], false, [], [];
    }

    /** `reloadWorkbench` up to its request. */
    method RequestWorkbench(t: nat, purpose: Purpose) returns (generation: nat)
      modifies this
      ensures Abstract() == Requested(old(Abstract()), t, purpose)
      ensures generation == workbenchGeneration
    {
      workbenchGeneration := workbenchGeneration + 1;
      generation := workbenchGeneration;
      tasks := tasks[t := Reloading(generation, purpose)];
      fences := fences + [ByReload(t)];
    }

    /** `reloadWorkbench` from its response on, and what its caller does next. */
    method ReceiveWorkbench(t: nat, generation: nat, purpose: Purpose, response: Memory)
      requires t in tasks && tasks[t] == Reloading(generation, purpose)
      modifies this
      ensures Abstract() == After(old(Abstract()), Resume(t, WorkbenchIs(response)))
    {
      hide Requested, Failed, Chosen, Idles;
      if generation == workbenchGeneration {
        memory := Some(response);
        installed := installed + [generation];
      }
      match purpose {
        case Alone =>
        case Background(query, prior) =>
          if query != "" && memory.Some? && memory.value.query == "" {
            memory := prior;
          }
          refreshing := false;
        case _ =>
          busy := false;
      }
      tasks := tasks - {t};
    }

    /** `reloadState` from its response on. */
    method ReceiveState(t: nat, server: Server, preserve: Option<Selection>) returns (generation: nat)
      requires t in tasks
      requires match preserve case None => tasks[t] == Starting case Some(pending) => tasks[t] == Recovering(pending)
      modifies this
      ensures Abstract() == After(old(Abstract()), Resume(t, StateIs(server)))
      ensures generation == workbenchGeneration
    {
      state := Some(server);
      selection := match preserve
        case None => server.config
        case Some(pending) => server.config.(providers := pending.providers, skills := pending.skills);
      generation := RequestWorkbench(t, if preserve.None? then Startup else Recovery(preserve.value));
    }

    method Initialize(t: nat)
      requires t !in tasks && !initialized
      modifies this
      ensures Abstract() == After(old(Abstract()), Step.Initialize(t))
    {
      tasks := tasks[t := Starting];
      initialized := true;
    }

    /** `action` up to the operation's request. */
    method Begin(t: nat, operation: Operation) returns (begun: bool)
      requires t !in tasks && !operation.PreviewAgain?
      modifies this
      ensures begun == !old(busy) == Enabled(old(Abstract()), Act(t, operation))
      ensures Abstract() == if begun then After(old(Abstract()), Act(t, operation)) else old(Abstract())
    {
      begun := !busy;
      if begun {
        workbenchGeneration := workbenchGeneration + 1;
        fences := fences + [ByAction(t)];
        if operation == Apply && (plan.None? || Dirty(state, selection)) {
          return;
        }
        busy := true;
        tasks := tasks[t := Operating(operation, selection)];
      }
    }

    /** The operations from a response on. */
    method Complete(t: nat, operation: Operation, response: Response)
      requires t in tasks && tasks[t].Operating? && tasks[t].operation == operation
      requires Answers(tasks[t], response) && !response.ErrorIs?
      modifies this
      ensures Abstract() == After(old(Abstract()), Resume(t, response))
    {
      OperationResumes(Abstract(), t, operation, tasks[t].begun, response);
      hide After, Enabled, Resumed, Ended;
      match operation {
        case Save =>
          if state.Some? {
            state, selection, plan := Some(response.server), response.server.config, None;
          }
        case Apply =>
          plan := None;
          tasks := tasks[t := Operating(PreviewAgain, tasks[t].begun)];
          return;
        case Search(_) =>
          memory := Some(response.memory);
        case Custom =>
        case _ =>
          plan, changed := Some(response.plan), false;
      }
      busy := false;
      tasks := tasks - {t};
    }

    /** The `catch` of `action`. */
    method Reject(t: nat, conflict: bool)
      requires t in tasks && tasks[t].Operating?
      modifies this
      ensures Abstract() == After(old(Abstract()), Resume(t, ErrorIs(conflict)))
    {
      if conflict {
        var pending := selection;
        plan, changed := None, true;
        tasks := tasks[t := Recovering(pending)];
      } else {
        busy := false;
        tasks := tasks - {t};
      }
    }

    /** A failed request of the start, of a recovery, or of a reload: each
        caller's `catch` and `finally`. */
    method Abandon(t: nat, task: Task)
      requires t in tasks && tasks[t] == task && !task.Operating?
      modifies this
      ensures Abstract() == After(old(Abstract()), Resume(t, ErrorIs(false)))
    {
      tasks := tasks - {t};
      if task.Reloading? && task.purpose.Background? {
        refreshing := false;
      } else if !(task.Reloading? && task.purpose.Alone?) {
        busy := false;
      }
    }

    /** `poll` up to its request. */
    method Poll(t: nat) returns (polled: bool)
      requires t !in tasks
      modifies this
      ensures polled == Enabled(old(Abstract()), Step.Poll(t)) == (!old(busy) && !old(refreshing))
      ensures Abstract() == if polled then After(old(Abstract()), Step.Poll(t)) else old(Abstract())
    {
      polled := !busy && !refreshing;
      if polled {
        var query := if memory.Some? then memory.value.query else "";
        refreshing := true;
        var _ := RequestWorkbench(t, Background(query, memory));
      }
    }

    method Select(kind: Kind, id: string, checked: bool)
      modifies this
      ensures Abstract() ==
        if old(busy) then old(Abstract()) else After(old(Abstract()), Step.Select(kind, id, checked))
    {
      if busy { return; }
      selection := Chosen(selection, kind, id, checked);
      plan, changed := None, true;
    }

    method SetWorkspace(workspace: string)
      modifies this
      ensures Abstract() == if old(busy) then old(Abstract()) else After(old(Abstract()), Step.SetWorkspace(workspace))
    {
      if busy { return; }
      selection := selection.(workspace := Some(workspace));
      plan, changed := None, true;
    }
  }
}
