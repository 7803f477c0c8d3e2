/** Processes sharing one configuration file (src/core.ts): reads take no lock,
    every write happens under the project lock, and a process may fail or die
    at any moment. The lock itself is taken to exclude. */
module ConfigStore {
  import opened Text
  import opened Json
  import opened Config
  import opened Storage
  import opened Migration

  /** `configRevision`, with SHA-256 taken to be injective. */
  datatype Revision = RevisionOf(raw: Bytes)

  /** A locked operation, with the configuration it has validated beforehand. */
  datatype Request =
    | Initialize(config: Config)
    | Save(config: Config)
    | SaveIf(config: Config, revision: Revision)
    | MigrateTo(target: Option<int>)

  datatype Refusal = Uninitialized | RevisionConflict(current: Revision) | Contract(error: Error) | NothingToDo

  /** What a locked operation does to the content it finds, run on its own. */
  function Effect(request: Request, raw: Option<Bytes>, rules: Rules): Result<Bytes, Refusal> {
    match (request, raw)
    case (Initialize(config), None) => Ok(Saved(config))
    case (Initialize(_), Some(_)) => Err(NothingToDo)
    case (Save(config), _) => Ok(Saved(config))
    case (SaveIf(_, _), None) => Err(Uninitialized)
    case (SaveIf(config, revision), Some(bytes)) =>
      if revision == RevisionOf(bytes) then Ok(Saved(config)) else Err(RevisionConflict(RevisionOf(bytes)))
    case (MigrateTo(_), None) => Err(Uninitialized)
    case (MigrateTo(target), Some(bytes)) =>
      match Read(bytes, rules)
      case Err(error) => Err(Contract(error))
      case Ok(config) =>
        match Planned(bytes, config, target)
        case Err(error) => Err(Contract(error))
        case Ok(UpToDate(_)) => Err(NothingToDo)
        case Ok(Ready(_, migrated)) => Ok(Saved(migrated))
  }

  /** Where a process stands; `looked` is what it read under the lock. */
  datatype Phase =
    | Idle
    | Waiting(request: Request)
    | Holding(request: Request, looked: Option<Option<Bytes>>)
    | Written

  /** A replacement of the file that happened: by whom, for what, of what. */
  datatype Replacement = Replacement(client: nat, request: Request, over: Option<Bytes>, next: Bytes)

  /** An answer that wrote nothing. */
  datatype Rejection = Rejection(client: nat, request: Request, over: Option<Bytes>, refusal: Refusal)

  datatype World = World(
    config: Option<Bytes>, lock: Option<nat>, clients: map<nat, Phase>,
    replaced: seq<Replacement>, rejected: seq<Rejection>)

  function PhaseOf(w: World, client: nat): Phase {
    if client in w.clients then w.clients[client] else Idle
  }

  datatype Step =
    | Ask(client: nat, request: Request)
    | Lock(client: nat)
    | Look(client: nat)
    | Write(client: nat)
    | Reject(client: nat)
    | Leave(client: nat)

  /** Whether a step can happen. */
  predicate Enabled(w: World, step: Step, rules: Rules) {
    match (step, PhaseOf(w, step.client))
    case (Ask(_, _), Idle) => true
    case (Lock(_), Waiting(_)) => w.lock.None?
    case (Look(_), Holding(_, None)) => true
    case (Write(_), Holding(request, looked)) =>
      // An unconditional save writes without looking.
      if request.Save? then true else looked.Some? && Effect(request, looked.value, rules).Ok?
    case (Reject(_), Holding(request, Some(raw))) => Effect(request, raw, rules).Err?
    // Giving up, failing, dying, or being done: the lock is free again.
    case (Leave(_), phase) => !phase.Idle?
    case _ => false
  }

  function After(w: World, step: Step, rules: Rules): World
    requires Enabled(w, step, rules)
  {
    var c := step.client;
    match step
    case Ask(_, request) => w.(clients := w.clients[c := Waiting(request)])
    case Lock(_) => w.(lock := Some(c), clients := w.clients[c := Holding(PhaseOf(w, c).request, None)])
    case Look(_) => w.(clients := w.clients[c := Holding(PhaseOf(w, c).request, Some(w.config))])
    case Write(_) =>
      var phase := PhaseOf(w, c);
      var next := Effect(phase.request, if phase.request.Save? then None else phase.looked.value, rules).value;
      w.(config := Some(next), clients := w.clients[c := Written],
         replaced := w.replaced + [Replacement(c, phase.request, w.config, next)])
    case Reject(_) =>
      var phase := PhaseOf(w, c);
      w.(clients := w.clients[c := Written],
         rejected := w.rejected + [Rejection(c, phase.request, w.config,
                                             Effect(phase.request, phase.looked.value, rules).error)])
    case Leave(_) =>
      w.(clients := w.clients[c := Idle], lock := if w.lock == Some(c) then None else w.lock)
  }

  function Start(config: Option<Bytes>): World { World(config, None, map[], [], []) }

  /** The world after some steps, if each of them could happen. */
  function Run(w: World, steps: seq<Step>, rules: Rules): Option<World> {
    if steps == [] then Some(w)
    else
      match Run(w, steps[..|steps| - 1], rules)
      case None => None
      case Some(before) =>
        var step := steps[|steps| - 1];
        if Enabled(before, step, rules) then Some(After(before, step, rules)) else None
  }

  // ----------------------------------------------------------------- invariants

  /** Only the lock holder has looked, and what it saw is still there. */
  predicate LookedIsCurrent(w: World) {
    forall c :: c in w.clients && w.clients[c].Holding? ==>
      w.lock == Some(c) && (w.clients[c].looked.Some? ==> w.clients[c].looked.value == w.config)
  }

  /** Content after the first `n` replacements. */
  function ContentAt(start: Option<Bytes>, replaced: seq<Replacement>, n: nat): Option<Bytes>
    requires n <= |replaced|
  {
    if n == 0 then start else Some(replaced[n - 1].next)
  }

  /** The replacements are a sequential history: each one is what its request
      does, run on its own, to exactly the content left by the one before. */
  predicate Sequential(start: Option<Bytes>, replaced: seq<Replacement>, rules: Rules) {
    forall i :: 0 <= i < |replaced| ==>
      replaced[i].over == ContentAt(start, replaced, i)
      && Effect(replaced[i].request, replaced[i].over, rules) == Ok(replaced[i].next)
  }

  /** Every rejection is what its request deserves on some content there was. */
  predicate Deserved(start: Option<Bytes>, w: World, rules: Rules) {
    forall i :: 0 <= i < |w.rejected| ==>
      Effect(w.rejected[i].request, w.rejected[i].over, rules) == Err(w.rejected[i].refusal)
      && exists n :: 0 <= n <= |w.replaced| && w.rejected[i].over == ContentAt(start, w.replaced, n)
  }

  predicate Sound(start: Option<Bytes>, w: World, rules: Rules) {
    LookedIsCurrent(w) && Sequential(start, w.replaced, rules) && Deserved(start, w, rules)
    && w.config == ContentAt(start, w.replaced, |w.replaced|)
  }

  lemma ContentStays(start: Option<Bytes>, replaced: seq<Replacement>, more: Replacement, n: nat)
    requires n <= |replaced|
    ensures ContentAt(start, replaced + [more], n) == ContentAt(start, replaced, n)
  {}

  lemma StepKeepsLooks(w: World, step: Step, rules: Rules)
    requires LookedIsCurrent(w) && Enabled(w, step, rules)
    ensures LookedIsCurrent(After(w, step, rules))
  {
    hide Effect;
  }

  /** A write does to the file what its request does to the current content. */
  lemma WriteIsEffect(w: World, step: Step, rules: Rules)
    requires LookedIsCurrent(w) && Enabled(w, step, rules) && step.Write?
    ensures var request := PhaseOf(w, step.client).request;
            var after := After(w, step, rules);
            after.config.Some? && Effect(request, w.config, rules) == Ok(after.config.value)
            && after.replaced == w.replaced + [Replacement(step.client, request, w.config, after.config.value)]
  {
    hide Read, Planned, Saved;
  }

  lemma SequentialAndMore(start: Option<Bytes>, replaced: seq<Replacement>, more: Replacement, rules: Rules)
    requires Sequential(start, replaced, rules)
    requires more.over == ContentAt(start, replaced, |replaced|)
    requires Effect(more.request, more.over, rules) == Ok(more.next)
    ensures Sequential(start, replaced + [more], rules)
  {
    hide Effect;
  }

  lemma RejectIsDeserved(start: Option<Bytes>, w: World, step: Step, rules: Rules)
    requires Sound(start, w, rules) && Enabled(w, step, rules) && step.Reject?
    ensures Deserved(start, After(w, step, rules), rules)
  {
    hide Effect, ContentAt;
    var last := After(w, step, rules).rejected[|w.rejected|];
    assert last.over == ContentAt(start, w.replaced, |w.replaced|);
  }

  lemma StepKeepsSound(start: Option<Bytes>, w: World, step: Step, rules: Rules)
    requires Sound(start, w, rules) && Enabled(w, step, rules)
    ensures Sound(start, After(w, step, rules), rules)
  {
    hide Effect;
    StepKeepsLooks(w, step, rules);
    if step.Write? {
      WriteIsEffect(w, step, rules);
      var after := After(w, step, rules);
      var more := after.replaced[|w.replaced|];
      SequentialAndMore(start, w.replaced, more, rules);
      forall n: nat | n <= |w.replaced|
        ensures ContentAt(start, after.replaced, n) == ContentAt(start, w.replaced, n)
      {
        ContentStays(start, w.replaced, more, n);
      }
      hide Sequential, ContentAt, LookedIsCurrent;
    } else if step.Reject? {
      RejectIsDeserved(start, w, step, rules);
    }
  }

  lemma StartIsSound(start: Option<Bytes>, rules: Rules)
    ensures Sound(start, Start(start), rules)
  {}

  /** Every interleaving of initialisations, saves, conditional saves and
      migrations, with failures and deaths anywhere, amounts to the sequential
      history of its replacements; every rejection fits content that was there. */
  lemma {:induction false} EveryRunIsSequential(start: Option<Bytes>, steps: seq<Step>, rules: Rules)
    requires Run(Start(start), steps, rules).Some?
    ensures Sound(start, Run(Start(start), steps, rules).value, rules)
  {
    hide Sound, Enabled, After;
    if steps == [] {
      StartIsSound(start, rules);
    } else {
      var n := |steps| - 1;
      EveryRunIsSequential(start, steps[..n], rules);
      StepKeepsSound(start, Run(Start(start), steps[..n], rules).value, steps[n], rules);
    }
  }

  /** No update is lost: in every interleaving, a conditional save that
      replaced the file replaced exactly the bytes whose revision its caller
      supplied, and they were the whole outcome of everything before it. */
  lemma SaveIfReplacesWhatWasRead(start: Option<Bytes>, steps: seq<Step>, rules: Rules, i: nat)
    requires Run(Start(start), steps, rules).Some?
    requires i < |Run(Start(start), steps, rules).value.replaced|
    requires Run(Start(start), steps, rules).value.replaced[i].request.SaveIf?
    ensures var replaced := Run(Start(start), steps, rules).value.replaced;
            replaced[i].over == Some(replaced[i].request.revision.raw)
            && ContentAt(start, replaced, i) == Some(replaced[i].request.revision.raw)
            && replaced[i].next == Saved(replaced[i].request.config)
  {
    hide Run, ContentAt, Saved, Deserved, LookedIsCurrent;
    EveryRunIsSequential(start, steps, rules);
    var replaced := Run(Start(start), steps, rules).value.replaced;
    assert Effect(replaced[i].request, replaced[i].over, rules) == Ok(replaced[i].next);
  }

  // ------------------------------------------------------------ what each request does

  /** The migration of these bytes to this version writes something. */
  predicate MigratesTo(raw: Bytes, target: Option<int>, rules: Rules) {
    Read(raw, rules).Ok? && target.Some? && Read(raw, rules).value.version < target.value <= 3
  }

  /** What a request writes over what it finds, request by request. */
  predicate Writes(request: Request, over: Option<Bytes>, next: Bytes, rules: Rules) {
    match request
    case Initialize(config) => over == None && next == Rendered(ToJson(config))
    case Save(config) => next == Rendered(ToJson(config))
    case SaveIf(config, revision) => over == Some(revision.raw) && next == Rendered(ToJson(config))
    case MigrateTo(target) =>
      over.Some? && MigratesTo(over.value, target, rules)
      && next == Rendered(ToJson(Raised(Read(over.value, rules).value, target.value)))
  }

  /** What a request is refused for, over what it finds. */
  predicate Refuses(request: Request, over: Option<Bytes>, refusal: Refusal, rules: Rules) {
    match request
    case Initialize(_) => over.Some? && refusal == NothingToDo
    case Save(_) => false
    case SaveIf(_, revision) =>
      if over.None? then refusal == Uninitialized
      else over.value != revision.raw && refusal == RevisionConflict(RevisionOf(over.value))
    case MigrateTo(target) =>
      if over.None? then refusal == Uninitialized
      else
        match Read(over.value, rules)
        case Err(error) => refusal == Contract(error)
        case Ok(config) =>
          if target == Some(config.version) then refusal == NothingToDo
          else refusal == Contract(Error("$.toVersion", MigrationUnsupported))
               && !MigratesTo(over.value, target, rules)
  }

  lemma VersionRead(raw: Bytes, rules: Rules)
    requires Read(raw, rules).Ok?
    ensures Read(raw, rules).value.version in {1, 2, 3}
  {
    hide Read;
    ReadIsConfig(raw, rules);
  }

  lemma EffectIs(request: Request, over: Option<Bytes>, rules: Rules)
    ensures forall next :: Effect(request, over, rules) == Ok(next) <==> Writes(request, over, next, rules)
    ensures forall refusal :: Effect(request, over, rules) == Err(refusal) <==> Refuses(request, over, refusal, rules)
  {
    hide Read, Migrated, Raised, ToJson, IsConfig;
    if request.MigrateTo? && over.Some? && Read(over.value, rules).Ok? {
      var config := Read(over.value, rules).value;
      VersionRead(over.value, rules);
      if request.target.Some? && config.version <= request.target.value <= 3 {
        MigratedIsRaised(config, request.target.value);
      }
    }
  }

  lemma ReplacementAt(start: Option<Bytes>, replaced: seq<Replacement>, rules: Rules, i: nat)
    requires Sequential(start, replaced, rules) && i < |replaced|
    ensures replaced[i].over == (if i == 0 then start else Some(replaced[i - 1].next))
    ensures Writes(replaced[i].request, replaced[i].over, replaced[i].next, rules)
  {
    hide Writes, Effect;
    EffectIs(replaced[i].request, replaced[i].over, rules);
  }

  lemma RejectionAt(start: Option<Bytes>, w: World, rules: Rules, i: nat)
    requires Deserved(start, w, rules) && i < |w.rejected|
    ensures Refuses(w.rejected[i].request, w.rejected[i].over, w.rejected[i].refusal, rules)
    ensures w.rejected[i].over == start
         || exists j :: 0 <= j < |w.replaced| && w.rejected[i].over == Some(w.replaced[j].next)
  {
    hide Refuses, Effect;
    EffectIs(w.rejected[i].request, w.rejected[i].over, rules);
    var n :| 0 <= n <= |w.replaced| && w.rejected[i].over == ContentAt(start, w.replaced, n);
    assert n > 0 ==> w.rejected[i].over == Some(w.replaced[n - 1].next);
  }

  /** In every interleaving: the first replacement was of what was there at the
      start, each further one of what the one before wrote, and the last is what is
      there now; an initialisation replaced nothing, a conditional save exactly the
      bytes of its revision, a migration an older configuration. Each rejection had
      one of its request's own reasons on content that was there at some time. */
  lemma EveryReplacementIs(start: Option<Bytes>, steps: seq<Step>, rules: Rules)
    requires Run(Start(start), steps, rules).Some?
    ensures var w := Run(Start(start), steps, rules).value;
            var n := |w.replaced|;
            w.config == (if n == 0 then start else Some(w.replaced[n - 1].next))
            && (forall i :: 0 <= i < n ==>
                  w.replaced[i].over == (if i == 0 then start else Some(w.replaced[i - 1].next))
                  && Writes(w.replaced[i].request, w.replaced[i].over, w.replaced[i].next, rules))
            && (forall i :: 0 <= i < |w.rejected| ==>
                  Refuses(w.rejected[i].request, w.rejected[i].over, w.rejected[i].refusal, rules)
                  && (w.rejected[i].over == start
                      || exists j :: 0 <= j < n && w.rejected[i].over == Some(w.replaced[j].next)))
  {
    EveryRunIsSequential(start, steps, rules);
    hide Run, Writes, Refuses, LookedIsCurrent, Sequential, Deserved;
    var w := Run(Start(start), steps, rules).value;
    forall i | 0 <= i < |w.replaced|
      ensures w.replaced[i].over == (if i == 0 then start else Some(w.replaced[i - 1].next))
      ensures Writes(w.replaced[i].request, w.replaced[i].over, w.replaced[i].next, rules)
    {
      ReplacementAt(start, w.replaced, rules, i);
    }
    forall i | 0 <= i < |w.rejected|
      ensures Refuses(w.rejected[i].request, w.rejected[i].over, w.rejected[i].refusal, rules)
      ensures w.rejected[i].over == start
           || exists j :: 0 <= j < |w.replaced| && w.rejected[i].over == Some(w.replaced[j].next)
    {
      RejectionAt(start, w, rules, i);
    }
  }

  lemma NeverRefusesSave(request: Request, over: Option<Bytes>, rules: Rules)
    requires request.Save?
    ensures Effect(request, over, rules).Ok?
  {}

  /** Nothing gets stuck. An idle process can ask, a waiting one can take the lock
      when it is free, and one that holds it can look, and having looked can do
      exactly one of writing and answering with a rejection, by what it looked at;
      an unconditional save can write at once. */
  lemma NeverStuck(w: World, c: nat, rules: Rules)
    requires LookedIsCurrent(w)
    ensures match PhaseOf(w, c)
            case Idle => forall request :: Enabled(w, Ask(c, request), rules)
            case Waiting(_) => Enabled(w, Lock(c), rules) <==> w.lock == None
            case Holding(_, None) => Enabled(w, Look(c), rules)
            case Holding(request, Some(_)) =>
              (Enabled(w, Write(c), rules) <==> exists next :: Writes(request, w.config, next, rules))
              && (Enabled(w, Reject(c), rules) <==> exists refusal :: Refuses(request, w.config, refusal, rules))
              && (Enabled(w, Write(c), rules) <==> !Enabled(w, Reject(c), rules))
            case Written => Enabled(w, Leave(c), rules)
    ensures PhaseOf(w, c).Holding? && PhaseOf(w, c).request.Save? ==> Enabled(w, Write(c), rules)
  {
    hide Writes, Refuses, Effect;
    if PhaseOf(w, c).Holding? && PhaseOf(w, c).looked.Some? {
      var request := PhaseOf(w, c).request;
      EffectIs(request, w.config, rules);
      if Effect(request, w.config, rules).Ok? {
        assert Writes(request, w.config, Effect(request, w.config, rules).value, rules);
      } else {
        assert Refuses(request, w.config, Effect(request, w.config, rules).error, rules);
      }
      if request.Save? {
        NeverRefusesSave(request, w.config, rules);
      }
    }
  }
}
