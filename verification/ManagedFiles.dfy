/** The managed-file synchroniser of src/core.ts (`makePlan`, `applySync`,
    `removeProjectSkills`), for whole-file ownership. */
module ManagedFiles {
  import opened Text
  import opened Json

  type Path = string

  /** What stands at a path. Reading anything but a regular file throws. */
  datatype Node = File(bytes: string) | Unreadable

  type Files = map<Path, Node>

  datatype Reading = Absent | Present(bytes: string) | Refused

  /** `readOptional`. */
  function Read(files: Files, p: Path): Reading {
    if p !in files then Absent
    else match files[p] case File(b) => Present(b) case Unreadable => Refused
  }

  /** What the user does to some paths: a new node, or nothing left there. */
  type Edits = map<Path, Option<Node>>

  function Edited(files: Files, edits: Edits): Files {
    map p | p in files.Keys + edits.Keys && (p in edits ==> edits[p].Some?)
      :: if p in edits then edits[p].value else files[p]
  }

  /** The user's edits come in batches, one after another. */
  function Landed(files: Files, batches: seq<Edits>): Files {
    if batches == [] then files
    else Edited(Landed(files, batches[..|batches| - 1]), batches[|batches| - 1])
  }

  /** The edits of all batches together; the last one to a path counts. */
  function Merged(batches: seq<Edits>): Edits {
    if batches == [] then map[] else Merged(batches[..|batches| - 1]) + batches[|batches| - 1]
  }

  function IndexOf(order: seq<Path>, p: Path): (i: nat)
    ensures i <= |order|
    ensures i < |order| ==> order[i] == p
    ensures p in order ==> i < |order|
  {
    if order == [] then 0 else if order[0] == p then 0 else 1 + IndexOf(order[1..], p)
  }

  /** How many batches have landed when a sync looks at a path again: one before
      the first look, one more before each further look, while there are any. */
  function BeforeLook(order: seq<Path>, batches: seq<Edits>, p: Path): (n: nat)
    ensures n <= |batches|
  {
    if IndexOf(order, p) < |batches| then IndexOf(order, p) + 1 else |batches|
  }

  /** What a sync sees when it looks at a path again. */
  function Seen(files: Files, order: seq<Path>, batches: seq<Edits>, p: Path): Files {
    Landed(files, batches[..BeforeLook(order, batches, p)])
  }

  /** The edits that arrive after a path's own look and before the transaction
      takes its snapshot. */
  function Later(order: seq<Path>, batches: seq<Edits>, p: Path): Edits {
    Merged(batches[BeforeLook(order, batches, p)..])
  }

  /** The project's managed state: its files and `manifest.files`. */
  datatype State = State(files: Files, manifest: map<Path, Digest>)

  type Desired = map<Path, string>

  datatype Action = Create | Remove | Unchanged | Update

  datatype Reason = CannotRead | NotManaged | LocallyEdited

  datatype Verdict = Act(action: Action) | Conflict(reason: Reason)

  /** The file loop of `makePlan`, for one path. */
  function Judge(st: State, desired: Desired, p: Path): Verdict {
    match Read(st.files, p)
    case Refused => Conflict(CannotRead)
    case Absent => Act(if p in desired then Create else Remove)
    case Present(current) =>
      if p !in st.manifest then Conflict(NotManaged)
      else if Sha256(current) != st.manifest[p] then Conflict(LocallyEdited)
      else if p !in desired then Act(Remove)
      else Act(if current == desired[p] then Unchanged else Update)
  }

  function Planned(st: State, desired: Desired): set<Path> {
    st.manifest.Keys + desired.Keys
  }

  predicate Blocked(st: State, desired: Desired) {
    exists p :: p in Planned(st, desired) && Judge(st, desired, p).Conflict?
  }

  /** Paths a conflict-free plan changes. */
  function Touched(st: State, desired: Desired): set<Path> {
    set p | p in Planned(st, desired) && Judge(st, desired, p) != Act(Unchanged)
  }

  /** The second look `applySync` takes before it changes a path. */
  predicate StillOurs(files: Files, manifest: map<Path, Digest>, p: Path) {
    match Read(files, p)
    case Absent => true
    case Present(current) => p in manifest && Sha256(current) == manifest[p]
    case Refused => false
  }

  /** How a sync goes; `BlockedByConflict` is any refusal of the plan, with its
      conflicts or, when some path cannot be read for describing it, with that error. */
  datatype Outcome = Committed | BlockedByConflict | ChangedDuringSync | SnapshotRefused

  function Written(files: Files, touched: set<Path>, desired: Desired): Files {
    map p | p in files.Keys + desired.Keys && (p in touched ==> p in desired)
            && (p !in files ==> p in touched)
      :: if p in touched then File(desired[p]) else files[p]
  }

  function Recorded(manifest: map<Path, Digest>, touched: set<Path>, desired: Desired): map<Path, Digest> {
    map p | p in manifest.Keys + desired.Keys && (p in touched ==> p in desired)
            && (p !in manifest ==> p in touched)
      :: if p in touched then Sha256(desired[p]) else manifest[p]
  }

  /** Some path to be changed is not ours any more when its turn comes to be
      looked at again. */
  predicate Lost(st: State, desired: Desired, order: seq<Path>, batches: seq<Edits>) {
    exists p :: p in Touched(st, desired) && !StillOurs(Seen(st.files, order, batches, p), st.manifest, p)
  }

  /** Some path to be changed can no longer be read for the transaction's snapshot. */
  predicate Unsnapped(st: State, desired: Desired, found: Files) {
    exists p :: p in Touched(st, desired) && Read(found, p).Refused?
  }

  /** `applySync`: plan, look at each path to be changed again, in some order,
      take a snapshot, and commit everything at once. The user's edits come in
      batches: one before each look, and the rest before the snapshot; they land
      even if the sync stops before. A removal is a sync towards nothing. */
  function Sync(st: State, desired: Desired, order: seq<Path>, batches: seq<Edits>): (State, Outcome) {
    var found := Landed(st.files, batches);
    if Blocked(st, desired) then (State(found, st.manifest), BlockedByConflict)
    else if Lost(st, desired, order, batches) then (State(found, st.manifest), ChangedDuringSync)
    else if Unsnapped(st, desired, found) then (State(found, st.manifest), SnapshotRefused)
    else
      var touched := Touched(st, desired);
      (State(Written(found, touched, desired), Recorded(st.manifest, touched, desired)), Committed)
  }

  /** Describing a plan reads every planned path, and throws if one cannot be read. */
  predicate Described(st: State, desired: Desired) {
    forall p :: p in Planned(st, desired) ==> !Read(st.files, p).Refused?
  }

  /** What is handed to the transaction: new bytes, or removal. */
  type Pending = map<Path, Option<string>>

  function PendingFor(touched: set<Path>, desired: Desired): Pending {
    map p | p in touched :: if p in desired then Some(desired[p]) else None
  }

  function Carried(files: Files, pending: Pending): Files {
    map p | p in files.Keys + pending.Keys && (p in pending ==> pending[p].Some?)
      :: if p in pending then File(pending[p].value) else files[p]
  }

  // -------------------------------------------------------------- the program

  datatype Change = Change(action: Action, path: Path)

  datatype Complaint = Complaint(path: Path, reason: Reason)

  /** The planned changes for some paths, in their order. */
  function Changes(st: State, desired: Desired, paths: seq<Path>): seq<Change> {
    if paths == [] then []
    else
      var n := |paths| - 1;
      match Judge(st, desired, paths[n])
      case Act(action) => Changes(st, desired, paths[..n]) + [Change(action, paths[n])]
      case Conflict(_) => Changes(st, desired, paths[..n])
  }

  function Complaints(st: State, desired: Desired, paths: seq<Path>): seq<Complaint> {
    if paths == [] then []
    else
      var n := |paths| - 1;
      match Judge(st, desired, paths[n])
      case Act(_) => Complaints(st, desired, paths[..n])
      case Conflict(reason) => Complaints(st, desired, paths[..n]) + [Complaint(paths[n], reason)]
  }

  /** The paths that are looked at again: those of the changes that change something. */
  function Looks(changes: seq<Change>): seq<Path> {
    if changes == [] then []
    else
      var n := |changes| - 1;
      Looks(changes[..n]) + (if changes[n].action == Unchanged then [] else [changes[n].path])
  }

  // ------------------------------------------------------ facts about a plan

  /** The plan changes this path. */
  predicate Moves(st: State, desired: Desired, p: Path) {
    Judge(st, desired, p).Act? && Judge(st, desired, p) != Act(Unchanged)
  }

  lemma LooksSnoc(changes: seq<Change>, c: Change)
    ensures Looks(changes + [c]) == Looks(changes) + (if c.action == Unchanged then [] else [c.path])
    ensures Looks([]) == []
  {
    assert (changes + [c])[..|changes|] == changes;
  }

  lemma {:induction false} LooksPrefix(changes: seq<Change>, n: nat)
    requires n <= |changes|
    ensures Looks(changes[..n]) <= Looks(changes)
  {
    if n < |changes| {
      LooksPrefix(changes[..|changes| - 1], n);
      assert changes[..|changes| - 1][..n] == changes[..n];
    } else {
      assert changes[..n] == changes;
    }
  }

  lemma {:induction false} ChangesAre(st: State, desired: Desired, paths: seq<Path>)
    ensures forall i :: 0 <= i < |Changes(st, desired, paths)| ==>
      var c := Changes(st, desired, paths)[i];
      c.path in paths && Judge(st, desired, c.path) == Act(c.action)
  {
    hide Judge;
    if paths != [] {
      var n := |paths| - 1;
      ChangesAre(st, desired, paths[..n]);
    }
  }

  /** The paths among these that the plan changes. */
  function MovesIn(st: State, desired: Desired, paths: seq<Path>): set<Path> {
    set p | p in paths && Moves(st, desired, p)
  }

  lemma MovesInMore(st: State, desired: Desired, paths: seq<Path>, p: Path)
    ensures MovesIn(st, desired, paths + [p])
         == MovesIn(st, desired, paths) + (if Moves(st, desired, p) then {p} else {})
  {
    hide Moves;
  }

  lemma LooksMore(st: State, desired: Desired, paths: seq<Path>, p: Path)
    ensures Looks(Changes(st, desired, paths + [p]))
         == Looks(Changes(st, desired, paths)) + (if Moves(st, desired, p) then [p] else [])
  {
    hide Judge;
    assert (paths + [p])[..|paths|] == paths;
    if Judge(st, desired, p).Act? {
      LooksSnoc(Changes(st, desired, paths), Change(Judge(st, desired, p).action, p));
    }
    hide Looks;
  }

  lemma ListsOne(p: Path)
    ensures Lists([p], {p})
  {}

  lemma {:induction false} LooksAre(st: State, desired: Desired, paths: seq<Path>)
    requires forall i, j :: 0 <= i < j < |paths| ==> paths[i] != paths[j]
    ensures Lists(Looks(Changes(st, desired, paths)), MovesIn(st, desired, paths))
  {
    hide Moves, Judge;
    if paths != [] {
      var n := |paths| - 1;
      LooksAre(st, desired, paths[..n]);
      hide Looks, Changes, Lists;
      LooksMore(st, desired, paths[..n], paths[n]);
      MovesInMore(st, desired, paths[..n], paths[n]);
      assert paths == paths[..n] + [paths[n]];
      if Moves(st, desired, paths[n]) {
        ListsOne(paths[n]);
        ListsTogether(Looks(Changes(st, desired, paths[..n])), [paths[n]],
                      MovesIn(st, desired, paths[..n]), {paths[n]});
      } else {
        assert Looks(Changes(st, desired, paths[..n])) + [] == Looks(Changes(st, desired, paths[..n]));
        assert MovesIn(st, desired, paths[..n]) + {} == MovesIn(st, desired, paths[..n]);
      }
    }
  }

  lemma {:induction false} ComplaintsAre(st: State, desired: Desired, paths: seq<Path>)
    ensures Complaints(st, desired, paths) != [] <==>
      exists p :: p in paths && Judge(st, desired, p).Conflict?
  {
    hide Judge;
    if paths != [] {
      var n := |paths| - 1;
      ComplaintsAre(st, desired, paths[..n]);
      assert forall p :: p in paths <==> p in paths[..n] || p == paths[n] by {
        assert paths == paths[..n] + [paths[n]];
      }
    }
  }

  /** A plan complains exactly when it is blocked; otherwise the paths looked at
      again are exactly those that are not as desired, each once. */
  lemma PlanIsComplete(st: State, desired: Desired, paths: seq<Path>)
    requires Lists(paths, Planned(st, desired))
    ensures Complaints(st, desired, paths) != [] <==> Blocked(st, desired)
    ensures !Blocked(st, desired) ==> Lists(Looks(Changes(st, desired, paths)), Touched(st, desired))
  {
    hide Judge, Changes, Complaints, Looks;
    ComplaintsAre(st, desired, paths);
    LooksAre(st, desired, paths);
  }

  lemma {:induction false} JudgedAre(st: State, desired: Desired, paths: seq<Path>)
    ensures forall action, p ::
      Change(action, p) in Changes(st, desired, paths) <==> p in paths && Judge(st, desired, p) == Act(action)
    ensures forall reason, p ::
      Complaint(p, reason) in Complaints(st, desired, paths) <==>
      p in paths && Judge(st, desired, p) == Conflict(reason)
  {
    hide Judge;
    if paths != [] {
      var n := |paths| - 1;
      JudgedAre(st, desired, paths[..n]);
      assert paths == paths[..n] + [paths[n]];
    }
  }

  /** A regular file stands there, with the recorded bytes. */
  predicate AsRecorded(st: State, p: Path) {
    p in st.files && st.files[p].File? && p in st.manifest && st.manifest[p] == Sha256(st.files[p].bytes)
  }

  /** What a plan says of a planned path, action by action and reason by reason. */
  lemma PlanSaysExactlyWhen(st: State, desired: Desired, paths: seq<Path>, p: Path)
    requires Lists(paths, Planned(st, desired)) && (p in st.manifest || p in desired)
    ensures var changes, conflicts := Changes(st, desired, paths), Complaints(st, desired, paths);
            var there := p in st.files;
            (Change(Create, p) in changes <==> !there && p in desired)
            && (Change(Remove, p) in changes <==> p !in desired && (!there || AsRecorded(st, p)))
            && (Change(Unchanged, p) in changes <==>
                p in desired && AsRecorded(st, p) && st.files[p].bytes == desired[p])
            && (Change(Update, p) in changes <==>
                p in desired && AsRecorded(st, p) && st.files[p].bytes != desired[p])
            && (Complaint(p, CannotRead) in conflicts <==> there && !st.files[p].File?)
            && (Complaint(p, NotManaged) in conflicts <==> there && st.files[p].File? && p !in st.manifest)
            && (Complaint(p, LocallyEdited) in conflicts <==>
                there && st.files[p].File? && p in st.manifest && !AsRecorded(st, p))
  {
    JudgedAre(st, desired, paths);
    hide Changes, Complaints;
  }

  lemma PlannedChange(st: State, desired: Desired, paths: seq<Path>, n: nat)
    requires Lists(paths, Planned(st, desired)) && n < |Changes(st, desired, paths)|
    ensures var c := Changes(st, desired, paths)[n];
            (c.action != Unchanged ==> c.path in Touched(st, desired))
            && (c.action == Remove <==> c.path !in desired)
  {
    hide Changes, Complaints, Looks;
    ChangesAre(st, desired, paths);
  }

  // ------------------------------------------------------ facts about a sync

  function Elements(paths: seq<Path>): set<Path> {
    set p | p in paths
  }

  lemma ElementsMore(paths: seq<Path>, n: nat)
    requires n < |paths|
    ensures Elements(paths[..n + 1]) == Elements(paths[..n]) + {paths[n]}
    ensures forall p :: p in paths[..n + 1] <==> p in paths[..n] || p == paths[n]
  {
    assert paths[..n + 1] == paths[..n] + [paths[n]];
  }

  lemma ElementsOf(paths: seq<Path>, all: set<Path>)
    requires Lists(paths, all)
    ensures Elements(paths) == all && Elements(paths[..0]) == {}
    ensures forall p :: p in all ==> p in paths
  {}

  lemma ListsOnce(paths: seq<Path>, all: set<Path>)
    requires Lists(paths, all)
    ensures forall i, j :: 0 <= i < j < |paths| ==> paths[i] != paths[j]
    ensures forall i :: 0 <= i < |paths| ==> paths[i] in all
    ensures Elements(paths[..0]) == {}
  {}

  lemma SyncRefuses(st: State, desired: Desired, order: seq<Path>, batches: seq<Edits>)
    requires Blocked(st, desired)
    ensures Sync(st, desired, order, batches) == (State(Landed(st.files, batches), st.manifest), BlockedByConflict)
  {
    hide Landed, Judge;
  }

  lemma SyncGivesUp(st: State, desired: Desired, order: seq<Path>, batches: seq<Edits>, p: Path)
    requires !Blocked(st, desired) && p in Touched(st, desired)
    requires !StillOurs(Seen(st.files, order, batches, p), st.manifest, p)
    ensures Sync(st, desired, order, batches) == (State(Landed(st.files, batches), st.manifest), ChangedDuringSync)
  {
    hide Landed, Judge, StillOurs, Seen;
  }

  /** The second looks are passed; what is left is the snapshot. */
  lemma SyncCommits(st: State, desired: Desired, order: seq<Path>, batches: seq<Edits>)
    requires !Blocked(st, desired)
    requires forall p :: p in Touched(st, desired) ==> StillOurs(Seen(st.files, order, batches, p), st.manifest, p)
    ensures Sync(st, desired, order, batches) ==
      if Unsnapped(st, desired, Landed(st.files, batches))
      then (State(Landed(st.files, batches), st.manifest), SnapshotRefused)
      else (State(Written(Landed(st.files, batches), Touched(st, desired), desired),
                   Recorded(st.manifest, Touched(st, desired), desired)), Committed)
  {
    hide Landed, Judge, StillOurs, Written, Recorded, Seen, Unsnapped;
  }

  lemma UnsnappedIs(st: State, desired: Desired, found: Files, order: seq<Path>)
    requires Lists(order, Touched(st, desired))
    ensures Unsnapped(st, desired, found) <==> exists i :: 0 <= i < |order| && Read(found, order[i]).Refused?
  {
    hide Touched, Read;
  }

  lemma NothingTouched(manifest: map<Path, Digest>, desired: Desired)
    ensures PendingFor({}, desired) == map[] && Recorded(manifest, {}, desired) == manifest
  {}

  lemma NothingLanded(files: Files, batches: seq<Edits>)
    ensures Landed(files, batches[..0]) == files
  {}

  lemma LandedMore(files: Files, batches: seq<Edits>, n: nat)
    requires n < |batches|
    ensures Landed(files, batches[..n + 1]) == Edited(Landed(files, batches[..n]), batches[n])
  {
    assert batches[..n + 1][..n] == batches[..n];
  }

  lemma {:induction false} IndexOfAt(order: seq<Path>, n: nat)
    requires n < |order| && forall i, j :: 0 <= i < j < |order| ==> order[i] != order[j]
    ensures IndexOf(order, order[n]) == n
  {}

  lemma SeenAt(files: Files, order: seq<Path>, batches: seq<Edits>, n: nat)
    requires n < |order| && forall i, j :: 0 <= i < j < |order| ==> order[i] != order[j]
    ensures Seen(files, order, batches, order[n])
         == Landed(files, batches[..if n < |batches| then n + 1 else |batches|])
  {
    hide Landed;
    IndexOfAt(order, n);
  }

  lemma TouchedStep(manifest: map<Path, Digest>, touched: set<Path>, p: Path, desired: Desired)
    ensures PendingFor(touched + {p}, desired)
         == PendingFor(touched, desired)[p := if p in desired then Some(desired[p]) else None]
    ensures Recorded(manifest, touched + {p}, desired)
         == if p in desired then Recorded(manifest, touched, desired)[p := Sha256(desired[p])]
            else Recorded(manifest, touched, desired) - {p}
  {}

  lemma CarriedIsWritten(files: Files, touched: set<Path>, desired: Desired)
    ensures Carried(files, PendingFor(touched, desired)) == Written(files, touched, desired)
  {}

  /** A path whose change is committed was ours when it was looked at again. */
  lemma CommitIsSound(st: State, desired: Desired, order: seq<Path>, batches: seq<Edits>, p: Path)
    requires Sync(st, desired, order, batches).1.Committed?
    ensures p in Touched(st, desired) ==> StillOurs(Seen(st.files, order, batches, p), st.manifest, p)
    ensures p in Planned(st, desired) ==> Judge(st, desired, p).Act?
  {
    hide Landed, Judge, StillOurs, Written, Recorded, Seen;
  }

  lemma SyncResult(st: State, desired: Desired, order: seq<Path>, batches: seq<Edits>)
    ensures Sync(st, desired, order, batches).0 ==
      if Sync(st, desired, order, batches).1.Committed? then
        State(Written(Landed(st.files, batches), Touched(st, desired), desired),
              Recorded(st.manifest, Touched(st, desired), desired))
      else State(Landed(st.files, batches), st.manifest)
  {
    hide Landed, Judge, StillOurs, Written, Recorded, Touched, Blocked, Lost, Unsnapped;
  }

  lemma BlockedExactlyWhen(st: State, desired: Desired)
    ensures Blocked(st, desired) <==>
      exists p :: (p in st.manifest || p in desired) && p in st.files && !AsRecorded(st, p)
  {
    if Blocked(st, desired) {
      var p :| p in Planned(st, desired) && Judge(st, desired, p).Conflict?;
      assert p in st.files && !AsRecorded(st, p);
    }
    forall p | (p in st.manifest || p in desired) && p in st.files && !AsRecorded(st, p)
      ensures Blocked(st, desired)
    {
      assert p in Planned(st, desired) && Judge(st, desired, p).Conflict?;
    }
  }

  /** What is found at a path when its turn comes, the `n`-th: the first `n + 1`
      batches have landed, or all there are. */
  function FoundAt(st: State, batches: seq<Edits>, n: nat): State {
    State(Landed(st.files, batches[..if n < |batches| then n + 1 else |batches|]), st.manifest)
  }

  lemma LostExactlyWhen(st: State, desired: Desired, order: seq<Path>, batches: seq<Edits>)
    requires Lists(order, Touched(st, desired))
    ensures Lost(st, desired, order, batches) <==>
      exists n :: 0 <= n < |order| && order[n] in FoundAt(st, batches, n).files
        && !AsRecorded(FoundAt(st, batches, n), order[n])
  {
    ListsOnce(order, Touched(st, desired));
    hide Touched, Blocked, Judge, Seen, Landed, Unsnapped;
    forall n | 0 <= n < |order|
      ensures !StillOurs(Seen(st.files, order, batches, order[n]), st.manifest, order[n]) <==>
        order[n] in FoundAt(st, batches, n).files && !AsRecorded(FoundAt(st, batches, n), order[n])
    {
      SeenAt(st.files, order, batches, n);
    }
    hide StillOurs, AsRecorded, FoundAt;
    assert Lost(st, desired, order, batches) <==>
      exists n :: 0 <= n < |order| && !StillOurs(Seen(st.files, order, batches, order[n]), st.manifest, order[n]);
  }

  /** How a sync ends: blocked when something that is not as recorded stands at a
      planned path; given up when at some path to be changed something else has
      come when its turn comes; refused when one of them cannot be read in the
      end; and committed otherwise. */
  lemma EndsExactlyWhen(st: State, desired: Desired, order: seq<Path>, batches: seq<Edits>)
    requires Lists(order, Touched(st, desired))
    ensures
      Sync(st, desired, order, batches).1 ==
        if exists p :: (p in st.manifest || p in desired) && p in st.files && !AsRecorded(st, p)
        then BlockedByConflict
        else if exists n :: 0 <= n < |order| && order[n] in FoundAt(st, batches, n).files
                            && !AsRecorded(FoundAt(st, batches, n), order[n])
        then ChangedDuringSync
        else if exists n :: 0 <= n < |order| && order[n] in Landed(st.files, batches)
                            && !Landed(st.files, batches)[order[n]].File?
        then SnapshotRefused
        else Committed
  {
    BlockedExactlyWhen(st, desired);
    UnsnappedIs(st, desired, Landed(st.files, batches), order);
    LostExactlyWhen(st, desired, order, batches);
    hide Touched, Blocked, Judge, Seen, Landed, Unsnapped, Lost, AsRecorded, FoundAt;
  }

  /** What a committed sync leaves at any path: the desired bytes, unless they were
      there as recorded when it was planned; nothing where something is recorded that
      is not desired any more; and elsewhere what the user's edits have left. */
  lemma CommitLeaves(st: State, desired: Desired, order: seq<Path>, batches: seq<Edits>, p: Path)
    requires Sync(st, desired, order, batches).1.Committed?
    ensures var after, found := Sync(st, desired, order, batches).0.files, Landed(st.files, batches);
            if p in desired && !(AsRecorded(st, p) && st.files[p].bytes == desired[p])
            then p in after && after[p] == File(desired[p])
            else if p in st.manifest && p !in desired then p !in after
            else (p in after <==> p in found) && (p in after ==> after[p] == found[p])
  {
    hide Sync, Landed, Seen, StillOurs;
    SyncResult(st, desired, order, batches);
    CommitIsSound(st, desired, order, batches, p);
  }

  lemma EditedTwice(files: Files, a: Edits, b: Edits)
    ensures Edited(Edited(files, a), b) == Edited(files, a + b)
  {}

  /** Only the last edit to a path counts. */
  lemma {:induction false} LandedIsMerged(files: Files, batches: seq<Edits>)
    ensures Landed(files, batches) == Edited(files, Merged(batches))
  {
    if batches == [] {
      assert Edited(files, map[]) == files;
    } else {
      var n := |batches| - 1;
      LandedIsMerged(files, batches[..n]);
      EditedTwice(files, Merged(batches[..n]), batches[n]);
    }
  }

  lemma {:induction false} LandedSplits(files: Files, batches: seq<Edits>, n: nat)
    requires n <= |batches|
    ensures Landed(files, batches) == Landed(Landed(files, batches[..n]), batches[n..])
  {
    if n == |batches| {
      assert batches[..n] == batches;
    } else {
      var m := |batches| - 1;
      LandedSplits(files, batches[..m], n);
      assert batches[..m][..n] == batches[..n] && batches[..m][n..] == batches[n..][..m - n];
    }
  }

  /** What stands at the commit is what the look saw, with the later edits. */
  lemma FoundIsSeenAndLater(files: Files, order: seq<Path>, batches: seq<Edits>, p: Path)
    ensures Landed(files, batches) == Edited(Seen(files, order, batches, p), Later(order, batches, p))
  {
    hide Edited, Merged;
    var n := BeforeLook(order, batches, p);
    LandedSplits(files, batches, n);
    LandedIsMerged(Landed(files, batches[..n]), batches[n..]);
  }

  // ----------------------------------------------------------- what a sync does

  function Hashes(files: map<Path, string>): map<Path, Digest> {
    map p | p in files :: Sha256(files[p])
  }

  /** The paths hold these bytes. */
  predicate Holds(files: Files, desired: Desired) {
    forall p :: p in desired ==> Read(files, p) == Present(desired[p])
  }

  /** A sync that commits leaves in the manifest exactly the desired paths
      with the hashes of their desired bytes. */
  lemma ManifestIsDesired(st: State, desired: Desired, order: seq<Path>, batches: seq<Edits>)
    requires Sync(st, desired, order, batches).1.Committed?
    ensures Sync(st, desired, order, batches).0.manifest == Hashes(desired)
  {
    hide Sync, Blocked, Landed, StillOurs, Written, Seen;
    SyncResult(st, desired, order, batches);
    forall p | p in Planned(st, desired)
      ensures p !in Touched(st, desired) ==>
        p in desired && p in st.manifest && st.manifest[p] == Sha256(desired[p])
    {
      CommitIsSound(st, desired, order, batches, p);
    }
  }

  /** Exactly when the desired bytes are on disk after a sync that commits:
      the last edit that slipped in behind the plan to each unchanged path, if
      any, left the desired bytes there. */
  lemma SyncConverges(st: State, desired: Desired, order: seq<Path>, batches: seq<Edits>)
    requires Sync(st, desired, order, batches).1.Committed?
    ensures Holds(Sync(st, desired, order, batches).0.files, desired) <==>
            forall p :: p in Merged(batches) && p in desired && p !in Touched(st, desired)
              ==> Merged(batches)[p] == Some(File(desired[p]))
  {
    hide Sync, Blocked, StillOurs, Recorded, Landed, Merged, Seen;
    SyncResult(st, desired, order, batches);
    LandedIsMerged(st.files, batches);
    var edits, touched := Merged(batches), Touched(st, desired);
    var after := Written(Edited(st.files, edits), touched, desired);
    forall p | p in desired
      ensures Read(after, p) == Present(desired[p]) <==>
              (p in edits && p !in touched ==> edits[p] == Some(File(desired[p])))
    {
      CommitIsSound(st, desired, order, batches, p);
    }
    assert Holds(after, desired) <==>
      forall p :: p in desired ==> Read(after, p) == Present(desired[p]);
  }

  /** After a sync that commits, the next plan is all `unchanged` exactly
      when the desired bytes are on disk. */
  lemma NextPlanIsQuiet(st: State, desired: Desired, order: seq<Path>, batches: seq<Edits>)
    requires Sync(st, desired, order, batches).1.Committed?
    ensures var after := Sync(st, desired, order, batches).0;
            Holds(after.files, desired) <==>
            forall p :: p in Planned(after, desired) ==> Judge(after, desired, p) == Act(Unchanged)
  {
    hide Sync, Touched;
    ManifestIsDesired(st, desired, order, batches);
    var after := Sync(st, desired, order, batches).0;
    assert Planned(after, desired) == desired.Keys;
    forall p | p in desired
      ensures Judge(after, desired, p) == Act(Unchanged) <==> Read(after.files, p) == Present(desired[p])
    {}
  }

  /** The window is real: an edit to an unchanged path between the plan and
      the commit survives a sync that commits, so the desired bytes are not on disk. */
  lemma EditInTheWindow()
    ensures var st := State(map["a" := File("1")], map["a" := Sha256("1")]);
            var (after, outcome) := Sync(st, map["a" := "1"], [], [map["a" := Some(File("mine"))]]);
            outcome.Committed? && Read(after.files, "a") == Present("mine")
  {
    var st := State(map["a" := File("1")], map["a" := Sha256("1")]);
    var desired: Desired := map["a" := "1"];
    assert Judge(st, desired, "a") == Act(Unchanged) && Touched(st, desired) == {};
    SyncCommits(st, desired, [], [map["a" := Some(File("mine"))]]);
    LandedIsMerged(st.files, [map["a" := Some(File("mine"))]]);
    assert [map["a" := Some(File("mine"))]][..0] == [];
  }

  predicate LeavesReadable(edit: Option<Node>) { edit.Some? ==> edit.value.File? }

  /** After its commit a sync makes and describes a new plan. Exactly when it then
      reports success, whatever the user does after the commit: every path of the
      desired map was last left readable, by the edits after the commit or, where
      the sync did not write, by those before. */
  lemma ReportsExactlyWhen(st: State, desired: Desired, order: seq<Path>, batches: seq<Edits>, late: Edits)
    requires Sync(st, desired, order, batches).1.Committed?
    ensures var after := Sync(st, desired, order, batches).0;
            Described(State(Edited(after.files, late), after.manifest), desired) <==>
            forall p :: p in desired ==>
              if p in late then LeavesReadable(late[p])
              else p in Merged(batches) && p !in Touched(st, desired) ==> LeavesReadable(Merged(batches)[p])
  {
    hide Sync, Blocked, StillOurs, Recorded, Landed, Merged, Seen;
    ManifestIsDesired(st, desired, order, batches);
    SyncResult(st, desired, order, batches);
    LandedIsMerged(st.files, batches);
    var after := Sync(st, desired, order, batches).0;
    assert Planned(after, desired) == desired.Keys;
    forall p | p in desired
      ensures !Read(Edited(after.files, late), p).Refused? <==>
        if p in late then LeavesReadable(late[p])
        else p in Merged(batches) && p !in Touched(st, desired) ==> LeavesReadable(Merged(batches)[p])
    {
      CommitIsSound(st, desired, order, batches, p);
    }
  }

  /** A sync that reports failure with everything changed: the user makes an
      unchanged path unreadable while the sync is under way. */
  lemma CommittedYetFailed()
    ensures var st := State(map["a" := File("1"), "b" := File("k")], map["a" := Sha256("1"), "b" := Sha256("k")]);
            var desired := map["a" := "2", "b" := "k"];
            var (after, outcome) := Sync(st, desired, ["a"], [map["b" := Some(Unreadable)]]);
            outcome.Committed? && Read(after.files, "a") == Present("2") && after.manifest == Hashes(desired)
            && !Described(after, desired)
  {
    var st := State(map["a" := File("1"), "b" := File("k")], map["a" := Sha256("1"), "b" := Sha256("k")]);
    var desired: Desired := map["a" := "2", "b" := "k"];
    var batch: Edits := map["b" := Some(Unreadable)];
    assert Judge(st, desired, "a") == Act(Update) && Judge(st, desired, "b") == Act(Unchanged);
    assert Touched(st, desired) == {"a"};
    LandedMore(st.files, [batch], 0);
    NothingLanded(st.files, [batch]);
    assert [batch][..1] == [batch];
    SeenAt(st.files, ["a"], [batch], 0);
    SyncCommits(st, desired, ["a"], [batch]);
    ManifestIsDesired(st, desired, ["a"], [batch]);
    var after := Sync(st, desired, ["a"], [batch]).0;
    assert "b" in Planned(after, desired) && Read(after.files, "b").Refused?;
  }

  /** Nothing, or the recorded bytes. */
  predicate LeavesOurs(edit: Option<Node>, manifest: map<Path, Digest>, p: Path) {
    edit.None? || (edit.value.File? && p in manifest && Sha256(edit.value.bytes) == manifest[p])
  }

  /** Exactly when a change that a sync commits overwrites or removes nothing but
      what is recorded: the last edit that reached the path after its own second
      look, if any, left nothing there or the recorded bytes. */
  lemma OverwritesOnlyOurs(st: State, desired: Desired, order: seq<Path>, batches: seq<Edits>, p: Path)
    requires Sync(st, desired, order, batches).1.Committed? && p in Touched(st, desired)
    ensures StillOurs(Seen(st.files, order, batches, p), st.manifest, p)
    ensures StillOurs(Landed(st.files, batches), st.manifest, p) <==>
            (p in Later(order, batches, p) ==> LeavesOurs(Later(order, batches, p)[p], st.manifest, p))
  {
    hide Sync, Landed, Seen, Later, Touched;
    CommitIsSound(st, desired, order, batches, p);
    FoundIsSeenAndLater(st.files, order, batches, p);
  }

  /** The lost edit: one that arrives after its path's second look and before the
      transaction's snapshot is overwritten by a sync that can report success. */
  lemma EditLostAfterItsLook()
    ensures var st := State(map["a" := File("1")], map["a" := Sha256("1")]);
            var batches: seq<Edits> := [map[], map["a" := Some(File("mine"))]];
            var (after, outcome) := Sync(st, map["a" := "2"], ["a"], batches);
            Read(Landed(st.files, batches), "a") == Present("mine")
            && outcome.Committed? && Read(after.files, "a") == Present("2") && Described(after, map["a" := "2"])
  {
    var st := State(map["a" := File("1")], map["a" := Sha256("1")]);
    var desired: Desired := map["a" := "2"];
    var none: Edits, mine: Edits := map[], map["a" := Some(File("mine"))];
    assert Judge(st, desired, "a") == Act(Update) && Touched(st, desired) == {"a"};
    LandedMore(st.files, [none, mine], 0);
    LandedMore(st.files, [none, mine], 1);
    NothingLanded(st.files, [none, mine]);
    assert [none, mine][..2] == [none, mine];
    assert Edited(st.files, none) == st.files;
    SeenAt(st.files, ["a"], [none, mine], 0);
    SyncCommits(st, desired, ["a"], [none, mine]);
    ManifestIsDesired(st, desired, ["a"], [none, mine]);
  }

  // ------------------------------------------------------------- whole histories

  datatype Event = Edit(batches: seq<Edits>) | Synced(desired: Desired, order: seq<Path>, batches: seq<Edits>)

  function Next(st: State, e: Event): State {
    match e
    case Edit(batches) => State(Landed(st.files, batches), st.manifest)
    case Synced(desired, order, batches) => Sync(st, desired, order, batches).0
  }

  function Run(st: State, h: seq<Event>): State {
    if h == [] then st else Next(Run(st, h[..|h| - 1]), h[|h| - 1])
  }

  /** The bytes the syncs of a history last wrote to each path they still own. */
  function Wrote(st: State, h: seq<Event>): map<Path, string> {
    if h == [] then map[]
    else
      var before := Wrote(st, h[..|h| - 1]);
      match h[|h| - 1]
      case Edit(_) => before
      case Synced(desired, order, batches) =>
        var now := Run(st, h[..|h| - 1]);
        if !Sync(now, desired, order, batches).1.Committed? then before
        else
          var touched := Touched(now, desired);
          map p | p in before.Keys + desired.Keys && (p in touched ==> p in desired)
                  && (p !in before ==> p in touched)
            :: if p in touched then desired[p] else before[p]
  }

  /** The manifest always records what was last written, whatever the user does. */
  lemma {:induction false} ManifestRecordsWrites(files: Files, h: seq<Event>)
    ensures Run(State(files, map[]), h).manifest == Hashes(Wrote(State(files, map[]), h))
  {
    hide Sync, Touched, Landed, Written;
    if h != [] {
      ManifestRecordsWrites(files, h[..|h| - 1]);
      if h[|h| - 1].Synced? {
        var e := h[|h| - 1];
        SyncResult(Run(State(files, map[]), h[..|h| - 1]), e.desired, e.order, e.batches);
      }
    }
  }

  /** Nothing stands at the path, or exactly the bytes that were last written there. */
  predicate AsWritten(files: Files, wrote: map<Path, string>, p: Path) {
    p in files ==> p in wrote && files[p] == File(wrote[p])
  }

  lemma OursIsAsWritten(files: Files, wrote: map<Path, string>, p: Path)
    ensures StillOurs(files, Hashes(wrote), p) <==> AsWritten(files, wrote, p)
  {}

  /** The edit leaves nothing at the path, or exactly the bytes last written there. */
  predicate LeavesAsWritten(edit: Option<Node>, wrote: map<Path, string>, p: Path) {
    edit.Some? ==> p in wrote && edit.value == File(wrote[p])
  }

  lemma LeavesOursIsAsWritten(edit: Option<Node>, wrote: map<Path, string>, p: Path)
    ensures LeavesOurs(edit, Hashes(wrote), p) <==> LeavesAsWritten(edit, wrote, p)
  {}

  lemma ConflictIsNotAsWritten(st: State, wrote: map<Path, string>, desired: Desired, p: Path)
    requires st.manifest == Hashes(wrote)
    ensures Judge(st, desired, p).Conflict? <==> !AsWritten(st.files, wrote, p)
  {}

  predicate SameAt(a: Files, b: Files, p: Path) {
    (p in a <==> p in b) && (p in a ==> a[p] == b[p])
  }

  lemma WrittenApart(files: Files, touched: set<Path>, desired: Desired, p: Path)
    requires p !in touched
    ensures SameAt(Written(files, touched, desired), files, p)
  {}

  lemma SameIsSame(files: Files, p: Path)
    ensures SameAt(files, files, p)
  {}

  /** Whose bytes a sync or removal may change. After any history, with user
      edits between any two of its steps up to the snapshot: it changes nothing
      unless it commits, and is blocked exactly when a planned path holds something other than what
      was last written there. A path it changes is in the manifest or the desired
      map, and was absent or held exactly what was last written there when it was
      looked at again; that is still so at the commit if and only if no later
      edit left other content. */
  lemma SyncRespectsUserBytes(files: Files, h: seq<Event>, desired: Desired, order: seq<Path>, batches: seq<Edits>)
    ensures var start := State(files, map[]);
            var now, wrote := Run(start, h), Wrote(start, h);
            var found := Landed(now.files, batches);
            var (after, outcome) := Sync(now, desired, order, batches);
            (forall p :: !SameAt(after.files, found, p) ==>
              outcome.Committed? && p in Planned(now, desired)
              && AsWritten(Seen(now.files, order, batches, p), wrote, p)
              && (AsWritten(found, wrote, p) <==>
                  (p in Later(order, batches, p) ==> LeavesAsWritten(Later(order, batches, p)[p], wrote, p))))
            && (outcome != Committed ==> after == State(found, now.manifest))
            && (outcome.BlockedByConflict? <==>
                exists p :: p in Planned(now, desired) && !AsWritten(now.files, wrote, p))
  {
    var start := State(files, map[]);
    var now, wrote := Run(start, h), Wrote(start, h);
    var found := Landed(now.files, batches);
    var (after, outcome) := Sync(now, desired, order, batches);
    hide Run, Wrote, Landed, Judge, StillOurs, AsWritten, Written, Recorded, SameAt, Seen, Later,
         LeavesOurs, LeavesAsWritten;
    ManifestRecordsWrites(files, h);
    forall p ensures Judge(now, desired, p).Conflict? <==> !AsWritten(now.files, wrote, p) {
      ConflictIsNotAsWritten(now, wrote, desired, p);
    }
    SyncResult(now, desired, order, batches);
    hide Sync;
    forall p | !SameAt(after.files, found, p)
      ensures outcome.Committed? && p in Planned(now, desired)
      ensures AsWritten(Seen(now.files, order, batches, p), wrote, p)
      ensures AsWritten(found, wrote, p) <==>
        (p in Later(order, batches, p) ==> LeavesAsWritten(Later(order, batches, p)[p], wrote, p))
    {
      SameIsSame(found, p);
      if p !in Touched(now, desired) {
        WrittenApart(found, Touched(now, desired), desired, p);
      }
      OverwritesOnlyOurs(now, desired, order, batches, p);
      OursIsAsWritten(Seen(now.files, order, batches, p), wrote, p);
      OursIsAsWritten(found, wrote, p);
      if p in Later(order, batches, p) {
        LeavesOursIsAsWritten(Later(order, batches, p)[p], wrote, p);
      }
    }
  }

  // ------------------------------------------------------------------- removal

  /** What the user's own edits alone would have made of the files. */
  function UserRun(files: Files, h: seq<Event>): Files {
    if h == [] then files else Landed(UserRun(files, h[..|h| - 1]), h[|h| - 1].batches)
  }

  predicate OnlyDeletes(edits: Edits, manifest: map<Path, Digest>) {
    forall p :: p in edits && p in manifest ==> edits[p].None?
  }

  /** Nothing is written to a path about to be created once it has been looked at. */
  predicate LeavesCreated(st: State, e: Event) {
    e.Synced? ==> forall p :: p in e.desired && p !in st.manifest && p in Later(e.order, e.batches, p) ==>
      Later(e.order, e.batches, p)[p].None?
  }

  /** The user may delete a managed file but leaves nothing at a managed path, nor
      at one that a sync has just looked at in order to create it. */
  predicate KeepsOff(st: State, h: seq<Event>) {
    h != [] ==>
      KeepsOff(st, h[..|h| - 1])
      && OnlyDeletes(Merged(h[|h| - 1].batches), Run(st, h[..|h| - 1]).manifest)
      && LeavesCreated(Run(st, h[..|h| - 1]), h[|h| - 1])
  }

  /** The project is the user's files with the managed files laid over
      otherwise free paths. */
  ghost predicate Layered(st: State, user: Files) {
    forall p ::
      if p in st.manifest then p !in user && StillOurs(st.files, st.manifest, p)
      else SameAt(st.files, user, p)
  }

  lemma EditsKeepLayers(st: State, user: Files, edits: Edits)
    requires Layered(st, user)
    requires OnlyDeletes(edits, st.manifest)
    ensures Layered(State(Edited(st.files, edits), st.manifest), Edited(user, edits))
  {}

  lemma CommitKeepsLayers(st: State, user: Files, touched: set<Path>, desired: Desired)
    requires Layered(st, user)
    requires forall p :: p in touched ==> StillOurs(st.files, st.manifest, p)
    ensures Layered(State(Written(st.files, touched, desired), Recorded(st.manifest, touched, desired)), user)
  {}

  lemma LandedKeepsLayers(st: State, user: Files, batches: seq<Edits>)
    requires Layered(st, user) && OnlyDeletes(Merged(batches), st.manifest)
    ensures Layered(State(Landed(st.files, batches), st.manifest), Landed(user, batches))
  {
    hide *;
    LandedIsMerged(st.files, batches);
    LandedIsMerged(user, batches);
    EditsKeepLayers(st, user, Merged(batches));
  }

  /** What a sync is about to change is still its own at the commit. */
  lemma TouchedStaysOurs(st: State, user: Files, desired: Desired, order: seq<Path>, batches: seq<Edits>, p: Path)
    requires Layered(State(Landed(st.files, batches), st.manifest), user)
    requires LeavesCreated(st, Synced(desired, order, batches))
    requires Sync(st, desired, order, batches).1.Committed? && p in Touched(st, desired)
    ensures StillOurs(Landed(st.files, batches), st.manifest, p)
  {
    hide Sync, Landed, Later, Seen, Judge;
    OverwritesOnlyOurs(st, desired, order, batches, p);
  }

  lemma SyncKeepsLayers(st: State, user: Files, desired: Desired, order: seq<Path>, batches: seq<Edits>)
    requires Layered(st, user) && OnlyDeletes(Merged(batches), st.manifest)
    requires LeavesCreated(st, Synced(desired, order, batches))
    ensures Layered(Sync(st, desired, order, batches).0, Landed(user, batches))
  {
    hide *;
    LandedKeepsLayers(st, user, batches);
    SyncResult(st, desired, order, batches);
    if Sync(st, desired, order, batches).1.Committed? {
      forall p | p in Touched(st, desired)
        ensures StillOurs(Landed(st.files, batches), st.manifest, p)
      {
        TouchedStaysOurs(st, Landed(user, batches), desired, order, batches, p);
      }
      CommitKeepsLayers(State(Landed(st.files, batches), st.manifest), Landed(user, batches),
                        Touched(st, desired), desired);
    }
  }

  lemma {:induction false} HistoryKeepsLayers(files: Files, h: seq<Event>)
    requires KeepsOff(State(files, map[]), h)
    ensures Layered(Run(State(files, map[]), h), UserRun(files, h))
  {
    hide Sync, Landed, OnlyDeletes, LeavesCreated, Merged;
    if h != [] {
      var start := h[..|h| - 1];
      HistoryKeepsLayers(files, start);
      hide Layered;
      var st, user, e := Run(State(files, map[]), start), UserRun(files, start), h[|h| - 1];
      if e.Edit? {
        LandedKeepsLayers(st, user, e.batches);
      } else {
        SyncKeepsLayers(st, user, e.desired, e.order, e.batches);
      }
    }
  }

  /** Exactly when a removal goes through. */
  lemma RemovalSucceeds(st: State, order: seq<Path>)
    ensures Sync(st, map[], order, []).1.Committed? <==>
            forall p :: p in st.manifest ==> StillOurs(st.files, st.manifest, p)
  {
    assert forall p :: Seen(st.files, order, [], p) == st.files;
    assert forall p :: p in st.manifest ==>
      (Judge(st, map[], p).Conflict? <==> !StillOurs(st.files, st.manifest, p));
    hide Landed, Judge, StillOurs, Written, Recorded, Seen;
  }

  lemma RemovalRemoves(st: State, order: seq<Path>)
    requires Sync(st, map[], order, []).1.Committed?
    ensures Sync(st, map[], order, []).0 == State(st.files - st.manifest.Keys, map[])
  {
    hide Sync, StillOurs;
    SyncResult(st, map[], order, []);
    forall p | p in st.manifest ensures p in Touched(st, map[]) {
      CommitIsSound(st, map[], order, [], p);
    }
  }

  lemma LayersComeOff(st: State, user: Files)
    requires Layered(st, user)
    ensures forall p :: p in st.manifest ==> StillOurs(st.files, st.manifest, p)
    ensures st.files - st.manifest.Keys == user
  {}

  /** Removal undoes every sync: after any history of syncs towards any desired
      maps, with user edits anywhere but at managed paths (deletions aside), a
      removal commits and reports so, leaves an empty manifest, and leaves exactly
      the files the user's own edits would have left without Latchkit. */
  lemma RemovalUndoesSyncs(files: Files, h: seq<Event>, order: seq<Path>)
    requires KeepsOff(State(files, map[]), h)
    ensures Sync(Run(State(files, map[]), h), map[], order, [])
         == (State(UserRun(files, h), map[]), Committed)
    ensures Described(State(UserRun(files, h), map[]), map[])
  {
    assert Described(State(UserRun(files, h), map[]), map[]) by {
      assert Planned(State(UserRun(files, h), map[]), map[]) == {};
    }
    hide *;
    var st := Run(State(files, map[]), h);
    var user := UserRun(files, h);
    HistoryKeepsLayers(files, h);
    LayersComeOff(st, user);
    RemovalSucceeds(st, order);
    RemovalRemoves(st, order);
  }

  // ---------------------------------------------------------------- the program

  class Project {
    var files: Files
    var manifest: map<Path, Digest>

    ghost function Abstract(): (st: State)
      reads this
      ensures st.files == files && st.manifest == manifest
    {
      State(files, manifest)
    }

    /** `makePlan`: each path of the manifest or the desired map is planned
        with its action or reported with its conflict. `paths` is the order taken. */
    method MakePlan(desired: Desired)
      returns (changes: seq<Change>, conflicts: seq<Complaint>, paths: seq<Path>)
      ensures Lists(paths, Planned(Abstract(), desired))
      ensures changes == Changes(Abstract(), desired, paths)
      ensures conflicts == Complaints(Abstract(), desired, paths)
    {
      var all := Enumerate(manifest.Keys + desired.Keys);
      changes, conflicts := [], [];
      for n := 0 to |all|
        invariant changes == Changes(Abstract(), desired, all[..n])
        invariant conflicts == Complaints(Abstract(), desired, all[..n])
      {
        var p := all[n];
        assert all[..n + 1][..n] == all[..n] && all[..n + 1][n] == p;
        match Read(files, p) {
          case Refused => conflicts := conflicts + [Complaint(p, CannotRead)];
          case Absent =>
            changes := changes + [Change(if p in desired then Create else Remove, p)];
          case Present(current) =>
            if p !in manifest {
              conflicts := conflicts + [Complaint(p, NotManaged)];
            } else if Sha256(current) != manifest[p] {
              conflicts := conflicts + [Complaint(p, LocallyEdited)];
            } else {
              changes := changes + [Change(
                if p !in desired then Remove
                else if current == desired[p] then Unchanged else Update, p)];
            }
        }
      }
      paths := all;
      assert all[..|all|] == all;
    }

    /** `describeSyncPlan`: every planned path is read. */
    method Describe(desired: Desired) returns (ok: bool)
      ensures ok <==> Described(Abstract(), desired)
    {
      var left := manifest.Keys + desired.Keys;
      while left != {}
        invariant left <= Planned(Abstract(), desired)
        invariant forall p :: p in Planned(Abstract(), desired) && p !in left ==> !Read(files, p).Refused?
        decreases left
      {
        var p :| p in left;
        if Read(files, p).Refused? { return false; }
        left := left - {p};
      }
      ok := true;
    }

    /** The recheck of `applySync` before a path is changed. */
    predicate SecondLook(p: Path)
      reads this
      ensures SecondLook(p) <==> StillOurs(files, manifest, p)
    {
      var current := Read(files, p);
      !(current.Refused?
        || (current.Present? && (p !in manifest || Sha256(current.bytes) != manifest[p])))
    }

    /** `applySync`, for the batches of edits the user makes meanwhile and those that
        arrive after the commit. `order` lists the paths that are looked at again. A
        committed sync reports success only if the new plan can be described. */
    method ApplySync(desired: Desired, batches: seq<Edits>, late: Edits)
      returns (outcome: Outcome, reported: bool, order: seq<Path>)
      modifies this
      ensures var (after, result) := Sync(old(Abstract()), desired, order, batches);
              outcome == result
              && Abstract() ==
                 if outcome.Committed? then State(Edited(after.files, late), after.manifest) else after
      ensures reported <==> outcome.Committed? && Described(Abstract(), desired)
      ensures outcome != BlockedByConflict ==> Lists(order, Touched(old(Abstract()), desired))
    {
      ghost var st := Abstract();
      var start := files;
      var changes, conflicts, paths := MakePlan(desired);
      hide *;
      PlanIsComplete(st, desired, paths);
      order := Looks(changes);
      if conflicts != [] {
        SyncRefuses(st, desired, order, batches);
        files := Landed(start, batches);
        return BlockedByConflict, false, order;
      }
      ListsOnce(order, Touched(st, desired));
      var pending: Pending := map[];
      var nextManifest := manifest;
      var looked, landed := 0, 0;
      NothingTouched(manifest, desired);
      NothingLanded(start, batches);
      LooksSnoc([], Change(Unchanged, ""));
      assert changes[..0] == [];
      for n := 0 to |changes|
        invariant looked <= |order| && Looks(changes[..n]) == order[..looked]
        invariant landed == (if looked < |batches| then looked else |batches|)
        invariant files == Landed(start, batches[..landed]) && manifest == st.manifest
        invariant forall p :: p in order[..looked] ==> StillOurs(Seen(start, order, batches, p), manifest, p)
        invariant pending == PendingFor(Elements(order[..looked]), desired)
        invariant nextManifest == Recorded(manifest, Elements(order[..looked]), desired)
      {
        var change := changes[n];
        PlannedChange(st, desired, paths, n);
        LooksSnoc(changes[..n], change);
        LooksPrefix(changes, n + 1);
        assert changes[..n + 1] == changes[..n] + [change];
        if change.action == Unchanged {
          continue;
        }
        var p := change.path;
        assert order[looked] == p;
        if landed < |batches| {
          LandedMore(start, batches, landed);
          files := Edited(files, batches[landed]);
          landed := landed + 1;
        }
        SeenAt(start, order, batches, looked);
        if !SecondLook(p) {
          SyncGivesUp(st, desired, order, batches, p);
          files := Landed(start, batches);
          return ChangedDuringSync, false, order;
        }
        ElementsMore(order, looked);
        TouchedStep(manifest, Elements(order[..looked]), p, desired);
        if change.action == Remove {
          pending := pending[p := None];
          nextManifest := nextManifest - {p};
        } else {
          pending := pending[p := Some(desired[p])];
          nextManifest := nextManifest[p := Sha256(desired[p])];
        }
        looked := looked + 1;
      }
      assert changes[..|changes|] == changes && order[..|order|] == order;
      ElementsOf(order, Touched(st, desired));
      SyncCommits(st, desired, order, batches);
      UnsnappedIs(st, desired, Landed(start, batches), order);
      files := Landed(start, batches);
      if exists i :: 0 <= i < |order| && Read(files, order[i]).Refused? {
        return SnapshotRefused, false, order;
      }
      CarriedIsWritten(Landed(start, batches), Touched(st, desired), desired);
      files, manifest := Carried(files, pending), nextManifest;
      outcome := Committed;
      files := Edited(files, late);
      reported := Describe(desired);
    }
  }
}
