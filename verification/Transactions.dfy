/** Registered transactions and their recovery, of src/installer/transactions.ts, as
    states: the files and the journal, what recovery makes of them, and changes of
    files from outside. */
module Transactions {
  import opened Text
  import ManagedFiles

  type Files = map<string, string>

  const MANIFEST := ".latchkit/manifest.json"

  /** `snapshot`: the content of a file, or that there is none. */
  function At(files: Files, path: string): Option<string> {
    if path in files then Some(files[path]) else None
  }

  /** `restoreSnapshot`. */
  function Put(files: Files, path: string, content: Option<string>): Files {
    match content case None => files - {path} case Some(bytes) => files[path := bytes]
  }

  datatype Entry = Entry(before: Option<string>, after: Option<string>)

  datatype Journal = Journal(resources: map<string, Entry>, manifest: Entry)

  /** The project's files and, while a transaction is open, its journal. */
  datatype State = State(files: Files, journal: Option<Journal>)

  function Target(files: Files, j: Journal, after: bool, p: string): Option<string> {
    if p in j.resources then (if after then j.resources[p].after else j.resources[p].before)
    else if p == MANIFEST then (if after then j.manifest.after else j.manifest.before)
    else At(files, p)
  }

  /** Everything a journal names, brought to its `before` or its `after`. */
  function Reverted(files: Files, j: Journal): Files {
    map p | p in files.Keys + j.resources.Keys + {MANIFEST} && Target(files, j, false, p).Some?
      :: Target(files, j, false, p).value
  }

  function Applied(files: Files, j: Journal): Files {
    map p | p in files.Keys + j.resources.Keys + {MANIFEST} && Target(files, j, true, p).Some?
      :: Target(files, j, true, p).value
  }

  /** Anything a transaction with this journal can have in place before it is
      settled: the manifest comes last and goes back never. */
  predicate Open(s: State, start: Files, j: Journal) {
    s.journal == Some(j) && MANIFEST !in j.resources
    && (forall p :: p in j.resources ==> At(s.files, p) in {j.resources[p].before, j.resources[p].after})
    && At(s.files, MANIFEST) in {j.manifest.before, j.manifest.after}
    && (At(s.files, MANIFEST) != j.manifest.before ==>
          forall p :: p in j.resources ==> At(s.files, p) == j.resources[p].after)
    && Reverted(s.files, j) == start
  }

  /** All or nothing. */
  predicate Settled(s: State, start: Files, j: Journal) {
    s.journal.None? && (s.files == start || s.files == Applied(start, j))
  }

  predicate Whole(s: State, start: Files, j: Journal) {
    Open(s, start, j) || Settled(s, start, j)
  }

  /** What a recovery that completes makes of an open transaction. */
  function Recovered(s: State): State {
    match s.journal
    case None => s
    case Some(j) => State(if At(s.files, MANIFEST) == j.manifest.before then Reverted(s.files, j) else s.files, None)
  }

  lemma AtPut(files: Files, p: string, content: Option<string>, q: string)
    ensures At(Put(files, p, content), q) == if q == p then content else At(files, q)
  {}

  lemma SameFiles(a: Files, b: Files)
    requires forall p :: At(a, p) == At(b, p)
    ensures a == b
  {
    forall p ensures p in a <==> p in b
      ensures p in a ==> a[p] == b[p]
    {
      assert At(a, p) == At(b, p);
    }
  }

  lemma AtReverted(files: Files, j: Journal, p: string)
    ensures At(Reverted(files, j), p) == Target(files, j, false, p)
    ensures At(Applied(files, j), p) == Target(files, j, true, p)
  {}

  /** Every resource and the manifest go to their recorded state, and nothing else
      changes. */
  lemma RevertedAndApplied(files: Files, j: Journal, p: string)
    ensures At(Reverted(files, j), p) ==
      if p in j.resources then j.resources[p].before
      else if p == ".latchkit/manifest.json" then j.manifest.before
      else if p in files then Some(files[p]) else None
    ensures At(Applied(files, j), p) ==
      if p in j.resources then j.resources[p].after
      else if p == ".latchkit/manifest.json" then j.manifest.after
      else if p in files then Some(files[p]) else None
  {
    hide Reverted, Applied;
    AtReverted(files, j, p);
  }

  /** Replacing something the journal names reverts to the same files. */
  lemma PutReverts(files: Files, j: Journal, p: string, content: Option<string>)
    requires p in j.resources || p == MANIFEST
    ensures Reverted(Put(files, p, content), j) == Reverted(files, j)
  {}

  /** Everything the journal names is in its recorded state before. */
  predicate AllBefore(files: Files, j: Journal) {
    At(files, MANIFEST) == j.manifest.before && forall p :: p in j.resources ==> At(files, p) == j.resources[p].before
  }

  /** Everything the journal names is in its recorded state after. */
  predicate AllAfter(files: Files, j: Journal) {
    At(files, MANIFEST) == j.manifest.after && forall p :: p in j.resources ==> At(files, p) == j.resources[p].after
  }

  /** With everything in its `before` or everything in its `after`, the files
      are the ones before the transaction or the ones it was to make. */
  lemma WholeFiles(s: State, start: Files, j: Journal)
    requires Open(s, start, j)
    ensures AllBefore(s.files, j) ==> s.files == start
    ensures AllAfter(s.files, j) ==> s.files == Applied(start, j)
  {
    hide Reverted, Applied;
    forall p
      ensures At(start, p) == Target(s.files, j, false, p)
      ensures At(Applied(start, j), p) == Target(start, j, true, p)
    {
      AtReverted(s.files, j, p);
      AtReverted(start, j, p);
    }
    hide At;
    if AllBefore(s.files, j) {
      SameFiles(s.files, start);
    }
    if AllAfter(s.files, j) {
      SameFiles(s.files, Applied(start, j));
    }
  }

  /** Recovery always ends in all or nothing, whatever was in place: in all, exactly
      when the manifest was no longer as before. */
  lemma RecoveryIsWhole(s: State, start: Files, j: Journal)
    requires Whole(s, start, j)
    ensures Settled(Recovered(s), start, j)
    ensures Open(s, start, j) ==>
      Recovered(s).files == if At(s.files, MANIFEST) == j.manifest.before then start else Applied(start, j)
    ensures Settled(s, start, j) ==> Recovered(s) == s
  {
    if Open(s, start, j) && At(s.files, MANIFEST) != j.manifest.before {
      WholeFiles(s, start, j);
    }
    hide Reverted, Applied, At;
  }

  /** The journal of a transaction that is about to begin. */
  function JournalOf(files: Files, changes: map<string, Option<string>>, manifest: string): Journal {
    Journal(map p | p in changes :: Entry(At(files, p), changes[p]), Entry(At(files, MANIFEST), Some(manifest)))
  }

  /** One resource replaced while the manifest is as before. */
  lemma ResourceKeepsOpen(s: State, start: Files, j: Journal, p: string, content: Option<string>)
    requires Open(s, start, j) && p in j.resources && At(s.files, MANIFEST) == j.manifest.before
    requires content in {j.resources[p].before, j.resources[p].after}
    ensures Open(s.(files := Put(s.files, p, content)), start, j)
    ensures At(Put(s.files, p, content), MANIFEST) == j.manifest.before
    ensures forall q :: At(Put(s.files, p, content), q) == if q == p then content else At(s.files, q)
  {
    PutReverts(s.files, j, p, content);
    forall q ensures At(Put(s.files, p, content), q) == if q == p then content else At(s.files, q) {
      AtPut(s.files, p, content, q);
    }
    hide Reverted, At, Put;
  }

  /** The manifest written once every resource is in place. */
  lemma ManifestKeepsOpen(s: State, start: Files, j: Journal)
    requires Open(s, start, j)
    requires forall p :: p in j.resources ==> At(s.files, p) == j.resources[p].after
    ensures Open(s.(files := Put(s.files, MANIFEST, j.manifest.after)), start, j)
    ensures Put(s.files, MANIFEST, j.manifest.after) == Applied(start, j)
  {
    var after := s.(files := Put(s.files, MANIFEST, j.manifest.after));
    PutReverts(s.files, j, MANIFEST, j.manifest.after);
    forall q ensures At(after.files, q) == if q == MANIFEST then j.manifest.after else At(s.files, q) {
      AtPut(s.files, MANIFEST, j.manifest.after, q);
    }
    hide Reverted, Applied, At, Put;
    WholeFiles(after, start, j);
  }

  // -------------------------------------------------- changes from outside

  type Edits = map<string, Option<string>>

  /** The files a journal names. */
  function Names(j: Journal): set<string> { j.resources.Keys + {MANIFEST} }

  /** What changes from outside make of some files. */
  function Edited(files: Files, edits: Edits): Files {
    map p | p in files.Keys + edits.Keys && (p in edits ==> edits[p].Some?)
      :: if p in edits then edits[p].value else files[p]
  }

  /** What stands at a path after changes from outside. */
  function AfterEdits(content: Option<string>, edits: Edits, p: string): Option<string> {
    if p in edits then edits[p] else content
  }

  lemma AtEdited(files: Files, edits: Edits, q: string)
    ensures At(Edited(files, edits), q) == AfterEdits(At(files, q), edits, q)
  {}

  lemma TargetElsewhere(a: Files, b: Files, j: Journal, q: string)
    ensures Target(a, j, false, q)
         == if q in Names(j) then Target(b, j, false, q) else At(a, q)
  {}

  /** Changes from outside that hit no named file leave an open transaction open. */
  lemma EditsElsewhereStayOpen(s: State, start: Files, j: Journal, edits: Edits)
    requires Open(s, start, j) && edits.Keys !! Names(j)
    ensures Open(s.(files := Edited(s.files, edits)), Edited(start, edits), j)
  {
    hide Reverted, At, Edited, Target;
    var after := Edited(s.files, edits);
    forall q
      ensures At(after, q) == if q in edits then edits[q] else At(s.files, q)
      ensures At(Reverted(after, j), q) == At(Edited(start, edits), q)
    {
      AtEdited(s.files, edits, q);
      AtEdited(start, edits, q);
      AtReverted(after, j, q);
      AtReverted(s.files, j, q);
      TargetElsewhere(after, s.files, j, q);
      TargetElsewhere(s.files, s.files, j, q);
    }
    SameFiles(Reverted(after, j), Edited(start, edits));
  }

  /** A further change from outside that hits no named file keeps all or nothing. */
  lemma WholeTick(s: State, base: Files, j: Journal, edits: Edits)
    requires Whole(s, base, j) && MANIFEST !in j.resources && edits.Keys !! Names(j)
    ensures Whole(s.(files := Edited(s.files, edits)), Edited(base, edits), j)
    ensures Open(s, base, j) ==> Open(s.(files := Edited(s.files, edits)), Edited(base, edits), j)
    ensures Applied(Edited(base, edits), j) == Edited(Applied(base, j), edits)
  {
    forall q ensures At(Applied(Edited(base, edits), j), q) == At(Edited(Applied(base, j), edits), q) {
      AtReverted(Edited(base, edits), j, q);
      AtReverted(base, j, q);
      AtEdited(Applied(base, j), edits, q);
      AtEdited(base, edits, q);
    }
    SameFiles(Applied(Edited(base, edits), j), Edited(Applied(base, j), edits));
    if Open(s, base, j) {
      EditsElsewhereStayOpen(s, base, j, edits);
    }
    hide Open, Applied, Edited;
  }

  /** A named file is in neither of its recorded states. */
  predicate Foreign(files: Files, j: Journal, p: string) {
    if p in j.resources then At(files, p) !in {j.resources[p].before, j.resources[p].after}
    else p == MANIFEST && At(files, p) !in {j.manifest.before, j.manifest.after}
  }

  /** What blocks a recovery. */
  predicate Conflicted(files: Files, j: Journal) {
    exists p :: p in Names(j) && Foreign(files, j, p)
  }

  /** Exactly when a recovery is blocked: some resource, or the manifest, is neither
      as recorded before the transaction nor as recorded after it. */
  lemma ConflictedExactlyWhen(files: Files, j: Journal)
    requires ".latchkit/manifest.json" !in j.resources
    ensures Conflicted(files, j) <==>
      (exists p :: p in j.resources && At(files, p) != j.resources[p].before && At(files, p) != j.resources[p].after)
      || (At(files, ".latchkit/manifest.json") != j.manifest.before
          && At(files, ".latchkit/manifest.json") != j.manifest.after)
  {
    hide At;
    if exists p :: p in j.resources && At(files, p) != j.resources[p].before && At(files, p) != j.resources[p].after {
      var p :| p in j.resources && At(files, p) != j.resources[p].before && At(files, p) != j.resources[p].after;
      assert p in Names(j) && Foreign(files, j, p);
    }
    if At(files, MANIFEST) !in {j.manifest.before, j.manifest.after} {
      assert MANIFEST in Names(j) && Foreign(files, j, MANIFEST);
    }
  }

  /** What a recovery that began at `s0`, without conflict, can have in place: it
      puts back resources only, and only while the manifest is as before. */
  ghost predicate Recovering(s: State, s0: State, j: Journal) {
    s == Recovered(s0)
    || (s.journal == Some(j)
        && forall q :: At(s.files, q) == At(s0.files, q)
             || (q in j.resources && At(s0.files, MANIFEST) == j.manifest.before
                 && At(s.files, q) == j.resources[q].before))
  }

  lemma RecoveringStarts(s: State, j: Journal)
    requires s.journal == Some(j)
    ensures Recovering(s, s, j)
  {}

  lemma RecoveringGoesOn(s: State, s0: State, j: Journal, p: string)
    requires Recovering(s, s0, j) && s.journal == Some(j) && p in j.resources
    requires At(s0.files, MANIFEST) == j.manifest.before
    requires s0.journal == Some(j)
    ensures Recovering(s.(files := Put(s.files, p, j.resources[p].before)), s0, j)
  {
    forall q
      ensures At(Put(s.files, p, j.resources[p].before), q)
           == if q == p then j.resources[p].before else At(s.files, q)
    {
      AtPut(s.files, p, j.resources[p].before, q);
    }
    hide At, Put;
  }

  /** The resources put back, a recovery is as good as done. */
  lemma RecoveringEnds(s: State, s0: State, j: Journal)
    requires Recovering(s, s0, j) && s.journal == Some(j) && s0.journal == Some(j) && MANIFEST !in j.resources
    requires At(s0.files, MANIFEST) == j.manifest.before ==>
      forall p :: p in j.resources ==> At(s.files, p) == j.resources[p].before
    ensures s.(journal := None) == Recovered(s0)
  {
    var end := if At(s0.files, MANIFEST) == j.manifest.before then Reverted(s0.files, j) else s0.files;
    forall q ensures At(s.files, q) == At(end, q) {
      AtReverted(s0.files, j, q);
    }
    SameFiles(s.files, end);
  }

  /** An interrupted recovery has overwritten nothing that differs from both
      recorded states, and recovering again ends where it would have ended. */
  lemma RecoveringAgain(s: State, s0: State, j: Journal)
    requires Recovering(s, s0, j) && s.journal == Some(j) && s0.journal == Some(j) && MANIFEST !in j.resources
    requires !Conflicted(s0.files, j)
    ensures !Conflicted(s.files, j)
    ensures Recovered(s) == Recovered(s0)
    ensures forall q :: At(s.files, q) != At(s0.files, q) ==>
      q in j.resources && At(s0.files, q) == j.resources[q].after && At(s.files, q) == j.resources[q].before
  {
    hide Reverted;
    forall q | q in Names(j) ensures !Foreign(s.files, j, q) {
      assert !Foreign(s0.files, j, q);
    }
    forall q | At(s.files, q) != At(s0.files, q)
      ensures q in j.resources && At(s0.files, q) == j.resources[q].after && At(s.files, q) == j.resources[q].before
    {
      assert !Foreign(s0.files, j, q);
    }
    if At(s0.files, MANIFEST) == j.manifest.before {
      forall q ensures At(Reverted(s.files, j), q) == At(Reverted(s0.files, j), q) {
        AtReverted(s.files, j, q);
        AtReverted(s0.files, j, q);
      }
      SameFiles(Reverted(s.files, j), Reverted(s0.files, j));
    } else {
      SameFiles(s.files, s0.files);
    }
  }

  /** Without changes from outside, every moment of a recovery is whole. */
  lemma RecoveringIsWhole(s: State, s0: State, start: Files, j: Journal)
    requires Whole(s0, start, j) && s0.journal == Some(j) && Recovering(s, s0, j)
    ensures Whole(s, start, j)
  {
    RecoveryIsWhole(s0, start, j);
    if s != Recovered(s0) {
      forall q ensures At(Reverted(s.files, j), q) == At(Reverted(s0.files, j), q) {
        AtReverted(s.files, j, q);
        AtReverted(s0.files, j, q);
      }
      SameFiles(Reverted(s.files, j), Reverted(s0.files, j));
    }
    hide Reverted, Applied, Recovered;
  }

  /** The record of a named file. */
  function EntryOf(j: Journal, p: string): Entry {
    if p in j.resources then j.resources[p] else j.manifest
  }

  /** The resources a recovery puts back, in their order. */
  function Changed(files: Files, j: Journal, order: seq<string>): (changed: seq<string>)
    ensures forall p :: p in changed <==> p in order && At(files, p) != EntryOf(j, p).before
  {
    if order == [] then []
    else
      var most, p := Changed(files, j, order[..|order| - 1]), order[|order| - 1];
      if At(files, p) != EntryOf(j, p).before then most + [p] else most
  }

  lemma NamedStay(files: Files, edits: Edits, j: Journal)
    requires edits.Keys !! Names(j)
    ensures forall p :: p in Names(j) ==> At(Edited(files, edits), p) == At(files, p)
  {
    forall p | p in Names(j) ensures At(Edited(files, edits), p) == At(files, p) {
      AtEdited(files, edits, p);
    }
  }

  lemma ListedIn(order: seq<string>, names: set<string>, i: nat)
    requires Lists(order, names) && i < |order|
    ensures order[i] in names && order[i] !in order[..i]
  {}

  lemma NotListed(order: seq<string>, names: set<string>, p: string)
    requires Lists(order, names) && p !in names
    ensures p !in order
  {}

  lemma EntryIs(j: Journal, p: string)
    ensures p in j.resources ==> EntryOf(j, p) == j.resources[p]
  {}

  /** What a recovery that finds `seen` puts back. */
  function PutsBack(seen: Files, j: Journal, order: seq<string>): seq<string> {
    if At(seen, MANIFEST) == j.manifest.before then Changed(seen, j, order) else []
  }

  lemma {:induction false} ChangedLists(files: Files, j: Journal, order: seq<string>, names: set<string>)
    requires Lists(order, names)
    ensures var changed := Changed(files, j, order);
            Lists(changed, set p | p in names && At(files, p) != EntryOf(j, p).before)
  {
    hide At, EntryOf;
    if order != [] {
      var n := |order| - 1;
      assert Lists(order[..n], names - {order[n]});
      ChangedLists(files, j, order[..n], names - {order[n]});
    }
  }

  lemma RevertedElsewhere(files: Files, j: Journal, edits: Edits)
    requires edits.Keys !! Names(j)
    ensures Reverted(Edited(files, edits), j) == Edited(Reverted(files, j), edits)
  {
    forall q
      ensures At(Reverted(Edited(files, edits), j), q) == At(Edited(Reverted(files, j), edits), q)
    {
      AtEdited(files, edits, q);
      AtEdited(Reverted(files, j), edits, q);
      AtReverted(Edited(files, edits), j, q);
      AtReverted(files, j, q);
    }
    SameFiles(Reverted(Edited(files, edits), j), Edited(Reverted(files, j), edits));
  }

  /** Changes from outside elsewhere go along with a recovery. */
  lemma RecoveringTick(s: State, s0: State, j: Journal, edits: Edits)
    requires Recovering(s, s0, j) && s0.journal == Some(j) && edits.Keys !! Names(j)
    ensures Recovering(s.(files := Edited(s.files, edits)), s0.(files := Edited(s0.files, edits)), j)
  {
    hide Reverted, Edited, At;
    RevertedElsewhere(s0.files, j, edits);
    NamedStay(s0.files, edits, j);
    NamedStay(s.files, edits, j);
    if s != Recovered(s0) {
      forall q
        ensures At(Edited(s.files, edits), q) == AfterEdits(At(s.files, q), edits, q)
        ensures At(Edited(s0.files, edits), q) == AfterEdits(At(s0.files, q), edits, q)
      {
        AtEdited(s.files, edits, q);
        AtEdited(s0.files, edits, q);
      }
    }
  }

  /** The end of a recovery belongs to it. */
  lemma RecoveringDone(s0: State, j: Journal)
    ensures Recovering(Recovered(s0), s0, j)
  {}

  lemma PutElsewhere(files: Files, p: string, content: Option<string>)
    ensures forall q :: At(Put(files, p, content), q) == if q == p then content else At(files, q)
  {
    forall q ensures At(Put(files, p, content), q) == if q == p then content else At(files, q) {
      AtPut(files, p, content, q);
    }
  }

  lemma ConflictedIs(files: Files, j: Journal)
    ensures Conflicted(files, j) <==> exists p :: p in Names(j) && Foreign(files, j, p)
  {}

  lemma PutsBackNow(seen: Files, j: Journal, order: seq<string>)
    ensures PutsBack(seen, j, order) == if At(seen, MANIFEST) == j.manifest.before then Changed(seen, j, order) else []
  {}

  /** What is put back is in its state after, unless the recovery is blocked. */
  lemma PutsBackIs(seen: Files, j: Journal, order: seq<string>)
    requires Lists(order, j.resources.Keys) && !Conflicted(seen, j)
    ensures var changed := PutsBack(seen, j, order);
            Lists(changed, set p | p in changed)
            && forall p :: p in changed ==> p in j.resources && At(seen, p) == j.resources[p].after
  {
    ChangedLists(seen, j, order, j.resources.Keys);
    forall p | p in PutsBack(seen, j, order)
      ensures p in j.resources && At(seen, p) == j.resources[p].after
    {
      assert p in order && !Foreign(seen, j, p);
    }
    hide At;
  }

  lemma OpenRecovers(s: State, base: Files, j: Journal)
    requires Open(s, base, j)
    ensures !Conflicted(s.files, j)
    ensures Recovered(s).files == if At(s.files, MANIFEST) == j.manifest.before then base else Applied(base, j)
  {
    WholeFiles(s, base, j);
    hide Reverted, Applied, At;
  }

  /** A recovery ends where recovering what is in place meanwhile would end. */
  lemma RecoveringSame(s: State, s0: State, j: Journal)
    requires Recovering(s, s0, j) && s0.journal == Some(j) && MANIFEST !in j.resources
    ensures Recovered(s) == Recovered(s0)
  {
    if s != Recovered(s0) {
      if At(s0.files, MANIFEST) == j.manifest.before {
        forall q ensures At(Reverted(s.files, j), q) == At(Reverted(s0.files, j), q) {
          AtReverted(s.files, j, q);
          AtReverted(s0.files, j, q);
        }
        SameFiles(Reverted(s.files, j), Reverted(s0.files, j));
      } else {
        SameFiles(s.files, s0.files);
      }
    }
    hide Reverted;
  }

  lemma JournalHas(files: Files, changes: map<string, Option<string>>, manifest: string)
    ensures var j := JournalOf(files, changes, manifest);
            j.resources.Keys == changes.Keys && j.manifest.before == At(files, MANIFEST)
            && forall p :: p in changes ==> j.resources[p].before == At(files, p)
  {
    hide At;
  }

  lemma RecoveredNone(files: Files)
    ensures Recovered(State(files, None)).files == files
  {}

  lemma SettledIs(start: Files, j: Journal)
    ensures Settled(State(start, None), start, j)
  {}

  lemma PutsBackListed(seen: Files, j: Journal, order: seq<string>)
    requires Lists(order, j.resources.Keys)
    ensures forall p :: p in PutsBack(seen, j, order) ==> p in j.resources
  {
    hide At;
  }

  // -------------------------------------------------- the commit of a sync

  function Contents(files: ManagedFiles.Files): Files {
    map p | p in files && files[p].File? :: files[p].bytes
  }

  /** The transaction of a sync makes exactly the specified commit: the touched
      files as desired or gone, and the new manifest. */
  lemma SyncCommitsByTransaction(
      files: ManagedFiles.Files, touched: set<string>, desired: ManagedFiles.Desired, manifest: string)
    requires MANIFEST !in touched
    requires forall p :: p in touched && p in files ==> files[p].File?
    ensures Applied(Contents(files), JournalOf(Contents(files), ManagedFiles.PendingFor(touched, desired), manifest))
         == Contents(ManagedFiles.Written(files, touched, desired))[MANIFEST := manifest]
  {
    var j := JournalOf(Contents(files), ManagedFiles.PendingFor(touched, desired), manifest);
    var after := Contents(ManagedFiles.Written(files, touched, desired))[MANIFEST := manifest];
    forall p ensures At(Applied(Contents(files), j), p) == At(after, p) {
      AtReverted(Contents(files), j, p);
    }
    SameFiles(Applied(Contents(files), j), after);
  }
}
