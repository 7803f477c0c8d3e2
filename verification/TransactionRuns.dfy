/** `applyRegisteredTransaction` and `recoverTransaction` of
    src/installer/transactions.ts step by step: any step may fail, a crash may come
    after any of them, and files may be changed from outside before any of them. */
module TransactionRuns {
  import opened Text
  import opened Transactions

  /** How one step ends; a replacement that fails may have landed all the same. */
  datatype Ending = Well | Fails(landed: bool)

  /** What the environment does around one step: the changes from outside that
      arrive before it, and its ending. */
  datatype Moment = Moment(edits: Edits, ending: Ending)

  /** The moment of the step at this time; beyond the script all goes well. */
  function MomentAt(script: seq<Moment>, clock: nat): Moment {
    if clock < |script| then script[clock] else Moment(map[], Well)
  }

  predicate WellAt(script: seq<Moment>, clock: nat) { MomentAt(script, clock).ending.Well? }

  /** A replacement at this time takes place. */
  predicate LandsAt(script: seq<Moment>, clock: nat) {
    WellAt(script, clock) || MomentAt(script, clock).ending.landed
  }

  predicate AllWell(script: seq<Moment>, clock: nat, count: nat) {
    forall t :: clock <= t < clock + count ==> WellAt(script, t)
  }

  /** All changes from outside in a stretch of time, later ones prevailing. */
  function Since(script: seq<Moment>, start: nat, end: nat): Edits {
    if end <= start then map[] else Since(script, start, end - 1) + MomentAt(script, end - 1).edits
  }

  /** No change from outside hits a named file in this stretch of time. */
  predicate Quiet(script: seq<Moment>, start: nat, end: nat, j: Journal) {
    forall t :: start <= t < end ==> MomentAt(script, t).edits.Keys !! Names(j)
  }

  /** Some files with the changes from outside since then. */
  function Base(start: Files, script: seq<Moment>, from: nat, now: nat): Files {
    Edited(start, Since(script, from, now))
  }

  lemma NoEdits(start: Files, script: seq<Moment>, from: nat)
    ensures Base(start, script, from, from) == start && Since(script, from, from) == map[]
  {}

  lemma BaseTick(start: Files, script: seq<Moment>, from: nat, now: nat)
    requires from <= now
    ensures Base(start, script, from, now + 1) == Edited(Base(start, script, from, now), MomentAt(script, now).edits)
  {}

  lemma {:induction false} QuietSince(script: seq<Moment>, start: nat, end: nat, j: Journal)
    requires Quiet(script, start, end, j)
    ensures Since(script, start, end).Keys !! Names(j)
  {
    hide Names;
    if start < end {
      QuietSince(script, start, end - 1, j);
    }
  }

  // -------------------------------------------------------- what is overwritten

  /** A replacement that took place: when its path was last looked at before (no
      change from outside up to then counts against it), when it was made, what
      it found and what it wrote. */
  datatype Write = Write(path: string, since: nat, at: nat, found: Option<string>, wrote: Option<string>)

  /** The replacement did away with something that no record has. */
  predicate Loses(w: Write, j: Journal) {
    w.path in Names(j) && w.found !in {EntryOf(j, w.path).before, EntryOf(j, w.path).after}
  }

  /** The last change from outside since the path was looked at, if any, left
      something that no record has. */
  predicate HitInWindow(w: Write, script: seq<Moment>, j: Journal) {
    var edits := Since(script, w.since, w.at + 1);
    w.path in Names(j) && w.path in edits
    && edits[w.path] !in {EntryOf(j, w.path).before, EntryOf(j, w.path).after}
  }

  /** What stands at a path, by the changes from outside and the replacements made. */
  function Content(first: Files, script: seq<Moment>, clock: nat, log: seq<Write>, q: string): Option<string> {
    if log == [] then AfterEdits(At(first, q), Since(script, 0, clock), q)
    else
      var last := log[|log| - 1];
      if last.path == q then AfterEdits(last.wrote, Since(script, last.at + 1, clock), q)
      else Content(first, script, clock, log[..|log| - 1], q)
  }

  ghost predicate Replays(files: Files, first: Files, script: seq<Moment>, clock: nat, log: seq<Write>) {
    (forall q :: At(files, q) == Content(first, script, clock, log, q))
    && forall i :: 0 <= i < |log| ==> log[i].at < clock
  }

  lemma AfterEditsTick(content: Option<string>, script: seq<Moment>, from: nat, now: nat, q: string)
    requires from <= now
    ensures AfterEdits(content, Since(script, from, now + 1), q)
         == AfterEdits(AfterEdits(content, Since(script, from, now), q), MomentAt(script, now).edits, q)
  {}

  lemma {:induction false} ContentTick(first: Files, script: seq<Moment>, clock: nat, log: seq<Write>, q: string)
    requires forall i :: 0 <= i < |log| ==> log[i].at < clock
    ensures Content(first, script, clock + 1, log, q)
         == AfterEdits(Content(first, script, clock, log, q), MomentAt(script, clock).edits, q)
  {
    hide AfterEdits, Since, MomentAt, At;
    if log == [] {
      AfterEditsTick(At(first, q), script, 0, clock, q);
    } else if log[|log| - 1].path == q {
      AfterEditsTick(log[|log| - 1].wrote, script, log[|log| - 1].at + 1, clock, q);
    } else {
      ContentTick(first, script, clock, log[..|log| - 1], q);
    }
  }

  lemma ReplaysTick(files: Files, first: Files, script: seq<Moment>, clock: nat, log: seq<Write>)
    requires Replays(files, first, script, clock, log)
    ensures Replays(Edited(files, MomentAt(script, clock).edits), first, script, clock + 1, log)
  {
    forall q
      ensures At(Edited(files, MomentAt(script, clock).edits), q) == Content(first, script, clock + 1, log, q)
    {
      ContentTick(first, script, clock, log, q);
      AtEdited(files, MomentAt(script, clock).edits, q);
    }
    hide Content, Edited, At;
  }

  lemma ReplaysWrite(files: Files, first: Files, script: seq<Moment>, clock: nat, log: seq<Write>, w: Write)
    requires Replays(files, first, script, clock, log) && w.at + 1 == clock
    ensures Replays(Put(files, w.path, w.wrote), first, script, clock, log + [w])
  {
    forall q
      ensures At(Put(files, w.path, w.wrote), q) == Content(first, script, clock, log + [w], q)
    {
      AtPut(files, w.path, w.wrote, q);
      assert (log + [w])[..|log|] == log;
    }
    hide Content, Put, At;
  }

  // ---------------------------------------------------- the course of a transaction

  /** The resource whose turn is the `i`th is looked at as the snapshot has it. The
      journal is written at `from`, and every turn takes two steps. */
  predicate LookGood(script: seq<Moment>, from: nat, j: Journal, order: seq<string>, i: nat)
    requires i < |order|
  {
    var before := EntryOf(j, order[i]).before;
    WellAt(script, from + 1 + 2 * i) && AfterEdits(before, Since(script, from, from + 2 + 2 * i), order[i]) == before
  }

  /** The first turns all go well. */
  predicate TurnsGood(script: seq<Moment>, from: nat, j: Journal, order: seq<string>, turns: nat)
    requires turns <= |order|
  {
    forall i :: 0 <= i < turns ==> LookGood(script, from, j, order, i) && WellAt(script, from + 2 + 2 * i)
  }

  /** The replacement of a turn, if it takes place. */
  function TurnWrite(script: seq<Moment>, from: nat, j: Journal, order: seq<string>, i: nat): seq<Write>
    requires i < |order|
  {
    var entry, at := EntryOf(j, order[i]), from + 2 + 2 * i;
    if LookGood(script, from, j, order, i) && LandsAt(script, at)
    then [Write(order[i], at, at, AfterEdits(entry.before, MomentAt(script, at).edits, order[i]), entry.after)]
    else []
  }

  function TurnWrites(script: seq<Moment>, from: nat, j: Journal, order: seq<string>, turns: nat): seq<Write>
    requires turns <= |order|
  {
    if turns == 0 then []
    else TurnWrites(script, from, j, order, turns - 1) + TurnWrite(script, from, j, order, turns - 1)
  }

  /** The manifest is replaced. */
  predicate ManifestLands(script: seq<Moment>, from: nat, j: Journal, order: seq<string>) {
    WellAt(script, from) && TurnsGood(script, from, j, order, |order|) && LandsAt(script, from + 1 + 2 * |order|)
  }

  /** The manifest is never looked at again after the snapshot. */
  function ManifestWrite(script: seq<Moment>, from: nat, j: Journal, order: seq<string>): Write {
    var at := from + 1 + 2 * |order|;
    Write(MANIFEST, from, at, AfterEdits(j.manifest.before, Since(script, from, at + 1), MANIFEST), j.manifest.after)
  }

  /** All steps of a transaction go well. */
  predicate Succeeds(script: seq<Moment>, from: nat, j: Journal, order: seq<string>) {
    WellAt(script, from) && TurnsGood(script, from, j, order, |order|) && AllWell(script, from + 1 + 2 * |order|, 2)
  }

  /** Exactly when a transaction reports success: each of its steps goes well (the
      journal, a look and a replacement for every resource, the manifest, and the
      removal of the journal), and no change from outside that came before the look
      at a resource has last left anything there but what the snapshot has. */
  lemma SucceedsExactlyWhen(script: seq<Moment>, from: nat, j: Journal, order: seq<string>)
    requires forall i :: 0 <= i < |order| ==> order[i] in j.resources
    ensures Succeeds(script, from, j, order) <==>
      (forall t :: from <= t <= from + 2 + 2 * |order| ==> WellAt(script, t))
      && forall i :: 0 <= i < |order| && order[i] in Since(script, from, from + 2 + 2 * i) ==>
           Since(script, from, from + 2 + 2 * i)[order[i]] == j.resources[order[i]].before
  {
    hide Since, WellAt;
    var n := |order|;
    if TurnsGood(script, from, j, order, n) && WellAt(script, from) && AllWell(script, from + 1 + 2 * n, 2) {
      forall t | from <= t <= from + 2 + 2 * n ensures WellAt(script, t) {
        var k := (t - from - 1) / 2;
        if from < t < from + 1 + 2 * n {
          assert LookGood(script, from, j, order, k) && WellAt(script, from + 2 + 2 * k);
          assert t == from + 1 + 2 * k || t == from + 2 + 2 * k;
        }
      }
    }
    forall i | 0 <= i < n
      ensures LookGood(script, from, j, order, i) <==>
        WellAt(script, from + 1 + 2 * i)
        && (order[i] in Since(script, from, from + 2 + 2 * i) ==>
              Since(script, from, from + 2 + 2 * i)[order[i]] == j.resources[order[i]].before)
    {}
  }

  /** The journal is gone by the transaction's own doing. */
  predicate JournalGoes(script: seq<Moment>, from: nat, j: Journal, order: seq<string>) {
    ManifestLands(script, from, j, order) && WellAt(script, from + 1 + 2 * |order|)
    && LandsAt(script, from + 2 + 2 * |order|)
  }

  /** All changes are in place in the end, whatever is reported: the manifest was
      replaced, and a recovery, if it comes to one, can tell. */
  predicate InPlace(script: seq<Moment>, from: nat, j: Journal, order: seq<string>) {
    ManifestLands(script, from, j, order)
    && (j.manifest.before != j.manifest.after || JournalGoes(script, from, j, order))
  }

  /** A moment of a transaction whose snapshot is `start`: as long as no change from
      outside has hit a named file, what is in place is recoverable to all or
      nothing, with the other changes from outside kept. */
  ghost predicate Sound(s: State, now: nat, start: Files, script: seq<Moment>, from: nat, j: Journal) {
    Quiet(script, from, now, j) ==> Whole(s, Base(start, script, from, now), j)
  }

  /** While the resources have their turns; `done` are in place. */
  ghost predicate Under(
      s: State, now: nat, start: Files, script: seq<Moment>, from: nat, j: Journal, done: seq<string>) {
    Quiet(script, from, now, j) ==>
      Open(s, Base(start, script, from, now), j) && At(s.files, MANIFEST) == j.manifest.before
      && forall p :: p in done && p in j.resources ==> At(s.files, p) == j.resources[p].after
  }

  /** What follows the changes from outside alone. */
  ghost predicate Follows(
      files: Files, now: nat, start: Files, script: seq<Moment>, from: nat, written: seq<string>) {
    forall q :: q !in written ==> At(files, q) == AfterEdits(At(start, q), Since(script, from, now), q)
  }

  lemma FollowsBegins(start: Files, script: seq<Moment>, from: nat)
    ensures Follows(start, from, start, script, from, [])
  {}

  lemma FollowsTick(files: Files, now: nat, start: Files, script: seq<Moment>, from: nat, written: seq<string>)
    requires from <= now && Follows(files, now, start, script, from, written)
    ensures Follows(Edited(files, MomentAt(script, now).edits), now + 1, start, script, from, written)
  {
    forall q | q !in written
      ensures At(Edited(files, MomentAt(script, now).edits), q)
           == AfterEdits(At(start, q), Since(script, from, now + 1), q)
    {
      AtEdited(files, MomentAt(script, now).edits, q);
      AfterEditsTick(At(start, q), script, from, now, q);
    }
    hide AfterEdits, Since, MomentAt, At, Edited;
  }

  lemma FollowsPut(
      files: Files, now: nat, start: Files, script: seq<Moment>, from: nat, written: seq<string>, p: string,
      content: Option<string>)
    requires Follows(files, now, start, script, from, written) && p in written
    ensures Follows(Put(files, p, content), now, start, script, from, written)
  {
    forall q | q !in written ensures At(Put(files, p, content), q) == At(files, q) {
      AtPut(files, p, content, q);
    }
    hide At, Put, AfterEdits, Since;
  }

  lemma SoundTick(s: State, now: nat, start: Files, script: seq<Moment>, from: nat, j: Journal)
    requires from <= now && MANIFEST !in j.resources && Sound(s, now, start, script, from, j)
    ensures Sound(s.(files := Edited(s.files, MomentAt(script, now).edits)), now + 1, start, script, from, j)
  {
    BaseTick(start, script, from, now);
    if Quiet(script, from, now + 1, j) {
      assert Quiet(script, from, now, j);
      WholeTick(s, Base(start, script, from, now), j, MomentAt(script, now).edits);
    }
    hide Whole, Base, Edited;
  }

  lemma UnderTick(
      s: State, now: nat, start: Files, script: seq<Moment>, from: nat, j: Journal, done: seq<string>)
    requires from <= now && MANIFEST !in j.resources && Under(s, now, start, script, from, j, done)
    ensures Under(s.(files := Edited(s.files, MomentAt(script, now).edits)), now + 1, start, script, from, j, done)
  {
    BaseTick(start, script, from, now);
    if Quiet(script, from, now + 1, j) {
      assert Quiet(script, from, now, j);
      WholeTick(s, Base(start, script, from, now), j, MomentAt(script, now).edits);
      NamedStay(s.files, MomentAt(script, now).edits, j);
    }
    hide Open, Whole, Base, Edited, At;
  }

  lemma UnderPut(
      s: State, now: nat, start: Files, script: seq<Moment>, from: nat, j: Journal, done: seq<string>, p: string)
    requires Under(s, now, start, script, from, j, done) && p in j.resources && s.journal == Some(j)
    ensures Under(s.(files := Put(s.files, p, j.resources[p].after)), now, start, script, from, j, done + [p])
  {
    if Quiet(script, from, now, j) {
      ResourceKeepsOpen(s, Base(start, script, from, now), j, p, j.resources[p].after);
    }
    hide Open, Base, At, Put;
  }

  lemma UnderIsSound(
      s: State, now: nat, start: Files, script: seq<Moment>, from: nat, j: Journal, done: seq<string>)
    ensures Under(s, now, start, script, from, j, done) ==> Sound(s, now, start, script, from, j)
    ensures Under(s, now, start, script, from, j, done) ==> Under(s, now, start, script, from, j, [])
  {
    hide Open, Base, At;
  }

  /** Once the manifest's turn has come; `landed` if it has been replaced. */
  ghost predicate Ended(
      s: State, now: nat, start: Files, script: seq<Moment>, from: nat, j: Journal, landed: bool) {
    Quiet(script, from, now, j) ==>
      if s.journal.None? then landed && s.files == Applied(Base(start, script, from, now), j)
      else
        Open(s, Base(start, script, from, now), j)
        && At(s.files, MANIFEST) == if landed then j.manifest.after else j.manifest.before
  }

  lemma EndedTick(s: State, now: nat, start: Files, script: seq<Moment>, from: nat, j: Journal, landed: bool)
    requires from <= now && MANIFEST !in j.resources && Ended(s, now, start, script, from, j, landed)
    ensures Ended(s.(files := Edited(s.files, MomentAt(script, now).edits)), now + 1, start, script, from, j, landed)
  {
    BaseTick(start, script, from, now);
    if Quiet(script, from, now + 1, j) {
      assert Quiet(script, from, now, j);
      WholeTick(s, Base(start, script, from, now), j, MomentAt(script, now).edits);
      NamedStay(s.files, MomentAt(script, now).edits, j);
    }
    hide Open, Base, Edited, Applied, At;
  }

  lemma EndedIsSound(s: State, now: nat, start: Files, script: seq<Moment>, from: nat, j: Journal, landed: bool)
    ensures Ended(s, now, start, script, from, j, landed) ==> Sound(s, now, start, script, from, j)
  {
    hide Open, Base, Applied, At;
  }

  lemma NothingEnded(s: State, now: nat, start: Files, script: seq<Moment>, from: nat, j: Journal)
    requires Under(s, now, start, script, from, j, []) && s.journal == Some(j)
    ensures Ended(s, now, start, script, from, j, false)
  {
    hide Open, Base, Applied, At;
  }

  /** The manifest replaced once every resource is in place, and the journal then gone. */
  lemma ManifestEnds(
      s: State, now: nat, start: Files, script: seq<Moment>, from: nat, j: Journal, order: seq<string>)
    requires Under(s, now, start, script, from, j, order) && Lists(order, j.resources.Keys) && s.journal == Some(j)
    requires MANIFEST !in j.resources
    ensures var after := Put(s.files, MANIFEST, j.manifest.after);
            Ended(State(after, Some(j)), now, start, script, from, j, true)
            && Ended(State(after, None), now, start, script, from, j, true)
  {
    if Quiet(script, from, now, j) {
      ManifestKeepsOpen(s, Base(start, script, from, now), j);
      AtPut(s.files, MANIFEST, j.manifest.after, MANIFEST);
    }
    hide Open, Base, Applied, At, Put;
  }

  lemma ManifestFound(
      files: Files, start: Files, script: seq<Moment>, from: nat, j: Journal, order: seq<string>)
    requires Follows(files, from + 2 + 2 * |order|, start, script, from, order) && MANIFEST !in order
    requires At(start, MANIFEST) == j.manifest.before
    ensures ManifestWrite(script, from, j, order)
         == Write(MANIFEST, from, from + 1 + 2 * |order|, At(files, MANIFEST), j.manifest.after)
  {
    hide AfterEdits, At, Since;
  }

  lemma FollowsAll(
      files: Files, now: nat, start: Files, script: seq<Moment>, from: nat, order: seq<string>, i: nat)
    requires i <= |order| && Follows(files, now, start, script, from, order[..i])
    ensures Follows(files, now, start, script, from, order)
  {}

  lemma TwoWell(script: seq<Moment>, clock: nat)
    ensures AllWell(script, clock, 2) <==> WellAt(script, clock) && WellAt(script, clock + 1)
  {
    hide WellAt;
  }

  lemma FollowsAt(
      files: Files, now: nat, start: Files, script: seq<Moment>, from: nat, written: seq<string>, p: string)
    requires Follows(files, now, start, script, from, written) && p !in written
    ensures At(files, p) == AfterEdits(At(start, p), Since(script, from, now), p)
  {}

  lemma FollowsMore(
      files: Files, now: nat, start: Files, script: seq<Moment>, from: nat, order: seq<string>, i: nat)
    requires i < |order| && Follows(files, now, start, script, from, order[..i])
    ensures Follows(files, now, start, script, from, order[..i + 1]) && order[i] in order[..i + 1]
  {
    assert order[..i + 1] == order[..i] + [order[i]];
    hide At, AfterEdits, Since;
  }

  lemma WellAtIs(script: seq<Moment>, clock: nat)
    ensures WellAt(script, clock) <==> MomentAt(script, clock).ending.Well?
    ensures WellAt(script, clock) ==> LandsAt(script, clock)
  {}

  lemma LookGoodIs(script: seq<Moment>, from: nat, j: Journal, order: seq<string>, i: nat)
    requires i < |order|
    ensures LookGood(script, from, j, order, i) <==>
      WellAt(script, from + 1 + 2 * i)
      && AfterEdits(EntryOf(j, order[i]).before, Since(script, from, from + 2 + 2 * i), order[i])
         == EntryOf(j, order[i]).before
  {}

  lemma TurnWriteIs(script: seq<Moment>, from: nat, j: Journal, order: seq<string>, i: nat)
    requires i < |order|
    ensures var entry, at := EntryOf(j, order[i]), from + 2 + 2 * i;
      TurnWrite(script, from, j, order, i) ==
      if LookGood(script, from, j, order, i) && LandsAt(script, at)
      then [Write(order[i], at, at, AfterEdits(entry.before, MomentAt(script, at).edits, order[i]), entry.after)]
      else []
  {}

  // ----------------------------------------------------- the course of a recovery

  /** How a recovery ends; `Stopped` if a step of it fails. */
  datatype Recovery = NoJournal | Blocked | RolledBack | Finalized | Stopped

  /** The replacement that puts back the `i`th changed resource, if it takes place;
      all were looked at at `from`. */
  function BackWrite(script: seq<Moment>, from: nat, j: Journal, changed: seq<string>, i: nat): seq<Write>
    requires i < |changed|
  {
    var entry, at := EntryOf(j, changed[i]), from + 1 + i;
    if LandsAt(script, at)
    then [Write(changed[i], from + 1, at, AfterEdits(entry.after, Since(script, from + 1, at + 1), changed[i]),
                entry.before)]
    else []
  }

  function BackWrites(script: seq<Moment>, from: nat, j: Journal, changed: seq<string>, count: nat): seq<Write>
    requires count <= |changed|
  {
    if count == 0 then []
    else BackWrites(script, from, j, changed, count - 1) + BackWrite(script, from, j, changed, count - 1)
  }

  /** How a recovery that finds `seen` ends, after trying to put back so many resources. */
  predicate RecoveryIs(
      result: Recovery, count: nat, script: seq<Moment>, from: nat, seen: Files, j: Journal, order: seq<string>)
  {
    var changed := PutsBack(seen, j, order);
    !result.NoJournal?
    && (result.Blocked? <==> WellAt(script, from) && Conflicted(seen, j))
    && (result.RolledBack? || result.Finalized? <==> AllWell(script, from, 2 + |changed|) && !Conflicted(seen, j))
    && (result.RolledBack? ==> At(seen, MANIFEST) == j.manifest.before)
    && (result.Finalized? ==> At(seen, MANIFEST) != j.manifest.before)
    && count <= |changed|
    && if WellAt(script, from) && !Conflicted(seen, j)
       then AllWell(script, from, count) && (count == |changed| || !WellAt(script, from + count))
       else count == 0
  }

  /** A moment of a recovery that finds `seen`: as long as no change from outside has
      hit a named file since, it is on its way to where it would end. */
  ghost predicate OnTheWay(s: State, now: nat, seen: Files, script: seq<Moment>, from: nat, j: Journal) {
    Quiet(script, from, now, j) ==> Recovering(s, State(Base(seen, script, from, now), Some(j)), j)
  }

  /** `done` are put back. */
  ghost predicate Back(
      s: State, now: nat, seen: Files, script: seq<Moment>, from: nat, j: Journal, done: seq<string>) {
    Quiet(script, from, now, j) ==>
      Recovering(s, State(Base(seen, script, from, now), Some(j)), j)
      && forall p :: p in done && p in j.resources ==> At(s.files, p) == j.resources[p].before
  }

  lemma BackTick(s: State, now: nat, seen: Files, script: seq<Moment>, from: nat, j: Journal, done: seq<string>)
    requires from <= now && Back(s, now, seen, script, from, j, done)
    ensures Back(s.(files := Edited(s.files, MomentAt(script, now).edits)), now + 1, seen, script, from, j, done)
  {
    BaseTick(seen, script, from, now);
    if Quiet(script, from, now + 1, j) {
      assert Quiet(script, from, now, j);
      RecoveringTick(s, State(Base(seen, script, from, now), Some(j)), j, MomentAt(script, now).edits);
      NamedStay(s.files, MomentAt(script, now).edits, j);
    }
    hide Recovering, Base, Edited, At;
  }

  lemma ManifestSeen(seen: Files, script: seq<Moment>, from: nat, now: nat, j: Journal)
    requires Quiet(script, from, now, j)
    ensures forall p :: p in Names(j) ==> At(Base(seen, script, from, now), p) == At(seen, p)
  {
    QuietSince(script, from, now, j);
    NamedStay(seen, Since(script, from, now), j);
  }

  lemma BackPut(
      s: State, now: nat, seen: Files, script: seq<Moment>, from: nat, j: Journal, done: seq<string>, p: string)
    requires from <= now && Back(s, now, seen, script, from, j, done)
    requires p in j.resources && s.journal == Some(j) && MANIFEST !in j.resources
    requires At(seen, MANIFEST) == j.manifest.before
    ensures Back(s.(files := Put(s.files, p, j.resources[p].before)), now, seen, script, from, j, done + [p])
  {
    if Quiet(script, from, now, j) {
      ManifestSeen(seen, script, from, now, j);
      RecoveringGoesOn(s, State(Base(seen, script, from, now), Some(j)), j, p);
      PutElsewhere(s.files, p, j.resources[p].before);
    }
    hide Recovering, Base, At, Put;
  }

  lemma BackIsOnTheWay(
      s: State, now: nat, seen: Files, script: seq<Moment>, from: nat, j: Journal, done: seq<string>)
    ensures Back(s, now, seen, script, from, j, done) ==> OnTheWay(s, now, seen, script, from, j)
  {}

  lemma BackLess(s: State, now: nat, seen: Files, script: seq<Moment>, from: nat, j: Journal, done: seq<string>)
    ensures Back(s, now, seen, script, from, j, done) ==> Back(s, now, seen, script, from, j, [])
  {}

  lemma BackWriteIs(script: seq<Moment>, from: nat, j: Journal, changed: seq<string>, i: nat)
    requires i < |changed|
    ensures var entry, at := EntryOf(j, changed[i]), from + 1 + i;
      BackWrite(script, from, j, changed, i) ==
      if LandsAt(script, at)
      then [Write(changed[i], from + 1, at, AfterEdits(entry.after, Since(script, from + 1, at + 1), changed[i]),
                  entry.before)]
      else []
  {}

  lemma AllWellOr(script: seq<Moment>, from: nat, count: nat, t: nat)
    requires from <= t < from + count && !WellAt(script, t)
    ensures !AllWell(script, from, count)
  {
    hide WellAt;
  }

  lemma NoneWell(script: seq<Moment>, from: nat)
    ensures AllWell(script, from, 0)
  {}

  lemma AllWellMore(script: seq<Moment>, from: nat, count: nat)
    requires WellAt(script, from)
    ensures AllWell(script, from + 1, count) ==> AllWell(script, from, 1 + count)
    ensures AllWell(script, from + 1, count) && WellAt(script, from + 1 + count) ==> AllWell(script, from, 2 + count)
  {
    hide WellAt;
  }

  lemma LookFails(script: seq<Moment>, from: nat, seen: Files, j: Journal, order: seq<string>)
    requires !WellAt(script, from)
    ensures RecoveryIs(Stopped, 0, script, from, seen, j, order)
  {
    hide AllWell, WellAt, Conflicted;
    AllWellOr(script, from, 2 + |PutsBack(seen, j, order)|, from);
  }

  lemma Blocks(script: seq<Moment>, from: nat, seen: Files, j: Journal, order: seq<string>)
    requires WellAt(script, from) && Conflicted(seen, j)
    ensures RecoveryIs(Blocked, 0, script, from, seen, j, order)
  {}

  lemma BackFails(script: seq<Moment>, from: nat, seen: Files, j: Journal, order: seq<string>, count: nat)
    requires WellAt(script, from) && !Conflicted(seen, j) && 0 < count <= |PutsBack(seen, j, order)|
    requires AllWell(script, from + 1, count - 1) && !WellAt(script, from + count)
    ensures RecoveryIs(Stopped, count, script, from, seen, j, order)
  {
    hide AllWell, WellAt, Conflicted;
    AllWellOr(script, from, 2 + |PutsBack(seen, j, order)|, from + count);
    AllWellMore(script, from, count - 1);
  }

  lemma AllWellLess(script: seq<Moment>, from: nat, count: nat)
    ensures AllWell(script, from, 1 + count) ==> AllWell(script, from, count)
  {
    hide WellAt;
  }

  lemma AllBack(script: seq<Moment>, from: nat, seen: Files, j: Journal, order: seq<string>)
    requires WellAt(script, from) && !Conflicted(seen, j) && AllWell(script, from + 1, |PutsBack(seen, j, order)|)
    ensures var count := |PutsBack(seen, j, order)|;
            RecoveryIs(
              if !WellAt(script, from + 1 + count) then Stopped
              else if At(seen, MANIFEST) == j.manifest.before then RolledBack else Finalized,
              count, script, from, seen, j, order)
  {
    hide AllWell, WellAt, Conflicted;
    var count := |PutsBack(seen, j, order)|;
    AllWellMore(script, from, count);
    AllWellLess(script, from, count);
    if !WellAt(script, from + 1 + count) {
      AllWellOr(script, from, 2 + count, from + 1 + count);
    }
  }

  lemma BackBegins(seen: Files, script: seq<Moment>, from: nat, j: Journal)
    ensures Back(State(seen, Some(j)), from, seen, script, from, j, [])
  {
    NoEdits(seen, script, from);
    RecoveringStarts(State(seen, Some(j)), j);
  }

  /** All that was to be put back is, and nothing is left to do but remove the journal. */
  lemma BackEnds(
      s: State, now: nat, seen: Files, script: seq<Moment>, from: nat, j: Journal, order: seq<string>)
    requires Lists(order, j.resources.Keys) && MANIFEST !in j.resources && s.journal == Some(j) && from <= now
    requires Back(s, now, seen, script, from, j, PutsBack(seen, j, order))
    requires Follows(s.files, now, seen, script, from, PutsBack(seen, j, order))
    ensures OnTheWay(s.(journal := None), now, seen, script, from, j)
    ensures Quiet(script, from, now, j) ==>
      s.(journal := None) == Recovered(State(Base(seen, script, from, now), Some(j)))
  {
    if Quiet(script, from, now, j) {
      var s0 := State(Base(seen, script, from, now), Some(j));
      ManifestSeen(seen, script, from, now, j);
      QuietSince(script, from, now, j);
      if At(seen, MANIFEST) == j.manifest.before {
        forall p | p in j.resources ensures At(s.files, p) == j.resources[p].before {
          if p !in Changed(seen, j, order) {
            assert At(s.files, p) == AfterEdits(At(seen, p), Since(script, from, now), p);
          }
        }
      }
      RecoveringEnds(s, s0, j);
      RecoveringDone(s0, j);
    }
    hide Recovering, Recovered, Base, Edited;
  }

  // ------------------------------------------------------------ the two together

  /** Where a transaction ends, or a later recovery that completes would end it. */
  ghost predicate AllOrNothing(
      s: State, now: nat, start: Files, script: seq<Moment>, from: nat, j: Journal, inPlace: bool) {
    Quiet(script, from, now, j) ==>
      Recovered(s).files == Base(if inPlace then Applied(start, j) else start, script, from, now)
  }

  lemma {:induction false} SinceSplits(script: seq<Moment>, from: nat, middle: nat, now: nat)
    requires from <= middle <= now
    ensures Since(script, from, now) == Since(script, from, middle) + Since(script, middle, now)
  {
    hide MomentAt;
    if middle < now {
      SinceSplits(script, from, middle, now - 1);
    }
  }

  lemma BaseSplits(start: Files, script: seq<Moment>, from: nat, middle: nat, now: nat)
    requires from <= middle <= now
    ensures Base(start, script, from, now) == Base(Base(start, script, from, middle), script, middle, now)
  {
    hide Since;
    SinceSplits(script, from, middle, now);
  }

  lemma AppliedBase(start: Files, script: seq<Moment>, from: nat, now: nat, j: Journal)
    requires Quiet(script, from, now, j)
    ensures Applied(Base(start, script, from, now), j) == Base(Applied(start, j), script, from, now)
  {
    QuietSince(script, from, now, j);
    var edits := Since(script, from, now);
    forall q ensures At(Applied(Edited(start, edits), j), q) == At(Edited(Applied(start, j), edits), q) {
      AtReverted(Edited(start, edits), j, q);
      AtReverted(start, j, q);
      AtEdited(Applied(start, j), edits, q);
      AtEdited(start, edits, q);
    }
    hide Applied, Edited, Since, At;
    SameFiles(Applied(Edited(start, edits), j), Edited(Applied(start, j), edits));
  }

  /** Recovering a transaction in the course of which no named file was hit. */
  lemma RecoversAllOrNothing(
      s: State, now: nat, seen: Files, at: nat, start: Files, script: seq<Moment>, from: nat, j: Journal, landed: bool)
    requires from <= at <= now && MANIFEST !in j.resources
    requires Ended(State(seen, Some(j)), at, start, script, from, j, landed) && OnTheWay(s, now, seen, script, at, j)
    ensures Sound(s, now, start, script, from, j)
    ensures AllOrNothing(s, now, start, script, from, j, landed && j.manifest.before != j.manifest.after)
  {
    if Quiet(script, from, now, j) {
      assert Quiet(script, from, at, j) && Quiet(script, at, now, j);
      var s0 := State(Base(seen, script, at, now), Some(j));
      BaseSplits(start, script, from, at, now);
      QuietSince(script, at, now, j);
      EditsElsewhereStayOpen(State(seen, Some(j)), Base(start, script, from, at), j, Since(script, at, now));
      ManifestSeen(seen, script, at, now, j);
      OpenRecovers(s0, Base(start, script, from, now), j);
      AppliedBase(start, script, from, now, j);
      RecoveringSame(s, s0, j);
      RecoveringIsWhole(s, s0, Base(start, script, from, now), j);
    }
    hide Open, Base, Applied, Edited, Recovering, Recovered, At;
  }

  lemma EndedAllOrNothing(
      s: State, now: nat, start: Files, script: seq<Moment>, from: nat, j: Journal, landed: bool)
    requires Ended(s, now, start, script, from, j, landed)
    ensures AllOrNothing(s, now, start, script, from, j,
                         landed && (s.journal.None? || j.manifest.before != j.manifest.after))
  {
    if Quiet(script, from, now, j) {
      AppliedBase(start, script, from, now, j);
      if s.journal.Some? {
        OpenRecovers(s, Base(start, script, from, now), j);
      }
    }
    hide Open, Base, Applied, At;
  }

  lemma EndedIsNotConflicted(
      seen: Files, now: nat, start: Files, script: seq<Moment>, from: nat, j: Journal, landed: bool)
    requires Ended(State(seen, Some(j)), now, start, script, from, j, landed)
    ensures Quiet(script, from, now, j) ==> !Conflicted(seen, j)
  {
    if Quiet(script, from, now, j) {
      OpenRecovers(State(seen, Some(j)), Base(start, script, from, now), j);
    }
    hide Open, Base, Applied, At;
  }

  /** A replacement of a named file that had been looked at as one record has it. */
  predicate Guarded(w: Write, script: seq<Moment>, j: Journal) {
    var entry, edits := EntryOf(j, w.path), Since(script, w.since, w.at + 1);
    w.path in Names(j) && w.since <= w.at
    && w.found in {AfterEdits(entry.before, edits, w.path), AfterEdits(entry.after, edits, w.path)}
  }

  predicate AllGuarded(log: seq<Write>, script: seq<Moment>, j: Journal) {
    forall i :: 0 <= i < |log| ==> Guarded(log[i], script, j)
  }

  predicate OfResources(log: seq<Write>, j: Journal) {
    forall i :: 0 <= i < |log| ==> log[i].path in j.resources
  }

  /** The replacements of a transaction: those of the turns that were taken, all of
      them unless one failed; the manifest's; and those of a recovery. */
  predicate Logged(
      before: seq<Write>, log: seq<Write>, script: seq<Moment>, from: nat, j: Journal, order: seq<string>,
      turns: nat, backs: seq<Write>)
  {
    turns <= |order| && (turns < |order| ==> !WellAt(script, from) || !TurnsGood(script, from, j, order, turns))
    && log == before
       + (TurnWrites(script, from, j, order, turns)
          + (if ManifestLands(script, from, j, order) then [ManifestWrite(script, from, j, order)] else []) + backs)
    && AllGuarded(backs, script, j) && OfResources(backs, j)
  }

  lemma ManifestGuarded(script: seq<Moment>, from: nat, j: Journal, order: seq<string>)
    requires MANIFEST !in j.resources
    ensures Guarded(ManifestWrite(script, from, j, order), script, j)
  {
    hide AfterEdits, Since;
  }

  /** What such a replacement does away with: exactly what was left by the last change
      from outside since the look, if no record has it. */
  lemma LosesExactlyWhen(w: Write, script: seq<Moment>, j: Journal)
    requires Guarded(w, script, j)
    ensures Loses(w, j) <==> HitInWindow(w, script, j)
  {}

  lemma OneMoment(script: seq<Moment>, at: nat)
    ensures Since(script, at, at + 1) == MomentAt(script, at).edits
  {}

  lemma {:induction false} TurnWritesGuarded(
      script: seq<Moment>, from: nat, j: Journal, order: seq<string>, turns: nat)
    requires turns <= |order| && Lists(order, j.resources.Keys)
    ensures AllGuarded(TurnWrites(script, from, j, order, turns), script, j)
  {
    if turns > 0 {
      TurnWritesGuarded(script, from, j, order, turns - 1);
      OneMoment(script, from + 2 * turns);
    }
    hide LookGood, MomentAt, LandsAt, AfterEdits, Since;
  }

  /** Every replacement of a transaction does away with something that no record has
      exactly when a change from outside in its window left it there. */
  lemma LoggedLoses(
      before: seq<Write>, log: seq<Write>, script: seq<Moment>, from: nat, j: Journal, order: seq<string>,
      turns: nat, backs: seq<Write>)
    requires Logged(before, log, script, from, j, order, turns, backs) && Lists(order, j.resources.Keys)
    requires MANIFEST !in j.resources
    ensures before <= log
    ensures forall i :: |before| <= i < |log| ==> (Loses(log[i], j) <==> HitInWindow(log[i], script, j))
  {
    hide TurnWrites, ManifestLands, Loses, HitInWindow;
    TurnWritesGuarded(script, from, j, order, turns);
    var made := TurnWrites(script, from, j, order, turns);
    var last := if ManifestLands(script, from, j, order) then [ManifestWrite(script, from, j, order)] else [];
    assert AllGuarded(made + last + backs, script, j) by { ManifestGuarded(script, from, j, order); }
    forall i | |before| <= i < |log|
      ensures Loses(log[i], j) <==> HitInWindow(log[i], script, j)
    {
      assert log[i] == (made + last + backs)[i - |before|];
      LosesExactlyWhen(log[i], script, j);
    }
  }

  /** A step between these times fails. */
  predicate SomeFails(script: seq<Moment>, from: nat, until: nat) {
    exists t :: from <= t < until && !WellAt(script, t)
  }

  lemma QuietBegins(script: seq<Moment>, from: nat, middle: nat, now: nat, j: Journal)
    requires middle <= now && Quiet(script, from, now, j)
    ensures Quiet(script, from, middle, j)
  {}

  /** Without a change from outside to a named file, turns only go wrong by a failure. */
  lemma QuietTurns(script: seq<Moment>, from: nat, j: Journal, order: seq<string>, turns: nat)
    requires turns <= |order| && Lists(order, j.resources.Keys) && Quiet(script, from, from + 1 + 2 * turns, j)
    requires !TurnsGood(script, from, j, order, turns)
    ensures SomeFails(script, from, from + 1 + 2 * turns)
  {
    var i :| 0 <= i < turns && !(LookGood(script, from, j, order, i) && WellAt(script, from + 2 + 2 * i));
    if WellAt(script, from + 2 + 2 * i) {
      QuietBegins(script, from, from + 2 + 2 * i, from + 1 + 2 * turns, j);
      QuietSince(script, from, from + 2 + 2 * i, j);
      assert !WellAt(script, from + 1 + 2 * i);
    }
  }

  lemma QuietFails(script: seq<Moment>, from: nat, now: nat, j: Journal, order: seq<string>, turns: nat)
    requires turns <= |order| && Lists(order, j.resources.Keys) && Quiet(script, from, now, j) && from < now
    requires if TurnsGood(script, from, j, order, turns) then !WellAt(script, now - 1) else now == from + 1 + 2 * turns
    ensures SomeFails(script, from, now)
  {
    hide TurnsGood;
    if !TurnsGood(script, from, j, order, turns) {
      QuietTurns(script, from, j, order, turns);
    }
  }

  lemma FailsEarlier(script: seq<Moment>, from: nat, at: nat, now: nat)
    ensures at < now && SomeFails(script, from, at) ==> SomeFails(script, from, now - 1)
  {}

  lemma SucceedsInPlace(script: seq<Moment>, from: nat, j: Journal, order: seq<string>)
    ensures Succeeds(script, from, j, order) ==> JournalGoes(script, from, j, order)
    ensures JournalGoes(script, from, j, order) ==> ManifestLands(script, from, j, order)
  {
    TwoWell(script, from + 1 + 2 * |order|);
    hide TurnsGood, AllWell, MomentAt;
  }

  lemma LoggedMore(
      before: seq<Write>, log: seq<Write>, script: seq<Moment>, from: nat, j: Journal, order: seq<string>,
      turns: nat, backs: seq<Write>)
    requires Logged(before, log, script, from, j, order, turns, [])
    requires AllGuarded(backs, script, j) && OfResources(backs, j)
    ensures Logged(before, log + backs, script, from, j, order, turns, backs)
  {
    hide TurnWrites, ManifestLands, ManifestWrite, Guarded, TurnsGood, WellAt;
  }

  lemma OfResourcesBoth(a: seq<Write>, b: seq<Write>, j: Journal)
    requires OfResources(a, j) && OfResources(b, j)
    ensures OfResources(a + b, j)
  {}

  lemma {:induction false} TurnWritesElsewhere(
      script: seq<Moment>, from: nat, j: Journal, order: seq<string>, turns: nat)
    requires turns <= |order| && Lists(order, j.resources.Keys)
    ensures OfResources(TurnWrites(script, from, j, order, turns), j)
  {
    hide LookGood, LandsAt, AfterEdits;
    if turns > 0 {
      TurnWritesElsewhere(script, from, j, order, turns - 1);
      ListedIn(order, j.resources.Keys, turns - 1);
      TurnWriteIs(script, from, j, order, turns - 1);
      OfResourcesBoth(TurnWrites(script, from, j, order, turns - 1), TurnWrite(script, from, j, order, turns - 1), j);
    }
  }

  /** The manifest is written without being looked at again: a change from outside
      to it is overwritten exactly when the manifest is replaced at all and the last
      change to it since the snapshot left what no record has. */
  lemma ManifestLostExactlyWhen(
      before: seq<Write>, log: seq<Write>, script: seq<Moment>, from: nat, j: Journal, order: seq<string>,
      turns: nat, backs: seq<Write>)
    requires Logged(before, log, script, from, j, order, turns, backs) && Lists(order, j.resources.Keys)
    requires MANIFEST !in j.resources
    ensures (exists i :: |before| <= i < |log| && log[i].path == MANIFEST && Loses(log[i], j)) <==>
      ManifestLands(script, from, j, order)
      && var edits := Since(script, from, from + 2 + 2 * |order|);
         MANIFEST in edits && edits[MANIFEST] !in {j.manifest.before, j.manifest.after}
  {
    hide TurnWrites, ManifestLands, Since, Guarded;
    TurnWritesElsewhere(script, from, j, order, turns);
    var made := TurnWrites(script, from, j, order, turns);
    var last := if ManifestLands(script, from, j, order) then [ManifestWrite(script, from, j, order)] else [];
    if ManifestLands(script, from, j, order) {
      assert log[|before| + |made|] == ManifestWrite(script, from, j, order);
    }
    forall i | |before| <= i < |before| + |made|
      ensures log[i].path in j.resources
    {
      assert log[i] == made[i - |before|];
    }
    forall i | |before| + |made| + |last| <= i < |log|
      ensures log[i].path in j.resources
    {
      assert log[i] == backs[i - |before| - |made| - |last|];
    }
  }

  /** A change from outside to a resource between the look at it and its
      replacement is overwritten exactly when the look found the resource as in the
      snapshot, the replacement takes place, and the change left what no record has. */
  lemma TurnLosesExactlyWhen(script: seq<Moment>, from: nat, j: Journal, order: seq<string>, i: nat)
    requires i < |order| && Lists(order, j.resources.Keys)
    ensures (exists w :: w in TurnWrite(script, from, j, order, i) && Loses(w, j)) <==>
      LookGood(script, from, j, order, i) && LandsAt(script, from + 2 + 2 * i)
      && var edits := MomentAt(script, from + 2 + 2 * i).edits;
         order[i] in edits && edits[order[i]] !in {EntryOf(j, order[i]).before, EntryOf(j, order[i]).after}
  {
    hide LookGood, LandsAt, MomentAt;
    var made := TurnWrite(script, from, j, order, i);
    if made != [] {
      assert made[0] in made;
    }
  }

  /** All changes are in place although failure is reported exactly when the manifest
      was replaced, that or the removal of the journal failed, and recovery can tell:
      because the manifest has changed or the journal is gone. With an unchanged
      manifest and its journal left, everything is undone again. */
  lemma FailsInPlaceExactlyWhen(script: seq<Moment>, from: nat, j: Journal, order: seq<string>)
    ensures var at := from + 1 + 2 * |order|;
            (InPlace(script, from, j, order) && !Succeeds(script, from, j, order)) <==>
            ManifestLands(script, from, j, order) && !(WellAt(script, at) && WellAt(script, at + 1))
            && (j.manifest.before != j.manifest.after || (WellAt(script, at) && LandsAt(script, at + 1)))
    ensures Succeeds(script, from, j, order) ==> InPlace(script, from, j, order)
  {
    TwoWell(script, from + 1 + 2 * |order|);
    SucceedsInPlace(script, from, j, order);
    hide TurnsGood, AllWell;
  }

  lemma NothingLogged(log: seq<Write>, script: seq<Moment>, from: nat, j: Journal, order: seq<string>)
    requires !WellAt(script, from)
    ensures Logged(log, log, script, from, j, order, 0, []) && !Succeeds(script, from, j, order)
    ensures !InPlace(script, from, j, order)
  {
    hide WellAt, TurnsGood;
  }

  /** What a transaction comes to. It reports success exactly if the journal is
      written, every resource is found as in the snapshot and replaced, the manifest
      is replaced and the journal removed, all without a failure. As long as no change
      from outside hits a named file, what is in place is recoverable to all or
      nothing, and to which of the two is `InPlace`, whatever is reported; and only
      such changes block the recovery of a failure, which otherwise stops only by a
      second one. */
  ghost predicate Transacted(
      start: Files, script: seq<Moment>, from: nat, j: Journal, order: seq<string>, s: State, now: nat,
      ok: bool, recovery: Option<Recovery>)
  {
    now > from
    && (ok <==> Succeeds(script, from, j, order)) && (recovery.None? <==> ok || !WellAt(script, from))
    && Sound(s, now, start, script, from, j)
    && AllOrNothing(s, now, start, script, from, j, InPlace(script, from, j, order))
    && (ok || (recovery.Some? && !recovery.value.Blocked? && !recovery.value.Stopped?) ==> s.journal.None?)
    && (Quiet(script, from, now, j) ==> recovery != Some(Blocked))
    && (Quiet(script, from, now, j) && recovery == Some(Stopped) ==>
          !WellAt(script, now - 1) && SomeFails(script, from, now - 1))
  }

  lemma FewerTurns(script: seq<Moment>, from: nat, j: Journal, order: seq<string>, turns: nat)
    requires turns <= |order|
    ensures !TurnsGood(script, from, j, order, turns) ==> !TurnsGood(script, from, j, order, |order|)
  {
    hide LookGood, WellAt;
  }

  /** The snapshot taken, before and after the first changes from outside. */
  lemma ApplyBegins(start: Files, script: seq<Moment>, from: nat, j: Journal)
    requires MANIFEST !in j.resources && At(start, MANIFEST) == j.manifest.before
    requires forall p :: p in j.resources ==> At(start, p) == j.resources[p].before
    ensures var now := Edited(start, MomentAt(script, from).edits);
            Follows(now, from + 1, start, script, from, [])
            && Under(State(now, Some(j)), from + 1, start, script, from, j, [])
            && Sound(State(now, Some(j)), from + 1, start, script, from, j)
            && Sound(State(now, None), from + 1, start, script, from, j)
            && AllOrNothing(State(now, Some(j)), from + 1, start, script, from, j, false)
            && AllOrNothing(State(now, None), from + 1, start, script, from, j, false)
  {
    NoEdits(start, script, from);
    FollowsBegins(start, script, from);
    FollowsTick(start, from, start, script, from, []);
    forall q ensures At(Reverted(start, j), q) == At(start, q) {
      AtReverted(start, j, q);
    }
    SameFiles(Reverted(start, j), start);
    SettledIs(start, j);
    hide Reverted, Applied, Edited, Recovered, Since, AfterEdits, Settled, At;
    assert Open(State(start, Some(j)), start, j);
    UnderTick(State(start, Some(j)), from, start, script, from, j, []);
    SoundTick(State(start, Some(j)), from, start, script, from, j);
    SoundTick(State(start, None), from, start, script, from, j);
    NothingEnded(State(Edited(start, MomentAt(script, from).edits), Some(j)), from + 1, start, script, from, j);
    EndedAllOrNothing(
      State(Edited(start, MomentAt(script, from).edits), Some(j)), from + 1, start, script, from, j, false);
    BaseTick(start, script, from, from);
    RecoveredNone(Edited(start, MomentAt(script, from).edits));
  }

  lemma {:induction false} BackWritesGuarded(
      script: seq<Moment>, from: nat, j: Journal, changed: seq<string>, count: nat)
    requires count <= |changed| && forall p :: p in changed ==> p in j.resources
    ensures AllGuarded(BackWrites(script, from, j, changed, count), script, j)
    ensures OfResources(BackWrites(script, from, j, changed, count), j)
  {
    if count > 0 {
      BackWritesGuarded(script, from, j, changed, count - 1);
    }
    hide LandsAt, AfterEdits, Since;
  }

  // ---------------------------------------------------------------- the program

  /** What is in place at one time. */
  datatype Shot = Shot(state: State, clock: nat)

  class Machine {
    /** What the environment is going to do around each step. */
    const script: seq<Moment>
    /** The files there were in the beginning. */
    ghost const first: Files
    /** How many steps there have been. */
    var clock: nat
    var files: Files
    var journal: Option<Journal>
    /** What there was after every step and every change from outside so far: a
        crash leaves one of these. */
    ghost var trace: seq<Shot>
    /** The replacements that have taken place. */
    ghost var log: seq<Write>

    ghost function Now(): State
      reads this
    {
      State(files, journal)
    }

    ghost predicate Valid()
      reads this
    {
      Replays(files, first, script, clock, log)
    }

    constructor (start: State, script: seq<Moment>)
      ensures Valid() && Now() == start && this.script == script && clock == 0 && log == [] && first == start.files
    {
      this.script, first, clock, log := script, start.files, 0, [];
      files, journal, trace := start.files, start.journal, [Shot(start, 0)];
      new;
      NoEdits(first, script, 0);
    }

    /** The changes from outside that arrive before the next step, and its ending. */
    method Next() returns (ending: Ending)
      requires Valid()
      modifies this`clock, this`files, this`trace
      ensures Valid() && clock == old(clock) + 1 && ending == MomentAt(script, old(clock)).ending
      ensures files == Edited(old(files), MomentAt(script, old(clock)).edits)
      ensures trace == old(trace) + [Shot(Now(), clock)]
    {
      hide Replays, Edited, MomentAt;
      var moment := MomentAt(script, clock);
      ReplaysTick(files, first, script, clock, log);
      files := Edited(files, moment.edits);
      clock := clock + 1;
      trace := trace + [Shot(Now(), clock)];
      ending := moment.ending;
    }

    /** One file replaced or removed, last looked at at `since`. */
    method Replace(path: string, content: Option<string>, ghost since: nat) returns (ok: bool)
      requires Valid()
      modifies this`clock, this`files, this`trace, this`log
      ensures Valid() && clock == old(clock) + 1 && ok == WellAt(script, old(clock))
      ensures var seen := Edited(old(files), MomentAt(script, old(clock)).edits);
              if LandsAt(script, old(clock))
              then
                files == Put(seen, path, content)
                && log == old(log) + [Write(path, since, old(clock), At(seen, path), content)]
                && trace == old(trace) + [Shot(State(seen, journal), clock), Shot(Now(), clock)]
              else files == seen && log == old(log) && trace == old(trace) + [Shot(Now(), clock)]
    {
      hide Replays, Edited, Put, At, MomentAt;
      var ending := Next();
      ok := ending.Well?;
      if ok || ending.landed {
        ghost var write := Write(path, since, clock - 1, At(files, path), content);
        ReplaysWrite(files, first, script, clock, log, write);
        files := Put(files, path, content);
        log := log + [write];
        trace := trace + [Shot(Now(), clock)];
      }
    }

    /** The journal written or removed. */
    method SetJournal(next: Option<Journal>) returns (ok: bool)
      requires Valid()
      modifies this`clock, this`files, this`journal, this`trace
      ensures Valid() && clock == old(clock) + 1 && ok == WellAt(script, old(clock))
      ensures files == Edited(old(files), MomentAt(script, old(clock)).edits)
      ensures journal == if LandsAt(script, old(clock)) then next else old(journal)
      ensures trace == old(trace) + [Shot(State(files, old(journal)), clock)]
                       + (if LandsAt(script, old(clock)) then [Shot(Now(), clock)] else [])
    {
      hide Replays, Edited, MomentAt;
      var ending := Next();
      ok := ending.Well?;
      if ok || ending.landed {
        journal := next;
        trace := trace + [Shot(Now(), clock)];
      }
    }

    /** Every moment since then was sound. */
    ghost predicate SoundSince(k: nat, start: Files, from: nat, j: Journal)
      reads this
    {
      forall i :: k <= i < |trace| ==> Sound(trace[i].state, trace[i].clock, start, script, from, j)
    }

    /** The turn of one resource: the look at it, and its replacement if it is still
        as in the snapshot. */
    method Turn(j: Journal, order: seq<string>, i: nat, ghost start: Files, ghost from: nat, ghost done: seq<string>)
      returns (good: bool)
      requires Valid() && journal == Some(j) && MANIFEST !in j.resources && Lists(order, j.resources.Keys)
      requires i < |order| && clock == from + 1 + 2 * i && Follows(files, clock, start, script, from, order[..i])
      requires forall p :: p in j.resources ==> At(start, p) == j.resources[p].before
      requires Under(Now(), clock, start, script, from, j, done)
      modifies this`clock, this`files, this`trace, this`log
      ensures Valid() && old(trace) <= trace && SoundSince(|old(trace)|, start, from, j)
      ensures clock == old(clock) + 2
      ensures good <==> LookGood(script, from, j, order, i) && WellAt(script, from + 2 + 2 * i)
      ensures log == old(log) + TurnWrite(script, from, j, order, i)
      ensures Follows(files, clock, start, script, from, order[..i + 1])
      ensures Under(Now(), clock, start, script, from, j, if good then done + [order[i]] else [])
    {
      hide Replays, Edited, Put, At, MomentAt, Since, AfterEdits, Under, Follows, Sound, LookGood, TurnWrite, LandsAt,
           WellAt, Lists, EntryOf;
      var p := order[i];
      ListedIn(order, j.resources.Keys, i);
      EntryIs(j, p);
      UnderTick(Now(), clock, start, script, from, j, done);
      FollowsTick(files, clock, start, script, from, order[..i]);
      ghost var s0 := Now();
      var look := Next();
      UnderIsSound(Now(), clock, start, script, from, j, done);
      FollowsAt(files, clock, start, script, from, order[..i], p);
      var wanted := look.Well? && At(files, p) == j.resources[p].before;
      LookGoodIs(script, from, j, order, i);
      TurnWriteIs(script, from, j, order, i);
      UnderTick(Now(), clock, start, script, from, j, done);
      FollowsTick(files, clock, start, script, from, order[..i]);
      ghost var seen := Edited(files, MomentAt(script, clock).edits);
      AtEdited(files, MomentAt(script, clock).edits, p);
      UnderIsSound(State(seen, journal), clock + 1, start, script, from, j, done);
      UnderPut(State(seen, journal), clock + 1, start, script, from, j, done, p);
      UnderIsSound(State(Put(seen, p, j.resources[p].after), journal), clock + 1, start, script, from, j, done + [p]);
      FollowsMore(seen, clock + 1, start, script, from, order, i);
      FollowsPut(seen, clock + 1, start, script, from, order[..i + 1], p, j.resources[p].after);
      WellAtIs(script, clock - 1);
      WellAtIs(script, clock);
      if wanted {
        good := Replace(p, j.resources[p].after, clock);
      } else {
        // What would have been the time of its replacement passes.
        var _ := Next();
        good := false;
      }
    }

    /** The resources in the order of their turns, each replaced only if it is still
        as in the snapshot. The work that goes on beside a failure ends some time. */
    method ReplaceResources(j: Journal, order: seq<string>, ghost start: Files, ghost from: nat)
      returns (failed: bool, ghost turns: nat)
      requires Valid() && journal == Some(j) && MANIFEST !in j.resources && Lists(order, j.resources.Keys)
      requires clock == from + 1 && Follows(files, clock, start, script, from, [])
      requires forall p :: p in j.resources ==> At(start, p) == j.resources[p].before
      requires Under(Now(), clock, start, script, from, j, [])
      modifies this`clock, this`files, this`trace, this`log
      ensures Valid() && old(trace) <= trace && SoundSince(|old(trace)|, start, from, j)
      ensures turns <= |order| && clock == from + 1 + 2 * turns
      ensures failed <==> !TurnsGood(script, from, j, order, turns)
      ensures !failed ==> turns == |order|
      ensures log == old(log) + TurnWrites(script, from, j, order, turns)
      ensures Follows(files, clock, start, script, from, order)
      ensures Under(Now(), clock, start, script, from, j, if failed then [] else order)
    {
      hide Replays, Edited, Put, At, MomentAt, Since, AfterEdits, Under, Follows, Sound, LookGood, TurnWrite, LandsAt,
           WellAt, Lists;
      failed, turns := false, 0;
      for i := 0 to |order|
        invariant Valid() && journal == Some(j) && turns == i && clock == from + 1 + 2 * i
        invariant old(trace) <= trace && SoundSince(|old(trace)|, start, from, j)
        invariant failed <==> !TurnsGood(script, from, j, order, i)
        invariant log == old(log) + TurnWrites(script, from, j, order, i)
        invariant Follows(files, clock, start, script, from, order[..i])
        invariant Under(Now(), clock, start, script, from, j, if failed then [] else order[..i])
      {
        assert order[..i + 1] == order[..i] + [order[i]];
        var drained := *;
        if failed && drained { break; }
        var good := Turn(j, order, i, start, from, if failed then [] else order[..i]);
        UnderIsSound(Now(), clock, start, script, from, j, (if failed then [] else order[..i]) + [order[i]]);
        failed := failed || !good;
        turns := turns + 1;
      }
      assert order[..|order|] == order;
      FollowsAll(files, clock, start, script, from, order, turns);
    }

    /** The manifest, and the end of the journal. */
    method Finish(j: Journal, order: seq<string>, ghost start: Files, ghost from: nat) returns (ok: bool)
      requires Valid() && journal == Some(j) && MANIFEST !in j.resources && Lists(order, j.resources.Keys)
      requires clock == from + 1 + 2 * |order| && Follows(files, clock, start, script, from, order)
      requires At(start, MANIFEST) == j.manifest.before
      requires Under(Now(), clock, start, script, from, j, order)
      modifies this`clock, this`files, this`journal, this`trace, this`log
      ensures Valid() && old(trace) <= trace && SoundSince(|old(trace)|, start, from, j)
      ensures clock > from && (ok <==> AllWell(script, old(clock), 2))
      ensures !ok ==> !WellAt(script, clock - 1)
      ensures log == old(log) + (if LandsAt(script, old(clock)) then [ManifestWrite(script, from, j, order)] else [])
      ensures journal ==
        if WellAt(script, old(clock)) && LandsAt(script, old(clock) + 1) then None else Some(j)
      ensures Ended(Now(), clock, start, script, from, j, LandsAt(script, old(clock)))
    {
      hide Replays, Edited, Put, At, MomentAt, Since, AfterEdits, Under, Follows, Sound, LandsAt, WellAt, Lists,
           Ended, ManifestWrite;
      ghost var at := clock;
      ghost var seen := Edited(files, MomentAt(script, clock).edits);
      ghost var after := Put(seen, MANIFEST, j.manifest.after);
      assert MANIFEST !in order by { NotListed(order, j.resources.Keys, MANIFEST); }
      FollowsTick(files, clock, start, script, from, order);
      ManifestFound(seen, start, script, from, j, order);
      UnderTick(Now(), clock, start, script, from, j, order);
      UnderIsSound(State(seen, journal), clock + 1, start, script, from, j, order);
      NothingEnded(State(seen, journal), clock + 1, start, script, from, j);
      ManifestEnds(State(seen, journal), clock + 1, start, script, from, j, order);
      EndedIsSound(State(after, Some(j)), clock + 1, start, script, from, j, true);
      EndedTick(State(after, Some(j)), clock + 1, start, script, from, j, true);
      EndedTick(State(after, None), clock + 1, start, script, from, j, true);
      ghost var later := Edited(after, MomentAt(script, clock + 1).edits);
      EndedIsSound(State(later, Some(j)), clock + 2, start, script, from, j, true);
      EndedIsSound(State(later, None), clock + 2, start, script, from, j, true);
      WellAtIs(script, clock);
      WellAtIs(script, clock + 1);
      TwoWell(script, clock);
      ok := Replace(MANIFEST, j.manifest.after, from);
      if ok {
        ok := SetJournal(None);
      }
    }

    /** Every moment since then was one of a recovery that found `seen`. */
    ghost predicate OnTheWaySince(k: nat, seen: Files, from: nat, j: Journal)
      reads this
    {
      forall i :: k <= i < |trace| ==>
        from <= trace[i].clock && OnTheWay(trace[i].state, trace[i].clock, seen, script, from, j)
    }

    /** Putting back one resource. */
    method PutOneBack(j: Journal, changed: seq<string>, i: nat, ghost seen: Files, ghost from: nat)
      returns (ok: bool)
      requires Valid() && journal == Some(j) && MANIFEST !in j.resources && At(seen, MANIFEST) == j.manifest.before
      requires i < |changed| && clock == from + 1 + i && Lists(changed, set p | p in changed)
      requires changed[i] in j.resources && At(seen, changed[i]) == j.resources[changed[i]].after
      requires Follows(files, clock, seen, script, from + 1, changed[..i])
      requires Back(Now(), clock, seen, script, from + 1, j, changed[..i])
      modifies this`clock, this`files, this`trace, this`log
      ensures Valid() && old(trace) <= trace && OnTheWaySince(|old(trace)|, seen, from + 1, j)
      ensures clock == old(clock) + 1 && ok == WellAt(script, old(clock))
      ensures log == old(log) + BackWrite(script, from, j, changed, i)
      ensures Follows(files, clock, seen, script, from + 1, changed[..i + 1])
      ensures Back(Now(), clock, seen, script, from + 1, j, if ok then changed[..i + 1] else [])
    {
      hide Replays, Edited, Put, At, MomentAt, Since, AfterEdits, Follows, LandsAt, WellAt, Lists, Back, OnTheWay,
           EntryOf, BackWrite;
      var p := changed[i];
      assert changed[..i + 1] == changed[..i] + [p];
      ListedIn(changed, (set q | q in changed), i);
      EntryIs(j, p);
      BackWriteIs(script, from, j, changed, i);
      ghost var now := Edited(files, MomentAt(script, clock).edits);
      FollowsTick(files, clock, seen, script, from + 1, changed[..i]);
      FollowsAt(now, clock + 1, seen, script, from + 1, changed[..i], p);
      FollowsMore(now, clock + 1, seen, script, from + 1, changed, i);
      FollowsPut(now, clock + 1, seen, script, from + 1, changed[..i + 1], p, j.resources[p].before);
      BackTick(Now(), clock, seen, script, from + 1, j, changed[..i]);
      BackIsOnTheWay(State(now, journal), clock + 1, seen, script, from + 1, j, changed[..i]);
      BackPut(State(now, journal), clock + 1, seen, script, from + 1, j, changed[..i], p);
      ghost var after := State(Put(now, p, j.resources[p].before), journal);
      BackIsOnTheWay(after, clock + 1, seen, script, from + 1, j, changed[..i + 1]);
      BackLess(State(now, journal), clock + 1, seen, script, from + 1, j, changed[..i]);
      BackLess(after, clock + 1, seen, script, from + 1, j, changed[..i + 1]);
      WellAtIs(script, clock);
      ok := Replace(p, j.resources[p].before, from + 1);
    }

    /** Putting back one resource after another. */
    method PutBack(j: Journal, changed: seq<string>, ghost seen: Files, ghost from: nat)
      returns (ok: bool, ghost count: nat)
      requires Valid() && journal == Some(j) && MANIFEST !in j.resources && At(seen, MANIFEST) == j.manifest.before
      requires files == seen && clock == from + 1 && Lists(changed, set p | p in changed)
      requires forall p :: p in changed ==> p in j.resources && At(seen, p) == j.resources[p].after
      modifies this`clock, this`files, this`trace, this`log
      ensures Valid() && old(trace) <= trace && OnTheWaySince(|old(trace)|, seen, from + 1, j)
      ensures count <= |changed| && clock == from + 1 + count
      ensures if ok then count == |changed| && AllWell(script, from + 1, count)
              else count > 0 && AllWell(script, from + 1, count - 1) && !WellAt(script, from + count)
      ensures log == old(log) + BackWrites(script, from, j, changed, count)
      ensures Follows(files, clock, seen, script, from + 1, changed)
      ensures Back(Now(), clock, seen, script, from + 1, j, if ok then changed else [])
    {
      hide Replays, At, Follows, WellAt, Lists, Back, OnTheWay, BackWrite;
      count := 0;
      BackBegins(seen, script, from + 1, j);
      FollowsBegins(seen, script, from + 1);
      for i := 0 to |changed|
        invariant Valid() && journal == Some(j) && count == i && clock == from + 1 + i
        invariant old(trace) <= trace && OnTheWaySince(|old(trace)|, seen, from + 1, j)
        invariant AllWell(script, from + 1, i)
        invariant log == old(log) + BackWrites(script, from, j, changed, i)
        invariant Follows(files, clock, seen, script, from + 1, changed[..i])
        invariant Back(Now(), clock, seen, script, from + 1, j, changed[..i])
      {
        ok := PutOneBack(j, changed, i, seen, from);
        count := count + 1;
        if !ok {
          FollowsAll(files, clock, seen, script, from + 1, changed, i + 1);
          return;
        }
      }
      assert changed[..|changed|] == changed;
      ok := true;
    }

    /** The rest of a recovery that is not blocked. */
    method Resolve(j: Journal, order: seq<string>, ghost from: nat) returns (result: Recovery, ghost count: nat)
      requires Valid() && journal == Some(j) && MANIFEST !in j.resources && Lists(order, j.resources.Keys)
      requires clock == from + 1 && WellAt(script, from) && !Conflicted(files, j)
      requires var changed := PutsBack(files, j, order);
               Lists(changed, set p | p in changed)
               && forall p :: p in changed ==> p in j.resources && At(files, p) == j.resources[p].after
      modifies this`clock, this`files, this`journal, this`trace, this`log
      ensures Valid() && old(trace) <= trace && clock > from && OnTheWaySince(|old(trace)|, old(files), from + 1, j)
      ensures OnTheWay(Now(), clock, old(files), script, from + 1, j)
      ensures result.Stopped? ==> !WellAt(script, clock - 1)
      ensures count <= |PutsBack(old(files), j, order)|
      ensures RecoveryIs(result, count, script, from, old(files), j, order) && !result.Blocked? && !result.NoJournal?
      ensures result.RolledBack? || result.Finalized? ==> journal.None?
      ensures log == old(log) + BackWrites(script, from, j, PutsBack(old(files), j, order), count)
      ensures journal.None? || journal == Some(j)
    {
      hide Replays, Edited, Put, At, MomentAt, Since, AfterEdits, Follows, LandsAt, WellAt, Lists, Back, OnTheWay,
           Conflicted, Recovered, BackWrite, AllWell, Changed, PutsBack, RecoveryIs;
      ghost var seen := files;
      count := 0;
      BackBegins(seen, script, from + 1, j);
      FollowsBegins(seen, script, from + 1);
      var before := At(files, MANIFEST) == j.manifest.before;
      var changed := if before then Changed(files, j, order) else [];
      PutsBackNow(files, j, order);
      NoneWell(script, from + 1);
      var ok := true;
      if before {
        ok, count := PutBack(j, changed, seen, from);
      }
      BackIsOnTheWay(Now(), clock, seen, script, from + 1, j, []);
      BackLess(Now(), clock, seen, script, from + 1, j, changed);
      if !ok {
        BackFails(script, from, seen, j, order, count);
        return Stopped, count;
      }
      AllBack(script, from, seen, j, order);
      BackTick(Now(), clock, seen, script, from + 1, j, changed);
      FollowsTick(files, clock, seen, script, from + 1, changed);
      ghost var later := State(Edited(files, MomentAt(script, clock).edits), journal);
      BackIsOnTheWay(later, clock + 1, seen, script, from + 1, j, changed);
      BackEnds(later, clock + 1, seen, script, from + 1, j, order);
      WellAtIs(script, clock);
      ok := SetJournal(None);
      result := if !ok then Stopped else if before then RolledBack else Finalized;
    }

    /** `recoverTransaction`, after a crash, in the `catch` of a transaction, or
        whenever it is asked for. All named files are looked at first; it is blocked
        exactly when one of them is then in neither recorded state. */
    method Recover(order: seq<string>) returns (result: Recovery, ghost count: nat)
      requires Valid() && (journal.Some? ==>
        MANIFEST !in journal.value.resources && Lists(order, journal.value.resources.Keys))
      modifies this`clock, this`files, this`journal, this`trace, this`log
      ensures Valid() && old(trace) <= trace
      ensures result.NoJournal? <==> old(journal).None?
      ensures result.NoJournal? ==> Now() == old(Now()) && trace == old(trace) && clock == old(clock) && log == old(log)
      ensures old(journal).Some? ==>
        var j, from := old(journal).value, old(clock);
        var seen := Edited(old(files), MomentAt(script, from).edits);
        clock > from && OnTheWaySince(|old(trace)|, seen, from + 1, j)
        && OnTheWay(Now(), clock, seen, script, from + 1, j)
        && count <= |PutsBack(seen, j, order)| && RecoveryIs(result, count, script, from, seen, j, order)
        && (result.Blocked? ==> Now() == State(seen, Some(j)))
        && (result.RolledBack? || result.Finalized? ==> journal.None?)
        && (result.Stopped? ==> !WellAt(script, clock - 1))
        && log == old(log) + BackWrites(script, from, j, PutsBack(seen, j, order), count)
        && (journal.None? || journal == Some(j))
    {
      hide Replays, Edited, Put, At, MomentAt, Since, AfterEdits, Follows, LandsAt, WellAt, Lists, Back, OnTheWay,
           Conflicted, Recovered, BackWrite, AllWell, Foreign, Changed, PutsBack, RecoveryIs;
      count := 0;
      if journal.None? { return NoJournal, 0; }
      var j := journal.value;
      ghost var from := clock;
      var look := Next();
      ghost var seen := files;
      BackBegins(seen, script, from + 1, j);
      FollowsBegins(seen, script, from + 1);
      BackIsOnTheWay(Now(), clock, seen, script, from + 1, j, []);
      WellAtIs(script, from);
      ConflictedIs(files, j);
      if look.Fails? {
        LookFails(script, from, seen, j, order);
        return Stopped, 0;
      }
      if exists p :: p in Names(j) && Foreign(files, j, p) {
        Blocks(script, from, seen, j, order);
        return Blocked, 0;
      }
      PutsBackIs(files, j, order);
      result, count := Resolve(j, order, from);
    }

    /** The `catch` of a transaction. */
    method Catch(j: Journal, order: seq<string>, ghost start: Files, ghost from: nat, ghost landed: bool)
      returns (recovery: Recovery, ghost backs: seq<Write>)
      requires Valid() && (journal.None? || journal == Some(j)) && MANIFEST !in j.resources
      requires Lists(order, j.resources.Keys) && from <= clock
      requires Ended(Now(), clock, start, script, from, j, landed)
      modifies this`clock, this`files, this`journal, this`trace, this`log
      ensures Valid() && old(trace) <= trace && SoundSince(|old(trace)|, start, from, j)
      ensures clock >= old(clock) && Sound(Now(), clock, start, script, from, j)
      ensures AllOrNothing(Now(), clock, start, script, from, j,
                           landed && (old(journal).None? || j.manifest.before != j.manifest.after))
      ensures log == old(log) + backs && AllGuarded(backs, script, j)
      ensures OfResources(backs, j)
      ensures !recovery.Blocked? && !recovery.Stopped? ==> journal.None?
      ensures recovery.Stopped? ==> clock > old(clock) && !WellAt(script, clock - 1)
      ensures Quiet(script, from, clock, j) ==> !recovery.Blocked?
    {
      hide Replays, Edited, At, MomentAt, LandsAt, WellAt, Ended, Sound, OnTheWay, AllOrNothing, Conflicted, Recovered,
           Changed, PutsBack, Quiet, Lists, Guarded;
      ghost var at, seen := clock + 1, Edited(files, MomentAt(script, clock).edits);
      EndedAllOrNothing(Now(), clock, start, script, from, j, landed);
      EndedIsSound(Now(), clock, start, script, from, j, landed);
      EndedTick(Now(), clock, start, script, from, j, landed);
      ghost var count;
      recovery, count := Recover(order);
      if recovery.NoJournal? {
        backs := [];
        return;
      }
      EndedIsNotConflicted(seen, at, start, script, from, j, landed);
      if Quiet(script, from, clock, j) {
        QuietBegins(script, from, at, clock, j);
      }
      backs := BackWrites(script, at - 1, j, PutsBack(seen, j, order), count);
      PutsBackListed(seen, j, order);
      BackWritesGuarded(script, at - 1, j, PutsBack(seen, j, order), count);
      RecoversAllOrNothing(Now(), clock, seen, at, start, script, from, j, landed);
      forall i | |old(trace)| <= i < |trace|
        ensures Sound(trace[i].state, trace[i].clock, start, script, from, j)
      {
        RecoversAllOrNothing(trace[i].state, trace[i].clock, seen, at, start, script, from, j, landed);
      }
    }

    /** The `try` block. */
    method Try(j: Journal, order: seq<string>, ghost start: Files, ghost from: nat)
      returns (ok: bool, ghost turns: nat)
      requires Valid() && journal == Some(j) && MANIFEST !in j.resources && Lists(order, j.resources.Keys)
      requires clock == from + 1 && WellAt(script, from) && Follows(files, clock, start, script, from, [])
      requires At(start, MANIFEST) == j.manifest.before
      requires forall p :: p in j.resources ==> At(start, p) == j.resources[p].before
      requires Under(Now(), clock, start, script, from, j, [])
      modifies this`clock, this`files, this`journal, this`trace, this`log
      ensures Valid() && old(trace) <= trace && SoundSince(|old(trace)|, start, from, j) && clock > from
      ensures ok <==> Succeeds(script, from, j, order)
      ensures Ended(Now(), clock, start, script, from, j, ManifestLands(script, from, j, order))
      ensures journal == if JournalGoes(script, from, j, order) then None else Some(j)
      ensures !ok && Quiet(script, from, clock, j) ==> SomeFails(script, from, clock)
      ensures Logged(old(log), log, script, from, j, order, turns, [])
    {
      hide Replays, At, LandsAt, WellAt, Lists, Follows, Under, Ended, Sound, Quiet, Guarded, LookGood,
           TurnWrites, ManifestWrite, AllWell, TurnsGood, SomeFails;
      var failed;
      failed, turns := ReplaceResources(j, order, start, from);
      FewerTurns(script, from, j, order, turns);
      if failed {
        NothingEnded(Now(), clock, start, script, from, j);
        ok := false;
      } else {
        TwoWell(script, clock);
        WellAtIs(script, clock);
        WellAtIs(script, clock + 1);
        ok := Finish(j, order, start, from);
      }
      if !ok && Quiet(script, from, clock, j) {
        QuietFails(script, from, clock, j, order, turns);
      }
    }

    /** The `try` block, and recovery when it fails. */
    method Carry(j: Journal, order: seq<string>, ghost start: Files, ghost from: nat)
      returns (ok: bool, recovery: Option<Recovery>, ghost turns: nat, ghost backs: seq<Write>)
      requires Valid() && journal == Some(j) && MANIFEST !in j.resources && Lists(order, j.resources.Keys)
      requires clock == from + 1 && WellAt(script, from) && Follows(files, clock, start, script, from, [])
      requires At(start, MANIFEST) == j.manifest.before
      requires forall p :: p in j.resources ==> At(start, p) == j.resources[p].before
      requires Under(Now(), clock, start, script, from, j, [])
      modifies this`clock, this`files, this`journal, this`trace, this`log
      ensures Valid() && old(trace) <= trace && SoundSince(|old(trace)|, start, from, j)
      ensures Transacted(start, script, from, j, order, Now(), clock, ok, recovery)
      ensures Logged(old(log), log, script, from, j, order, turns, backs) && (ok ==> backs == [])
    {
      hide Replays, At, LandsAt, WellAt, Lists, Follows, Under, Ended, Sound, AllOrNothing, Quiet, Guarded,
           ManifestLands, JournalGoes, Succeeds, SomeFails, Logged;
      ok, turns := Try(j, order, start, from);
      SucceedsInPlace(script, from, j, order);
      backs, recovery := [], None;
      if ok {
        EndedIsSound(Now(), clock, start, script, from, j, ManifestLands(script, from, j, order));
        EndedAllOrNothing(Now(), clock, start, script, from, j, ManifestLands(script, from, j, order));
        return;
      }
      ghost var at, made := clock, log;
      var result;
      result, backs := Catch(j, order, start, from, ManifestLands(script, from, j, order));
      LoggedMore(old(log), made, script, from, j, order, turns, backs);
      if Quiet(script, from, clock, j) {
        QuietBegins(script, from, at, clock, j);
      }
      FailsEarlier(script, from, at, clock);
      recovery := Some(result);
    }

    /** The journal written, and then the rest. */
    method Begin(j: Journal, order: seq<string>)
      returns (ok: bool, recovery: Option<Recovery>, ghost turns: nat, ghost backs: seq<Write>)
      requires Valid() && journal.None? && MANIFEST !in j.resources && Lists(order, j.resources.Keys)
      requires At(files, MANIFEST) == j.manifest.before
      requires forall p :: p in j.resources ==> At(files, p) == j.resources[p].before
      modifies this`clock, this`files, this`journal, this`trace, this`log
      ensures Valid() && old(trace) <= trace && SoundSince(|old(trace)|, old(files), old(clock), j)
      ensures Transacted(old(files), script, old(clock), j, order, Now(), clock, ok, recovery)
      ensures Logged(old(log), log, script, old(clock), j, order, turns, backs) && (ok ==> backs == [])
    {
      hide Replays, At, LandsAt, WellAt, Lists, Follows, Under, Sound, AllOrNothing, Quiet, Logged, Succeeds, InPlace,
           Edited, MomentAt;
      ghost var start, from := files, clock;
      ApplyBegins(start, script, from, j);
      ok := SetJournal(Some(j));
      if !ok {
        NothingLogged(log, script, from, j, order);
        return false, None, 0, [];
      }
      WellAtIs(script, from);
      ok, recovery, turns, backs := Carry(j, order, start, from);
    }

    /** `applyRegisteredTransaction`. Each replacement does away with exactly what
        the last change from outside since its look, if any, left there: the look
        just before it for a resource, the snapshot for the manifest. */
    method Apply(changes: map<string, Option<string>>, manifest: string, order: seq<string>)
      returns (ok: bool, recovery: Option<Recovery>, ghost turns: nat, ghost backs: seq<Write>)
      requires Valid() && MANIFEST !in changes && Lists(order, changes.Keys)
      modifies this`clock, this`files, this`journal, this`trace, this`log
      ensures Valid() && old(trace) <= trace
      ensures old(journal).Some? ==>
        !ok && Now() == old(Now()) && trace == old(trace) && log == old(log) && clock == old(clock)
      ensures old(journal).None? ==>
        var start, from, j := old(files), old(clock), JournalOf(old(files), changes, manifest);
        SoundSince(|old(trace)|, start, from, j)
        && Transacted(start, script, from, j, order, Now(), clock, ok, recovery)
        && Logged(old(log), log, script, from, j, order, turns, backs) && (ok ==> backs == [])
        && forall i :: |old(log)| <= i < |log| ==> (Loses(log[i], j) <==> HitInWindow(log[i], script, j))
    {
      turns, backs := 0, [];
      if journal.Some? { return false, None, turns, backs; }
      hide JournalOf, Transacted, Logged, Loses, HitInWindow, Replays, At, Lists;
      var j := JournalOf(files, changes, manifest);
      JournalHas(files, changes, manifest);
      ghost var from, past := clock, log;
      ok, recovery, turns, backs := Begin(j, order);
      LoggedLoses(past, log, script, from, j, order, turns, backs);
    }
  }

  // ---------------------------------------------------------------- concrete runs

  const WELL := Moment(map[], Well)

  function Creating(manifest: string): Journal {
    Journal(map["a" := Entry(None, Some("x"))], Entry(Some("m0"), Some(manifest)))
  }

  lemma CreatingIs(start: Files, changes: map<string, Option<string>>, manifest: string)
    requires start == map[MANIFEST := "m0"] && changes == map["a" := Some("x")]
    ensures JournalOf(start, changes, manifest) == Creating(manifest)
  {
    assert JournalOf(start, changes, manifest).resources == Creating(manifest).resources;
  }

  lemma LoggedWhole(log: seq<Write>, script: seq<Moment>, j: Journal, order: seq<string>, turns: nat)
    requires Logged([], log, script, 0, j, order, turns, []) && Succeeds(script, 0, j, order)
    ensures log == TurnWrites(script, 0, j, order, |order|) + [ManifestWrite(script, 0, j, order)]
  {
    SucceedsInPlace(script, 0, j, order);
    hide TurnWrites, ManifestWrite, LookGood, AllWell, ManifestLands;
  }

  lemma {:induction false} NothingMore(script: seq<Moment>, from: nat, now: nat)
    requires forall t: nat :: from <= t < now ==> MomentAt(script, t).edits == map[]
    ensures Since(script, from, now) == map[]
  {
    if from < now {
      NothingMore(script, from, now - 1);
    }
  }

  /** What the last replacement of a path left there is what stands there. */
  lemma ContentIs(first: Files, script: seq<Moment>, clock: nat, log: seq<Write>, q: string)
    requires log != [] && forall t: nat :: log[|log| - 1].at < t ==> MomentAt(script, t).edits == map[]
    ensures log[|log| - 1].path == q ==> Content(first, script, clock, log, q) == log[|log| - 1].wrote
    ensures log[|log| - 1].path != q ==>
      Content(first, script, clock, log, q) == Content(first, script, clock, log[..|log| - 1], q)
  {
    NothingMore(script, log[|log| - 1].at + 1, clock);
  }

  /** A transaction that creates the file "a" and writes this manifest, step by step:
      the journal, the look, the replacement, the manifest, the end of the journal. */
  method Create(manifest: string, script: seq<Moment>)
    returns (ok: bool, recovery: Option<Recovery>, machine: Machine)
    ensures fresh(machine) && machine.Valid() && machine.script == script && machine.first == map[MANIFEST := "m0"]
    ensures var j := Creating(manifest);
            Transacted(map[MANIFEST := "m0"], script, 0, j, ["a"], machine.Now(), machine.clock, ok, recovery)
            && (ok ==> machine.log == TurnWrites(script, 0, j, ["a"], 1) + [ManifestWrite(script, 0, j, ["a"])])
  {
    var start: Files := map[MANIFEST := "m0"];
    machine := new Machine(State(start, None), script);
    ghost var turns, backs;
    var changes: map<string, Option<string>> := map["a" := Some("x")];
    assert Lists(["a"], changes.Keys);
    hide Transacted, Logged, Replays;
    ok, recovery, turns, backs := machine.Apply(changes, manifest, ["a"]);
    CreatingIs(start, changes, manifest);
    if ok {
      LoggedWhole(machine.log, script, Creating(manifest), ["a"], turns);
    }
  }

  /** A script in which one step fails, without a trace, or a change from outside
      arrives before one. */
  function FailingAt(n: nat): seq<Moment> { seq(n, i => WELL) + [Moment(map[], Fails(false))] }

  function EditAt(n: nat, p: string): seq<Moment> { seq(n, i => WELL) + [Moment(map[p := Some("mine")], Well)] }

  lemma EditSucceeds(n: nat, p: string)
    requires (n == 2 && p == "a") || (n == 3 && p == MANIFEST)
    ensures Succeeds(EditAt(n, p), 0, Creating("m1"), ["a"])
    ensures var log := TurnWrites(EditAt(n, p), 0, Creating("m1"), ["a"], 1)
                       + [ManifestWrite(EditAt(n, p), 0, Creating("m1"), ["a"])];
            log == [Write("a", 2, 2, if n == 2 then Some("mine") else None, Some("x")),
                    Write(MANIFEST, 0, 3, if n == 3 then Some("mine") else Some("m0"), Some("m1"))]
  {
    var script, j := EditAt(n, p), Creating("m1");
    assert forall t :: t != n ==> MomentAt(script, t) == WELL;
    assert MomentAt(script, n) == Moment(map[p := Some("mine")], Well);
    NothingMore(script, 0, 2);
    assert LookGood(script, 0, j, ["a"], 0);
    assert TurnWrites(script, 0, j, ["a"], 0) == [];
    assert Since(script, 0, 3) == if n == 2 then map[p := Some("mine")] else map[];
    assert Since(script, 0, 4) == map[p := Some("mine")];
  }

  lemma EditAtIs(n: nat, p: string)
    ensures forall t: nat :: t != n ==> MomentAt(EditAt(n, p), t) == WELL
  {}

  /** A change to the manifest that arrives before it is written is overwritten by a
      transaction that reports success. */
  method ManifestEditLost() returns (ok: bool, manifest: Option<string>, ghost lost: Write)
    ensures ok && manifest == Some("m1") && lost.path == MANIFEST && lost.found == Some("mine")
  {
    EditSucceeds(3, MANIFEST);
    EditAtIs(3, MANIFEST);
    hide Succeeds, TurnWrites, ManifestWrite, EditAt, Content, MomentAt;
    var recovery, machine;
    ok, recovery, machine := Create("m1", EditAt(3, MANIFEST));
    lost := machine.log[1];
    manifest := At(machine.files, MANIFEST);
    ContentIs(machine.first, machine.script, machine.clock, machine.log, MANIFEST);
  }

  /** So is a change to a resource that arrives between the look at it and its
      replacement. */
  method EditLostBeforeRename() returns (ok: bool, content: Option<string>, ghost lost: Write)
    ensures ok && content == Some("x") && lost.path == "a" && lost.found == Some("mine")
  {
    EditSucceeds(2, "a");
    EditAtIs(2, "a");
    hide Succeeds, TurnWrites, ManifestWrite, EditAt, Content, MomentAt;
    var recovery, machine;
    ok, recovery, machine := Create("m1", EditAt(2, "a"));
    lost := machine.log[0];
    content := At(machine.files, "a");
    assert machine.log[..1] == [machine.log[0]];
    ContentIs(machine.first, machine.script, machine.clock, machine.log, "a");
    ContentIs(machine.first, machine.script, machine.clock, machine.log[..1], "a");
  }

  lemma JournalRemovalFails(manifest: string)
    ensures var script, j := FailingAt(4), Creating(manifest);
            !Succeeds(script, 0, j, ["a"]) && ManifestLands(script, 0, j, ["a"]) && !JournalGoes(script, 0, j, ["a"])
            && (forall t: nat :: t != 4 ==> MomentAt(script, t) == WELL) && MomentAt(script, 4).edits == map[]
  {
    var script, j := FailingAt(4), Creating(manifest);
    assert forall t: nat :: t < 4 ==> MomentAt(script, t) == WELL;
    assert MomentAt(script, 4) == Moment(map[], Fails(false));
    NothingMore(script, 0, 2);
    assert LookGood(script, 0, j, ["a"], 0);
    assert WellAt(script, 0) && WellAt(script, 2) && WellAt(script, 3) && !WellAt(script, 4) && !LandsAt(script, 4);
  }

  /** A recovery that follows the only failure completes. */
  lemma OneFailureRecovers(
      manifest: string, s: State, now: nat, ok: bool, recovery: Option<Recovery>)
    requires Transacted(map[MANIFEST := "m0"], FailingAt(4), 0, Creating(manifest), ["a"], s, now, ok, recovery)
    ensures !ok && s.journal.None?
    ensures s.files == if manifest == "m0" then map[MANIFEST := "m0"] else map["a" := "x", MANIFEST := manifest]
  {
    JournalRemovalFails(manifest);
    hide Succeeds, ManifestLands, JournalGoes, FailingAt, MomentAt;
    var script, start, j := FailingAt(4), map[MANIFEST := "m0"], Creating(manifest);
    assert Quiet(script, 0, now, j);
    NothingMore(script, 0, now);
    var end := if manifest == "m0" then start else Applied(start, j);
    assert Edited(end, map[]) == end;
    assert WellAt(script, 0);
    assert forall t: nat :: WellAt(script, t) || t == 4;
    assert recovery.Some? && recovery != Some(Stopped) && recovery != Some(Blocked);
    assert manifest != "m0" ==> Applied(start, j) == map["a" := "x", MANIFEST := manifest];
  }

  /** A transaction whose journal cannot be removed reports failure, and is recovered
      at once: to all of its changes in place if the manifest has changed, and back to
      what was before if it has not. */
  method FailedInPlace() returns (ok: bool, inPlace: Files, undone: Files)
    ensures !ok && inPlace == map["a" := "x", MANIFEST := "m1"] && undone == map[MANIFEST := "m0"]
  {
    hide Transacted, FailingAt;
    var recovery, machine;
    ok, recovery, machine := Create("m0", FailingAt(4));
    OneFailureRecovers("m0", machine.Now(), machine.clock, ok, recovery);
    undone := machine.files;
    ok, recovery, machine := Create("m1", FailingAt(4));
    OneFailureRecovers("m1", machine.Now(), machine.clock, ok, recovery);
    inPlace := machine.files;
  }
}
