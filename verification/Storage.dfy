/** `writeAtomic` of src/storage.ts as single file effects. Any effect may
    fail, and a crash may come after any of them. */
module Storage {
  import opened Text
  import opened Json

  /** The bytes of a file, as far as this model looks into them: what
      `JSON.stringify` renders for a value, or any other bytes with what
      `JSON.parse` makes of them. */
  datatype Bytes = Rendered(value: Json) | Other(text: string, parsed: Option<Json>)

  /** A project path, or the backup path of a configuration, named after its
      version and the SHA-256 of its bytes (taken to be injective). */
  datatype Path = Plain(name: string) | Backup(version: int, original: Bytes)

  /** A final path, or the temporary sibling that one call derives from it. */
  datatype Name = Final(path: Path) | Temporary(path: Path, id: nat)

  type Files = map<Name, Bytes>

  /** What readers of final paths can see. */
  type View = map<Path, Bytes>

  ghost function Visible(files: Files): View {
    map n | n in files && n.Final? :: n.path := files[n]
  }

  lemma VisibleAt(files: Files, path: Path)
    ensures path in Visible(files) <==> Final(path) in files
    ensures path in Visible(files) ==> Visible(files)[path] == files[Final(path)]
  {}

  lemma TemporaryIsInvisible(files: Files, name: Name, content: Bytes)
    requires name.Temporary?
    ensures Visible(files[name := content]) == Visible(files)
    ensures Visible(files - {name}) == Visible(files)
  {}

  lemma CommitIsVisible(files: Files, target: Path, content: Bytes)
    ensures Visible(files[Final(target) := content]) == Visible(files)[target := content]
  {}

  /** How the environment lets one step end; `Busy` stands for EPERM, EACCES and
      EBUSY. */
  datatype Ending = Fine | Missing | Busy | Broken

  /** The pauses between two renames, in milliseconds. */
  const DELAYS: seq<nat> := [10, 20, 40, 80, 160, 320, 500, 500]

  /** How many renames there can be: a busy target is tried again only on Windows. */
  function Attempts(windows: bool): nat { if windows then |DELAYS| + 1 else 1 }

  /** `states` shows one switch: `before` up to some point, `after` from there on. */
  ghost predicate SwitchesAt(states: seq<View>, before: View, after: View, at: int) {
    0 <= at <= |states|
    && (forall k :: 0 <= k < at ==> states[k] == before)
    && (forall k :: at <= k < |states| ==> states[k] == after)
  }

  ghost predicate Switches(states: seq<View>, before: View, after: View) {
    exists at :: SwitchesAt(states, before, after, at)
  }

  lemma StillBefore(past: seq<View>, trace: seq<View>, before: View, after: View)
    requires past <= trace && forall k :: |past| <= k < |trace| ==> trace[k] == before
    ensures Switches(trace[|past|..], before, after)
  {
    assert SwitchesAt(trace[|past|..], before, after, |trace| - |past|);
  }

  /** A switching run goes on as it stands. */
  lemma SwitchesOn(states: seq<View>, before: View, after: View, last: View)
    requires Switches(states, before, after)
    requires if states == [] then last == before else last == states[|states| - 1]
    ensures Switches(states + [last], before, after)
  {
    var at :| SwitchesAt(states, before, after, at);
    assert SwitchesAt(states + [last], before, after, if last == before && at == |states| then at + 1 else at);
  }

  lemma SwitchesNow(past: seq<View>, trace: seq<View>, before: View, after: View)
    requires past < trace && forall k :: |past| <= k < |trace| - 1 ==> trace[k] == before
    requires trace[|trace| - 1] == after
    ensures Switches(trace[|past|..], before, after)
  {
    assert SwitchesAt(trace[|past|..], before, after, |trace| - 1 - |past|);
  }

  // ------------------------------------------------- what the endings come to

  /** The ending of the step at this time; beyond the script all goes well. */
  function EndingAt(endings: seq<Ending>, clock: nat): Ending {
    if clock < |endings| then endings[clock] else Fine
  }

  predicate FineAt(endings: seq<Ending>, clock: nat) { EndingAt(endings, clock).Fine? }

  /** Unlinking a temporary that is not there any more is no failure, unless it ends
      otherwise than by finding nothing. */
  predicate GoneAt(endings: seq<Ending>, clock: nat) {
    EndingAt(endings, clock).Fine? || EndingAt(endings, clock).Missing?
  }

  predicate AllFine(endings: seq<Ending>, clock: nat, count: nat) {
    forall t :: clock <= t < clock + count ==> FineAt(endings, t)
  }

  /** What a number of steps comes to: whether they went well, whether the new
      content was renamed into place, after how many renames, whether the
      temporary is there, and how far they have used the script. */
  datatype Fate = Fate(ok: bool, renamed: bool, renames: nat, left: bool, clock: nat)

  /** The renames, when `renames` of them found the target busy. */
  function RenamesFate(endings: seq<Ending>, clock: nat, windows: bool, renames: nat): (fate: Fate)
    requires renames < Attempts(windows)
    ensures renames <= fate.renames <= Attempts(windows) && fate.ok == fate.renamed == !fate.left
    decreases Attempts(windows) - renames
  {
    if renames > 0 && !FineAt(endings, clock) then Fate(false, false, renames, true, clock + 1)
    else
      var at := if renames > 0 then clock + 1 else clock;
      var ending := EndingAt(endings, at);
      if ending.Fine? then Fate(true, true, renames + 1, false, at + 1)
      else if ending.Busy? && renames + 1 < Attempts(windows)
      then RenamesFate(endings, at + 1, windows, renames + 1)
      else Fate(false, false, renames + 1, true, at + 1)
  }

  /** The `try` block; `free` if the name of the temporary is. */
  function TryFate(endings: seq<Ending>, clock: nat, windows: bool, free: bool): (fate: Fate)
    ensures fate.ok ==> fate.renamed
    ensures fate.renamed ==> free && !fate.left
    ensures fate.renames <= Attempts(windows)
  {
    if !free || !FineAt(endings, clock) then Fate(false, false, 0, !free, clock + 1)
    else if !FineAt(endings, clock + 1) then Fate(false, false, 0, true, clock + 2)
    else if !FineAt(endings, clock + 2) then Fate(false, false, 0, true, clock + 3)
    else
      var fate := RenamesFate(endings, clock + 3, windows, 0);
      if fate.ok then fate.(ok := FineAt(endings, fate.clock), clock := fate.clock + 1) else fate
  }

  /** The `finally` block. */
  function FinallyFate(endings: seq<Ending>, fate: Fate): Fate {
    var clean := fate.ok || FineAt(endings, fate.clock);
    var at := if fate.ok then fate.clock else fate.clock + 1;
    if !clean then fate.(clock := at)
    else if fate.left then fate.(ok := fate.ok && FineAt(endings, at), left := !FineAt(endings, at), clock := at + 1)
    else fate.(ok := fate.ok && GoneAt(endings, at), clock := at + 1)
  }

  /** A whole atomic write. */
  function WriteFate(endings: seq<Ending>, clock: nat, windows: bool, free: bool): (fate: Fate)
    ensures fate.ok ==> fate.renamed
    ensures fate.renamed ==> free && !fate.left
    ensures fate.renames <= Attempts(windows)
  {
    if !FineAt(endings, clock) then Fate(false, false, 0, !free, clock + 1)
    else FinallyFate(endings, TryFate(endings, clock + 1, windows, free))
  }

  /** The `k`th rename, counted from 0, is made and ends well: all before it
      found the target busy, and the look at the paths after each went well. */
  predicate RenamedAt(endings: seq<Ending>, clock: nat, k: nat) {
    FineAt(endings, clock + 2 * k)
    && forall j :: 0 <= j < k ==> EndingAt(endings, clock + 2 * j).Busy? && FineAt(endings, clock + 2 * j + 1)
  }

  /** One round of the renames, after its look at the paths. */
  lemma OneRename(endings: seq<Ending>, clock: nat, windows: bool, renames: nat, at: nat)
    requires renames < Attempts(windows)
    requires if renames > 0 then FineAt(endings, clock) && at == clock + 1 else at == clock
    ensures RenamesFate(endings, clock, windows, renames) ==
      if FineAt(endings, at) then Fate(true, true, renames + 1, false, at + 1)
      else if EndingAt(endings, at).Busy? && renames + 1 < Attempts(windows)
      then RenamesFate(endings, at + 1, windows, renames + 1)
      else Fate(false, false, renames + 1, true, at + 1)
  {}

  lemma NoRename(endings: seq<Ending>, clock: nat, windows: bool, renames: nat)
    requires 0 < renames < Attempts(windows) && !FineAt(endings, clock)
    ensures RenamesFate(endings, clock, windows, renames) == Fate(false, false, renames, true, clock + 1)
  {}

  /** One of so many renames is made and ends well. */
  predicate SomeRename(endings: seq<Ending>, clock: nat, count: nat) {
    exists k: nat :: k < count && RenamedAt(endings, clock, k)
  }

  /** The script goes on after `renames` busy targets. */
  function NextLook(clock: nat, renames: nat): nat { clock + if renames > 0 then 2 * renames - 1 else 0 }

  predicate BusyBefore(endings: seq<Ending>, clock: nat, renames: nat) {
    forall j :: 0 <= j < renames ==>
      EndingAt(endings, clock + 2 * j).Busy? && (j + 1 < renames ==> FineAt(endings, clock + 2 * j + 1))
  }

  lemma BusyAgain(endings: seq<Ending>, clock: nat, renames: nat)
    requires BusyBefore(endings, clock, renames) && EndingAt(endings, clock + 2 * renames).Busy?
    requires renames == 0 || FineAt(endings, NextLook(clock, renames))
    ensures BusyBefore(endings, clock, renames + 1)
  {
    assert renames > 0 ==> NextLook(clock, renames) == clock + 2 * (renames - 1) + 1;
  }

  lemma NoneAfter(endings: seq<Ending>, clock: nat, windows: bool, renames: nat)
    requires BusyBefore(endings, clock, renames)
    requires (renames > 0 && !FineAt(endings, NextLook(clock, renames)))
      || (!FineAt(endings, clock + 2 * renames)
          && (!EndingAt(endings, clock + 2 * renames).Busy? || renames + 1 >= Attempts(windows)))
    ensures !SomeRename(endings, clock, Attempts(windows))
  {
    forall k: nat | k < Attempts(windows)
      ensures !RenamedAt(endings, clock, k)
    {
      if k < renames {
        assert EndingAt(endings, clock + 2 * k).Busy?;
      } else if renames > 0 && !FineAt(endings, NextLook(clock, renames)) {
        assert NextLook(clock, renames) == clock + 2 * (renames - 1) + 1;
      }
    }
  }

  lemma RenamedNow(endings: seq<Ending>, clock: nat, windows: bool, renames: nat)
    requires renames < Attempts(windows) && BusyBefore(endings, clock, renames)
    requires renames == 0 || FineAt(endings, NextLook(clock, renames))
    requires FineAt(endings, clock + 2 * renames)
    ensures RenamedAt(endings, clock, renames) && SomeRename(endings, clock, Attempts(windows))
  {
    assert RenamedAt(endings, clock, renames) by {
      forall j | 0 <= j < renames
        ensures EndingAt(endings, clock + 2 * j).Busy? && FineAt(endings, clock + 2 * j + 1)
      {
        if j == renames - 1 {
          assert NextLook(clock, renames) == clock + 2 * j + 1;
        }
      }
    }
  }

  lemma {:induction false} RenamesEnd(endings: seq<Ending>, clock: nat, windows: bool, renames: nat)
    requires renames < Attempts(windows) && BusyBefore(endings, clock, renames)
    ensures var fate := RenamesFate(endings, NextLook(clock, renames), windows, renames);
            fate.renamed == SomeRename(endings, clock, Attempts(windows))
            && if fate.renamed
               then
                 fate.renames > 0 && RenamedAt(endings, clock, fate.renames - 1)
                 && fate.clock == clock + 2 * fate.renames - 1
               else clock < fate.clock && !FineAt(endings, fate.clock - 1)
    decreases Attempts(windows) - renames
  {
    hide SomeRename, RenamesFate, RenamedAt, BusyBefore;
    var at := clock + 2 * renames;
    if renames > 0 && !FineAt(endings, NextLook(clock, renames)) {
      NoRename(endings, NextLook(clock, renames), windows, renames);
      NoneAfter(endings, clock, windows, renames);
      return;
    }
    OneRename(endings, NextLook(clock, renames), windows, renames, at);
    if FineAt(endings, at) {
      RenamedNow(endings, clock, windows, renames);
    } else if EndingAt(endings, at).Busy? && renames + 1 < Attempts(windows) {
      BusyAgain(endings, clock, renames);
      RenamesEnd(endings, clock, windows, renames + 1);
    } else {
      NoneAfter(endings, clock, windows, renames);
    }
  }

  /** Exactly when a write puts the new content into place, and exactly when it
      then still reports failure: when the step right after that rename, the hook of
      the caller with the directory sync, goes wrong, or the last, the unlinking of
      the temporary that has just been renamed, ends otherwise than by finding nothing.
      On Windows there are up to nine renames, and otherwise one. The temporary is left
      when it was opened, or was there before, and the last step of cleaning up fails. */
  lemma WriteFateIs(endings: seq<Ending>, clock: nat, windows: bool, free: bool)
    ensures var fate := WriteFate(endings, clock, windows, free);
            fate.renamed <==>
              free && AllFine(endings, clock, 4)
              && SomeRename(endings, clock + 4, if windows then 9 else 1)
    ensures var fate := WriteFate(endings, clock, windows, free);
            fate.renamed ==> fate.renames > 0 && RenamedAt(endings, clock + 4, fate.renames - 1)
    ensures var fate := WriteFate(endings, clock, windows, free);
            fate.ok <==>
              fate.renamed && FineAt(endings, clock + 3 + 2 * fate.renames)
              && GoneAt(endings, clock + 4 + 2 * fate.renames)
    ensures var fate := WriteFate(endings, clock, windows, free);
            fate.left <==>
              if !FineAt(endings, clock) then !free
              else (!free || FineAt(endings, clock + 1)) && !fate.renamed && !FineAt(endings, fate.clock - 1)
  {
    hide RenamesFate, RenamedAt;
    RenamesEnd(endings, clock + 4, windows, 0);
  }

  /** A write fails only if one of its steps does, or the name of its temporary
      is taken; it leaves its temporary only if a later step, of cleaning up,
      fails as well. */
  lemma FailingNeedsFailures(endings: seq<Ending>, clock: nat, windows: bool)
    ensures var fate := WriteFate(endings, clock, windows, true);
            !fate.ok ==> exists t :: clock <= t < fate.clock && !FineAt(endings, t)
    ensures var fate := WriteFate(endings, clock, windows, true);
            fate.left ==>
              clock < fate.clock && !FineAt(endings, fate.clock - 1)
              && exists t :: clock <= t < fate.clock - 1 && !FineAt(endings, t)
  {
    hide RenamesFate, RenamedAt, SomeRename, EndingAt;
    RenamesEnd(endings, clock + 4, windows, 0);
    if FineAt(endings, clock) {
      var attempt := TryFate(endings, clock + 1, windows, true);
      assert !attempt.ok ==> clock < attempt.clock && !FineAt(endings, attempt.clock - 1);
      assert !GoneAt(endings, attempt.clock) ==> !FineAt(endings, attempt.clock);
    }
  }

  lemma PreparedTry(endings: seq<Ending>, clock: nat, windows: bool)
    requires AllFine(endings, clock, 3)
    ensures var fate := RenamesFate(endings, clock + 3, windows, 0);
            TryFate(endings, clock, windows, true) ==
            if fate.ok then fate.(ok := FineAt(endings, fate.clock), clock := fate.clock + 1) else fate
  {
    hide RenamesFate;
    assert FineAt(endings, clock) && FineAt(endings, clock + 1) && FineAt(endings, clock + 2);
  }

  lemma FinalIs(start: Files, files: Files, path: Path, was: Bytes, now: Bytes)
    requires start == map[Final(path) := was] && Temporary(path, 0) !in files
    requires files - {Temporary(path, 0), Final(path)} == start - {Temporary(path, 0), Final(path)}
    requires Visible(files) == Visible(start)[path := now]
    ensures files == map[Final(path) := now]
  {
    VisibleAt(files, path);
    forall n | n in files
      ensures n == Final(path)
    {
      assert n in files - {Temporary(path, 0), Final(path)} <==> n !in {Temporary(path, 0), Final(path)};
    }
  }

  class Disk {
    /** How each step is going to end. */
    const endings: seq<Ending>
    /** How many steps there have been. */
    var clock: nat
    var files: Files
    /** What was visible after every effect so far: a crash leaves one of these. */
    ghost var trace: seq<View>

    ghost predicate Valid()
      reads this
    {
      trace != [] && trace[|trace| - 1] == Visible(files)
    }

    /** These moments of the trace all show `view`. */
    ghost predicate Quiet(from: int, to: int, view: View)
      reads this
    {
      0 <= from <= to <= |trace| && forall k :: from <= k < to ==> trace[k] == view
    }

    constructor (start: Files, script: seq<Ending>)
      ensures Valid() && files == start && trace == [Visible(start)] && endings == script && clock == 0
    {
      endings, clock, files, trace := script, 0, start, [Visible(start)];
    }

    /** The next ending of the script. */
    method Next() returns (ending: Ending)
      modifies this`clock
      ensures ending == EndingAt(endings, old(clock)) && clock == old(clock) + 1
    {
      ending := EndingAt(endings, clock);
      clock := clock + 1;
    }

    /** A step that only looks, and may throw: a path check, a hook of the
        caller's, or a directory sync. */
    method Proceed() returns (ok: bool)
      modifies this`clock
      ensures ok == FineAt(endings, old(clock)) && clock == old(clock) + 1
    {
      var ending := Next();
      ok := ending.Fine?;
    }

    /** Opening a temporary with `wx`. */
    method Create(name: Name) returns (ok: bool)
      requires name.Temporary?
      modifies this
      ensures clock == old(clock) + 1
      ensures Visible(files) == old(Visible(files)) && trace == old(trace) + [Visible(files)]
      ensures files == if ok then old(files)[name := Other("", None)] else old(files)
      ensures ok <==> FineAt(endings, old(clock)) && name !in old(files)
    {
      var ending := Next();
      ok := ending.Fine? && name !in files;
      if ok {
        TemporaryIsInvisible(files, name, Other("", None));
        files := files[name := Other("", None)];
      }
      trace := trace + [Visible(files)];
    }

    /** A write to a temporary, which may stop anywhere. */
    method Fill(name: Name, content: Bytes) returns (ok: bool, ghost end: Bytes)
      requires name.Temporary?
      modifies this
      ensures clock == old(clock) + 1 && ok == FineAt(endings, old(clock))
      ensures Visible(files) == old(Visible(files)) && trace == old(trace) + [Visible(files), Visible(files)]
      ensures files == old(files)[name := end] && (ok ==> end == content)
    {
      var ending := Next();
      ok := ending.Fine?;
      var partial: Bytes := *;
      TemporaryIsInvisible(files, name, partial);
      files := files[name := partial];
      trace := trace + [Visible(files)];
      if ok {
        TemporaryIsInvisible(files, name, content);
        files := files[name := content];
      }
      trace := trace + [Visible(files)];
      end := if ok then content else partial;
    }

    /** Renaming a temporary over its target. */
    method Rename(name: Name, target: Path) returns (ending: Ending)
      requires name.Temporary? && name in files
      modifies this
      ensures clock == old(clock) + 1 && ending == EndingAt(endings, old(clock))
      ensures trace == old(trace) + [Visible(files)]
      ensures ending.Fine? ==> files == (old(files) - {name})[Final(target) := old(files)[name]]
      ensures ending.Fine? ==> Visible(files) == old(Visible(files))[target := old(files)[name]]
      ensures !ending.Fine? ==> files == old(files)
    {
      ending := Next();
      if ending.Fine? {
        TemporaryIsInvisible(files, name, files[name]);
        CommitIsVisible(files - {name}, target, files[name]);
        files := (files - {name})[Final(target) := files[name]];
      }
      trace := trace + [Visible(files)];
    }

    /** Unlinking a temporary; one that is not there is at best reported as missing. */
    method Unlink(name: Name) returns (ending: Ending)
      requires name.Temporary?
      modifies this
      ensures clock == old(clock) + 1
      ensures Visible(files) == old(Visible(files)) && trace == old(trace) + [Visible(files)]
      ensures files == if ending.Fine? then old(files) - {name} else old(files)
      ensures ending.Fine? || ending.Missing? <==>
        if name in old(files) then FineAt(endings, old(clock)) else GoneAt(endings, old(clock))
      ensures ending.Fine? ==> name in old(files)
      ensures ending.Missing? ==> name !in old(files)
    {
      ending := Next();
      if name !in files {
        ending := if ending.Fine? then Missing else ending;
      } else {
        ending := if ending.Missing? then Broken else ending;
        TemporaryIsInvisible(files, name, files[name]);
        files := if ending.Fine? then files - {name} else files;
      }
      trace := trace + [Visible(files)];
    }

    /** The renames of `writeAtomic`: on Windows a busy target is tried again
        after each pause, and otherwise there is one attempt. */
    method RenameOver(name: Name, target: Path, content: Bytes, windows: bool)
      returns (ok: bool, renames: nat)
      requires Valid() && name.Temporary? && name in files && files[name] == content
      modifies this
      ensures Valid() && old(trace) <= trace
      ensures Fate(ok, ok, renames, !ok, clock) == RenamesFate(endings, old(clock), windows, 0)
      ensures !ok ==> files == old(files) && Quiet(|old(trace)|, |trace|, old(Visible(files)))
      ensures ok ==> files == (old(files) - {name})[Final(target) := content]
      ensures ok ==> Visible(files) == old(Visible(files))[target := content]
      ensures ok ==> |old(trace)| < |trace| && Quiet(|old(trace)|, |trace| - 1, old(Visible(files)))
    {
      hide Visible, RenamesFate, EndingAt;
      ok, renames := true, 0;
      var committed := false;
      while ok && !committed
        invariant Valid() && old(trace) <= trace
        invariant RenamesFate(endings, old(clock), windows, 0) ==
          if ok && !committed && renames < Attempts(windows) then RenamesFate(endings, clock, windows, renames)
          else Fate(ok, ok, renames, !ok, clock)
        invariant !committed ==> files == old(files)
        invariant !committed ==> Quiet(|old(trace)|, |trace|, Visible(files))
        invariant committed ==> ok && files == (old(files) - {name})[Final(target) := content]
        invariant committed ==> Visible(files) == old(Visible(files))[target := content]
        invariant committed ==> |old(trace)| < |trace| && Quiet(|old(trace)|, |trace| - 1, old(Visible(files)))
        invariant ok && !committed ==> renames < Attempts(windows)
        decreases ok && !committed, |DELAYS| + 1 - renames
      {
        // From the second round on, `safePath` looks again and may refuse.
        ghost var start := clock;
        if renames > 0 { ok := Proceed(); }
        if !ok {
          NoRename(endings, start, windows, renames);
        } else {
          OneRename(endings, start, windows, renames, clock);
          var ending := Rename(name, target);
          renames := renames + 1;
          if ending.Fine? {
            committed := true;
          } else if !windows || renames > |DELAYS| || !ending.Busy? {
            ok := false;
          }
        }
      }
    }

    /** Filling the temporary. */
    method Prepare(name: Name, content: Bytes, ghost windows: bool) returns (ok: bool)
      requires Valid() && name.Temporary?
      modifies this
      ensures Valid() && old(trace) <= trace && Quiet(|old(trace)|, |trace|, Visible(files))
      ensures Visible(files) == old(Visible(files))
      ensures files - {name} == old(files) - {name}
      ensures ok <==> name !in old(files) && AllFine(endings, old(clock), 3)
      ensures ok ==> clock == old(clock) + 3 && name in files && files[name] == content
      ensures !ok ==>
        Fate(false, false, 0, name in files, clock) == TryFate(endings, old(clock), windows, name !in old(files))
    {
      hide Visible;
      ok := Create(name);
      if ok {
        ghost var end;
        ok, end := Fill(name, content);
      }
      if ok {
        // `faultBoundary('prepared')`.
        ok := Proceed();
      }
    }

    /** The `try` block of `writeAtomic`. */
    method Commit(name: Name, target: Path, content: Bytes, windows: bool)
      returns (ok: bool, renames: nat)
      requires Valid() && name.Temporary?
      modifies this
      ensures Valid() && old(trace) <= trace
      ensures Switches(trace[|old(trace)|..], old(Visible(files)), old(Visible(files))[target := content])
      ensures files - {name, Final(target)} == old(files) - {name, Final(target)}
      ensures var fate := TryFate(endings, old(clock), windows, name !in old(files));
              fate == Fate(ok, fate.renamed, renames, name in files, clock)
              && Visible(files) == if fate.renamed then old(Visible(files))[target := content] else old(Visible(files))
    {
      hide Visible, Switches, RenamesFate;
      renames := 0;
      ok := Prepare(name, content, windows);
      assert files - {name, Final(target)} == (files - {name}) - {Final(target)};
      if ok {
        PreparedTry(endings, old(clock), windows);
        ok, renames := RenameOver(name, target, content, windows);
      }
      assert files - {name, Final(target)} == (files - {name}) - {Final(target)};
      assert old(files) - {name, Final(target)} == (old(files) - {name}) - {Final(target)};
      if ok {
        SwitchesNow(old(trace), trace, old(Visible(files)), Visible(files));
        // `faultBoundary('committed')` and the directory sync.
        ok := Proceed();
      } else {
        StillBefore(old(trace), trace, old(Visible(files)), old(Visible(files))[target := content]);
      }
    }

    /** `writeAtomic`. At every moment the visible files are the old ones or the
        old ones with the whole new content at the target, and there is one
        switch. In the end the new content is there exactly if a rename went
        well, whatever the call reports; what it reports, the number of renames
        and whether the temporary is left are what `WriteFate` says. */
    method WriteAtomic(target: Path, id: nat, content: Bytes, windows: bool)
      returns (ok: bool, renames: nat)
      requires Valid()
      modifies this
      ensures Valid() && old(trace) <= trace
      ensures Switches(trace[|old(trace)|..], old(Visible(files)), old(Visible(files))[target := content])
      ensures files - {Temporary(target, id), Final(target)} == old(files) - {Temporary(target, id), Final(target)}
      ensures var fate := WriteFate(endings, old(clock), windows, Temporary(target, id) !in old(files));
              fate == Fate(ok, fate.renamed, renames, Temporary(target, id) in files, clock)
              && Visible(files) == if fate.renamed then old(Visible(files))[target := content] else old(Visible(files))
      ensures ok ==> Visible(files) == old(Visible(files))[target := content]
      ensures ok ==> Temporary(target, id) !in files
      ensures renames <= Attempts(windows)
    {
      hide Visible, Switches, TryFate, EndingAt;
      // `safePath` and `mkdir`.
      ok := Proceed();
      if !ok {
        renames := 0;
        StillBefore(trace, trace, Visible(files), Visible(files)[target := content]);
        return;
      }
      var name := Temporary(target, id);
      ok, renames := Commit(name, target, content, windows);
      var clean := ok;
      if !ok {
        // On failure `safePath` looks at the temporary first.
        clean := Proceed();
      }
      if clean {
        ghost var states := trace[|old(trace)|..];
        var ending := Unlink(name);
        SwitchesOn(states, old(Visible(files)), old(Visible(files))[target := content], Visible(files));
        assert trace[|old(trace)|..] == states + [Visible(files)];
        ok := ok && (ending.Fine? || ending.Missing?);
      }
    }
  }

  /** A write that reports failure with the new content in place: all goes well
      up to the rename, and the directory sync after it fails. */
  method FailedInPlace(was: Bytes, now: Bytes) returns (ok: bool, files: Files)
    ensures !ok && files == map[Final(Plain("a")) := now]
  {
    var start: Files := map[Final(Plain("a")) := was];
    var disk := new Disk(start, [Fine, Fine, Fine, Fine, Fine, Broken]);
    var renames;
    ok, renames := disk.WriteAtomic(Plain("a"), 0, now, false);
    files := disk.files;
    FinalIs(start, files, Plain("a"), was, now);
  }
}
