/** Publishing an archive with its sidecars: `publishArchiveSet` of
    scripts/atomic-publish.ts, with a crash possible after every effect. */
module Publish {
  import opened Text

  /** A destination, its temporary under the random token of this call, or the
      staged archive. */
  datatype Name = Final(path: string) | Temp(path: string) | Staged

  type Files = map<Name, string>

  datatype Sidecar = Sidecar(path: string, bytes: string)

  /** How the environment lets one effect end. A write that fails may leave the
      file with any part of the bytes, or not begin at all. */
  datatype Ending = Done | Fails(part: Option<string>)

  /** The step that stopped a publication. */
  datatype Failure = ArchiveRename | SidecarWrite(path: string, part: Option<string>) | SidecarRename(sidecar: Sidecar)

  /** All destinations in the order they are committed, the archive first. */
  function Destinations(archive: string, sidecars: seq<Sidecar>): (paths: seq<string>)
    ensures |paths| == |sidecars| + 1
  {
    [archive] + seq(|sidecars|, i requires 0 <= i < |sidecars| => sidecars[i].path)
  }

  /** What each destination is to hold, given the files before the call. */
  function Contents(before: Files, sidecars: seq<Sidecar>): (bytes: seq<string>)
    ensures |bytes| == |sidecars| + 1
  {
    [if Staged in before then before[Staged] else ""]
    + seq(|sidecars|, i requires 0 <= i < |sidecars| => sidecars[i].bytes)
  }

  /** The names a call works with. */
  predicate Own(n: Name, paths: seq<string>) {
    match n
    case Staged => true
    case Final(path) => path in paths
    case Temp(path) => path in paths
  }

  /** Distinct destinations, none of which exists yet, and a fresh token. */
  predicate Clear(before: Files, paths: seq<string>) {
    (forall i, j :: 0 <= i < j < |paths| ==> paths[i] != paths[j])
    && forall i :: 0 <= i < |paths| ==> Final(paths[i]) !in before && Temp(paths[i]) !in before
  }

  predicate Holds(files: Files, path: string, bytes: string) {
    Final(path) in files && files[Final(path)] == bytes
  }

  /** The first `k` destinations are in place, and no later one. */
  predicate Committed(files: Files, paths: seq<string>, bytes: seq<string>, k: nat)
    requires |paths| == |bytes|
  {
    forall i :: 0 <= i < |paths| ==> if i < k then Holds(files, paths[i], bytes[i]) else Final(paths[i]) !in files
  }

  /** Of the temporaries there is exactly `left`, or none. */
  predicate Temps(files: Files, paths: seq<string>, left: Option<Sidecar>) {
    forall p :: p in paths ==>
      if left.Some? && left.value.path == p
      then Temp(p) in files && files[Temp(p)] == left.value.bytes
      else Temp(p) !in files
  }

  predicate OthersSame(files: Files, before: Files, paths: seq<string>) {
    (forall n :: n in files && !Own(n, paths) ==> n in before && files[n] == before[n])
    && forall n :: n in before && !Own(n, paths) ==> n in files
  }

  /** What every moment keeps: the last destination shows only with all the
      others, each whole; one temporary at most; nothing else is touched. */
  ghost predicate Safe(files: Files, before: Files, paths: seq<string>, bytes: seq<string>)
    requires |paths| == |bytes| > 0
  {
    (Final(paths[|paths| - 1]) in files ==>
      forall i :: 0 <= i < |paths| ==> Holds(files, paths[i], bytes[i]))
    && (exists left :: Temps(files, paths, left))
    && OthersSame(files, before, paths)
  }

  /** Committing, with `left` as the only temporary. */
  ghost predicate Committing(
      files: Files, before: Files, paths: seq<string>, bytes: seq<string>, k: nat, left: Option<Sidecar>)
    requires |paths| == |bytes| > 0
  {
    Committed(files, paths, bytes, k) && Temps(files, paths, left) && OthersSame(files, before, paths)
  }

  /** Rolling back: the last destination is not there. */
  ghost predicate RollingBack(files: Files, before: Files, paths: seq<string>, left: Option<Sidecar>)
    requires |paths| > 0
  {
    Final(paths[|paths| - 1]) !in files && Temps(files, paths, left) && OthersSame(files, before, paths)
  }

  lemma CommittingIsSafe(
      files: Files, before: Files, paths: seq<string>, bytes: seq<string>, k: nat, left: Option<Sidecar>)
    requires |paths| == |bytes| > 0
    requires Committing(files, before, paths, bytes, k, left)
    ensures Safe(files, before, paths, bytes)
    ensures k < |paths| ==> RollingBack(files, before, paths, left)
    ensures k <= |paths| ==> forall p :: p in paths && Final(p) in files ==> p in paths[..k]
  {}

  lemma RollingBackIsSafe(
      files: Files, before: Files, paths: seq<string>, bytes: seq<string>, left: Option<Sidecar>)
    requires |paths| == |bytes| > 0
    requires RollingBack(files, before, paths, left)
    ensures Safe(files, before, paths, bytes)
  {}

  lemma RemovalRollsBack(files: Files, before: Files, paths: seq<string>, left: Option<Sidecar>, n: Name)
    requires |paths| > 0 && RollingBack(files, before, paths, left) && Own(n, paths) && !n.Temp?
    ensures RollingBack(files - {n}, before, paths, left)
  {}

  lemma StartIsCommitting(before: Files, paths: seq<string>, bytes: seq<string>)
    requires |paths| == |bytes| > 0 && Clear(before, paths)
    ensures Committing(before, before, paths, bytes, 0, None)
  {}

  lemma ArchiveCommits(before: Files, paths: seq<string>, bytes: seq<string>)
    requires |paths| == |bytes| > 0 && Clear(before, paths) && Staged in before && bytes[0] == before[Staged]
    ensures Committing((before - {Staged})[Final(paths[0]) := before[Staged]], before, paths, bytes, 1, None)
  {}

  lemma TempStages(files: Files, before: Files, paths: seq<string>, bytes: seq<string>, k: nat, content: string)
    requires |paths| == |bytes| && k < |paths| && Clear(before, paths)
    requires Committing(files, before, paths, bytes, k, None)
    ensures Committing(files[Temp(paths[k]) := content], before, paths, bytes, k, Some(Sidecar(paths[k], content)))
  {}

  lemma SidecarCommits(files: Files, before: Files, paths: seq<string>, bytes: seq<string>, k: nat)
    requires |paths| == |bytes| && k < |paths| && Clear(before, paths)
    requires Committing(files, before, paths, bytes, k, None)
    ensures Committing((files[Temp(paths[k]) := bytes[k]] - {Temp(paths[k])})[Final(paths[k]) := bytes[k]],
                       before, paths, bytes, k + 1, None)
  {}

  lemma ItemsAre(archive: string, sidecars: seq<Sidecar>, before: Files)
    ensures var paths, bytes := Destinations(archive, sidecars), Contents(before, sidecars);
            paths[0] == archive && (Staged in before ==> bytes[0] == before[Staged])
            && forall n :: 0 <= n < |sidecars| ==>
                 paths[n + 1] == sidecars[n].path && bytes[n + 1] == sidecars[n].bytes
  {}

  // ------------------------------------------------- what the endings come to

  /** The ending of the effect at this time; beyond the script all goes well. */
  function EndingAt(endings: seq<Ending>, clock: nat): Ending {
    if clock < |endings| then endings[clock] else Done
  }

  /** A publication ends well, or stops with so many destinations in place and
      this much of the script used. */
  datatype Course = Published | Stopped(failure: Failure, committed: nat, clock: nat)

  /** The sidecars from the `n`th on. */
  function SidecarsCourse(endings: seq<Ending>, clock: nat, sidecars: seq<Sidecar>, n: nat): Course
    requires n <= |sidecars|
    decreases |sidecars| - n
  {
    if n == |sidecars| then Published
    else
      match EndingAt(endings, clock)
      case Fails(part) => Stopped(SidecarWrite(sidecars[n].path, part), n + 1, clock + 1)
      case Done =>
        if EndingAt(endings, clock + 1).Fails? then Stopped(SidecarRename(sidecars[n]), n + 1, clock + 2)
        else SidecarsCourse(endings, clock + 2, sidecars, n + 1)
  }

  function CourseOf(endings: seq<Ending>, clock: nat, staged: bool, sidecars: seq<Sidecar>): Course {
    if EndingAt(endings, clock).Fails? || !staged then Stopped(ArchiveRename, 0, clock + 1)
    else SidecarsCourse(endings, clock + 1, sidecars, 0)
  }

  /** The temporary that a failure leaves: what the failing write had begun, or
      what the failing rename was to move. */
  function Left(failure: Failure): Option<Sidecar> {
    match failure
    case ArchiveRename => None
    case SidecarWrite(path, part) => if part.Some? then Some(Sidecar(path, part.value)) else None
    case SidecarRename(sidecar) => Some(sidecar)
  }

  /** The files after a failure that has been cleaned up. */
  function Remains(before: Files, left: Option<Sidecar>): Files {
    if left.None? then before - {Staged} else (before - {Staged})[Temp(left.value.path) := left.value.bytes]
  }

  /** All of these effects end well. */
  predicate AllDone(endings: seq<Ending>, clock: nat, count: nat) {
    forall t :: clock <= t < clock + count ==> EndingAt(endings, t).Done?
  }

  /** The sidecar after `committed` destinations, whose write comes at `start`,
      stops with the effect before `end`: its write or its rename. */
  predicate StopsWith(
      endings: seq<Ending>, start: nat, sidecars: seq<Sidecar>, failure: Failure, committed: nat, end: nat)
    requires 0 < committed <= |sidecars|
  {
    var sidecar := sidecars[committed - 1];
    end in {start + 1, start + 2}
    && EndingAt(endings, end - 1).Fails?
    && failure ==
       if end == start + 1 then SidecarWrite(sidecar.path, EndingAt(endings, start).part) else SidecarRename(sidecar)
  }

  lemma {:induction false} SidecarsStop(endings: seq<Ending>, clock: nat, sidecars: seq<Sidecar>, n: nat)
    requires n <= |sidecars|
    ensures match SidecarsCourse(endings, clock, sidecars, n)
            case Published => AllDone(endings, clock, 2 * (|sidecars| - n))
            case Stopped(failure, committed, end) =>
              n < committed <= |sidecars|
              && StopsWith(endings, clock + 2 * (committed - 1 - n), sidecars, failure, committed, end)
              && AllDone(endings, clock, end - 1 - clock)
    decreases |sidecars| - n
  {
    if n < |sidecars| && EndingAt(endings, clock).Done? && EndingAt(endings, clock + 1).Done? {
      SidecarsStop(endings, clock + 2, sidecars, n + 1);
    }
  }

  /** A publication ends well exactly if something is staged and all its
      effects end well, the archive's rename and two for each sidecar;
      otherwise the first effect that fails stops it. */
  lemma StopsAtFirstFailure(endings: seq<Ending>, clock: nat, staged: bool, sidecars: seq<Sidecar>)
    ensures match CourseOf(endings, clock, staged, sidecars)
            case Published => staged && AllDone(endings, clock, 1 + 2 * |sidecars|)
            case Stopped(failure, committed, end) =>
              if committed == 0
              then failure == ArchiveRename && end == clock + 1 && (EndingAt(endings, clock).Fails? || !staged)
              else
                staged && committed <= |sidecars| && clock < end && AllDone(endings, clock, end - 1 - clock)
                && StopsWith(endings, clock + 2 * committed - 1, sidecars, failure, committed, end)
  {
    hide StopsWith;
    SidecarsStop(endings, clock + 1, sidecars, 0);
  }

  lemma RemainsAre(files: Files, before: Files, paths: seq<string>, left: Option<Sidecar>)
    requires |paths| > 0 && RollingBack(files, before, paths, left) && Clear(before, paths)
    requires Staged !in files && forall p :: p in paths ==> Final(p) !in files
    requires left.Some? ==> left.value.path in paths
    ensures files == Remains(before, left)
  {
    forall n
      ensures n in files <==> n in Remains(before, left)
      ensures n in files ==> files[n] == Remains(before, left)[n]
    {
      assert Own(n, paths) || !Own(n, paths);
    }
  }

  lemma ClearIsDistinct(before: Files, paths: seq<string>)
    requires Clear(before, paths)
    ensures forall i, j :: 0 <= i < j < |paths| ==> paths[i] != paths[j]
  {}

  lemma RollingBackHas(files: Files, before: Files, paths: seq<string>, left: Option<Sidecar>)
    requires |paths| > 0 && RollingBack(files, before, paths, left)
    ensures Temps(files, paths, left) && OthersSame(files, before, paths)
  {}

  lemma OneMoreDone(endings: seq<Ending>, clock: nat, count: nat)
    ensures AllDone(endings, clock, count + 1)
      <==> AllDone(endings, clock, count) && EndingAt(endings, clock + count).Done?
  {}

  lemma {:induction false} CountDistinct(items: seq<string>)
    requires forall i, j :: 0 <= i < j < |items| ==> items[i] != items[j]
    ensures |set p | p in items| == |items|
  {
    if items != [] {
      var most := items[..|items| - 1];
      CountDistinct(most);
      assert (set p | p in items) == (set p | p in most) + {items[|items| - 1]};
    }
  }

  class Directory {
    /** How each effect is going to end. */
    const endings: seq<Ending>
    /** How many effects there have been. */
    var clock: nat
    var files: Files
    /** What there was after every effect so far: a crash leaves one of these. */
    ghost var trace: seq<Files>

    constructor (start: Files, script: seq<Ending>)
      ensures files == start && trace == [start] && endings == script && clock == 0
    {
      endings, clock, files, trace := script, 0, start, [start];
    }

    /** The next ending of the script. */
    method Next() returns (ending: Ending)
      modifies this`clock
      ensures ending == EndingAt(endings, old(clock)) && clock == old(clock) + 1
    {
      ending := EndingAt(endings, clock);
      clock := clock + 1;
    }

    method Rename(source: Name, target: Name) returns (ok: bool)
      modifies this
      ensures trace == old(trace) + [files] && clock == old(clock) + 1
      ensures ok <==> EndingAt(endings, old(clock)).Done? && source in old(files)
      ensures files == if ok then (old(files) - {source})[target := old(files)[source]] else old(files)
    {
      var ending := Next();
      ok := ending.Done? && source in files;
      if ok { files := (files - {source})[target := files[source]]; }
      trace := trace + [files];
    }

    /** `writeFile`. The moment in the middle has any part of the bytes. */
    method WriteFile(name: Name, bytes: string) returns (ending: Ending, ghost partial: string)
      modifies this
      ensures ending == EndingAt(endings, old(clock)) && clock == old(clock) + 1
      ensures ending.Done? ==>
        trace == old(trace) + [old(files)[name := partial], files] && files == old(files)[name := bytes]
      ensures ending == Fails(None) ==> trace == old(trace) && files == old(files)
      ensures ending.Fails? && ending.part.Some? ==>
        trace == old(trace) + [files] && files == old(files)[name := ending.part.value]
    {
      ending := Next();
      ghost var part: string := *;
      partial := part;
      ghost var was := files;
      match ending
      case Fails(None) =>
      case Fails(Some(some)) =>
        files := files[name := some];
        trace := trace + [files];
      case Done =>
        files := files[name := bytes];
        trace := trace + [was[name := partial], files];
    }

    /** `rm` with `force`. */
    method Remove(name: Name) returns (ok: bool)
      modifies this
      ensures trace == old(trace) + [files] && clock == old(clock) + 1
      ensures ok <==> EndingAt(endings, old(clock)).Done?
      ensures files == if ok then old(files) - {name} else old(files)
    {
      var ending := Next();
      ok := ending.Done?;
      if ok { files := files - {name}; }
      trace := trace + [files];
    }

    /** Every moment since then was safe. */
    ghost predicate SafeSince(start: nat, before: Files, paths: seq<string>, bytes: seq<string>)
      requires |paths| == |bytes| > 0
      reads this
    {
      forall k :: start <= k < |trace| ==> Safe(trace[k], before, paths, bytes)
    }

    /** Writing one sidecar to its temporary and renaming it into place. */
    method CommitSidecar(sidecar: Sidecar, ghost before: Files, ghost paths: seq<string>, ghost bytes: seq<string>,
                         ghost k: nat)
      returns (failure: Option<Failure>)
      requires |paths| == |bytes| && k < |paths| && Clear(before, paths)
      requires paths[k] == sidecar.path && bytes[k] == sidecar.bytes
      requires Committing(files, before, paths, bytes, k, None) && Staged !in files
      modifies this
      ensures old(trace) <= trace && SafeSince(|old(trace)|, before, paths, bytes)
      ensures Staged !in files
      ensures failure ==
        match EndingAt(endings, old(clock))
        case Fails(part) => Some(SidecarWrite(sidecar.path, part))
        case Done => if EndingAt(endings, old(clock) + 1).Done? then None else Some(SidecarRename(sidecar))
      ensures clock == old(clock) + (if EndingAt(endings, old(clock)).Done? then 2 else 1)
      ensures failure.None? ==> Committing(files, before, paths, bytes, k + 1, None)
      ensures failure.Some? ==> Committing(files, before, paths, bytes, k, Left(failure.value))
    {
      hide Clear, Safe, Committing, RollingBack;
      ghost var was := files;
      SidecarCommits(was, before, paths, bytes, k);
      var temp := Temp(sidecar.path);
      var ending, partial := WriteFile(temp, sidecar.bytes);
      if ending.Fails? {
        failure := Some(SidecarWrite(sidecar.path, ending.part));
        if ending.part.Some? {
          TempStages(was, before, paths, bytes, k, ending.part.value);
          CommittingIsSafe(files, before, paths, bytes, k, Left(failure.value));
        }
        return;
      }
      TempStages(was, before, paths, bytes, k, partial);
      TempStages(was, before, paths, bytes, k, sidecar.bytes);
      CommittingIsSafe(was[temp := partial], before, paths, bytes, k, Some(Sidecar(sidecar.path, partial)));
      CommittingIsSafe(files, before, paths, bytes, k, Some(sidecar));
      var ok := Rename(temp, Final(sidecar.path));
      if !ok {
        return Some(SidecarRename(sidecar));
      }
      CommittingIsSafe(files, before, paths, bytes, k + 1, None);
      failure := None;
    }

    /** The `try` block. `committed` lists what has been renamed into place. */
    method Commit(archive: string, sidecars: seq<Sidecar>, ghost before: Files, ghost paths: seq<string>,
                  ghost bytes: seq<string>)
      returns (failure: Option<Failure>, committed: seq<string>)
      requires paths == Destinations(archive, sidecars) && bytes == Contents(before, sidecars)
      requires files == before && Clear(before, paths)
      modifies this
      ensures old(trace) <= trace && SafeSince(|old(trace)|, before, paths, bytes)
      ensures CourseOf(endings, old(clock), Staged in before, sidecars) ==
        if failure.None? then Published else Stopped(failure.value, |committed|, clock)
      ensures failure.None? ==>
        Committing(files, before, paths, bytes, |paths|, None) && Staged !in files && committed == paths
      ensures failure.Some? ==> RollingBack(files, before, paths, Left(failure.value)) && committed <= paths
      ensures failure.Some? ==> forall p :: p in paths && Final(p) in files ==> p in committed
      ensures failure.Some? && Left(failure.value).Some? ==> Left(failure.value).value.path in paths
    {
      hide Clear, Safe, Committing, RollingBack, Destinations, Contents, EndingAt;
      ItemsAre(archive, sidecars, before);
      committed := [];
      StartIsCommitting(before, paths, bytes);
      CommittingIsSafe(before, before, paths, bytes, 0, None);
      var ok := Rename(Staged, Final(archive));
      if !ok {
        return Some(ArchiveRename), [];
      }
      ArchiveCommits(before, paths, bytes);
      CommittingIsSafe(files, before, paths, bytes, 1, None);
      committed := [archive];
      for n := 0 to |sidecars|
        invariant old(trace) <= trace && SafeSince(|old(trace)|, before, paths, bytes)
        invariant Committing(files, before, paths, bytes, n + 1, None) && Staged !in files
        invariant committed == paths[..n + 1]
        invariant CourseOf(endings, old(clock), Staged in before, sidecars)
          == SidecarsCourse(endings, clock, sidecars, n)
      {
        failure := CommitSidecar(sidecars[n], before, paths, bytes, n + 1);
        if failure.Some? {
          CommittingIsSafe(files, before, paths, bytes, n + 1, Left(failure.value));
          return;
        }
        committed := committed + [sidecars[n].path];
      }
      failure := None;
    }

    /** The `catch` block; `Promise.all` removes the committed files in any order. */
    method RollBack(committed: seq<string>, ghost before: Files, ghost paths: seq<string>, ghost bytes: seq<string>,
                    ghost left: Option<Sidecar>)
      returns (cleaned: bool)
      requires |paths| == |bytes| > 0 && RollingBack(files, before, paths, left) && committed <= paths
      requires forall i, j :: 0 <= i < j < |paths| ==> paths[i] != paths[j]
      requires forall p :: p in paths && Final(p) in files ==> p in committed
      modifies this
      ensures old(trace) <= trace && SafeSince(|old(trace)|, before, paths, bytes)
      ensures RollingBack(files, before, paths, left)
      ensures cleaned <==> AllDone(endings, old(clock), 1 + |committed|)
      ensures cleaned ==> Staged !in files && forall p :: p in paths ==> Final(p) !in files
    {
      hide Safe, RollingBack, EndingAt;
      RemovalRollsBack(files, before, paths, left, Staged);
      cleaned := Remove(Staged);
      RollingBackIsSafe(files, before, paths, bytes, left);
      if !cleaned { return; }
      var waiting := set p | p in committed;
      CountDistinct(committed);
      while waiting != {}
        invariant waiting <= set p | p in committed
        invariant clock + |waiting| == old(clock) + 1 + |committed|
        invariant old(trace) <= trace && SafeSince(|old(trace)|, before, paths, bytes)
        invariant RollingBack(files, before, paths, left) && Staged !in files
        invariant cleaned ==> forall p :: p in paths && Final(p) in files ==> p in waiting
        invariant |waiting| <= |committed|
        invariant cleaned <==> AllDone(endings, old(clock), 1 + |committed| - |waiting|)
        decreases waiting
      {
        var p :| p in waiting;
        RemovalRollsBack(files, before, paths, left, Final(p));
        var ok := Remove(Final(p));
        OneMoreDone(endings, old(clock), 1 + |committed| - |waiting|);
        RollingBackIsSafe(files, before, paths, bytes, left);
        cleaned := cleaned && ok;
        waiting := waiting - {p};
      }
    }

    /** `publishArchiveSet`. At every moment, the rollback included, the last
        destination shows only beside all the others, each whole, and nothing
        else is touched. It fails exactly when the script lets one of its steps
        fail or nothing is staged, with that step's failure, and is cleaned up
        exactly when all removals end well. After a failure the temporary that
        the failing step leaves is there and no other; once cleaned up, that
        temporary is all that is left of the call. */
    method PublishArchiveSet(archive: string, sidecars: seq<Sidecar>)
      returns (result: Result<seq<string>, Failure>, cleaned: bool)
      requires Clear(files, Destinations(archive, sidecars))
      modifies this
      ensures old(trace) <= trace
      ensures SafeSince(|old(trace)|, old(files), Destinations(archive, sidecars), Contents(old(files), sidecars))
      ensures var course := CourseOf(endings, old(clock), Staged in old(files), sidecars);
              match result
              case Ok(paths) => course.Published? && cleaned
              case Err(failure) =>
                course.Stopped? && failure == course.failure
                && (cleaned <==> AllDone(endings, course.clock, 1 + course.committed))
      ensures result.Ok? ==>
        result.value == Destinations(archive, sidecars) && Staged !in files
        && Committing(files, old(files), result.value, Contents(old(files), sidecars), |result.value|, None)
      ensures result.Err? ==>
        Temps(files, Destinations(archive, sidecars), Left(result.error))
        && OthersSame(files, old(files), Destinations(archive, sidecars))
      ensures result.Err? && cleaned ==> files == Remains(old(files), Left(result.error))
    {
      hide Clear, Safe, Committing, RollingBack, Temps, OthersSame, Destinations, Contents, CourseOf, AllDone, Remains;
      ghost var before := files;
      ghost var paths, bytes := Destinations(archive, sidecars), Contents(files, sidecars);
      var failure, committed := Commit(archive, sidecars, before, paths, bytes);
      if failure.None? {
        return Ok(committed), true;
      }
      result := Err(failure.value);
      ClearIsDistinct(before, paths);
      cleaned := RollBack(committed, before, paths, bytes, Left(failure.value));
      RollingBackHas(files, before, paths, Left(failure.value));
      if cleaned {
        RemainsAre(files, before, paths, Left(failure.value));
      }
    }
  }

  /** Two failing publications of one archive with a checksum, both cleaned up:
      when the sidecar cannot be renamed its temporary stays, whole, and when
      its write breaks off the part written stays. */
  method TemporariesAreLeft() returns (renamed: Files, written: Files)
    ensures renamed == map[Temp("a.sha256") := "sum"]
    ensures written == map[Temp("a.sha256") := "s"]
  {
    var sidecars := [Sidecar("a.sha256", "sum")];
    assert Destinations("a", sidecars) == ["a", "a.sha256"];
    var start: Files := map[Staged := "archive"];
    var directory := new Directory(start, [Done, Done, Fails(None)]);
    var result, cleaned := directory.PublishArchiveSet("a", sidecars);
    renamed := directory.files;
    directory := new Directory(start, [Done, Fails(Some("s"))]);
    result, cleaned := directory.PublishArchiveSet("a", sidecars);
    written := directory.files;
  }
}
