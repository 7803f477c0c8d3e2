/** Configuration migration: src/config/migrations.ts, with `migrateConfig` of
    src/core.ts running it over crash-consistent writes. */
module Migration {
  import opened Text
  import opened Json
  import opened Config
  import opened Storage

  const CONFIG := Plain(".latchkit/config.json")
  const CURRENT_VERSION := 3

  /** `JSON.parse`. */
  function Parsed(raw: Bytes): Option<Json> {
    match raw case Rendered(value) => Some(value) case Other(_, parsed) => parsed
  }

  /** `parseConfig`. */
  function Read(raw: Bytes, rules: Rules): Result<Config, Error> {
    match Parsed(raw)
    case None => Err(Error("$", InvalidJson))
    case Some(value) => Validate(value, rules)
  }

  /** The bytes a configuration is saved as. */
  function Saved(c: Config): Bytes { Rendered(ToJson(c)) }

  const CORE_PACK := Pack("latchkit-core", "1.0.0", Bundled, true)

  /** One version up. */
  function Upgraded(c: Config): Config {
    if c.version == 1 then c.(version := 2, settings := Some([]))
    else c.(version := 3, packs := Some([CORE_PACK]))
  }

  function Migrated(c: Config, goal: int): Config
    decreases goal - c.version
  {
    if c.version in {1, 2} && c.version < goal then Migrated(Upgraded(c), goal) else c
  }

  /** A configuration at a later version, written out: version 2 has provider
      settings, empty ones at first, and version 3 has packs, the core pack alone at
      first; all else is as it was. */
  function Raised(c: Config, goal: int): Config {
    Config(goal, c.providers, c.skills,
           if c.version < 2 <= goal then Some([]) else c.settings,
           if c.version < 3 <= goal then Some([Pack("latchkit-core", "1.0.0", Bundled, true)]) else c.packs,
           c.workspace)
  }

  lemma {:induction false} MigratedIsRaised(c: Config, goal: int)
    requires c.version in {1, 2, 3} && c.version <= goal <= 3
    ensures Migrated(c, goal) == Raised(c, goal)
    decreases goal - c.version
  {
    if c.version < goal {
      MigratedIsRaised(Upgraded(c), goal);
    }
  }

  /** The members that a migrated configuration is saved with. */
  lemma MigratedMembers(c: Config, goal: int, rules: Rules)
    requires IsConfig(c, rules) && c.version <= goal <= 3
    ensures var saved := Fields(Migrated(c, goal));
            Field(saved, "schemaVersion") == Some(Num(goal))
            && (c.version < 2 <= goal ==> Field(saved, "providerSettings") == Some(Obj([])))
            && (c.version < 3 <= goal ==>
                  Field(saved, "packs") == Some(Arr([Obj([
                    Entry("id", Str("latchkit-core")), Entry("version", Str("1.0.0")),
                    Entry("source", Obj([Entry("type", Str("bundled"))])), Entry("pinned", Bool(true))])])))
  {
    hide IsSelection, ArePacks, AreSettings, IsWorktreeRoot, Field, Strings, Fields, WorkspaceJson;
    MigratedIsRaised(c, goal);
    FieldsOf(Raised(c, goal));
    var core := Pack("latchkit-core", "1.0.0", Bundled, true);
    assert PackItems([core]) == [PackJson(core)];
  }

  datatype Plan = UpToDate(config: Config) | Ready(backup: Path, config: Config)

  const TAKEN := Error("$.backupPath", BackupConflict)
  const UNSUPPORTED := Error("$.toVersion", MigrationUnsupported)

  /** What `buildMigration` answers. A target that is not an integer is `None`. */
  function Planned(raw: Bytes, c: Config, target: Option<int>): Result<Plan, Error> {
    if target.None? || target.value < c.version || !(1 <= target.value <= CURRENT_VERSION) then Err(UNSUPPORTED)
    else if target.value == c.version then Ok(UpToDate(c))
    else Ok(Ready(Backup(c.version, raw), Migrated(c, target.value)))
  }

  /** `buildMigration`. */
  method BuildMigration(raw: Bytes, c: Config, target: Option<int>) returns (r: Result<Plan, Error>)
    requires c.version in {1, 2, 3}
    ensures r == Planned(raw, c, target)
    ensures match r
            case Err(error) =>
              error == Error("$.toVersion", MigrationUnsupported)
              && (target.None? || target.value < c.version || target.value < 1 || target.value > 3)
            case Ok(UpToDate(config)) => target == Some(c.version) && config == c
            case Ok(Ready(backup, config)) =>
              target.Some? && c.version < target.value <= 3
              && backup == Backup(c.version, raw) && config == Raised(c, target.value)
  {
    if target.None? {
      return Err(UNSUPPORTED);
    }
    var goal := target.value;
    if goal < c.version {
      return Err(UNSUPPORTED);
    }
    if goal > CURRENT_VERSION || goal < 1 {
      return Err(UNSUPPORTED);
    }
    if c.version == goal {
      return Ok(UpToDate(c));
    }
    MigratedIsRaised(c, goal);
    var migrated := c;
    for version := c.version to goal
      invariant migrated.version == version
      invariant Migrated(migrated, goal) == Migrated(c, goal)
    {
      if version == 1 {
        migrated := migrated.(version := 2, settings := Some([]));
      } else {
        migrated := migrated.(version := 3, packs := Some([CORE_PACK]));
      }
    }
    r := Ok(Ready(Backup(c.version, raw), migrated));
  }

  // ------------------------------------------------------------------ migrations

  lemma CorePackIsPack(rules: Rules)
    ensures ArePacks([CORE_PACK], rules)
  {}

  /** A migrated configuration is a configuration of the target version that
      keeps the user's selections, settings and workspace. */
  lemma {:induction false} MigratedIsConfig(c: Config, goal: int, rules: Rules)
    requires IsConfig(c, rules) && c.version <= goal <= CURRENT_VERSION
    ensures var m := Migrated(c, goal);
            IsConfig(m, rules) && m.version == goal
            && m.providers == c.providers && m.skills == c.skills && m.workspace == c.workspace
            && (c.settings.Some? ==> m.settings == c.settings)
            && (c.packs.Some? ==> m.packs == c.packs)
    decreases goal - c.version
  {
    hide IsSelection, ArePacks, IsWorktreeRoot;
    if c.version < goal {
      CorePackIsPack(rules);
      MigratedIsConfig(Upgraded(c), goal, rules);
    }
  }

  /** Migrating straight to a version is migrating there by any stop on the way. */
  lemma {:induction false} MigratedByWayOf(c: Config, middle: int, goal: int)
    requires c.version in {1, 2, 3} && c.version <= middle <= goal <= CURRENT_VERSION
    ensures Migrated(Migrated(c, middle), goal) == Migrated(c, goal)
    decreases goal - c.version
  {
    if c.version < middle {
      MigratedByWayOf(Upgraded(c), middle, goal);
    }
  }

  lemma SavedReadsBack(c: Config, rules: Rules)
    requires IsConfig(c, rules)
    ensures Read(Saved(c), rules) == Ok(c)
  {
    hide IsConfig, Validate;
    ConfigReadsBack(c, rules);
  }

  lemma ReadIsConfig(raw: Bytes, rules: Rules)
    requires Read(raw, rules).Ok?
    ensures IsConfig(Read(raw, rules).value, rules)
  {
    hide IsConfig, Validate;
    ValidatedIsConfig(Parsed(raw).value, rules);
  }

  // ------------------------------------------------------------- over the disk

  datatype Failure = NotInitialized | Refused(error: Error) | StorageFailed

  /** What a migration run is about to do to the visible files: nothing, when
      it fails or is up to date, or a backup and then a new configuration. */
  datatype Intent = Stop(failure: Failure) | Nothing(config: Config)
    | Change(backup: Path, original: Bytes, config: Config)

  /** What the migration of `raw` by a plan comes to, the backup path permitting. */
  function Executed(view: View, raw: Bytes, plan: Plan): Intent
    requires plan.Ready?
  {
    if plan.backup in view && view[plan.backup] != raw
    then Stop(Refused(TAKEN))
    else Change(plan.backup, raw, plan.config)
  }

  function Intended(view: View, target: Option<int>, rules: Rules): Intent {
    if target.None? then Stop(Refused(UNSUPPORTED))
    else if CONFIG !in view then Stop(NotInitialized)
    else
      match Read(view[CONFIG], rules)
      case Err(error) => Stop(Refused(error))
      case Ok(c) =>
        match Planned(view[CONFIG], c, target)
        case Err(error) => Stop(Refused(error))
        case Ok(UpToDate(config)) => Nothing(config)
        case Ok(plan) => Executed(view, view[CONFIG], plan)
  }

  function BackedUp(view: View, intent: Intent): View
    requires intent.Change?
  {
    view[intent.backup := intent.original]
  }

  function Finished(view: View, intent: Intent): View
    requires intent.Change?
  {
    BackedUp(view, intent)[CONFIG := Saved(intent.config)]
  }

  /** What a crash in the middle can leave visible. */
  predicate Midway(before: View, now: View, intent: Intent) {
    now == before || (intent.Change? && (now == BackedUp(before, intent) || now == Finished(before, intent)))
  }

  /** `now` can be what a run that began at `before` leaves when it stops
      anywhere: by a crash, by an error, or at its end. */
  predicate Stage(before: View, now: View, target: Option<int>, rules: Rules) {
    Midway(before, now, Intended(before, target, rules))
  }

  lemma SwitchesWithin(trace: seq<View>, start: nat, before: View, after: View)
    requires start <= |trace| && Switches(trace[start..], before, after)
    ensures forall k :: start <= k < |trace| ==> trace[k] == before || trace[k] == after
  {}

  lemma BackupIsNotConfig(view: View, target: Option<int>, rules: Rules)
    requires Intended(view, target, rules).Change?
    ensures Intended(view, target, rules).backup != CONFIG
    ensures CONFIG in view && view[CONFIG] == Intended(view, target, rules).original
    ensures Intended(view, target, rules).backup in view ==>
      view[Intended(view, target, rules).backup] == Intended(view, target, rules).original
  {
    hide Read, Migrated;
  }

  datatype Report = AlreadyCurrent(config: Config) | Completed(backup: Path, config: Config)

  /** What a run answers, unless the storage fails it. */
  function Answer(intent: Intent): Result<Report, Failure> {
    match intent
    case Stop(failure) => Err(failure)
    case Nothing(config) => Ok(AlreadyCurrent(config))
    case Change(backup, _, config) => Ok(Completed(backup, config))
  }

  /** What a run that answers leaves behind. */
  function Outcome(view: View, intent: Intent): View {
    if intent.Change? then Finished(view, intent) else view
  }

  lemma VersionOf(c: Config, rules: Rules)
    requires IsConfig(c, rules)
    ensures c.version in {1, 2, 3}
  {}

  /** What a run answers, unless the storage fails it, from the files it begins with. */
  lemma AnswerIs(view: View, target: Option<int>, rules: Rules)
    ensures Answer(Intended(view, target, rules)) ==
      var path, unsupported := Plain(".latchkit/config.json"), Error("$.toVersion", MigrationUnsupported);
      if target.None? then Err(Refused(unsupported))
      else if path !in view then Err(NotInitialized)
      else
        match Read(view[path], rules)
        case Err(error) => Err(Refused(error))
        case Ok(c) =>
          var backup := Backup(c.version, view[path]);
          if target.value == c.version then Ok(AlreadyCurrent(c))
          else if !(c.version < target.value <= 3) then Err(Refused(unsupported))
          else if backup in view && view[backup] != view[path]
          then Err(Refused(Error("$.backupPath", BackupConflict)))
          else Ok(Completed(backup, Raised(c, target.value)))
  {
    hide Read, Migrated, Raised, IsConfig;
    if CONFIG in view && Read(view[CONFIG], rules).Ok? {
      ReadIsConfig(view[CONFIG], rules);
      var c := Read(view[CONFIG], rules).value;
      VersionOf(c, rules);
      if target.Some? && c.version <= target.value <= 3 {
        MigratedIsRaised(c, target.value);
      }
    }
  }

  lemma IntendedChange(view: View, target: Option<int>, rules: Rules)
    requires target.Some? && CONFIG in view && Read(view[CONFIG], rules).Ok?
    requires Planned(view[CONFIG], Read(view[CONFIG], rules).value, target).Ok?
    ensures var plan := Planned(view[CONFIG], Read(view[CONFIG], rules).value, target).value;
            Intended(view, target, rules) ==
            if plan.UpToDate? then Nothing(plan.config) else Executed(view, view[CONFIG], plan)
  {
    hide Read, Planned, Executed;
  }

  lemma PlannedIsConfig(raw: Bytes, c: Config, target: Option<int>, rules: Rules)
    requires IsConfig(c, rules) && Planned(raw, c, target).Ok? && Planned(raw, c, target).value.Ready?
    ensures IsConfig(Planned(raw, c, target).value.config, rules)
  {
    hide IsConfig;
    VersionOf(c, rules);
    MigratedIsConfig(c, target.value, rules);
  }

  /** The storage lets both writes of a migration report success, the first of
      them left out if the backup is there. */
  predicate StorageHolds(disk: Disk, files: Files, clock: nat, backup: Path, ids: (nat, nat), windows: bool) {
    var first := WriteFate(disk.endings, clock, windows, Temporary(backup, ids.0) !in files);
    var there := Final(backup) in files;
    (there || first.ok)
    && WriteFate(disk.endings, if there then clock else first.clock, windows, Temporary(CONFIG, ids.1) !in files).ok
  }

  lemma StillFree(before: Files, now: Files, backup: Path, ids: (nat, nat))
    requires before - {Temporary(backup, ids.0), Final(backup)} == now - {Temporary(backup, ids.0), Final(backup)}
    requires before == now || (Temporary(backup, ids.0) !in before && Temporary(backup, ids.0) !in now)
    ensures Temporary(CONFIG, ids.1) in before <==> Temporary(CONFIG, ids.1) in now
  {
    var name := Temporary(CONFIG, ids.1);
    if name != Temporary(backup, ids.0) {
      assert name in before <==> name in before - {Temporary(backup, ids.0), Final(backup)};
      assert name in now <==> name in now - {Temporary(backup, ids.0), Final(backup)};
    }
  }

  /** `executeMigration`: the backup first, unless it is there, and then the
      configuration. */
  method ExecuteMigration(disk: Disk, raw: Bytes, plan: Plan, ghost before: View, rules: Rules,
                          ids: (nat, nat), windows: bool)
    returns (r: Result<Report, Failure>)
    requires disk.Valid() && before == Visible(disk.files)
    requires plan.Ready? && IsConfig(plan.config, rules)
    modifies disk
    ensures disk.Valid() && old(disk.trace) <= disk.trace
    ensures forall k :: |old(disk.trace)| <= k < |disk.trace| ==>
      Midway(before, disk.trace[k], Executed(before, raw, plan))
    ensures Midway(before, Visible(disk.files), Executed(before, raw, plan))
    ensures var intent := Executed(before, raw, plan);
            r ==
            if intent.Change? && !StorageHolds(disk, old(disk.files), old(disk.clock), intent.backup, ids, windows)
            then Err(StorageFailed) else Answer(intent)
    ensures r != Err(StorageFailed) ==> Visible(disk.files) == Outcome(before, Executed(before, raw, plan))
  {
    hide Visible, Switches, IsConfig, WriteFate;
    ghost var intent := Executed(before, raw, plan);
    VisibleAt(disk.files, plan.backup);
    if Final(plan.backup) in disk.files && disk.files[Final(plan.backup)] != raw {
      return Err(Refused(TAKEN));
    }
    ghost var start := |disk.trace|;
    if Final(plan.backup) !in disk.files {
      var kept, _ := disk.WriteAtomic(plan.backup, ids.0, raw, windows);
      SwitchesWithin(disk.trace, start, before, BackedUp(before, intent));
      if !kept {
        return Err(StorageFailed);
      }
    }
    assert Visible(disk.files) == BackedUp(before, intent);
    // `writeConfig` validates what it is about to save.
    ConfigReadsBack(plan.config, rules);
    ghost var middle := |disk.trace|;
    StillFree(old(disk.files), disk.files, plan.backup, ids);
    var saved, _ := disk.WriteAtomic(CONFIG, ids.1, Saved(plan.config), windows);
    SwitchesWithin(disk.trace, middle, BackedUp(before, intent), Finished(before, intent));
    if !saved {
      return Err(StorageFailed);
    }
    r := Ok(Completed(plan.backup, plan.config));
  }

  /** `migrateConfig`. Wherever it stops, a stage of the migration is visible. */
  method MigrateConfig(disk: Disk, target: Option<int>, rules: Rules, ids: (nat, nat), windows: bool)
    returns (r: Result<Report, Failure>)
    requires disk.Valid()
    modifies disk
    ensures disk.Valid() && old(disk.trace) <= disk.trace
    ensures forall k :: |old(disk.trace)| <= k < |disk.trace| ==>
      Stage(Visible(old(disk.files)), disk.trace[k], target, rules)
    ensures Stage(Visible(old(disk.files)), Visible(disk.files), target, rules)
    ensures var intent := Intended(Visible(old(disk.files)), target, rules);
            r ==
            if intent.Change? && !StorageHolds(disk, old(disk.files), old(disk.clock), intent.backup, ids, windows)
            then Err(StorageFailed) else Answer(intent)
    ensures r != Err(StorageFailed) ==>
      Visible(disk.files) == Outcome(Visible(old(disk.files)), Intended(Visible(old(disk.files)), target, rules))
    ensures r.Ok? && r.value.Completed? ==>
      var before, now := Visible(old(disk.files)), Visible(disk.files);
      CONFIG in before && Read(before[CONFIG], rules).Ok? && target.Some?
      && var c := Read(before[CONFIG], rules).value;
         r.value == Completed(Backup(c.version, before[CONFIG]), Raised(c, target.value))
         && now == before[Backup(c.version, before[CONFIG]) := before[CONFIG]]
                   [CONFIG := Rendered(ToJson(Raised(c, target.value)))]
  {
    hide Visible, Read, Planned, Switches, IsConfig, StorageHolds;
    ghost var before := Visible(disk.files);
    if target.None? {
      return Err(Refused(UNSUPPORTED));
    }
    VisibleAt(disk.files, CONFIG);
    if Final(CONFIG) !in disk.files {
      return Err(NotInitialized);
    }
    var raw := disk.files[Final(CONFIG)];
    var config := Read(raw, rules);
    if config.Err? {
      return Err(Refused(config.error));
    }
    ReadIsConfig(raw, rules);
    VersionOf(config.value, rules);
    var plan := BuildMigration(raw, config.value, target);
    if plan.Err? {
      return Err(Refused(plan.error));
    }
    if plan.value.UpToDate? {
      return Ok(AlreadyCurrent(plan.value.config));
    }
    PlannedIsConfig(raw, config.value, target, rules);
    IntendedChange(before, target, rules);
    r := ExecuteMigration(disk, raw, plan.value, before, rules, ids, windows);
  }

  // --------------------------------------------------------- crashes and reruns

  ghost predicate Rerun(before: View, now: View, rules: Rules) {
    exists target :: Stage(before, now, target, rules)
  }

  /** Each view is what some migration run, begun at the view before it and
      stopped anywhere, leaves behind. */
  ghost predicate Reruns(views: seq<View>, rules: Rules) {
    views != []
    && forall i :: 0 < i < |views| ==> Rerun(views[i - 1], views[i], rules)
  }

  /** The configuration file holds the original bytes, or a migration of the
      original configuration with the original bytes in their backup. */
  predicate Preserved(view: View, original: Bytes, c: Config) {
    CONFIG in view
    && (view[CONFIG] == original
        || (Backup(c.version, original) in view && view[Backup(c.version, original)] == original
            && exists v :: c.version <= v <= CURRENT_VERSION && view[CONFIG] == Saved(Migrated(c, v))))
  }

  /** Which configuration a preserved view holds. */
  lemma PreservedReads(view: View, original: Bytes, c: Config, rules: Rules)
    requires Preserved(view, original, c) && Read(original, rules) == Ok(c)
    ensures CONFIG in view && Read(view[CONFIG], rules).Ok?
    ensures var now := Read(view[CONFIG], rules).value;
            c.version <= now.version <= CURRENT_VERSION && now == Migrated(c, now.version)
            && (view[CONFIG] == original || view[CONFIG] == Saved(now))
  {
    hide IsConfig, Read;
    ReadIsConfig(original, rules);
    VersionOf(c, rules);
    if view[CONFIG] != original {
      var v :| c.version <= v <= CURRENT_VERSION && view[CONFIG] == Saved(Migrated(c, v));
      MigratedIsConfig(c, v, rules);
      SavedReadsBack(Migrated(c, v), rules);
    }
  }

  lemma StageKeepsPreserved(before: View, now: View, target: Option<int>, original: Bytes, c: Config, rules: Rules)
    requires Stage(before, now, target, rules)
    requires Preserved(before, original, c) && Read(original, rules) == Ok(c)
    ensures Preserved(now, original, c)
    ensures forall p :: p in before && p != CONFIG ==> p in now && now[p] == before[p]
  {
    hide Read, Migrated, IsConfig;
    if now != before {
      var intent := Intended(before, target, rules);
      BackupIsNotConfig(before, target, rules);
      PreservedReads(before, original, c, rules);
      var held := Read(before[CONFIG], rules).value;
      assert intent.config == Migrated(held, target.value) && held.version <= target.value <= CURRENT_VERSION;
      ReadIsConfig(original, rules);
      VersionOf(c, rules);
      MigratedByWayOf(c, held.version, target.value);
      assert intent.config == Migrated(c, target.value);
      if before[CONFIG] == original {
        assert held == c && intent.backup == Backup(c.version, original);
      }
    }
  }

  lemma StartsPreserved(view: View, c: Config)
    requires CONFIG in view
    ensures Preserved(view, view[CONFIG], c)
  {}

  /** For every crash point and every sequence of reruns, to whatever targets:
      the original bytes stay readable as the configuration or at their backup
      path, the configuration is one whole accepted version, a migration of the
      original, and no other file is touched or lost. */
  lemma {:induction false} RerunsPreserve(views: seq<View>, c: Config, rules: Rules)
    requires Reruns(views, rules)
    requires CONFIG in views[0] && Read(views[0][CONFIG], rules) == Ok(c)
    ensures var last := views[|views| - 1];
            Preserved(last, views[0][CONFIG], c) && CONFIG in last && Read(last[CONFIG], rules).Ok?
            && forall p :: p in views[0] && p != CONFIG ==> p in last && last[p] == views[0][p]
  {
    hide Read, Stage, Preserved;
    var n := |views| - 1;
    if n == 0 {
      StartsPreserved(views[0], c);
    } else {
      assert Reruns(views[..n], rules) && Rerun(views[n - 1], views[n], rules);
      RerunsPreserve(views[..n], c, rules);
      var target :| Stage(views[n - 1], views[n], target, rules);
      StageKeepsPreserved(views[n - 1], views[n], target, views[0][CONFIG], c, rules);
    }
    PreservedReads(views[n], views[0][CONFIG], c, rules);
  }

  /** Rerunning converges: after any crashes and reruns, a run towards `goal`
      that is let finish either refuses because the configuration is already
      past the goal, or its backup path is taken, or leaves the same
      configuration as migrating the original there in one go. */
  lemma RerunsConverge(views: seq<View>, c: Config, goal: int, rules: Rules)
    requires Reruns(views, rules)
    requires CONFIG in views[0] && Read(views[0][CONFIG], rules) == Ok(c)
    requires c.version <= goal <= CURRENT_VERSION
    ensures var last := views[|views| - 1];
            var intent := Intended(last, Some(goal), rules);
            CONFIG in last && match Answer(intent)
            case Ok(_) =>
              CONFIG in Outcome(last, intent)
              && Read(Outcome(last, intent)[CONFIG], rules) == Ok(Migrated(c, goal))
            case Err(Refused(error)) =>
              (match Read(last[CONFIG], rules)
               case Ok(held) => error == if held.version > goal then UNSUPPORTED else TAKEN
               case Err(_) => false)
            case _ => false
  {
    hide Read, IsConfig, Migrated, Preserved;
    var original := views[0][CONFIG];
    var last := views[|views| - 1];
    RerunsPreserve(views, c, rules);
    PreservedReads(last, original, c, rules);
    var held := Read(last[CONFIG], rules).value;
    ReadIsConfig(original, rules);
    VersionOf(c, rules);
    if held.version < goal {
      MigratedByWayOf(c, held.version, goal);
      MigratedIsConfig(c, goal, rules);
      SavedReadsBack(Migrated(c, goal), rules);
    }
  }

  /** Whatever stands at a backup path is what its name promises. */
  predicate OwnBackups(view: View) {
    forall p :: p in view && p.Backup? ==> view[p] == p.original
  }

  lemma StageKeepsBackups(before: View, now: View, target: Option<int>, rules: Rules)
    requires Stage(before, now, target, rules) && OwnBackups(before)
    ensures OwnBackups(now)
  {
    hide Read, Migrated;
  }

  lemma {:induction false} RerunsKeepBackups(views: seq<View>, rules: Rules)
    requires Reruns(views, rules) && OwnBackups(views[0])
    ensures OwnBackups(views[|views| - 1])
  {
    hide Read, Planned;
    var n := |views| - 1;
    if n > 0 {
      assert Reruns(views[..n], rules) && Rerun(views[n - 1], views[n], rules);
      RerunsKeepBackups(views[..n], rules);
      var target :| Stage(views[n - 1], views[n], target, rules);
      StageKeepsBackups(views[n - 1], views[n], target, rules);
    }
  }

  lemma OwnBackupsPermit(view: View, goal: int, rules: Rules)
    requires OwnBackups(view) && CONFIG in view && Read(view[CONFIG], rules).Ok?
    ensures Intended(view, Some(goal), rules) != Stop(Refused(TAKEN))
  {
    hide Read, Migrated;
  }

  /** Where no backup path was taken to begin with, none ever is: after any
      crashes and reruns, a run that is let finish succeeds exactly if its goal
      has not been passed, and then leaves what migrating the original there in
      one go gives. */
  lemma RerunsSucceed(views: seq<View>, c: Config, goal: int, rules: Rules)
    requires Reruns(views, rules) && OwnBackups(views[0])
    requires CONFIG in views[0] && Read(views[0][CONFIG], rules) == Ok(c)
    requires c.version <= goal <= CURRENT_VERSION
    ensures var last := views[|views| - 1];
            var intent := Intended(last, Some(goal), rules);
            CONFIG in last && Read(last[CONFIG], rules).Ok?
            && (Answer(intent).Ok? <==> Read(last[CONFIG], rules).value.version <= goal)
            && (Answer(intent).Ok? ==>
                  CONFIG in Outcome(last, intent)
                  && Read(Outcome(last, intent)[CONFIG], rules) == Ok(Migrated(c, goal)))
  {
    hide Read, Migrated, Preserved, IsConfig;
    var last := views[|views| - 1];
    RerunsConverge(views, c, goal, rules);
    RerunsPreserve(views, c, rules);
    RerunsKeepBackups(views, rules);
    OwnBackupsPermit(last, goal, rules);
  }
}
