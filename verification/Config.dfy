/** The configuration contract of src/config/contracts.ts: `validateConfig`
    as a function of the parsed JSON, the loops that compute it, and the JSON
    a validated configuration is saved as. */
module Config {
  import opened Text
  import opened Json

  /** What validation consults: the known provider and skill IDs, and two
      foreign predicates, repository addresses and Unicode NFC normality. */
  datatype Rules = Rules(providers: set<string>, skills: set<string>,
                         repository: string -> bool, normal: string -> bool)

  datatype Code = Invalid | InvalidJson | UnsupportedVersion | MigrationUnsupported | BackupConflict

  datatype Error = Error(path: string, code: Code)

  datatype Source = Bundled | Local(path: string)
    | Git(repository: string, commit: string, subpath: Option<string>)

  datatype Pack = Pack(id: string, version: string, source: Source, pinned: bool)

  datatype Workspace = Workspace(preference: string, root: string)

  datatype Config = Config(
    version: int, providers: seq<string>, skills: seq<string>,
    settings: Option<seq<Entry<Json>>>, packs: Option<seq<Pack>>, workspace: Option<Workspace>)

  // ------------------------------------------------------------ own properties

  function Field(fields: seq<Entry<Json>>, key: string): Option<Json> {
    if fields == [] then None
    else if fields[0].key == key then Some(fields[0].value)
    else Field(fields[1..], key)
  }

  lemma {:induction false} FieldAt(fields: seq<Entry<Json>>, i: nat)
    requires DistinctKeys(fields) && i < |fields|
    ensures Field(fields, fields[i].key) == Some(fields[i].value)
  {
    if i > 0 {
      FieldAt(fields[1..], i - 1);
    }
  }

  lemma {:induction false} FieldFound(fields: seq<Entry<Json>>, key: string)
    ensures Field(fields, key).Some? ==> Entry(key, Field(fields, key).value) in fields
    ensures Field(fields, key).None? ==> forall i :: 0 <= i < |fields| ==> fields[i].key != key
  {
    if fields != [] {
      FieldFound(fields[1..], key);
      assert forall e :: e in fields[1..] ==> e in fields;
      assert forall i :: 1 <= i < |fields| ==> fields[i] == fields[1..][i - 1];
    }
  }

  /** The first own key that is not allowed. */
  function Unknown(fields: seq<Entry<Json>>, allowed: seq<string>): Option<string> {
    if fields == [] then None
    else if fields[0].key !in allowed then Some(fields[0].key)
    else Unknown(fields[1..], allowed)
  }

  /** The first required key that is missing. */
  function Lacking(fields: seq<Entry<Json>>, required: seq<string>): Option<string> {
    if required == [] then None
    else if Field(fields, required[0]).None? then Some(required[0])
    else Lacking(fields, required[1..])
  }

  // --------------------------------------------------------------- plain checks

  predicate IsLower(c: char) { 'a' <= c <= 'z' }

  /** `/^[a-z][a-z0-9-]{0,62}$/` */
  predicate IsPackId(s: string) {
    1 <= |s| <= 63 && IsLower(s[0])
    && forall i :: 0 <= i < |s| ==> IsLower(s[i]) || IsDigit(s[i]) || s[i] == '-'
  }

  predicate IsNumeral(s: string) {
    s != "" && (s[0] == '0' ==> |s| == 1) && forall i :: 0 <= i < |s| ==> IsDigit(s[i])
  }

  /** `/^(0|[1-9]\d*)\.(0|[1-9]\d*)\.(0|[1-9]\d*)$/` */
  predicate IsVersion(s: string) {
    var parts := Split(s, '.');
    |parts| == 3 && IsNumeral(parts[0]) && IsNumeral(parts[1]) && IsNumeral(parts[2])
  }

  /** `/^[a-f0-9]{40}(?:[a-f0-9]{24})?$/` */
  predicate IsCommit(s: string) {
    |s| in {40, 64} && forall i :: 0 <= i < |s| ==> IsDigit(s[i]) || 'a' <= s[i] <= 'f'
  }

  function LowerCase(s: string): string {
    seq(|s|, i requires 0 <= i < |s| => if 'A' <= s[i] <= 'Z' then s[i] - 'A' + 'a' else s[i])
  }

  predicate IsReserved(part: string) {
    var name := LowerCase(part);
    name in {"con", "prn", "aux", "nul"}
    || (|name| == 4 && name[..3] in {"com", "lpt"} && '1' <= name[3] <= '9')
  }

  predicate IsSafeSegment(part: string) {
    part !in {"", ".", ".."} && !IsReserved(part)
    && forall i :: 0 <= i < |part| ==> part[i] !in "<>:\"|?*"
  }

  predicate IsPortablePath(s: string, rules: Rules) {
    s != "" && '\\' !in s && s[0] != '/' && rules.normal(s)
    && forall i :: 0 <= i < |Split(s, '/')| ==> IsSafeSegment(Split(s, '/')[i])
  }

  predicate IsSlash(c: char) { c == '/' || c == '\\' }

  predicate IsAbsolute(s: string) {
    s != "" && (IsSlash(s[0])
      || (|s| > 2 && (IsLower(s[0]) || 'A' <= s[0] <= 'Z') && s[1] == ':' && IsSlash(s[2])))
  }

  /** The length of a string in UTF-16 code units. */
  function CodeUnits(s: string): nat {
    if s == "" then 0 else (if s[0] as int < 0x1_0000 then 1 else 2) + CodeUnits(s[1..])
  }

  function Slashed(s: string): string {
    seq(|s|, i requires 0 <= i < |s| => if s[i] == '\\' then '/' else s[i])
  }

  /** `validateWorktreeRoot` accepts the string. */
  predicate IsWorktreeRoot(s: string, rules: Rules) {
    s != "" && CodeUnits(s) <= 4096 && '\r' !in s && '\n' !in s && 0 as char !in s && rules.normal(s)
    && if IsAbsolute(s) then ".." !in Split(Slashed(s), '/')
       else '\\' !in s && forall i :: 0 <= i < |Split(s, '/')| ==> IsSafeSegment(Split(s, '/')[i])
  }

  // ------------------------------------------------------------- the validators

  function Need(ok: bool, path: string): Result<(), Error> {
    if ok then Ok(()) else Err(Error(path, Invalid))
  }

  function At(path: string, index: nat): string {
    path + "[" + Decimal(index) + "]"
  }

  /** `validateSelection` on the first `n` items. */
  function Selected(items: seq<Json>, n: nat, allowed: set<string>, path: string): Result<seq<string>, Error>
    requires n <= |items|
  {
    if n == 0 then Ok([])
    else
      var ids :- Selected(items, n - 1, allowed, path);
      match items[n - 1]
      case Str(id) =>
        var _ :- Need(id in allowed && id !in ids, At(path, n - 1));
        Ok(ids + [id])
      case _ => Err(Error(At(path, n - 1), Invalid))
  }

  function Selection(fields: seq<Entry<Json>>, key: string, allowed: set<string>): Result<seq<string>, Error> {
    match Field(fields, key)
    case Some(Arr(items)) => Selected(items, |items|, allowed, "$." + key)
    case _ => Err(Error("$." + key, Invalid))
  }

  /** `cloneJson`. */
  function Clone(v: Json): Json
    decreases v
  {
    match v
    case Arr(items) => Arr(seq(|items|, i requires 0 <= i < |items| => Clone(items[i])))
    case Obj(fields) =>
      Obj(seq(|fields|, i requires 0 <= i < |fields| => Entry(fields[i].key, Clone(fields[i].value))))
    case _ => v
  }

  /** The first `n` entries of `providerSettings`. */
  function Settings(entries: seq<Entry<Json>>, n: nat, rules: Rules): Result<seq<Entry<Json>>, Error>
    requires n <= |entries|
  {
    if n == 0 then Ok([])
    else
      var settings :- Settings(entries, n - 1, rules);
      var e := entries[n - 1];
      var _ :- Need(e.key in rules.providers && e.value.Obj?, "$.providerSettings." + e.key);
      Ok(settings + [Entry(e.key, Clone(e.value))])
  }

  function PackSource(fields: seq<Entry<Json>>, pinned: Json, rules: Rules, path: string): Result<Source, Error> {
    match Field(fields, "type")
    case Some(Str("local")) =>
      (match Field(fields, "path")
       case Some(Str(p)) =>
         var _ :- Need(|fields| == 2 && p != "", path + ".source");
         Ok(Local(p))
       case _ => Err(Error(path + ".source", Invalid)))
    case Some(Str("git")) =>
      (match (Field(fields, "repository"), Field(fields, "commit"), Field(fields, "path"))
       case (Some(Str(repository)), Some(Str(commit)), subpath) =>
         var _ :- Need(
           Unknown(fields, ["type", "repository", "commit", "path"]).None?
           && rules.repository(repository) && IsCommit(commit)
           && (subpath.Some? ==> subpath.value.Str? && IsPortablePath(subpath.value.s, rules)),
           path + ".source");
         var _ :- Need(pinned == Bool(true), path + ".pinned");
         Ok(Git(repository, commit, if subpath.None? then None else Some(subpath.value.s)))
       case _ => Err(Error(path + ".source", Invalid)))
    case Some(Str("bundled")) =>
      var _ :- Need(|fields| == 1, path + ".source");
      Ok(Bundled)
    case _ => Err(Error(path + ".source", Invalid))
  }

  function Ids(packs: seq<Pack>): (ids: set<string>)
    ensures forall i :: 0 <= i < |packs| ==> packs[i].id in ids
    ensures forall id :: id in ids ==> exists i :: 0 <= i < |packs| && packs[i].id == id
  {
    set i | 0 <= i < |packs| :: packs[i].id
  }

  function OnePack(pack: Json, used: set<string>, rules: Rules, path: string): Result<Pack, Error> {
    if !pack.Obj? then Err(Error(path, Invalid))
    else
      match (Field(pack.fields, "id"), Field(pack.fields, "version"),
             Field(pack.fields, "source"), Field(pack.fields, "pinned"))
      case (Some(id), Some(version), Some(source), Some(pinned)) =>
        var _ :- Need(|pack.fields| == 4, path);
        var _ :- Need(id.Str? && IsPackId(id.s) && id.s !in used, path + ".id");
        var _ :- Need(version.Str? && IsVersion(version.s), path + ".version");
        var _ :- Need(source.Obj?, path + ".source");
        var source :- PackSource(source.fields, pinned, rules, path);
        var _ :- Need(pinned.Bool?, path + ".pinned");
        Ok(Pack(id.s, version.s, source, pinned.b))
      case _ => Err(Error(path, Invalid))
  }

  /** The first `n` pack selections. */
  function Packs(items: seq<Json>, n: nat, rules: Rules): Result<seq<Pack>, Error>
    requires n <= |items|
  {
    if n == 0 then Ok([])
    else
      var packs :- Packs(items, n - 1, rules);
      var pack :- OnePack(items[n - 1], Ids(packs), rules, At("$.packs", n - 1));
      Ok(packs + [pack])
  }

  const PREFERENCES := ["ask", "always-worktree", "direct"]

  /** `validateWorkspaceSettings`. */
  function WorkspaceSettings(value: Json, rules: Rules): Result<Workspace, Error> {
    if !value.Obj? then Err(Error("$.workspace", Invalid))
    else
      var keys := ["executionPreference", "worktreeRoot"];
      match Unknown(value.fields, keys)
      case Some(key) => Err(Error("$.workspace." + key, Invalid))
      case None =>
        match (Field(value.fields, "executionPreference"), Field(value.fields, "worktreeRoot"))
        case (None, _) => Err(Error("$.workspace.executionPreference", Invalid))
        case (_, None) => Err(Error("$.workspace.worktreeRoot", Invalid))
        case (Some(preference), Some(root)) =>
          var _ :- Need(preference.Str? && preference.s in PREFERENCES, "$.workspace.executionPreference");
          var _ :- Need(root.Str? && IsWorktreeRoot(root.s, rules), "$.workspace.worktreeRoot");
          Ok(Workspace(preference.s, root.s))
  }

  function Required(version: int): seq<string> {
    ["schemaVersion", "providers", "skills"]
    + (if version >= 2 then ["providerSettings"] else [])
    + (if version >= 3 then ["packs"] else [])
  }

  function OptionalSettings(fields: seq<Entry<Json>>, version: int, rules: Rules)
    : Result<Option<seq<Entry<Json>>>, Error>
  {
    if version < 2 then Ok(None)
    else
      match Field(fields, "providerSettings")
      case Some(Obj(entries)) =>
        var settings :- Settings(entries, |entries|, rules);
        Ok(Some(settings))
      case _ => Err(Error("$.providerSettings", Invalid))
  }

  function OptionalPacks(fields: seq<Entry<Json>>, version: int, rules: Rules): Result<Option<seq<Pack>>, Error> {
    if version != 3 then Ok(None)
    else
      match Field(fields, "packs")
      case Some(Arr(items)) =>
        var packs :- Packs(items, |items|, rules);
        Ok(Some(packs))
      case _ => Err(Error("$.packs", Invalid))
  }

  function OptionalWorkspace(fields: seq<Entry<Json>>, rules: Rules): Result<Option<Workspace>, Error> {
    match Field(fields, "workspace")
    case None => Ok(None)
    case Some(value) =>
      var workspace :- WorkspaceSettings(value, rules);
      Ok(Some(workspace))
  }

  function SchemaVersion(config: Json): Result<int, Error> {
    if !config.Obj? then Err(Error("$", Invalid))
    else
      match Field(config.fields, "schemaVersion")
      case Some(Num(version)) =>
        if version in {1, 2, 3} then Ok(version) else Err(Error("$.schemaVersion", UnsupportedVersion))
      case _ => Err(Error("$.schemaVersion", Invalid))
  }

  /** `validateConfig`. */
  function Validate(config: Json, rules: Rules): Result<Config, Error> {
    var version :- SchemaVersion(config);
    assert config.Obj?;
    var fields := config.fields;
    match (Unknown(fields, Required(version) + ["workspace"]), Lacking(fields, Required(version)))
    case (Some(key), _) => Err(Error("$." + key, Invalid))
    case (_, Some(key)) => Err(Error("$." + key, Invalid))
    case (None, None) =>
      var providers :- Selection(fields, "providers", rules.providers);
      var skills :- Selection(fields, "skills", rules.skills);
      var settings :- OptionalSettings(fields, version, rules);
      var packs :- OptionalPacks(fields, version, rules);
      var workspace :- OptionalWorkspace(fields, rules);
      Ok(Config(version, providers, skills, settings, packs, workspace))
  }

  // ------------------------------------------------------------------ the loops

  lemma {:induction false} SelectedStops(items: seq<Json>, n: nat, m: nat, allowed: set<string>, path: string)
    requires n < m <= |items| && Selected(items, n + 1, allowed, path).Err?
    ensures Selected(items, m, allowed, path) == Selected(items, n + 1, allowed, path)
  {
    if n + 1 < m {
      SelectedStops(items, n, m - 1, allowed, path);
    }
  }

  lemma {:induction false} SettingsStops(entries: seq<Entry<Json>>, n: nat, m: nat, rules: Rules)
    requires n < m <= |entries| && Settings(entries, n + 1, rules).Err?
    ensures Settings(entries, m, rules) == Settings(entries, n + 1, rules)
  {
    if n + 1 < m {
      SettingsStops(entries, n, m - 1, rules);
    }
  }

  lemma {:induction false} PacksStop(items: seq<Json>, n: nat, m: nat, rules: Rules)
    requires n < m <= |items| && Packs(items, n + 1, rules).Err?
    ensures Packs(items, m, rules) == Packs(items, n + 1, rules)
  {
    hide OnePack;
    if n + 1 < m {
      PacksStop(items, n, m - 1, rules);
    }
  }

  lemma OneMoreId(packs: seq<Pack>, pack: Pack)
    ensures Ids(packs + [pack]) == Ids(packs) + {pack.id}
  {
    assert (packs + [pack])[|packs|] == pack;
    assert forall i :: 0 <= i < |packs| ==> (packs + [pack])[i] == packs[i];
  }

  /** `validateSelection`, with its set of IDs already seen. */
  method ValidateSelection(fields: seq<Entry<Json>>, key: string, allowed: set<string>)
    returns (r: Result<seq<string>, Error>)
    ensures r == Selection(fields, key, allowed)
  {
    var value := Field(fields, key);
    if value.None? || !value.value.Arr? {
      return Err(Error("$." + key, Invalid));
    }
    var items := value.value.items;
    var seen: set<string> := {};
    var ids: seq<string> := [];
    for n := 0 to |items|
      invariant Selected(items, n, allowed, "$." + key) == Ok(ids)
      invariant forall id :: id in seen <==> id in ids
    {
      if !items[n].Str? || items[n].s !in allowed || items[n].s in seen {
        SelectedStops(items, n, |items|, allowed, "$." + key);
        return Err(Error(At("$." + key, n), Invalid));
      }
      seen := seen + {items[n].s};
      ids := ids + [items[n].s];
    }
    r := Ok(ids);
  }

  /** The loop of `validateConfig` over the provider settings. */
  method ValidateSettings(entries: seq<Entry<Json>>, rules: Rules) returns (r: Result<seq<Entry<Json>>, Error>)
    ensures r == Settings(entries, |entries|, rules)
  {
    var settings: seq<Entry<Json>> := [];
    for n := 0 to |entries|
      invariant Settings(entries, n, rules) == Ok(settings)
    {
      if entries[n].key !in rules.providers || !entries[n].value.Obj? {
        SettingsStops(entries, n, |entries|, rules);
        return Err(Error("$.providerSettings." + entries[n].key, Invalid));
      }
      settings := settings + [Entry(entries[n].key, Clone(entries[n].value))];
    }
    r := Ok(settings);
  }

  /** The loop of `validateConfig` over the packs, with its set of used IDs. */
  method ValidatePacks(items: seq<Json>, rules: Rules) returns (r: Result<seq<Pack>, Error>)
    ensures r == Packs(items, |items|, rules)
  {
    hide OnePack;
    var used: set<string> := {};
    var packs: seq<Pack> := [];
    for n := 0 to |items|
      invariant Packs(items, n, rules) == Ok(packs)
      invariant used == Ids(packs)
    {
      var pack := OnePack(items[n], used, rules, At("$.packs", n));
      if pack.Err? {
        PacksStop(items, n, |items|, rules);
        return Err(pack.error);
      }
      OneMoreId(packs, pack.value);
      used := used + {pack.value.id};
      packs := packs + [pack.value];
    }
    r := Ok(packs);
  }

  /** `validateConfig`, with the loops above. */
  method ValidateConfig(config: Json, rules: Rules) returns (r: Result<Config, Error>)
    ensures r == Validate(config, rules)
  {
    hide Selection, Settings, Packs, WorkspaceSettings, Unknown, Lacking;
    var version :- SchemaVersion(config);
    var fields := config.fields;
    var unknown := Unknown(fields, Required(version) + ["workspace"]);
    if unknown.Some? {
      return Err(Error("$." + unknown.value, Invalid));
    }
    var lacking := Lacking(fields, Required(version));
    if lacking.Some? {
      return Err(Error("$." + lacking.value, Invalid));
    }
    var providers :- ValidateSelection(fields, "providers", rules.providers);
    var skills :- ValidateSelection(fields, "skills", rules.skills);
    var validated := Config(version, providers, skills, None, None, None);
    if version >= 2 {
      var given := Field(fields, "providerSettings");
      if given.None? || !given.value.Obj? {
        return Err(Error("$.providerSettings", Invalid));
      }
      var settings :- ValidateSettings(given.value.fields, rules);
      validated := validated.(settings := Some(settings));
    }
    if version == 3 {
      var given := Field(fields, "packs");
      if given.None? || !given.value.Arr? {
        return Err(Error("$.packs", Invalid));
      }
      var packs :- ValidatePacks(given.value.items, rules);
      validated := validated.(packs := Some(packs));
    }
    if Field(fields, "workspace").Some? {
      var workspace :- WorkspaceSettings(Field(fields, "workspace").value, rules);
      validated := validated.(workspace := Some(workspace));
    }
    r := Ok(validated);
  }

  // ------------------------------------------------------- what a config can be

  predicate IsSelection(ids: seq<string>, allowed: set<string>) {
    (forall i :: 0 <= i < |ids| ==> ids[i] in allowed)
    && forall i, j :: 0 <= i < j < |ids| ==> ids[i] != ids[j]
  }

  predicate IsPack(p: Pack, rules: Rules) {
    IsPackId(p.id) && IsVersion(p.version)
    && match p.source
       case Bundled => true
       case Local(path) => path != ""
       case Git(repository, commit, subpath) =>
         p.pinned && rules.repository(repository) && IsCommit(commit)
         && (subpath.Some? ==> IsPortablePath(subpath.value, rules))
  }

  predicate ArePacks(packs: seq<Pack>, rules: Rules) {
    (forall i :: 0 <= i < |packs| ==> IsPack(packs[i], rules))
    && forall i, j :: 0 <= i < j < |packs| ==> packs[i].id != packs[j].id
  }

  predicate AreSettings(settings: seq<Entry<Json>>, rules: Rules) {
    forall i :: 0 <= i < |settings| ==> settings[i].key in rules.providers && settings[i].value.Obj?
  }

  /** Everything `validateConfig` promises of a configuration it returns. */
  predicate IsConfig(c: Config, rules: Rules) {
    c.version in {1, 2, 3}
    && IsSelection(c.providers, rules.providers) && IsSelection(c.skills, rules.skills)
    && (c.settings.Some? <==> c.version >= 2) && (c.settings.Some? ==> AreSettings(c.settings.value, rules))
    && (c.packs.Some? <==> c.version == 3) && (c.packs.Some? ==> ArePacks(c.packs.value, rules))
    && (c.workspace.Some? ==>
          c.workspace.value.preference in PREFERENCES && IsWorktreeRoot(c.workspace.value.root, rules))
  }

  lemma {:induction false} SelectedIsSelection(items: seq<Json>, n: nat, allowed: set<string>, path: string)
    requires n <= |items| && Selected(items, n, allowed, path).Ok?
    ensures IsSelection(Selected(items, n, allowed, path).value, allowed)
  {
    if n > 0 {
      SelectedIsSelection(items, n - 1, allowed, path);
    }
  }

  lemma {:induction false} CloneIsSame(v: Json)
    ensures Clone(v) == v
    decreases v
  {
    match v
    case Arr(items) =>
      forall i | 0 <= i < |items| ensures Clone(items[i]) == items[i] {
        CloneIsSame(items[i]);
      }
    case Obj(fields) =>
      forall i | 0 <= i < |fields| ensures Clone(fields[i].value) == fields[i].value {
        CloneIsSame(fields[i].value);
      }
    case _ =>
  }

  lemma {:induction false} SettingsAreSettings(entries: seq<Entry<Json>>, n: nat, rules: Rules)
    requires n <= |entries|
    ensures Settings(entries, n, rules).Ok? ==>
      AreSettings(entries[..n], rules) && Settings(entries, n, rules).value == entries[..n]
    ensures AreSettings(entries[..n], rules) ==> Settings(entries, n, rules).Ok?
  {
    if n > 0 {
      hide Clone;
      SettingsAreSettings(entries, n - 1, rules);
      CloneIsSame(entries[n - 1].value);
      assert entries[..n] == entries[..n - 1] + [entries[n - 1]];
    }
  }

  lemma OnePackIsPack(pack: Json, used: set<string>, rules: Rules, path: string)
    requires OnePack(pack, used, rules, path).Ok?
    ensures IsPack(OnePack(pack, used, rules, path).value, rules)
    ensures OnePack(pack, used, rules, path).value.id !in used
  {
    hide IsPackId, IsVersion, IsCommit, IsPortablePath, Field, Unknown;
  }

  lemma {:induction false} PacksArePacks(items: seq<Json>, n: nat, rules: Rules)
    requires n <= |items| && Packs(items, n, rules).Ok?
    ensures ArePacks(Packs(items, n, rules).value, rules)
  {
    hide OnePack, IsPack;
    if n > 0 {
      PacksArePacks(items, n - 1, rules);
      OnePackIsPack(items[n - 1], Ids(Packs(items, n - 1, rules).value), rules, At("$.packs", n - 1));
    }
  }

  lemma WorkspaceIsValid(value: Json, rules: Rules)
    requires WorkspaceSettings(value, rules).Ok?
    ensures var w := WorkspaceSettings(value, rules).value;
            w.preference in PREFERENCES && IsWorktreeRoot(w.root, rules)
  {
    hide IsWorktreeRoot, Unknown, Field;
  }

  /** Whatever is accepted is a configuration. */
  lemma ValidatedIsConfig(config: Json, rules: Rules)
    requires Validate(config, rules).Ok?
    ensures IsConfig(Validate(config, rules).value, rules)
  {
    hide Selected, Settings, Packs, WorkspaceSettings, Unknown, Lacking, IsWorktreeRoot, AreSettings, ArePacks,
         IsSelection;
    var f := config.fields;
    var version := Field(f, "schemaVersion").value.n;
    var items := Field(f, "providers").value.items;
    SelectedIsSelection(items, |items|, rules.providers, "$." + "providers");
    items := Field(f, "skills").value.items;
    SelectedIsSelection(items, |items|, rules.skills, "$." + "skills");
    if version >= 2 {
      var entries := Field(f, "providerSettings").value.fields;
      SettingsAreSettings(entries, |entries|, rules);
      assert entries[..|entries|] == entries;
    }
    if version == 3 {
      PacksArePacks(Field(f, "packs").value.items, |Field(f, "packs").value.items|, rules);
    }
    if Field(f, "workspace").Some? {
      WorkspaceIsValid(Field(f, "workspace").value, rules);
    }
  }

  // -------------------------------------------------------------- saving a config

  function Strings(ids: seq<string>): (items: seq<Json>)
    ensures |items| == |ids|
  {
    seq(|ids|, i requires 0 <= i < |ids| => Str(ids[i]))
  }

  function SourceJson(source: Source): Json {
    match source
    case Bundled => Obj([Entry("type", Str("bundled"))])
    case Local(path) => Obj([Entry("type", Str("local")), Entry("path", Str(path))])
    case Git(repository, commit, None) =>
      Obj([Entry("type", Str("git")), Entry("repository", Str(repository)), Entry("commit", Str(commit))])
    case Git(repository, commit, Some(subpath)) =>
      Obj([Entry("type", Str("git")), Entry("repository", Str(repository)),
           Entry("commit", Str(commit)), Entry("path", Str(subpath))])
  }

  function PackJson(p: Pack): Json {
    Obj([Entry("id", Str(p.id)), Entry("version", Str(p.version)),
         Entry("source", SourceJson(p.source)), Entry("pinned", Bool(p.pinned))])
  }

  function WorkspaceJson(w: Workspace): Json {
    Obj([Entry("executionPreference", Str(w.preference)), Entry("worktreeRoot", Str(w.root))])
  }

  function PackItems(packs: seq<Pack>): (items: seq<Json>)
    ensures |items| == |packs|
  {
    seq(|packs|, i requires 0 <= i < |packs| => PackJson(packs[i]))
  }

  function Fields(c: Config): seq<Entry<Json>> {
    [Entry("schemaVersion", Num(c.version)),
     Entry("providers", Arr(Strings(c.providers))),
     Entry("skills", Arr(Strings(c.skills)))]
    + (if c.settings.None? then [] else [Entry("providerSettings", Obj(c.settings.value))])
    + (if c.packs.None? then [] else [Entry("packs", Arr(PackItems(c.packs.value)))])
    + (if c.workspace.None? then [] else [Entry("workspace", WorkspaceJson(c.workspace.value))])
  }

  /** The object that is rendered when a configuration is saved. */
  function ToJson(c: Config): Json { Obj(Fields(c)) }

  lemma {:induction false} SelectedStrings(ids: seq<string>, n: nat, allowed: set<string>, path: string)
    requires n <= |ids| && IsSelection(ids, allowed)
    ensures Selected(Strings(ids), n, allowed, path) == Ok(ids[..n])
  {
    if n > 0 {
      SelectedStrings(ids, n - 1, allowed, path);
      assert ids[..n] == ids[..n - 1] + [ids[n - 1]];
    }
  }

  lemma {:induction false} AllKnown(fields: seq<Entry<Json>>, allowed: seq<string>)
    ensures Unknown(fields, allowed).None? <==> forall i :: 0 <= i < |fields| ==> fields[i].key in allowed
  {
    if fields != [] {
      AllKnown(fields[1..], allowed);
      assert forall i :: 1 <= i < |fields| ==> fields[i] == fields[1..][i - 1];
    }
  }

  lemma SourceReadsBack(source: Source, pinned: bool, rules: Rules, path: string)
    requires source.Local? ==> source.path != ""
    requires source.Git? ==> pinned && rules.repository(source.repository) && IsCommit(source.commit)
    requires source.Git? && source.subpath.Some? ==> IsPortablePath(source.subpath.value, rules)
    ensures PackSource(SourceJson(source).fields, Bool(pinned), rules, path) == Ok(source)
  {
    hide IsCommit, IsPortablePath, Field, Unknown;
    var f := SourceJson(source).fields;
    assert DistinctKeys(f);
    FieldAt(f, 0);
    if source.Local? {
      FieldAt(f, 1);
    } else if source.Git? {
      FieldAt(f, 1);
      FieldAt(f, 2);
      if source.subpath.Some? {
        FieldAt(f, 3);
      } else {
        FieldFound(f, "path");
      }
      AllKnown(f, ["type", "repository", "commit", "path"]);
    }
  }

  lemma {:induction false} NoneLacking(fields: seq<Entry<Json>>, required: seq<string>)
    ensures Lacking(fields, required).None? <==>
            forall i :: 0 <= i < |required| ==> Field(fields, required[i]).Some?
  {
    if required != [] {
      NoneLacking(fields, required[1..]);
      assert forall i :: 1 <= i < |required| ==> required[i] == required[1..][i - 1];
    }
  }

  lemma SourceIsObject(source: Source)
    ensures SourceJson(source).Obj?
  {}

  lemma PackReadsBack(p: Pack, used: set<string>, rules: Rules, path: string)
    requires IsPack(p, rules) && p.id !in used
    ensures OnePack(PackJson(p), used, rules, path) == Ok(p)
  {
    hide IsPackId, IsVersion, IsCommit, IsPortablePath, Field, PackSource, SourceJson;
    var f := PackJson(p).fields;
    assert DistinctKeys(f);
    FieldAt(f, 0);
    FieldAt(f, 1);
    FieldAt(f, 2);
    FieldAt(f, 3);
    SourceReadsBack(p.source, p.pinned, rules, path);
    assert SourceJson(p.source).Obj? by { SourceIsObject(p.source); }
  }

  lemma {:induction false} PacksReadBack(packs: seq<Pack>, n: nat, rules: Rules)
    requires n <= |packs| && ArePacks(packs, rules)
    ensures Packs(PackItems(packs), n, rules) == Ok(packs[..n])
  {
    hide IsPack, OnePack, PackJson;
    if n > 0 {
      PacksReadBack(packs, n - 1, rules);
      PackReadsBack(packs[n - 1], Ids(packs[..n - 1]), rules, At("$.packs", n - 1));
      assert packs[..n] == packs[..n - 1] + [packs[n - 1]];
    }
  }

  lemma WorkspaceReadsBack(w: Workspace, rules: Rules)
    requires w.preference in PREFERENCES && IsWorktreeRoot(w.root, rules)
    ensures WorkspaceSettings(WorkspaceJson(w), rules) == Ok(w)
  {
    hide IsWorktreeRoot, Unknown, Field;
    var f := WorkspaceJson(w).fields;
    AllKnown(f, ["executionPreference", "worktreeRoot"]);
    FieldAt(f, 0);
    FieldAt(f, 1);
  }

  /** The fields of a saved configuration, found by name. */
  lemma FieldsOf(c: Config)
    ensures DistinctKeys(Fields(c))
    ensures Field(Fields(c), "schemaVersion") == Some(Num(c.version))
    ensures Field(Fields(c), "providers") == Some(Arr(Strings(c.providers)))
    ensures Field(Fields(c), "skills") == Some(Arr(Strings(c.skills)))
    ensures c.settings.Some? ==> Field(Fields(c), "providerSettings") == Some(Obj(c.settings.value))
    ensures c.packs.Some? ==> Field(Fields(c), "packs") == Some(Arr(PackItems(c.packs.value)))
    ensures Field(Fields(c), "workspace")
         == if c.workspace.None? then None else Some(WorkspaceJson(c.workspace.value))
  {
    hide Field, Strings, PackItems, WorkspaceJson;
    var f := Fields(c);
    FieldAt(f, 0);
    FieldAt(f, 1);
    FieldAt(f, 2);
    if c.settings.Some? { FieldAt(f, 3); }
    if c.packs.Some? { FieldAt(f, if c.settings.Some? then 4 else 3); }
    if c.workspace.Some? {
      FieldAt(f, |f| - 1);
    } else {
      FieldFound(f, "workspace");
    }
  }

  /** A configuration reads back from what it is saved as. */
  lemma ConfigReadsBack(c: Config, rules: Rules)
    requires IsConfig(c, rules)
    ensures Validate(ToJson(c), rules) == Ok(c)
  {
    hide Field, Strings, PackItems, WorkspaceJson, Selected, Settings, Packs, WorkspaceSettings,
         Unknown, Lacking, AreSettings, ArePacks, IsSelection, IsWorktreeRoot;
    var f := Fields(c);
    FieldsOf(c);
    AllKnown(f, Required(c.version) + ["workspace"]);
    NoneLacking(f, Required(c.version));
    SelectedStrings(c.providers, |c.providers|, rules.providers, "$." + "providers");
    SelectedStrings(c.skills, |c.skills|, rules.skills, "$." + "skills");
    assert c.providers[..|c.providers|] == c.providers && c.skills[..|c.skills|] == c.skills;
    if c.settings.Some? {
      SettingsAreSettings(c.settings.value, |c.settings.value|, rules);
      assert c.settings.value[..|c.settings.value|] == c.settings.value;
    }
    if c.packs.Some? {
      PacksReadBack(c.packs.value, |c.packs.value|, rules);
      assert c.packs.value[..|c.packs.value|] == c.packs.value;
    }
    if c.workspace.Some? {
      WorkspaceReadsBack(c.workspace.value, rules);
    }
  }

  /** The configurations that validation can return are exactly those it
      accepts again, unchanged, once saved. */
  lemma AcceptedIffReadsBack(c: Config, rules: Rules)
    ensures IsConfig(c, rules) <==> Validate(ToJson(c), rules) == Ok(c)
  {
    hide Validate, IsConfig, ToJson;
    if IsConfig(c, rules) {
      ConfigReadsBack(c, rules);
    } else if Validate(ToJson(c), rules) == Ok(c) {
      ValidatedIsConfig(ToJson(c), rules);
    }
  }
}
