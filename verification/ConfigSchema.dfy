/** The configuration file as a schema: which JSON values `validateConfig` of
    src/config/contracts.ts accepts, member by member. */
module ConfigSchema {
  import opened Text
  import opened Json
  import opened Config
  import opened Patterns

  /** No member has another name. */
  predicate Only(fields: seq<Entry<Json>>, names: seq<string>) {
    forall i :: 0 <= i < |fields| ==> fields[i].key in names
  }

  lemma FieldIsMember(fields: seq<Entry<Json>>, name: string)
    requires DistinctKeys(fields)
    ensures forall v :: Field(fields, name) == Some(v) <==> Entry(name, v) in fields
  {
    FieldFound(fields, name);
    forall v | Entry(name, v) in fields ensures Field(fields, name) == Some(v) {
      var i :| 0 <= i < |fields| && fields[i] == Entry(name, v);
      FieldAt(fields, i);
    }
  }

  // ------------------------------------------------------------------------ packs

  predicate GitSource(fields: seq<Entry<Json>>, repository: string, commit: string, rules: Rules) {
    Only(fields, ["type", "repository", "commit", "path"])
    && Entry("type", Str("git")) in fields
    && Entry("repository", Str(repository)) in fields && rules.repository(repository)
    && Entry("commit", Str(commit)) in fields && Matches(COMMIT, commit)
    && forall i :: 0 <= i < |fields| && fields[i].key == "path" ==>
         fields[i].value.Str? && Portable(fields[i].value.s, rules)
  }

  ghost predicate LocalSource(fields: seq<Entry<Json>>) {
    |fields| == 2 && Entry("type", Str("local")) in fields
    && exists path :: path != "" && Entry("path", Str(path)) in fields
  }

  ghost predicate SourceFits(fields: seq<Entry<Json>>, pinned: Json, rules: Rules) {
    fields == [Entry("type", Str("bundled"))]
    || LocalSource(fields)
    || (pinned == Bool(true) && exists repository, commit :: GitSource(fields, repository, commit, rules))
  }

  lemma BundledAccepted(fields: seq<Entry<Json>>, pinned: Json, rules: Rules, path: string)
    requires DistinctKeys(fields) && Field(fields, "type") == Some(Str("bundled"))
    ensures PackSource(fields, pinned, rules, path).Ok? <==> fields == [Entry("type", Str("bundled"))]
  {
    FieldIsMember(fields, "type");
    hide Field;
  }

  lemma LocalAccepted(fields: seq<Entry<Json>>, pinned: Json, rules: Rules, path: string)
    requires DistinctKeys(fields) && Field(fields, "type") == Some(Str("local"))
    ensures PackSource(fields, pinned, rules, path).Ok? <==> LocalSource(fields)
  {
    FieldIsMember(fields, "type");
    FieldIsMember(fields, "path");
    hide Field;
  }

  lemma GitIs(fields: seq<Entry<Json>>, repository: string, commit: string, rules: Rules)
    requires DistinctKeys(fields)
    ensures GitSource(fields, repository, commit, rules) <==>
      Field(fields, "type") == Some(Str("git"))
      && Field(fields, "repository") == Some(Str(repository)) && Field(fields, "commit") == Some(Str(commit))
      && Unknown(fields, ["type", "repository", "commit", "path"]).None?
      && rules.repository(repository) && IsCommit(commit)
      && match Field(fields, "path")
         case None => true
         case Some(subpath) => subpath.Str? && IsPortablePath(subpath.s, rules)
  {
    FieldIsMember(fields, "type");
    FieldIsMember(fields, "path");
    FieldIsMember(fields, "repository");
    FieldIsMember(fields, "commit");
    AllKnown(fields, ["type", "repository", "commit", "path"]);
    CommitIsPattern(commit);
    if Field(fields, "path").Some? && Field(fields, "path").value.Str? {
      PortablePathExactlyWhen(Field(fields, "path").value.s, rules);
      assert Entry("path", Field(fields, "path").value) in fields;
    }
    hide Field, Unknown, IsCommit, IsPortablePath, Matches, Portable;
    forall i | 0 <= i < |fields| && fields[i].key == "path"
      ensures Field(fields, "path") == Some(fields[i].value)
    {
      assert fields[i] == Entry("path", fields[i].value);
    }
  }

  lemma GitAccepted(fields: seq<Entry<Json>>, pinned: Json, rules: Rules, path: string)
    requires DistinctKeys(fields) && Field(fields, "type") == Some(Str("git"))
    ensures PackSource(fields, pinned, rules, path).Ok? <==>
      pinned == Bool(true) && exists repository, commit :: GitSource(fields, repository, commit, rules)
  {
    forall repository, commit
      ensures GitSource(fields, repository, commit, rules) <==>
        Field(fields, "repository") == Some(Str(repository)) && Field(fields, "commit") == Some(Str(commit))
        && Unknown(fields, ["type", "repository", "commit", "path"]).None?
        && rules.repository(repository) && IsCommit(commit)
        && match Field(fields, "path")
           case None => true
           case Some(subpath) => subpath.Str? && IsPortablePath(subpath.s, rules)
    {
      GitIs(fields, repository, commit, rules);
    }
    hide Field, Unknown, IsCommit, IsPortablePath, GitSource;
    if Field(fields, "repository").Some? && Field(fields, "repository").value.Str?
       && Field(fields, "commit").Some? && Field(fields, "commit").value.Str? {
      var repository, commit := Field(fields, "repository").value.s, Field(fields, "commit").value.s;
      assert PackSource(fields, pinned, rules, path).Ok? <==>
        pinned == Bool(true) && GitSource(fields, repository, commit, rules);
    }
  }

  lemma SourceAcceptedExactlyWhen(fields: seq<Entry<Json>>, pinned: Json, rules: Rules, path: string)
    requires DistinctKeys(fields)
    ensures PackSource(fields, pinned, rules, path).Ok? <==> SourceFits(fields, pinned, rules)
  {
    var kind := Field(fields, "type");
    FieldIsMember(fields, "type");
    if kind == Some(Str("bundled")) {
      BundledAccepted(fields, pinned, rules, path);
    } else if kind == Some(Str("local")) {
      LocalAccepted(fields, pinned, rules, path);
    } else if kind == Some(Str("git")) {
      GitAccepted(fields, pinned, rules, path);
    }
    hide Field, Matches, Portable;
    if fields == [Entry("type", Str("bundled"))] {
      assert Entry("type", Str("bundled")) in fields;
    }
  }

  /** A pack of that ID is named. */
  predicate NamesPack(v: Json, id: string) {
    v.Obj? && Entry("id", Str(id)) in v.fields
  }

  /** The four members of a pack, each as it has to be. */
  predicate PackFits(v: Json, id: string, version: string, source: seq<Entry<Json>>, pinned: bool) {
    NamesPack(v, id) && |v.fields| == 4 && Matches(PACK_ID, id)
    && Entry("version", Str(version)) in v.fields && Matches(VERSION, version)
    && Entry("source", Obj(source)) in v.fields
    && Entry("pinned", Bool(pinned)) in v.fields
  }

  ghost predicate IsPackEntry(v: Json, rules: Rules) {
    exists id, version, source, pinned ::
      PackFits(v, id, version, source, pinned) && SourceFits(source, Bool(pinned), rules)
  }

  lemma PackFitsIs(v: Json, id: string, version: string, source: seq<Entry<Json>>, pinned: bool)
    requires v.Obj? && DistinctKeys(v.fields)
    ensures PackFits(v, id, version, source, pinned) <==>
      |v.fields| == 4 && IsPackId(id) && IsVersion(version)
      && Field(v.fields, "id") == Some(Str(id)) && Field(v.fields, "version") == Some(Str(version))
      && Field(v.fields, "source") == Some(Obj(source)) && Field(v.fields, "pinned") == Some(Bool(pinned))
  {
    FieldIsMember(v.fields, "id");
    FieldIsMember(v.fields, "version");
    FieldIsMember(v.fields, "source");
    FieldIsMember(v.fields, "pinned");
    PackIdIsPattern(id);
    VersionIsPattern(version);
    hide Field, Matches, IsPackId, IsVersion;
  }

  lemma SourceIsDistinct(v: Json)
    requires WellFormed(v) && v.Obj? && Field(v.fields, "source").Some? && Field(v.fields, "source").value.Obj?
    ensures DistinctKeys(Field(v.fields, "source").value.fields)
  {
    FieldFound(v.fields, "source");
    var source := Field(v.fields, "source").value;
    var i :| 0 <= i < |v.fields| && v.fields[i] == Entry("source", source);
    assert WellFormed(v.fields[i].value);
  }

  lemma PackAcceptedIf(v: Json, used: set<string>, rules: Rules, path: string,
                       id: string, version: string, source: seq<Entry<Json>>, pinned: bool)
    requires WellFormed(v) && PackFits(v, id, version, source, pinned)
    requires SourceFits(source, Bool(pinned), rules) && id !in used
    ensures OnePack(v, used, rules, path).Ok?
  {
    PackFitsIs(v, id, version, source, pinned);
    SourceIsDistinct(v);
    SourceAcceptedExactlyWhen(source, Bool(pinned), rules, path);
    hide PackSource, Field, IsPackId, IsVersion, SourceFits, PackFits;
  }

  lemma FitsNames(v: Json, id: string, version: string, source: seq<Entry<Json>>, pinned: bool)
    ensures PackFits(v, id, version, source, pinned) ==> NamesPack(v, id)
  {}

  lemma PackAcceptedOnlyIf(v: Json, used: set<string>, rules: Rules, path: string)
    requires WellFormed(v) && OnePack(v, used, rules, path).Ok?
    ensures IsPackEntry(v, rules) && NamesPack(v, OnePack(v, used, rules, path).value.id)
    ensures OnePack(v, used, rules, path).value.id !in used
  {
    hide PackSource, Field, IsPackId, IsVersion, SourceFits, PackFits;
    var id, version := Field(v.fields, "id").value.s, Field(v.fields, "version").value.s;
    var source, pinned := Field(v.fields, "source").value.fields, Field(v.fields, "pinned").value.b;
    PackFitsIs(v, id, version, source, pinned);
    SourceIsDistinct(v);
    SourceAcceptedExactlyWhen(source, Bool(pinned), rules, path);
    FitsNames(v, id, version, source, pinned);
  }

  lemma NamesOnce(v: Json, a: string, b: string)
    requires WellFormed(v) && NamesPack(v, a) && NamesPack(v, b)
    ensures a == b
  {}

  lemma PackAcceptedExactlyWhen(v: Json, used: set<string>, rules: Rules, path: string)
    requires WellFormed(v)
    ensures OnePack(v, used, rules, path).Ok? <==>
      IsPackEntry(v, rules) && forall id :: NamesPack(v, id) ==> id !in used
    ensures OnePack(v, used, rules, path).Ok? ==> NamesPack(v, OnePack(v, used, rules, path).value.id)
  {
    hide OnePack, PackFits, SourceFits, WellFormed;
    if OnePack(v, used, rules, path).Ok? {
      PackAcceptedOnlyIf(v, used, rules, path);
      forall id | NamesPack(v, id) ensures id !in used {
        NamesOnce(v, id, OnePack(v, used, rules, path).value.id);
      }
    }
    if IsPackEntry(v, rules) && forall id :: NamesPack(v, id) ==> id !in used {
      var id, version, source, pinned :|
        PackFits(v, id, version, source, pinned) && SourceFits(source, Bool(pinned), rules);
      FitsNames(v, id, version, source, pinned);
      PackAcceptedIf(v, used, rules, path, id, version, source, pinned);
    }
  }

  /** The first packs of a list, no two of them of the same ID. */
  ghost predicate PacksFit(items: seq<Json>, n: nat, rules: Rules)
    requires n <= |items|
  {
    (forall i :: 0 <= i < n ==> IsPackEntry(items[i], rules))
    && forall i, j, id :: 0 <= i < j < n && NamesPack(items[i], id) ==> !NamesPack(items[j], id)
  }

  /** Each pack read is the one its item names. */
  ghost predicate Named(items: seq<Json>, packs: seq<Pack>) {
    |packs| <= |items| && forall i :: 0 <= i < |packs| ==> NamesPack(items[i], packs[i].id)
  }

  lemma IdsAreNamed(items: seq<Json>, packs: seq<Pack>, id: string)
    requires Named(items, packs) && forall i :: 0 <= i < |items| ==> WellFormed(items[i])
    ensures id in Ids(packs) <==> exists i :: 0 <= i < |packs| && NamesPack(items[i], id)
  {
    hide NamesPack, WellFormed;
    forall i | 0 <= i < |packs| && NamesPack(items[i], id) ensures id == packs[i].id {
      NamesOnce(items[i], id, packs[i].id);
    }
  }

  lemma PacksFitMore(items: seq<Json>, n: nat, packs: seq<Pack>, rules: Rules)
    requires n < |items| && Named(items, packs) && |packs| == n
    requires forall i :: 0 <= i < |items| ==> WellFormed(items[i])
    ensures PacksFit(items, n + 1, rules) <==>
      PacksFit(items, n, rules) && IsPackEntry(items[n], rules)
      && forall id :: NamesPack(items[n], id) ==> id !in Ids(packs)
  {
    forall id ensures id in Ids(packs) <==> exists i :: 0 <= i < n && NamesPack(items[i], id) {
      IdsAreNamed(items, packs, id);
    }
    hide IsPackEntry, NamesPack, WellFormed, Ids;
  }

  lemma PacksSteps(items: seq<Json>, n: nat, rules: Rules)
    requires n < |items|
    ensures Packs(items, n + 1, rules) ==
      match Packs(items, n, rules)
      case Err(error) => Err(error)
      case Ok(packs) =>
        match OnePack(items[n], Ids(packs), rules, At("$.packs", n))
        case Err(error) => Err(error)
        case Ok(pack) => Ok(packs + [pack])
  {
    hide OnePack, At;
  }

  lemma {:induction false} PacksAcceptedExactlyWhen(items: seq<Json>, n: nat, rules: Rules)
    requires n <= |items| && forall i :: 0 <= i < |items| ==> WellFormed(items[i])
    ensures Packs(items, n, rules).Ok? <==> PacksFit(items, n, rules)
    ensures Packs(items, n, rules).Ok? ==>
      |Packs(items, n, rules).value| == n && Named(items, Packs(items, n, rules).value)
  {
    hide OnePack, IsPackEntry, NamesPack, At, WellFormed, Ids;
    if n > 0 {
      PacksAcceptedExactlyWhen(items, n - 1, rules);
      hide Packs;
      PacksSteps(items, n - 1, rules);
      if Packs(items, n - 1, rules).Ok? {
        var packs := Packs(items, n - 1, rules).value;
        PackAcceptedExactlyWhen(items[n - 1], Ids(packs), rules, At("$.packs", n - 1));
        PacksFitMore(items, n - 1, packs, rules);
      }
    }
  }

  // ------------------------------------------------- selections, settings, workspace

  /** The first items of a list, allowed IDs and none of them twice. */
  predicate IdsFit(items: seq<Json>, n: nat, allowed: set<string>)
    requires n <= |items|
  {
    (forall i :: 0 <= i < n ==> items[i].Str? && items[i].s in allowed)
    && forall i, j :: 0 <= i < j < n ==> items[i] != items[j]
  }

  predicate SelectionFits(v: Json, allowed: set<string>) {
    v.Arr? && IdsFit(v.items, |v.items|, allowed)
  }

  lemma {:induction false} SelectedExactlyWhen(items: seq<Json>, n: nat, allowed: set<string>, path: string)
    requires n <= |items|
    ensures Selected(items, n, allowed, path).Ok? <==> IdsFit(items, n, allowed)
    ensures Selected(items, n, allowed, path).Ok? ==>
      |Selected(items, n, allowed, path).value| == n
      && forall i :: 0 <= i < n ==> items[i] == Str(Selected(items, n, allowed, path).value[i])
  {
    hide At;
    if n > 0 {
      SelectedExactlyWhen(items, n - 1, allowed, path);
      if Selected(items, n - 1, allowed, path).Ok? && items[n - 1].Str? {
        var ids := Selected(items, n - 1, allowed, path).value;
        assert items[n - 1].s in ids <==> exists i :: 0 <= i < n - 1 && items[i] == items[n - 1] by {
          forall i | 0 <= i < n - 1 ensures items[i] == Str(ids[i]) {}
        }
      }
    }
  }

  predicate SettingsFit(v: Json, providers: set<string>) {
    v.Obj? && forall i :: 0 <= i < |v.fields| ==> v.fields[i].key in providers && v.fields[i].value.Obj?
  }

  /** The two workspace settings. */
  predicate WorkspaceFits(v: Json, preference: string, root: string, rules: Rules) {
    v.Obj? && Only(v.fields, ["executionPreference", "worktreeRoot"])
    && Entry("executionPreference", Str(preference)) in v.fields
    && (preference == "ask" || preference == "always-worktree" || preference == "direct")
    && Entry("worktreeRoot", Str(root)) in v.fields && RootLike(root, rules)
  }

  ghost predicate IsWorkspace(v: Json, rules: Rules) {
    exists preference, root :: WorkspaceFits(v, preference, root, rules)
  }

  lemma WorkspaceFitsIs(v: Json, preference: string, root: string, rules: Rules)
    requires v.Obj? && DistinctKeys(v.fields)
    ensures WorkspaceFits(v, preference, root, rules) <==>
      Unknown(v.fields, ["executionPreference", "worktreeRoot"]).None?
      && Field(v.fields, "executionPreference") == Some(Str(preference)) && preference in PREFERENCES
      && Field(v.fields, "worktreeRoot") == Some(Str(root)) && IsWorktreeRoot(root, rules)
  {
    FieldIsMember(v.fields, "executionPreference");
    FieldIsMember(v.fields, "worktreeRoot");
    AllKnown(v.fields, ["executionPreference", "worktreeRoot"]);
    WorktreeRootExactlyWhen(root, rules);
    hide Field, Unknown, IsWorktreeRoot, RootLike;
  }

  lemma WorkspaceAcceptedExactlyWhen(v: Json, rules: Rules)
    requires WellFormed(v)
    ensures WorkspaceSettings(v, rules).Ok? <==> IsWorkspace(v, rules)
  {
    if v.Obj? {
      forall preference, root
        ensures WorkspaceFits(v, preference, root, rules) <==>
          Unknown(v.fields, ["executionPreference", "worktreeRoot"]).None?
          && Field(v.fields, "executionPreference") == Some(Str(preference)) && preference in PREFERENCES
          && Field(v.fields, "worktreeRoot") == Some(Str(root)) && IsWorktreeRoot(root, rules)
      {
        WorkspaceFitsIs(v, preference, root, rules);
      }
      hide Field, Unknown, IsWorktreeRoot, WorkspaceFits;
    } else {
      forall preference, root ensures !WorkspaceFits(v, preference, root, rules) {}
    }
  }

  // ---------------------------------------------------------------- the whole file

  /** A member that a configuration file of a version can have. */
  ghost predicate MemberFits(member: Entry<Json>, version: int, rules: Rules) {
    var Entry(name, value) := member;
    (name == "schemaVersion" && value == Num(version))
    || (name == "providers" && SelectionFits(value, rules.providers))
    || (name == "skills" && SelectionFits(value, rules.skills))
    || (name == "providerSettings" && version >= 2 && SettingsFit(value, rules.providers))
    || (name == "packs" && version >= 3 && value.Arr? && PacksFit(value.items, |value.items|, rules))
    || (name == "workspace" && IsWorkspace(value, rules))
  }

  predicate HasMember(fields: seq<Entry<Json>>, name: string) {
    exists i :: 0 <= i < |fields| && fields[i].key == name
  }

  /** All members fit, and none is missing but for the workspace. */
  ghost predicate Fits(fields: seq<Entry<Json>>, version: int, rules: Rules) {
    (forall i :: 0 <= i < |fields| ==> MemberFits(fields[i], version, rules))
    && HasMember(fields, "schemaVersion") && HasMember(fields, "providers") && HasMember(fields, "skills")
    && (version >= 2 ==> HasMember(fields, "providerSettings")) && (version >= 3 ==> HasMember(fields, "packs"))
  }

  /** A configuration file of version 1, 2 or 3, member by member. */
  ghost predicate IsConfigFile(v: Json, rules: Rules) {
    v.Obj? && (Fits(v.fields, 1, rules) || Fits(v.fields, 2, rules) || Fits(v.fields, 3, rules))
  }

  lemma FieldStands(fields: seq<Entry<Json>>, name: string)
    requires DistinctKeys(fields)
    ensures Field(fields, name).Some? <==> HasMember(fields, name)
    ensures forall i :: 0 <= i < |fields| && fields[i].key == name ==> Field(fields, name) == Some(fields[i].value)
  {
    FieldFound(fields, name);
    forall i | 0 <= i < |fields| && fields[i].key == name ensures Field(fields, name) == Some(fields[i].value) {
      FieldAt(fields, i);
    }
    if Field(fields, name).Some? {
      var i :| 0 <= i < |fields| && fields[i] == Entry(name, Field(fields, name).value);
    }
  }

  /** What the first checks come to: the members there are, and that there are all. */
  predicate NamesFit(fields: seq<Entry<Json>>, version: int) {
    (forall i :: 0 <= i < |fields| ==>
       fields[i].key in ["schemaVersion", "workspace", "providers", "skills"]
       || (version >= 2 && fields[i].key == "providerSettings") || (version >= 3 && fields[i].key == "packs"))
    && Field(fields, "schemaVersion").Some? && Field(fields, "providers").Some? && Field(fields, "skills").Some?
    && (version >= 2 ==> Field(fields, "providerSettings").Some?)
    && (version >= 3 ==> Field(fields, "packs").Some?)
  }

  lemma NamesAccepted(fields: seq<Entry<Json>>, version: int)
    requires version in {1, 2, 3}
    ensures Unknown(fields, Required(version) + ["workspace"]).None? && Lacking(fields, Required(version)).None? <==>
            NamesFit(fields, version)
  {
    hide Field, Unknown, Lacking;
    AllKnown(fields, Required(version) + ["workspace"]);
    NoneLacking(fields, Required(version));
    var required := Required(version);
    assert required[0] == "schemaVersion" && required[1] == "providers" && required[2] == "skills";
    assert version >= 2 ==> required[3] == "providerSettings";
    assert version >= 3 ==> required[4] == "packs";
  }

  /** What the members have to be, looked up by name. */
  ghost predicate ValuesFit(fields: seq<Entry<Json>>, version: int, rules: Rules)
    requires NamesFit(fields, version)
  {
    SelectionFits(Field(fields, "providers").value, rules.providers)
    && SelectionFits(Field(fields, "skills").value, rules.skills)
    && (version >= 2 ==> SettingsFit(Field(fields, "providerSettings").value, rules.providers))
    && (version >= 3 ==>
          Field(fields, "packs").value.Arr?
          && PacksFit(Field(fields, "packs").value.items, |Field(fields, "packs").value.items|, rules))
    && (Field(fields, "workspace").Some? ==> IsWorkspace(Field(fields, "workspace").value, rules))
  }

  /** The same, name by name. */
  lemma MemberFitsIs(member: Entry<Json>, version: int, rules: Rules)
    ensures MemberFits(member, version, rules) <==>
      (member.key in ["schemaVersion", "workspace", "providers", "skills"]
       || (version >= 2 && member.key == "providerSettings") || (version >= 3 && member.key == "packs"))
      && (member.key == "schemaVersion" ==> member.value == Num(version))
      && (member.key == "providers" ==> SelectionFits(member.value, rules.providers))
      && (member.key == "skills" ==> SelectionFits(member.value, rules.skills))
      && (member.key == "providerSettings" ==> SettingsFit(member.value, rules.providers))
      && (member.key == "packs" ==>
            member.value.Arr? && PacksFit(member.value.items, |member.value.items|, rules))
      && (member.key == "workspace" ==> IsWorkspace(member.value, rules))
  {
    hide SelectionFits, SettingsFit, PacksFit, IsWorkspace;
  }

  lemma NamedMember(fields: seq<Entry<Json>>, name: string, version: int, rules: Rules)
    requires DistinctKeys(fields) && HasMember(fields, name)
    requires forall i :: 0 <= i < |fields| ==> MemberFits(fields[i], version, rules)
    ensures Field(fields, name).Some? && MemberFits(Entry(name, Field(fields, name).value), version, rules)
  {
    hide MemberFits;
    FieldStands(fields, name);
    var i :| 0 <= i < |fields| && fields[i].key == name;
    assert fields[i] == Entry(name, Field(fields, name).value);
  }

  lemma FitsOnlyIf(fields: seq<Entry<Json>>, version: int, rules: Rules)
    requires DistinctKeys(fields) && version in {1, 2, 3} && Fits(fields, version, rules)
    ensures Field(fields, "schemaVersion") == Some(Num(version)) && NamesFit(fields, version)
    ensures ValuesFit(fields, version, rules)
  {
    hide Field, SelectionFits, SettingsFit, PacksFit, IsWorkspace, MemberFits, HasMember;
    forall i | 0 <= i < |fields| {
      MemberFitsIs(fields[i], version, rules);
    }
    NamedMember(fields, "schemaVersion", version, rules);
    NamedMember(fields, "providers", version, rules);
    NamedMember(fields, "skills", version, rules);
    MemberFitsIs(Entry("schemaVersion", Field(fields, "schemaVersion").value), version, rules);
    MemberFitsIs(Entry("providers", Field(fields, "providers").value), version, rules);
    MemberFitsIs(Entry("skills", Field(fields, "skills").value), version, rules);
    if version >= 2 {
      NamedMember(fields, "providerSettings", version, rules);
      MemberFitsIs(Entry("providerSettings", Field(fields, "providerSettings").value), version, rules);
    }
    if version >= 3 {
      NamedMember(fields, "packs", version, rules);
      MemberFitsIs(Entry("packs", Field(fields, "packs").value), version, rules);
    }
    FieldStands(fields, "workspace");
    if Field(fields, "workspace").Some? {
      NamedMember(fields, "workspace", version, rules);
      MemberFitsIs(Entry("workspace", Field(fields, "workspace").value), version, rules);
    }
  }

  lemma FitsIf(fields: seq<Entry<Json>>, version: int, rules: Rules)
    requires DistinctKeys(fields) && version in {1, 2, 3}
    requires Field(fields, "schemaVersion") == Some(Num(version)) && NamesFit(fields, version)
    requires ValuesFit(fields, version, rules)
    ensures Fits(fields, version, rules)
  {
    hide Field, SelectionFits, SettingsFit, PacksFit, IsWorkspace, MemberFits, HasMember;
    FieldStands(fields, "schemaVersion");
    FieldStands(fields, "providers");
    FieldStands(fields, "skills");
    FieldStands(fields, "providerSettings");
    FieldStands(fields, "packs");
    forall i | 0 <= i < |fields| ensures MemberFits(fields[i], version, rules) {
      FieldStands(fields, fields[i].key);
      MemberFitsIs(fields[i], version, rules);
    }
  }

  lemma SelectionAcceptedExactlyWhen(fields: seq<Entry<Json>>, key: string, allowed: set<string>)
    requires Field(fields, key).Some?
    ensures Selection(fields, key, allowed).Ok? <==> SelectionFits(Field(fields, key).value, allowed)
  {
    hide Field, Selected, IdsFit;
    if Field(fields, key).value.Arr? {
      var items := Field(fields, key).value.items;
      SelectedExactlyWhen(items, |items|, allowed, "$." + key);
    }
  }

  lemma FieldFits(fields: seq<Entry<Json>>, key: string)
    requires WellFormed(Obj(fields)) && Field(fields, key).Some?
    ensures WellFormed(Field(fields, key).value)
    ensures Field(fields, key).value.Arr? ==>
      forall i :: 0 <= i < |Field(fields, key).value.items| ==> WellFormed(Field(fields, key).value.items[i])
  {
    FieldFound(fields, key);
    var i :| 0 <= i < |fields| && fields[i] == Entry(key, Field(fields, key).value);
  }

  lemma ValuesAccepted(fields: seq<Entry<Json>>, version: int, rules: Rules)
    requires WellFormed(Obj(fields)) && version in {1, 2, 3} && NamesFit(fields, version)
    ensures ValuesFit(fields, version, rules) <==>
      Selection(fields, "providers", rules.providers).Ok? && Selection(fields, "skills", rules.skills).Ok?
      && OptionalSettings(fields, version, rules).Ok? && OptionalPacks(fields, version, rules).Ok?
      && OptionalWorkspace(fields, rules).Ok?
  {
    hide Field, IdsFit, PacksFit, IsWorkspace, Selected, Settings, Packs, WorkspaceSettings;
    SelectionAcceptedExactlyWhen(fields, "providers", rules.providers);
    SelectionAcceptedExactlyWhen(fields, "skills", rules.skills);
    hide Selection, SelectionFits;
    if version >= 2 && Field(fields, "providerSettings").value.Obj? {
      var entries := Field(fields, "providerSettings").value.fields;
      SettingsAreSettings(entries, |entries|, rules);
      assert entries[..|entries|] == entries;
    }
    if version >= 3 && Field(fields, "packs").value.Arr? {
      var items := Field(fields, "packs").value.items;
      FieldFits(fields, "packs");
      PacksAcceptedExactlyWhen(items, |items|, rules);
    }
    if Field(fields, "workspace").Some? {
      FieldFits(fields, "workspace");
      WorkspaceAcceptedExactlyWhen(Field(fields, "workspace").value, rules);
    }
  }

  lemma ValidateAccepts(v: Json, version: int, rules: Rules)
    requires v.Obj? && Field(v.fields, "schemaVersion") == Some(Num(version)) && version in {1, 2, 3}
    ensures Validate(v, rules).Ok? <==>
      Unknown(v.fields, Required(version) + ["workspace"]).None? && Lacking(v.fields, Required(version)).None?
      && Selection(v.fields, "providers", rules.providers).Ok? && Selection(v.fields, "skills", rules.skills).Ok?
      && OptionalSettings(v.fields, version, rules).Ok? && OptionalPacks(v.fields, version, rules).Ok?
      && OptionalWorkspace(v.fields, rules).Ok?
  {
    hide Field, Unknown, Lacking, Required, Selection, OptionalSettings, OptionalPacks, OptionalWorkspace;
  }

  lemma ValidateNeedsVersion(v: Json, rules: Rules)
    requires Validate(v, rules).Ok?
    ensures v.Obj? && exists version :: version in {1, 2, 3} && Field(v.fields, "schemaVersion") == Some(Num(version))
  {
    hide Field, Unknown, Lacking, Required, Selection, OptionalSettings, OptionalPacks, OptionalWorkspace;
    var version := Field(v.fields, "schemaVersion").value.n;
    assert version in {1, 2, 3};
  }

  lemma FitsAcceptedExactlyWhen(v: Json, version: int, rules: Rules)
    requires WellFormed(v) && v.Obj? && version in {1, 2, 3}
    requires Field(v.fields, "schemaVersion") == Some(Num(version))
    ensures Validate(v, rules).Ok? <==> Fits(v.fields, version, rules)
  {
    hide Field, Validate, Fits, NamesFit, ValuesFit, Unknown, Lacking, Selection, OptionalSettings, OptionalPacks,
         OptionalWorkspace;
    ValidateAccepts(v, version, rules);
    NamesAccepted(v.fields, version);
    if Fits(v.fields, version, rules) {
      FitsOnlyIf(v.fields, version, rules);
    }
    if NamesFit(v.fields, version) {
      ValuesAccepted(v.fields, version, rules);
      if ValuesFit(v.fields, version, rules) {
        FitsIf(v.fields, version, rules);
      }
    }
  }

  /** Exactly which JSON values are accepted as a configuration: an object with a
      schema version of 1, 2 or 3 and the members of that version, each of them as
      the patterns and lists above have it. */
  lemma AcceptedExactlyAsSchema(v: Json, rules: Rules)
    requires WellFormed(v)
    ensures Validate(v, rules).Ok? <==> IsConfigFile(v, rules)
  {
    hide Field, Validate, Fits;
    if Validate(v, rules).Ok? {
      ValidateNeedsVersion(v, rules);
      var version :| version in {1, 2, 3} && Field(v.fields, "schemaVersion") == Some(Num(version));
      FitsAcceptedExactlyWhen(v, version, rules);
    }
    if IsConfigFile(v, rules) {
      var version :| version in {1, 2, 3} && Fits(v.fields, version, rules);
      FitsOnlyIf(v.fields, version, rules);
      FitsAcceptedExactlyWhen(v, version, rules);
    }
  }

  // ------------------------------------------------------------------- the refusals

  /** A value that is refused for its schema version, or for having none. */
  lemma VersionRefused(v: Json, rules: Rules)
    ensures !v.Obj? ==> Validate(v, rules) == Err(Error("$", Invalid))
    ensures v.Obj? && !HasMember(v.fields, "schemaVersion") ==>
      Validate(v, rules) == Err(Error("$.schemaVersion", Invalid))
    ensures forall value :: v.Obj? && DistinctKeys(v.fields) && Entry("schemaVersion", value) in v.fields ==>
      (!value.Num? ==> Validate(v, rules) == Err(Error("$.schemaVersion", Invalid)))
      && (value.Num? && !(1 <= value.n <= 3) ==>
            Validate(v, rules) == Err(Error("$.schemaVersion", UnsupportedVersion)))
  {
    if v.Obj? {
      FieldFound(v.fields, "schemaVersion");
      if DistinctKeys(v.fields) {
        FieldIsMember(v.fields, "schemaVersion");
      }
    }
    hide Field, Unknown, Lacking, Required, Selection, OptionalSettings, OptionalPacks, OptionalWorkspace;
  }

  /** The member names of a version, in the order they are asked for. */
  function NamesOf(version: int): (names: seq<string>)
    requires version in {1, 2, 3}
  {
    ["schemaVersion", "providers", "skills", "providerSettings", "packs"][..version + 2]
  }

  lemma NamesOfAre(version: int)
    requires version in {1, 2, 3}
    ensures NamesOf(version) == Required(version)
  {}

  lemma {:induction false} FirstUnknown(fields: seq<Entry<Json>>, allowed: seq<string>, i: nat)
    requires i < |fields| && fields[i].key !in allowed && forall j :: 0 <= j < i ==> fields[j].key in allowed
    ensures Unknown(fields, allowed) == Some(fields[i].key)
  {
    if i > 0 {
      FirstUnknown(fields[1..], allowed, i - 1);
    }
  }

  lemma {:induction false} FirstLacking(fields: seq<Entry<Json>>, required: seq<string>, i: nat)
    requires i < |required| && Field(fields, required[i]).None?
    requires forall j :: 0 <= j < i ==> Field(fields, required[j]).Some?
    ensures Lacking(fields, required) == Some(required[i])
  {
    if i > 0 {
      FirstLacking(fields, required[1..], i - 1);
    }
  }

  lemma ComplainsOf(fields: seq<Entry<Json>>, version: int, rules: Rules, key: string)
    requires Field(fields, "schemaVersion") == Some(Num(version)) && version in {1, 2, 3}
    requires Unknown(fields, Required(version) + ["workspace"]) == Some(key)
          || (Unknown(fields, Required(version) + ["workspace"]).None?
              && Lacking(fields, Required(version)) == Some(key))
    ensures Validate(Obj(fields), rules) == Err(Error("$." + key, Invalid))
  {
    hide Field, Unknown, Lacking, Required, Selection, OptionalSettings, OptionalPacks, OptionalWorkspace;
  }

  /** The first member with a name the version does not have is the one complained
      about. */
  lemma UnknownMemberRefused(fields: seq<Entry<Json>>, version: int, rules: Rules, i: nat)
    requires Field(fields, "schemaVersion") == Some(Num(version)) && version in {1, 2, 3}
    requires i < |fields| && fields[i].key !in NamesOf(version) + ["workspace"]
    requires forall j :: 0 <= j < i ==> fields[j].key in NamesOf(version) + ["workspace"]
    ensures Validate(Obj(fields), rules) == Err(Error("$." + fields[i].key, Invalid))
  {
    NamesOfAre(version);
    hide Field, Unknown, Lacking, Required, NamesOf, Validate;
    FirstUnknown(fields, NamesOf(version) + ["workspace"], i);
    ComplainsOf(fields, version, rules, fields[i].key);
  }

  /** With no such member, it is the first name there is no member of. */
  lemma MissingMemberRefused(fields: seq<Entry<Json>>, version: int, rules: Rules, k: nat)
    requires Field(fields, "schemaVersion") == Some(Num(version)) && version in {1, 2, 3}
    requires Only(fields, NamesOf(version) + ["workspace"])
    requires k < |NamesOf(version)| && !HasMember(fields, NamesOf(version)[k])
    requires forall j :: 0 <= j < k ==> HasMember(fields, NamesOf(version)[j])
    ensures Validate(Obj(fields), rules) == Err(Error("$." + NamesOf(version)[k], Invalid))
  {
    NamesOfAre(version);
    AllKnown(fields, NamesOf(version) + ["workspace"]);
    forall j | 0 <= j <= k
      ensures Field(fields, NamesOf(version)[j]).Some? <==> HasMember(fields, NamesOf(version)[j])
    {
      FieldFound(fields, NamesOf(version)[j]);
    }
    hide Field, HasMember, Unknown, Lacking, Required, NamesOf, Validate;
    FirstLacking(fields, NamesOf(version), k);
    ComplainsOf(fields, version, rules, NamesOf(version)[k]);
  }

  /** Of a selection, the first item that is no allowed ID, or one already there. */
  lemma SelectionRefused(fields: seq<Entry<Json>>, key: string, allowed: set<string>, items: seq<Json>, i: nat)
    requires Field(fields, key) == Some(Arr(items))
    requires i < |items| && IdsFit(items, i, allowed) && !IdsFit(items, i + 1, allowed)
    ensures Selection(fields, key, allowed) == Err(Error("$." + key + "[" + Decimal(i) + "]", Invalid))
  {
    hide Field, Decimal, IdsFit;
    SelectedExactlyWhen(items, i, allowed, "$." + key);
    SelectedExactlyWhen(items, i + 1, allowed, "$." + key);
    if i + 1 < |items| {
      SelectedStops(items, i, |items|, allowed, "$." + key);
    }
  }

  lemma SourceError(fields: seq<Entry<Json>>, pinned: Json, rules: Rules, path: string)
    requires PackSource(fields, pinned, rules, path).Err?
    ensures PackSource(fields, pinned, rules, path) ==
      Err(Error(path + (if PackSource(fields, Bool(true), rules, path).Err? then ".source" else ".pinned"), Invalid))
  {
    hide Field, Unknown, IsCommit, IsPortablePath;
  }

  lemma PinnedOnlyMatters(fields: seq<Entry<Json>>, pinned: Json, rules: Rules, path: string)
    ensures PackSource(fields, pinned, rules, path).Ok? ==> PackSource(fields, Bool(true), rules, path).Ok?
  {
    hide Field, Unknown, IsCommit, IsPortablePath;
  }

  /** Of a pack with its four members, the first one that is not as it has to be:
      the ID, unused so far, the version, the source, and whether it is pinned, which
      a repository has to be. */
  lemma PackRefused(v: Json, id: Json, version: Json, source: Json, pinned: Json, used: set<string>,
                    rules: Rules, path: string)
    requires WellFormed(v) && v.Obj? && |v.fields| == 4
    requires Entry("id", id) in v.fields && Entry("version", version) in v.fields
    requires Entry("source", source) in v.fields && Entry("pinned", pinned) in v.fields
    requires OnePack(v, used, rules, path).Err?
    ensures OnePack(v, used, rules, path) == Err(Error(
      path + (if !(id.Str? && Matches(PACK_ID, id.s) && id.s !in used) then ".id"
              else if !(version.Str? && Matches(VERSION, version.s)) then ".version"
              else if !(source.Obj? && SourceFits(source.fields, Bool(true), rules)) then ".source"
              else ".pinned"), Invalid))
  {
    FieldIsMember(v.fields, "id");
    FieldIsMember(v.fields, "version");
    FieldIsMember(v.fields, "source");
    FieldIsMember(v.fields, "pinned");
    if id.Str? { PackIdIsPattern(id.s); }
    if version.Str? { VersionIsPattern(version.s); }
    if source.Obj? {
      SourceIsDistinct(v);
      SourceAcceptedExactlyWhen(source.fields, Bool(true), rules, path);
      if PackSource(source.fields, pinned, rules, path).Err? {
        SourceError(source.fields, pinned, rules, path);
      }
      PinnedOnlyMatters(source.fields, pinned, rules, path);
    }
    hide Field, PackSource, SourceFits, IsPackId, IsVersion, Matches;
  }
}
