/** Validation and saving lose nothing: the JSON a validated configuration is
    saved as is the JSON it was read from, up to the order of object members. */
module ConfigMeaning {
  import opened Text
  import opened Json
  import opened Config
  import Migration

  lemma {:induction false} FieldIsLookup(fields: seq<Entry<Json>>, key: string)
    ensures Field(fields, key).Some? <==> key in Keys(fields)
    ensures key in Keys(fields) ==> Field(fields, key) == Some(Lookup(fields, key))
  {
    if fields != [] {
      FieldIsLookup(fields[1..], key);
    }
  }

  lemma SameItself(v: Json)
    requires WellFormed(v)
    ensures Same(v, v)
  {
    SameIsOrderedEqual(v, v);
  }

  lemma SameByLookup(fs: seq<Entry<Json>>, gs: seq<Entry<Json>>)
    requires Keys(fs) == Keys(gs)
    requires forall i :: 0 <= i < |fs| ==> fs[i].key in Keys(gs) && Same(fs[i].value, Lookup(gs, fs[i].key))
    ensures Same(Obj(fs), Obj(gs))
  {
    hide Keys, Lookup;
  }

  /** Objects are the same when each member of one is found in the other, and
      the other has no more keys. */
  lemma SameByFields(fs: seq<Entry<Json>>, gs: seq<Entry<Json>>)
    requires forall i :: 0 <= i < |fs| ==>
      Field(gs, fs[i].key).Some? && Same(fs[i].value, Field(gs, fs[i].key).value)
    requires forall j :: 0 <= j < |gs| ==> exists i :: 0 <= i < |fs| && fs[i].key == gs[j].key
    ensures Same(Obj(fs), Obj(gs))
  {
    hide *;
    KeysAre(fs);
    KeysAre(gs);
    forall i | 0 <= i < |fs|
      ensures fs[i].key in Keys(gs) && Lookup(gs, fs[i].key) == Field(gs, fs[i].key).value
    {
      FieldIsLookup(gs, fs[i].key);
    }
    SameByLookup(fs, gs);
  }

  /** The values of a well-formed object are well formed. */
  lemma FieldIsWellFormed(fields: seq<Entry<Json>>, key: string)
    requires WellFormed(Obj(fields)) && Field(fields, key).Some?
    ensures WellFormed(Field(fields, key).value)
  {
    hide Field;
    FieldFound(fields, key);
  }

  /** Only the keys found so far fit into an object of that many members. */
  lemma TwoKeys(gs: seq<Entry<Json>>, a: string, b: string)
    requires DistinctKeys(gs) && |gs| == 2 && a != b && Field(gs, a).Some? && Field(gs, b).Some?
    ensures forall j :: 0 <= j < |gs| ==> gs[j].key in [a, b]
  {
    hide Field;
    FieldFound(gs, a);
    FieldFound(gs, b);
  }

  lemma FourNumbers(i: nat, j: nat, k: nat, l: nat, x: nat)
    requires i < 4 && j < 4 && k < 4 && l < 4 && x < 4
    requires i != j && i != k && i != l && j != k && j != l && k != l
    ensures x == i || x == j || x == k || x == l
  {}

  lemma IndexOf(gs: seq<Entry<Json>>, key: string) returns (i: nat)
    requires Field(gs, key).Some?
    ensures i < |gs| && gs[i].key == key
  {
    hide Field;
    FieldFound(gs, key);
    i :| 0 <= i < |gs| && gs[i] == Entry(key, Field(gs, key).value);
  }

  lemma FourKeys(gs: seq<Entry<Json>>, a: string, b: string, c: string, d: string)
    requires |gs| == 4 && a != b && a != c && a != d && b != c && b != d && c != d
    requires Field(gs, a).Some? && Field(gs, b).Some? && Field(gs, c).Some? && Field(gs, d).Some?
    ensures forall j :: 0 <= j < |gs| ==> gs[j].key in [a, b, c, d]
  {
    hide *;
    var i := IndexOf(gs, a);
    var j := IndexOf(gs, b);
    var k := IndexOf(gs, c);
    var l := IndexOf(gs, d);
    forall x | 0 <= x < |gs| ensures gs[x].key in [a, b, c, d] {
      FourNumbers(i, j, k, l, x);
    }
  }

  lemma SameText()
    ensures forall s :: Same(Str(s), Str(s))
    ensures forall b :: Same(Bool(b), Bool(b))
    ensures forall n :: Same(Num(n), Num(n))
  {}

  lemma SourceKeeps(gs: seq<Entry<Json>>, pinned: Json, rules: Rules, path: string)
    requires DistinctKeys(gs) && PackSource(gs, pinned, rules, path).Ok?
    ensures Same(SourceJson(PackSource(gs, pinned, rules, path).value), Obj(gs))
  {
    hide Field, Unknown, IsCommit, IsPortablePath, Same;
    SameText();
    var fs := SourceJson(PackSource(gs, pinned, rules, path).value).fields;
    FieldFound(gs, "type");
    FieldFound(gs, "path");
    if Field(gs, "type") == Some(Str("local")) {
      TwoKeys(gs, "type", "path");
      assert fs[0].key == "type" && fs[1].key == "path";
    } else if Field(gs, "type") == Some(Str("git")) {
      AllKnown(gs, ["type", "repository", "commit", "path"]);
      assert fs[0].key == "type" && fs[1].key == "repository" && fs[2].key == "commit";
      assert |fs| == 4 ==> fs[3].key == "path";
    } else {
      assert fs[0].key == "type";
    }
    SameByFields(fs, gs);
  }

  lemma PackKeeps(pack: Json, used: set<string>, rules: Rules, path: string)
    requires WellFormed(pack) && OnePack(pack, used, rules, path).Ok?
    ensures Same(PackJson(OnePack(pack, used, rules, path).value), pack)
  {
    hide Field, IsPackId, IsVersion, PackSource, SourceJson, Same;
    SameText();
    var gs := pack.fields;
    var p := OnePack(pack, used, rules, path).value;
    var fs := PackJson(p).fields;
    FieldIsWellFormed(gs, "source");
    SourceKeeps(Field(gs, "source").value.fields, Field(gs, "pinned").value, rules, path);
    FourKeys(gs, "id", "version", "source", "pinned");
    assert fs[0].key == "id" && fs[1].key == "version" && fs[2].key == "source" && fs[3].key == "pinned";
    SameByFields(fs, gs);
  }

  lemma {:induction false} PacksKeep(items: seq<Json>, n: nat, rules: Rules)
    requires n <= |items| && Packs(items, n, rules).Ok?
    requires forall i :: 0 <= i < |items| ==> WellFormed(items[i])
    ensures |Packs(items, n, rules).value| == n
    ensures forall i :: 0 <= i < n ==> Same(PackJson(Packs(items, n, rules).value[i]), items[i])
  {
    hide OnePack, Same, PackJson, WellFormed;
    if n > 0 {
      PacksKeep(items, n - 1, rules);
      PackKeeps(items[n - 1], Ids(Packs(items, n - 1, rules).value), rules, At("$.packs", n - 1));
    }
  }

  lemma {:induction false} SelectedKeeps(items: seq<Json>, n: nat, allowed: set<string>, path: string)
    requires n <= |items| && Selected(items, n, allowed, path).Ok?
    ensures |Selected(items, n, allowed, path).value| == n
    ensures forall i :: 0 <= i < n ==> items[i] == Str(Selected(items, n, allowed, path).value[i])
  {
    if n > 0 {
      SelectedKeeps(items, n - 1, allowed, path);
    }
  }

  lemma WorkspaceKeeps(value: Json, rules: Rules)
    requires WorkspaceSettings(value, rules).Ok?
    ensures Same(WorkspaceJson(WorkspaceSettings(value, rules).value), value)
  {
    hide Field, Unknown, IsWorktreeRoot, Same;
    SameText();
    var gs := value.fields;
    var fs := WorkspaceJson(WorkspaceSettings(value, rules).value).fields;
    AllKnown(gs, ["executionPreference", "worktreeRoot"]);
    assert fs[0].key == "executionPreference" && fs[1].key == "worktreeRoot";
    SameByFields(fs, gs);
  }

  lemma SameArrays(a: seq<Json>, b: seq<Json>)
    requires |a| == |b| && forall i :: 0 <= i < |a| ==> Same(a[i], b[i])
    ensures Same(Arr(a), Arr(b))
  {}

  lemma SelectionKeeps(fields: seq<Entry<Json>>, key: string, allowed: set<string>)
    requires Selection(fields, key, allowed).Ok?
    ensures Field(fields, key) == Some(Arr(Strings(Selection(fields, key, allowed).value)))
  {
    hide Field;
    var items := Field(fields, key).value.items;
    SelectedKeeps(items, |items|, allowed, "$." + key);
    assert items == Strings(Selection(fields, key, allowed).value);
  }

  lemma SettingsKeep(fields: seq<Entry<Json>>, version: int, rules: Rules)
    requires OptionalSettings(fields, version, rules).Ok? && version >= 2
    ensures OptionalSettings(fields, version, rules).value.Some?
    ensures Field(fields, "providerSettings") == Some(Obj(OptionalSettings(fields, version, rules).value.value))
  {
    hide Field, Settings;
    var entries := Field(fields, "providerSettings").value.fields;
    SettingsAreSettings(entries, |entries|, rules);
    assert entries[..|entries|] == entries;
  }

  lemma PackListKeeps(fields: seq<Entry<Json>>, rules: Rules)
    requires WellFormed(Obj(fields)) && OptionalPacks(fields, 3, rules).Ok?
    ensures OptionalPacks(fields, 3, rules).value.Some? && Field(fields, "packs").Some?
    ensures Same(Arr(PackItems(OptionalPacks(fields, 3, rules).value.value)), Field(fields, "packs").value)
  {
    hide Field, Packs, Same, PackJson;
    FieldIsWellFormed(fields, "packs");
    var items := Field(fields, "packs").value.items;
    PacksKeep(items, |items|, rules);
    SameArrays(PackItems(OptionalPacks(fields, 3, rules).value.value), items);
  }

  lemma WorkspaceFieldKeeps(fields: seq<Entry<Json>>, rules: Rules)
    requires OptionalWorkspace(fields, rules).Ok?
    ensures OptionalWorkspace(fields, rules).value.Some? <==> Field(fields, "workspace").Some?
    ensures Field(fields, "workspace").Some? ==>
      Same(WorkspaceJson(OptionalWorkspace(fields, rules).value.value), Field(fields, "workspace").value)
  {
    hide Field, WorkspaceSettings, Same, WorkspaceJson;
    if Field(fields, "workspace").Some? {
      WorkspaceKeeps(Field(fields, "workspace").value, rules);
    }
  }

  /** What an accepted configuration is made of. */
  lemma ValidatedParts(config: Json, rules: Rules)
    requires Validate(config, rules).Ok?
    ensures config.Obj? && SchemaVersion(config).Ok?
    ensures var f, c := config.fields, Validate(config, rules).value;
            Field(f, "schemaVersion") == Some(Num(c.version)) && c.version in {1, 2, 3}
            && Unknown(f, Required(c.version) + ["workspace"]).None?
            && Selection(f, "providers", rules.providers) == Ok(c.providers)
            && Selection(f, "skills", rules.skills) == Ok(c.skills)
            && OptionalSettings(f, c.version, rules) == Ok(c.settings)
            && OptionalPacks(f, c.version, rules) == Ok(c.packs)
            && OptionalWorkspace(f, rules) == Ok(c.workspace)
  {
    hide Field, Unknown, Lacking, Selection, OptionalSettings, OptionalPacks, OptionalWorkspace;
  }

  lemma OptionalsAre(fields: seq<Entry<Json>>, c: Config, rules: Rules)
    requires c.version in {1, 2, 3}
    requires OptionalSettings(fields, c.version, rules) == Ok(c.settings)
    requires OptionalPacks(fields, c.version, rules) == Ok(c.packs)
    ensures c.settings.Some? <==> c.version >= 2
    ensures c.packs.Some? <==> c.version == 3
    ensures ToJson(c) == Obj(Fields(c))
    ensures Required(c.version) + ["workspace"]
         == ["schemaVersion", "providers", "skills"]
            + (if c.settings.Some? then ["providerSettings"] else [])
            + (if c.packs.Some? then ["packs"] else []) + ["workspace"]
  {
    hide Field, Settings, Packs, Fields;
  }

  lemma FieldsInOrder(c: Config)
    ensures var fs, s, p := Fields(c), (if c.settings.Some? then 1 else 0), (if c.packs.Some? then 1 else 0);
            |fs| == 3 + s + p + (if c.workspace.Some? then 1 else 0)
            && fs[0] == Entry("schemaVersion", Num(c.version))
            && fs[1] == Entry("providers", Arr(Strings(c.providers)))
            && fs[2] == Entry("skills", Arr(Strings(c.skills)))
            && (c.settings.Some? ==> fs[3] == Entry("providerSettings", Obj(c.settings.value)))
            && (c.packs.Some? ==> fs[3 + s] == Entry("packs", Arr(PackItems(c.packs.value))))
            && (c.workspace.Some? ==> fs[3 + s + p] == Entry("workspace", WorkspaceJson(c.workspace.value)))
  {
    hide Strings, PackItems, WorkspaceJson;
  }

  /** The saved members against the members read, one by one. */
  lemma FieldsAreSame(c: Config, gs: seq<Entry<Json>>)
    requires Field(gs, "schemaVersion") == Some(Num(c.version)) && Same(Num(c.version), Num(c.version))
    requires Field(gs, "providers") == Some(Arr(Strings(c.providers)))
    requires Same(Arr(Strings(c.providers)), Arr(Strings(c.providers)))
    requires Field(gs, "skills") == Some(Arr(Strings(c.skills)))
    requires Same(Arr(Strings(c.skills)), Arr(Strings(c.skills)))
    requires c.settings.Some? ==>
      Field(gs, "providerSettings") == Some(Obj(c.settings.value)) && Same(Obj(c.settings.value), Obj(c.settings.value))
    requires c.packs.Some? ==>
      Field(gs, "packs").Some? && Same(Arr(PackItems(c.packs.value)), Field(gs, "packs").value)
    requires c.workspace.Some? ==>
      Field(gs, "workspace").Some? && Same(WorkspaceJson(c.workspace.value), Field(gs, "workspace").value)
    requires forall j :: 0 <= j < |gs| ==>
      gs[j].key in ["schemaVersion", "providers", "skills"]
      || (c.settings.Some? && gs[j].key == "providerSettings") || (c.packs.Some? && gs[j].key == "packs")
      || (c.workspace.Some? && gs[j].key == "workspace")
    ensures Same(Obj(Fields(c)), Obj(gs))
  {
    hide *;
    FieldsInOrder(c);
    SameByFields(Fields(c), gs);
  }

  /** Whatever validation accepts, saving it writes the same JSON value: no
      member is dropped, added or altered. */
  lemma SavingKeepsEverything(config: Json, rules: Rules)
    requires WellFormed(config) && Validate(config, rules).Ok?
    ensures Same(ToJson(Validate(config, rules).value), config)
  {
    hide *;
    var c := Validate(config, rules).value;
    ValidatedParts(config, rules);
    var gs, fs := config.fields, Fields(c);
    SelectionKeeps(gs, "providers", rules.providers);
    SelectionKeeps(gs, "skills", rules.skills);
    if c.version >= 2 { SettingsKeep(gs, c.version, rules); }
    if c.version == 3 { PackListKeeps(gs, rules); }
    WorkspaceFieldKeeps(gs, rules);
    AllKnown(gs, Required(c.version) + ["workspace"]);
    OptionalsAre(gs, c, rules);
    SameText();
    FieldIsWellFormed(gs, "providers");
    FieldIsWellFormed(gs, "skills");
    SameItself(Field(gs, "providers").value);
    SameItself(Field(gs, "skills").value);
    if c.version >= 2 {
      FieldIsWellFormed(gs, "providerSettings");
      SameItself(Field(gs, "providerSettings").value);
    }
    FieldFound(gs, "workspace");
    FieldsAreSame(c, gs);
  }

  lemma SameMember(a: seq<Entry<Json>>, b: seq<Entry<Json>>, key: string)
    requires Same(Obj(a), Obj(b)) && Field(b, key).Some?
    ensures Field(a, key).Some? && Same(Field(a, key).value, Field(b, key).value)
  {
    hide Field;
    FieldIsLookup(a, key);
    FieldIsLookup(b, key);
    FieldFound(a, key);
    var i :| 0 <= i < |a| && a[i] == Entry(key, Field(a, key).value);
  }

  /** A migration changes the schema version and otherwise only adds: every
      other member of the original file is in the migrated one, the same. */
  lemma MigrationOnlyAdds(config: Json, goal: int, key: string, rules: Rules)
    requires WellFormed(config) && Validate(config, rules).Ok?
    requires Validate(config, rules).value.version <= goal <= Migration.CURRENT_VERSION
    requires key != "schemaVersion" && Field(config.fields, key).Some?
    ensures var after := Fields(Migration.Migrated(Validate(config, rules).value, goal));
            Field(after, key).Some? && Same(Field(after, key).value, Field(config.fields, key).value)
  {
    hide *;
    var c := Validate(config, rules).value;
    var m := Migration.Migrated(c, goal);
    ValidatedParts(config, rules);
    OptionalsAre(config.fields, c, rules);
    SavingKeepsEverything(config, rules);
    SameMember(Fields(c), config.fields, key);
    ValidatedIsConfig(config, rules);
    Migration.MigratedIsConfig(c, goal, rules);
    FieldsOf(c);
    FieldsOf(m);
    AllKnown(config.fields, Required(c.version) + ["workspace"]);
    FieldFound(config.fields, key);
  }
}
