/** Which JSON values validation accepts, whatever the order of their members:
    exactly those that are a configuration as it would be saved. */
module ConfigAcceptance {
  import opened Text
  import opened Json
  import opened Config
  import opened ConfigMeaning

  lemma SameScalar(a: Json, b: Json)
    requires Same(a, b)
    ensures a.Obj? <==> b.Obj?
    ensures a.Arr? <==> b.Arr?
    ensures !a.Arr? && !a.Obj? ==> a == b
  {}

  lemma {:induction false} KeysCounted(fields: seq<Entry<Json>>)
    requires DistinctKeys(fields)
    ensures |Keys(fields)| == |fields|
  {
    KeysAre(fields);
    if fields != [] {
      KeysCounted(fields[1..]);
      KeysAre(fields[1..]);
    }
  }

  /** Two objects that are the same have the same number of members and know the
      same keys. */
  lemma SameSize(a: seq<Entry<Json>>, b: seq<Entry<Json>>)
    requires Same(Obj(a), Obj(b)) && DistinctKeys(a) && DistinctKeys(b)
    ensures |a| == |b| && Keys(a) == Keys(b)
  {
    KeysCounted(a);
    KeysCounted(b);
  }

  lemma SameKeys(a: seq<Entry<Json>>, b: seq<Entry<Json>>)
    requires Same(Obj(a), Obj(b))
    ensures Keys(a) == Keys(b)
  {}

  lemma SameKnown(a: seq<Entry<Json>>, b: seq<Entry<Json>>, allowed: seq<string>)
    requires Same(Obj(a), Obj(b)) && Unknown(a, allowed).None?
    ensures Unknown(b, allowed).None?
  {
    AllKnown(a, allowed);
    AllKnown(b, allowed);
    KeysAre(a);
    KeysAre(b);
    hide Unknown, Same;
    assert Keys(a) == Keys(b) by { SameKeys(a, b); }
  }

  /** A member of one is a member of the other, the same. */
  lemma SameField(a: seq<Entry<Json>>, b: seq<Entry<Json>>, key: string)
    requires Same(Obj(a), Obj(b))
    ensures Field(a, key).Some? <==> Field(b, key).Some?
    ensures Field(a, key).Some? ==> Same(Field(a, key).value, Field(b, key).value)
    ensures Field(a, key).Some? && !Field(a, key).value.Arr? && !Field(a, key).value.Obj? ==>
      Field(b, key) == Field(a, key)
    ensures Field(a, key).Some? ==> (Field(b, key).value.Obj? <==> Field(a, key).value.Obj?)
  {
    hide Field, Same;
    SameKeys(a, b);
    FieldIsLookup(a, key);
    FieldIsLookup(b, key);
    if Field(b, key).Some? {
      SameMember(a, b, key);
      SameScalar(Field(a, key).value, Field(b, key).value);
    }
  }

  lemma SameStrings(ids: seq<string>, v: Json)
    requires Same(Arr(Strings(ids)), v)
    ensures v == Arr(Strings(ids))
  {
    forall i | 0 <= i < |ids| ensures v.items[i] == Strings(ids)[i] {
      SameScalar(Strings(ids)[i], v.items[i]);
    }
  }

  lemma SourceAccepted(source: Source, fields: seq<Entry<Json>>, pinned: bool, rules: Rules, path: string)
    requires Same(SourceJson(source), Obj(fields)) && DistinctKeys(fields)
    requires PackSource(SourceJson(source).fields, Bool(pinned), rules, path) == Ok(source)
    ensures PackSource(fields, Bool(pinned), rules, path) == Ok(source)
  {
    hide Field, Unknown, Same, IsCommit, IsPortablePath;
    var saved := SourceJson(source).fields;
    assert DistinctKeys(saved);
    SameSize(saved, fields);
    SameField(saved, fields, "type");
    SameField(saved, fields, "path");
    SameField(saved, fields, "repository");
    SameField(saved, fields, "commit");
    if source.Git? {
      SameKnown(saved, fields, ["type", "repository", "commit", "path"]);
    }
  }

  lemma PackAccepted(p: Pack, v: Json, used: set<string>, rules: Rules, path: string)
    requires Same(PackJson(p), v) && WellFormed(v) && IsPack(p, rules) && p.id !in used
    ensures OnePack(v, used, rules, path) == Ok(p)
  {
    hide Field, IsPackId, IsVersion, IsCommit, IsPortablePath, PackSource, Same, SourceJson;
    SameScalar(PackJson(p), v);
    var saved := PackJson(p).fields;
    assert DistinctKeys(saved);
    FieldAt(saved, 0);
    FieldAt(saved, 1);
    FieldAt(saved, 2);
    FieldAt(saved, 3);
    SameSize(saved, v.fields);
    SameField(saved, v.fields, "id");
    SameField(saved, v.fields, "version");
    SameField(saved, v.fields, "source");
    SameField(saved, v.fields, "pinned");
    SourceIsObject(p.source);
    FieldIsWellFormed(v.fields, "source");
    SourceReadsBack(p.source, p.pinned, rules, path);
    SourceAccepted(p.source, Field(v.fields, "source").value.fields, p.pinned, rules, path);
  }

  lemma {:induction false} PacksAccepted(packs: seq<Pack>, items: seq<Json>, n: nat, rules: Rules)
    requires n <= |packs| == |items| && ArePacks(packs, rules)
    requires forall i :: 0 <= i < |items| ==> WellFormed(items[i]) && Same(PackJson(packs[i]), items[i])
    ensures Packs(items, n, rules) == Ok(packs[..n])
  {
    hide IsPack, OnePack, PackJson, Same, WellFormed;
    if n > 0 {
      PacksAccepted(packs, items, n - 1, rules);
      PackAccepted(packs[n - 1], items[n - 1], Ids(packs[..n - 1]), rules, At("$.packs", n - 1));
      assert packs[..n] == packs[..n - 1] + [packs[n - 1]];
    }
  }

  lemma {:induction false} SettingsAccepted(entries: seq<Entry<Json>>, n: nat, rules: Rules)
    requires n <= |entries| && AreSettings(entries, rules)
    ensures Settings(entries, n, rules).Ok?
  {
    if n > 0 {
      SettingsAccepted(entries, n - 1, rules);
    }
    hide Clone;
  }

  lemma SettingsSame(settings: seq<Entry<Json>>, entries: seq<Entry<Json>>, rules: Rules)
    requires Same(Obj(settings), Obj(entries)) && DistinctKeys(entries) && AreSettings(settings, rules)
    ensures AreSettings(entries, rules)
  {
    KeysAre(settings);
    KeysAre(entries);
    forall j | 0 <= j < |entries|
      ensures entries[j].key in rules.providers && entries[j].value.Obj?
    {
      var i :| 0 <= i < |settings| && settings[i].key == entries[j].key;
      LookupOnly(entries, j);
      SameScalar(settings[i].value, entries[j].value);
    }
  }

  lemma WorkspaceAccepted(w: Workspace, v: Json, rules: Rules)
    requires Same(WorkspaceJson(w), v) && w.preference in PREFERENCES && IsWorktreeRoot(w.root, rules)
    ensures WorkspaceSettings(v, rules) == Ok(w)
  {
    hide Field, Unknown, Same, IsWorktreeRoot;
    SameScalar(WorkspaceJson(w), v);
    var saved := WorkspaceJson(w).fields;
    assert DistinctKeys(saved);
    FieldAt(saved, 0);
    FieldAt(saved, 1);
    SameField(saved, v.fields, "executionPreference");
    SameField(saved, v.fields, "worktreeRoot");
    AllKnown(saved, ["executionPreference", "worktreeRoot"]);
    SameKnown(saved, v.fields, ["executionPreference", "worktreeRoot"]);
  }

  lemma SelectionAccepted(
      saved: seq<Entry<Json>>, fields: seq<Entry<Json>>, key: string, ids: seq<string>, allowed: set<string>)
    requires Same(Obj(saved), Obj(fields)) && Field(saved, key) == Some(Arr(Strings(ids)))
    requires IsSelection(ids, allowed)
    ensures Selection(fields, key, allowed) == Ok(ids)
  {
    hide Field, Same, Strings, IsSelection;
    SameField(saved, fields, key);
    SameStrings(ids, Field(fields, key).value);
    SelectedStrings(ids, |ids|, allowed, "$." + key);
    assert ids[..|ids|] == ids;
  }

  lemma PackListAccepted(packs: seq<Pack>, fields: seq<Entry<Json>>, rules: Rules)
    requires WellFormed(Obj(fields)) && ArePacks(packs, rules)
    requires Field(fields, "packs").Some? && Same(Arr(PackItems(packs)), Field(fields, "packs").value)
    ensures OptionalPacks(fields, 3, rules) == Ok(Some(packs))
  {
    hide Field, ArePacks, PackJson;
    FieldIsWellFormed(fields, "packs");
    PacksAccepted(packs, Field(fields, "packs").value.items, |packs|, rules);
    assert packs[..|packs|] == packs;
  }

  /** The members of a value that is the same as a saved configuration. */
  lemma MembersAccepted(c: Config, fields: seq<Entry<Json>>, rules: Rules)
    requires IsConfig(c, rules) && WellFormed(Obj(fields)) && Same(ToJson(c), Obj(fields))
    ensures Field(fields, "schemaVersion") == Some(Num(c.version))
    ensures Selection(fields, "providers", rules.providers) == Ok(c.providers)
    ensures Selection(fields, "skills", rules.skills) == Ok(c.skills)
    ensures OptionalPacks(fields, c.version, rules) == Ok(c.packs)
    ensures OptionalWorkspace(fields, rules) == Ok(c.workspace)
  {
    hide Field, Same, Strings, PackItems, WorkspaceJson, Selected, Packs, WorkspaceSettings, ArePacks, AreSettings,
         IsSelection, IsWorktreeRoot, Fields, WellFormed;
    var saved := Fields(c);
    FieldsOf(c);
    SameField(saved, fields, "schemaVersion");
    SelectionAccepted(saved, fields, "providers", c.providers, rules.providers);
    SelectionAccepted(saved, fields, "skills", c.skills, rules.skills);
    SameField(saved, fields, "packs");
    if c.packs.Some? {
      PackListAccepted(c.packs.value, fields, rules);
    }
    SameField(saved, fields, "workspace");
    if c.workspace.Some? {
      WorkspaceAccepted(c.workspace.value, Field(fields, "workspace").value, rules);
    }
  }

  lemma OptionalSettingsAccepted(c: Config, fields: seq<Entry<Json>>, rules: Rules)
    requires IsConfig(c, rules) && WellFormed(Obj(fields)) && Same(ToJson(c), Obj(fields))
    ensures OptionalSettings(fields, c.version, rules).Ok?
  {
    hide Field, Same, Settings, ArePacks, AreSettings, IsSelection, IsWorktreeRoot, Fields;
    if c.version >= 2 {
      FieldsOf(c);
      SameField(Fields(c), fields, "providerSettings");
      FieldIsWellFormed(fields, "providerSettings");
      var entries := Field(fields, "providerSettings").value.fields;
      SettingsSame(c.settings.value, entries, rules);
      SettingsAccepted(entries, |entries|, rules);
    }
  }

  lemma KeysAccepted(c: Config, fields: seq<Entry<Json>>, rules: Rules)
    requires IsConfig(c, rules) && Same(ToJson(c), Obj(fields))
    ensures Unknown(fields, Required(c.version) + ["workspace"]).None?
    ensures Lacking(fields, Required(c.version)).None?
  {
    hide Field, Same, ArePacks, AreSettings, IsSelection, IsWorktreeRoot, Strings, PackItems, WorkspaceJson,
         Unknown, Lacking;
    AllKnown(Fields(c), Required(c.version) + ["workspace"]);
    SameKnown(Fields(c), fields, Required(c.version) + ["workspace"]);
    FieldsOf(c);
    NoneLacking(fields, Required(c.version));
    forall i | 0 <= i < |Required(c.version)|
      ensures Field(fields, Required(c.version)[i]).Some?
    {
      SameField(Fields(c), fields, Required(c.version)[i]);
    }
  }

  lemma SavedIsAccepted(c: Config, v: Json, rules: Rules)
    requires WellFormed(v) && IsConfig(c, rules) && Same(ToJson(c), v)
    ensures Validate(v, rules).Ok?
  {
    hide Field, Same, WellFormed, Unknown, Lacking, Selection, OptionalSettings, OptionalPacks, OptionalWorkspace,
         Fields, ArePacks, AreSettings, IsSelection, IsWorktreeRoot;
    SameScalar(ToJson(c), v);
    MembersAccepted(c, v.fields, rules);
    OptionalSettingsAccepted(c, v.fields, rules);
    KeysAccepted(c, v.fields, rules);
  }

  /** Exactly which JSON values validation accepts: those that are the same as what
      some configuration is saved as, up to the order of members at any depth. */
  lemma AcceptedExactlyWhen(v: Json, rules: Rules)
    requires WellFormed(v)
    ensures Validate(v, rules).Ok? <==> exists c :: IsConfig(c, rules) && Same(ToJson(c), v)
  {
    hide *;
    if Validate(v, rules).Ok? {
      ValidatedIsConfig(v, rules);
      SavingKeepsEverything(v, rules);
    }
    forall c | IsConfig(c, rules) && Same(ToJson(c), v)
      ensures Validate(v, rules).Ok?
    {
      SavedIsAccepted(c, v, rules);
    }
  }
}
