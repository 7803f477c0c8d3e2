/** What the context brief tells about a task since its last run
    (src/context-brief/service.ts): evidence that is current, work needing
    attention, and completed work that remains. */
module ChangeSince {
  import opened Text

  datatype Source = Source(revision: string, fingerprint: string)

  datatype Evidence = Evidence(
    id: string, criterion: string, criterionRevision: int, source: Source,
    passed: bool, approval: bool, authorization: string)

  datatype Criterion = Criterion(id: string, revision: int, required: bool, approvalRequired: bool)

  /** Evidence about a criterion as it stands, taken on this source. */
  predicate Concerns(e: Evidence, c: Criterion, source: Source) {
    e.criterion == c.id && e.criterionRevision == c.revision && e.source == source
  }

  function Latest(evidence: seq<Evidence>, c: Criterion, source: Source): Option<Evidence> {
    if evidence == [] then None
    else
      var last := evidence[|evidence| - 1];
      if Concerns(last, c, source) then Some(last) else Latest(evidence[..|evidence| - 1], c, source)
  }

  predicate Satisfies(e: Evidence, c: Criterion, authorizations: set<string>) {
    e.passed && (c.approvalRequired ==> e.approval && e.authorization in authorizations)
  }

  /** `currentPassingEvidence`. */
  function CurrentPassing(
      evidence: seq<Evidence>, c: Criterion, source: Source, authorizations: set<string>): Option<Evidence>
  {
    match Latest(evidence, c, source)
    case None => None
    case Some(e) => if Satisfies(e, c, authorizations) then Some(e) else None
  }

  lemma {:induction false} LatestIs(evidence: seq<Evidence>, c: Criterion, source: Source, i: nat)
    requires i < |evidence| && Concerns(evidence[i], c, source)
    requires forall j :: i < j < |evidence| ==> !Concerns(evidence[j], c, source)
    ensures Latest(evidence, c, source) == Some(evidence[i])
  {
    if i < |evidence| - 1 {
      LatestIs(evidence[..|evidence| - 1], c, source, i);
    }
  }

  lemma {:induction false} LatestConcerns(evidence: seq<Evidence>, c: Criterion, source: Source) returns (i: int)
    ensures Latest(evidence, c, source).None? ==> forall j :: 0 <= j < |evidence| ==> !Concerns(evidence[j], c, source)
    ensures Latest(evidence, c, source).Some? ==>
      0 <= i < |evidence| && evidence[i] == Latest(evidence, c, source).value && Concerns(evidence[i], c, source)
      && forall j :: i < j < |evidence| ==> !Concerns(evidence[j], c, source)
  {
    i := |evidence| - 1;
    if evidence != [] && !Concerns(evidence[i], c, source) {
      i := LatestConcerns(evidence[..i], c, source);
    }
  }

  /** Evidence about the criterion's ID and revision, on this source. */
  predicate IsAbout(e: Evidence, c: Criterion, source: Source) {
    e.criterion == c.id && e.criterionRevision == c.revision
    && e.source.revision == source.revision && e.source.fingerprint == source.fingerprint
  }

  /** The last such evidence stands there; it passed, and where approval is required
      it is an approval with a standing authorization. */
  predicate PassedLast(
      evidence: seq<Evidence>, c: Criterion, source: Source, authorizations: set<string>, i: int)
  {
    0 <= i < |evidence| && IsAbout(evidence[i], c, source) && evidence[i].passed
    && (c.approvalRequired ==> evidence[i].approval && evidence[i].authorization in authorizations)
    && forall j :: i < j < |evidence| ==> !IsAbout(evidence[j], c, source)
  }

  /** A criterion is currently satisfied exactly when, of the evidence about its
      current revision on the current source, the latest passed (with a standing
      authorization where approval is required); and then by that evidence. */
  lemma CurrentIffLatestPassed(evidence: seq<Evidence>, c: Criterion, source: Source, authorizations: set<string>)
    ensures CurrentPassing(evidence, c, source, authorizations).Some? <==>
      exists i :: PassedLast(evidence, c, source, authorizations, i)
    ensures forall i :: PassedLast(evidence, c, source, authorizations, i) ==>
      CurrentPassing(evidence, c, source, authorizations) == Some(evidence[i])
  {
    var k := LatestConcerns(evidence, c, source);
    if CurrentPassing(evidence, c, source, authorizations).Some? {
      assert PassedLast(evidence, c, source, authorizations, k);
    }
    forall i | PassedLast(evidence, c, source, authorizations, i)
      ensures CurrentPassing(evidence, c, source, authorizations) == Some(evidence[i])
    {
      LatestIs(evidence, c, source, i);
    }
  }

  /** Unchanged work never implies reusable evidence: moving the source or
      revising the criterion leaves nothing current until new evidence arrives. */
  lemma {:induction false} NothingCurrentOnNewSource(
      evidence: seq<Evidence>, c: Criterion, source: Source, authorizations: set<string>)
    requires forall i :: 0 <= i < |evidence| ==>
      evidence[i].source != source || evidence[i].criterionRevision != c.revision
    ensures CurrentPassing(evidence, c, source, authorizations).None?
  {
    var _ := LatestConcerns(evidence, c, source);
  }

  // ---------------------------------------------------------- work needing attention

  datatype Impact = Impact(kind: string, id: string, outcome: string, reason: string)

  datatype Reconciliation = Reconciliation(id: string, impact: seq<Impact>)

  type Key = (string, string)

  function KeyOf(e: Impact): Key { (e.kind, e.id) }

  predicate NeedsAttention(e: Impact) {
    e.outcome in {"needs-re-verification", "needs-replanning", "needs-user-decision"}
  }

  /** Every impact, in the order of the reconciliations. */
  function Impacts(all: seq<Reconciliation>): seq<Impact> {
    if all == [] then [] else Impacts(all[..|all| - 1]) + all[|all| - 1].impact
  }

  ghost predicate LastFor(entries: seq<Impact>, k: Key, i: int) {
    0 <= i < |entries| && NeedsAttention(entries[i]) && KeyOf(entries[i]) == k
    && forall j :: i < j < |entries| && NeedsAttention(entries[j]) ==> KeyOf(entries[j]) != k
  }

  /** `m` holds for each key the last of the entries that need attention. */
  ghost predicate HoldsLast(m: map<Key, Impact>, entries: seq<Impact>) {
    (forall k :: k in m ==> exists i :: LastFor(entries, k, i) && m[k] == entries[i])
    && forall i :: 0 <= i < |entries| && NeedsAttention(entries[i]) ==> KeyOf(entries[i]) in m
  }

  lemma HoldsLastMore(m: map<Key, Impact>, entries: seq<Impact>, e: Impact)
    requires HoldsLast(m, entries)
    ensures HoldsLast(if NeedsAttention(e) then m[KeyOf(e) := e] else m, entries + [e])
  {
    var more := entries + [e];
    var after := if NeedsAttention(e) then m[KeyOf(e) := e] else m;
    forall k | k in after ensures exists i :: LastFor(more, k, i) && after[k] == more[i] {
      if NeedsAttention(e) && k == KeyOf(e) {
        assert LastFor(more, k, |entries|);
      } else {
        var i :| LastFor(entries, k, i) && m[k] == entries[i];
        assert LastFor(more, k, i);
      }
    }
  }

  lemma NothingHeld()
    ensures HoldsLast(map[], Impacts([]))
  {}

  /** The entry gives the item of that kind and ID one of the three outcomes that
      call for attention. */
  predicate FlagsAt(entries: seq<Impact>, kind: string, id: string, i: int) {
    0 <= i < |entries| && entries[i].kind == kind && entries[i].id == id
    && (entries[i].outcome == "needs-re-verification" || entries[i].outcome == "needs-replanning"
        || entries[i].outcome == "needs-user-decision")
  }

  lemma FlaggedIs(entries: seq<Impact>, kind: string, id: string, i: int)
    ensures FlagsAt(entries, kind, id, i) <==>
      0 <= i < |entries| && NeedsAttention(entries[i]) && KeyOf(entries[i]) == (kind, id)
  {}

  lemma LastForIs(entries: seq<Impact>, kind: string, id: string, i: int)
    ensures LastFor(entries, (kind, id), i) <==>
      FlagsAt(entries, kind, id, i) && forall j :: i < j < |entries| ==> !FlagsAt(entries, kind, id, j)
  {
    forall j ensures FlagsAt(entries, kind, id, j) <==>
      0 <= j < |entries| && NeedsAttention(entries[j]) && KeyOf(entries[j]) == (kind, id)
    {
      FlaggedIs(entries, kind, id, j);
    }
    hide FlagsAt, NeedsAttention, KeyOf;
  }

  lemma AttentionAt(m: map<Key, Impact>, entries: seq<Impact>, kind: string, id: string)
    requires HoldsLast(m, entries)
    ensures (kind, id) in m <==> exists i :: FlagsAt(entries, kind, id, i)
    ensures forall i ::
      FlagsAt(entries, kind, id, i) && (forall j :: i < j < |entries| ==> !FlagsAt(entries, kind, id, j)) ==>
      m[(kind, id)] == entries[i]
  {
    forall i
      ensures LastFor(entries, (kind, id), i) <==>
        FlagsAt(entries, kind, id, i) && forall j :: i < j < |entries| ==> !FlagsAt(entries, kind, id, j)
      ensures FlagsAt(entries, kind, id, i) <==>
        0 <= i < |entries| && NeedsAttention(entries[i]) && KeyOf(entries[i]) == (kind, id)
    {
      FlaggedIs(entries, kind, id, i);
      LastForIs(entries, kind, id, i);
    }
    hide FlagsAt, NeedsAttention, KeyOf, LastFor;
    if (kind, id) in m {
      var last :| LastFor(entries, (kind, id), last) && m[(kind, id)] == entries[last];
      assert FlagsAt(entries, kind, id, last);
      assert forall i ::
        FlagsAt(entries, kind, id, i) && (forall j :: i < j < |entries| ==> !FlagsAt(entries, kind, id, j)) ==>
        i == last;
    }
  }

  lemma AttentionIs(m: map<Key, Impact>, entries: seq<Impact>)
    requires HoldsLast(m, entries)
    ensures forall kind, id :: (kind, id) in m <==> exists i :: FlagsAt(entries, kind, id, i)
    ensures forall kind, id, i ::
      FlagsAt(entries, kind, id, i) && (forall j :: i < j < |entries| ==> !FlagsAt(entries, kind, id, j)) ==>
      m[(kind, id)] == entries[i]
  {
    hide HoldsLast;
    forall kind, id
      ensures (kind, id) in m <==> exists i :: FlagsAt(entries, kind, id, i)
      ensures forall i ::
        FlagsAt(entries, kind, id, i) && (forall j :: i < j < |entries| ==> !FlagsAt(entries, kind, id, j)) ==>
        m[(kind, id)] == entries[i]
    {
      AttentionAt(m, entries, kind, id);
    }
  }

  /** The loops that fill `workNeedingAttentionMap`, newest reconciliation first. */
  method WorkNeedingAttention(newestFirst: seq<Reconciliation>) returns (m: map<Key, Impact>)
    ensures HoldsLast(m, Impacts(newestFirst))
    ensures forall kind, id :: (kind, id) in m <==> exists i :: FlagsAt(Impacts(newestFirst), kind, id, i)
    ensures forall kind, id, i ::
      FlagsAt(Impacts(newestFirst), kind, id, i)
      && (forall j :: i < j < |Impacts(newestFirst)| ==> !FlagsAt(Impacts(newestFirst), kind, id, j)) ==>
      m[(kind, id)] == Impacts(newestFirst)[i]
  {
    hide HoldsLast, FlagsAt;
    m := map[];
    assert HoldsLast(m, Impacts([])) by { NothingHeld(); }
    for n := 0 to |newestFirst|
      invariant HoldsLast(m, Impacts(newestFirst[..n]))
    {
      var impact := newestFirst[n].impact;
      ghost var earlier := Impacts(newestFirst[..n]);
      assert earlier + impact[..0] == earlier;
      for i := 0 to |impact|
        invariant HoldsLast(m, earlier + impact[..i])
      {
        HoldsLastMore(m, earlier + impact[..i], impact[i]);
        assert earlier + impact[..i + 1] == earlier + impact[..i] + [impact[i]];
        if NeedsAttention(impact[i]) {
          m := m[KeyOf(impact[i]) := impact[i]];
        }
      }
      assert impact[..|impact|] == impact;
      assert newestFirst[..n + 1][..n] == newestFirst[..n];
    }
    assert newestFirst[..|newestFirst|] == newestFirst;
    AttentionIs(m, Impacts(newestFirst));
  }

  /** As later entries overwrite and reconciliations come newest first, the
      oldest one that flags something wins. */
  lemma OldestWins(newer: seq<Reconciliation>, oldest: Reconciliation, m: map<Key, Impact>, e: Impact)
    requires HoldsLast(m, Impacts(newer + [oldest]))
    requires e in oldest.impact && NeedsAttention(e)
    ensures KeyOf(e) in m && m[KeyOf(e)] in oldest.impact
  {
    var all := Impacts(newer + [oldest]);
    assert (newer + [oldest])[..|newer|] == newer;
    var start := |Impacts(newer)|;
    assert all == Impacts(newer) + oldest.impact;
    var x :| 0 <= x < |oldest.impact| && oldest.impact[x] == e;
    assert all[start + x] == e;
    var i :| LastFor(all, KeyOf(e), i) && m[KeyOf(e)] == all[i];
    assert i >= start + x;
    assert all[i] == oldest.impact[i - start];
  }

  /** So the newest word on an item can be lost. */
  lemma NewestCanBeLost(m: map<Key, Impact>)
    requires HoldsLast(m, Impacts([Reconciliation("r2", [Impact("criterion", "c", "needs-user-decision", "new")]),
                                   Reconciliation("r1", [Impact("criterion", "c", "needs-replanning", "old")])]))
    ensures ("criterion", "c") in m && m[("criterion", "c")].outcome == "needs-replanning"
  {
    var newest := Reconciliation("r2", [Impact("criterion", "c", "needs-user-decision", "new")]);
    var oldest := Reconciliation("r1", [Impact("criterion", "c", "needs-replanning", "old")]);
    assert [newest] + [oldest] == [newest, oldest];
    OldestWins([newest], oldest, m, oldest.impact[0]);
  }

  /** Some entry flags the item. */
  predicate Flags(entries: seq<Impact>, k: Key) {
    exists i :: 0 <= i < |entries| && NeedsAttention(entries[i]) && KeyOf(entries[i]) == k
  }

  lemma {:induction false} ImpactsOf(newest: Reconciliation, older: seq<Reconciliation>)
    ensures Impacts([newest] + older) == newest.impact + Impacts(older)
  {
    var all := [newest] + older;
    if older == [] {
      assert all[..0] == [] && Impacts([]) == [];
    } else {
      var n := |older| - 1;
      ImpactsOf(newest, older[..n]);
      assert all[..|all| - 1] == [newest] + older[..n];
    }
  }

  /** The last entry for a key is in the second part, where it flags the key,
      unless nothing there does. */
  lemma LastOfBoth(first: seq<Impact>, rest: seq<Impact>, k: Key, i: int, last: int)
    requires LastFor(first, k, i) && LastFor(first + rest, k, last)
    ensures if Flags(rest, k) then |first| <= last && rest[last - |first|] == (first + rest)[last] else last == i
  {
    var all := first + rest;
    assert all[i] == first[i];
    if last < |first| {
      assert all[last] == first[last];
      forall j | 0 <= j < |rest| && NeedsAttention(rest[j])
        ensures KeyOf(rest[j]) != k
      {
        assert all[|first| + j] == rest[j];
      }
    } else {
      assert all[last] == rest[last - |first|];
    }
  }

  /** Exactly when the newest word on an item is the one reported: when no older
      reconciliation flags the item. (An older entry that says the very same
      would hide the difference.) */
  lemma NewestReportedIff(newest: Reconciliation, older: seq<Reconciliation>, m: map<Key, Impact>, k: Key, i: int)
    requires HoldsLast(m, Impacts([newest] + older))
    requires LastFor(newest.impact, k, i) && newest.impact[i] !in Impacts(older)
    ensures k in m && (m[k] == newest.impact[i] <==> !Flags(Impacts(older), k))
  {
    hide Flags, Impacts;
    ImpactsOf(newest, older);
    var first, rest := newest.impact, Impacts(older);
    assert (first + rest)[i] == first[i];
    var last :| LastFor(first + rest, k, last) && m[k] == (first + rest)[last];
    LastOfBoth(first, rest, k, i, last);
  }

  // ------------------------------------------------------------ completed work

  /** The completed work that remains: required criteria that are currently
      satisfied and that need no attention. */
  method CompletedWork(criteria: seq<Criterion>, evidence: seq<Evidence>, source: Source,
                       authorizations: set<string>, attention: map<Key, Impact>)
    returns (completed: seq<(string, string)>)
    ensures forall id, e :: (id, e) in completed <==>
      exists c :: c in criteria && c.required && c.id == id && ("criterion", id) !in attention
        && CurrentPassing(evidence, c, source, authorizations).Some?
        && CurrentPassing(evidence, c, source, authorizations).value.id == e
  {
    hide CurrentPassing;
    completed := [];
    for n := 0 to |criteria|
      invariant forall id, e :: (id, e) in completed <==>
        exists c :: c in criteria[..n] && c.required && c.id == id && ("criterion", id) !in attention
          && CurrentPassing(evidence, c, source, authorizations).Some?
          && CurrentPassing(evidence, c, source, authorizations).value.id == e
    {
      assert criteria[..n + 1] == criteria[..n] + [criteria[n]];
      var c := criteria[n];
      if c.required && ("criterion", c.id) !in attention {
        var current := CurrentPassing(evidence, c, source, authorizations);
        if current.Some? {
          completed := completed + [(c.id, current.value.id)];
        }
      }
    }
    assert criteria[..|criteria|] == criteria;
  }
}
