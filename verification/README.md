# Latchkit: models and proofs

Latchkit installs and synchronises managed skill and rule files in a project, keeps a
versioned project configuration, hands coding agents a byte-budgeted context brief, and
verifies acceptance checks. This project models the parts of it that carry state, loops and
arithmetic, and proves what each of them keeps. `dafny verify dfyconfig.toml` checks everything.

The modules follow the program:

- `Text`, `Json`, `JsonReader`, `Unicode`, `BriefSize`: strings, JSON values with JavaScript's key
  order, the canonical serializer of the context brief, a reader for the value grammar of RFC 8259
  that shows the text to be unambiguous, the UTF-16 and UTF-8 code units by which keys are ordered
  and texts measured, and the additive size of a serialized document.
- `GreedyFill`, `ContextBrief`, `BriefMeaning`, `ChangeSince`: the brief assembler. A mandatory
  document must fit as it stands; seven optional sections are then filled in order, each by a greedy
  pass that measures the whole document again after each trial item. `BriefMeaning` writes the
  finished brief out, member by member and list by list; `ChangeSince` is what the brief says about
  the time since the last run.
- `ManagedFiles`, `Transactions`: planning, synchronising and removing managed files, with a batch
  of user edits before each path's second look, more before the transaction takes its snapshot and
  more after the commit; and the states of the journalled transaction that a sync commits through.
- `TransactionRuns`: such a transaction and its recovery step by step, with files changed from
  outside before any step, any step failing, and a crash after any of them.
- `Storage`, `Config`, `ConfigMeaning`, `ConfigAcceptance`, `Patterns`, `ConfigSchema`, `Migration`,
  `ConfigStore`: atomic file replacement as single effects with a crash allowed after each, the
  configuration contract, what its regular expressions match and its schema member by member,
  migration over such writes with crashes and reruns, and processes that share one configuration.
- `Reconcile`, `Publish`: the build's tree reconciliation and the publication of a release archive
  with its sidecars.
- `Pointer`, `ReusePlan`, `Acceptance`, `EventLog`: the JSON Pointer evaluator, the decision which
  checks to reuse, the loop over acceptance checks and the `ACTIVE` map, and the bounded event log.
- `ConsoleStore`, `ConsoleMeaning`: the browser console's store, and what it shows, read off the
  steps of a run.

A function that specifies an operation is not left to speak for itself: next to it a theorem says
what it computes in other terms, with the constants, names and messages of the program written out
(as `BriefMeaning.FinalIs`, `Unicode.BeforeIsUtf16Order`, `ReusePlan.EligibleExactlyWhen`,
`ManagedFiles.PlanSaysExactlyWhen`, `ConfigSchema.AcceptedExactlyAsSchema` or
`ConsoleMeaning.ShownAfterWorkbench` do).

Code that changes things step by step is modelled by classes and methods with loops, each proved
against a function or a closed statement about the state before it; whatever the environment
decides (failing effects, arriving responses, user edits, check outcomes, clocks, directory
order) is left arbitrary. `Storage`, `Publish` and `TransactionRuns` take what the environment does
as a script, so that what a run comes to can be said as a function of it. Where a crash may come
between two effects, a ghost `trace` holds what every such moment leaves, and the contracts speak
about all of it. Protocols with several parties are step systems, and the theorems are about every
run.

SHA-256 is taken to be injective, the project lock to exclude other holders, and a rename or an
unlink to happen entirely or not at all.

## What turned out otherwise than one might expect

Each of these is a property one would expect, an input on which the program does not have it, and
the exact condition under which it does.

- A sync can report failure with everything changed: after its commit it makes and describes a new
  plan (src/core.ts:728), which throws when some path cannot be read
  (`ManagedFiles.CommittedYetFailed`). A committed sync reports success exactly when every path of
  the desired map was last left readable (`ManagedFiles.ReportsExactlyWhen`).
- A transaction writes the manifest without looking at it again
  (src/installer/transactions.ts:433), so a change to it from outside is overwritten (`TransactionRuns.ManifestEditLost`): exactly when the manifest
  is replaced at all and the last change since the snapshot left what no record has
  (`TransactionRuns.ManifestLostExactlyWhen`). A resource is looked at just before its replacement;
  a change in between is overwritten too (`TransactionRuns.EditLostBeforeRename`,
  `TransactionRuns.TurnLosesExactlyWhen`).
- A transaction that reports failure may have put all changes in place: exactly when the manifest
  was replaced, that step or the removal of the journal failed, and recovery can tell because the
  manifest changed or the journal is gone. With an unchanged manifest, as when a deleted file is
  created again, recovery undoes changes that were all in place
  (`TransactionRuns.FailsInPlaceExactlyWhen`, `TransactionRuns.FailedInPlace`).
- A sync can overwrite an edit of the user's and report success: each path is looked at once more
  on its own (src/core.ts:683), and what arrives at a path after its look but before the
  transaction's snapshot (src/installer/transactions.ts:385) is taken for the recorded state
  (`ManagedFiles.EditLostAfterItsLook`). A changed path held what was last written there exactly
  when no later edit left other content (`ManagedFiles.OverwritesOnlyOurs`,
  `ManagedFiles.SyncRespectsUserBytes`).
- A sync converges exactly when no edit leaves other content at an *unchanged* path between
  planning and commit: such paths are not looked at again (`ManagedFiles.SyncConverges`,
  `ManagedFiles.EditInTheWindow`).
- A passed acceptance run can rest on two different sources, since each check compares the source
  only around itself (`Acceptance.PassOnTwoSources`); it rests on one exactly when every inspection
  that an execution follows found it (`Acceptance.RunsOnOneSource`).
- The figure reported as reused counts the whole plan, so that after an abort executed, reused and
  skipped can add up to more than the results (`Acceptance.AbortedReportOvercounts`); they add up
  exactly when the plan reuses nothing beyond the abort (`Acceptance.ReportAddsUp`).
- An exception while the verification plan is built keeps that project task from ever being
  verified again (`Acceptance.LostForGood`). No request of the declared type causes one
  (`Acceptance.WellTypedLosesNothing`), but src/server.ts:908-910 hands the changed paths for an
  enrolled task on as they arrive, and null for them does, for a check with passed evidence of the
  plain kind (`Acceptance.NullLosesTask`, `ReusePlan.ThrowsExactlyWhen`).
- With an empty list of changed paths a check that watches something is run again, although the
  comment at src/verification/contracts.ts:160-172 promises its reuse (`ReusePlan.NoChangeReruns`,
  `ReusePlan.ReusesExactlyWhen`).
- A background refresh can bring back a search result the user has just cleared, although its own
  response was fenced off (`ConsoleStore.RefreshUndoesClearedSearch`); it does so exactly when it
  began over a search and finds none (`ConsoleStore.FencedRefreshKeepsMemory`,
  `ConsoleMeaning.ShownAfterWorkbench`).
- A revision conflict in the console keeps the user's providers and skills but can lose the
  workspace setting, although the notice says that the edits were kept
  (`ConsoleStore.ConflictLosesWorkspace`); all is kept exactly when the server's setting is the
  user's (`ConsoleStore.ConflictKeepsAllIff`).
- For work needing attention the newest word on an item can be lost (`ChangeSince.OldestWins`,
  `ChangeSince.NewestCanBeLost`); it is reported exactly when no older reconciliation flags the
  item (`ChangeSince.NewestReportedIff`).
- A failed publication can leave a temporary file behind, against the comment in
  scripts/atomic-publish.ts:26-29: exactly when the failing step was a sidecar's rename, or its
  write after it had begun (`Publish.Directory.PublishArchiveSet`, `Publish.StopsAtFirstFailure`,
  `Publish.TemporariesAreLeft`).
- An atomic write that reports failure may have put the new content in place: exactly when a rename
  went well and one of the two steps after it failed (`Storage.WriteFateIs`,
  `Storage.Disk.WriteAtomic`, `Storage.FailedInPlace`).

## Model

| member | source | states |
|---|---|---|
| Json.SameIsOrderedEqual | src/context-brief/contracts.ts:244-256 | Two JSON values are equal up to object member order exactly when sorting all members in UTF-16 key order makes them identical. |
| JsonReader.CanonicalRoundTrip | src/context-brief/contracts.ts:244-256 | Reading the canonical text of any value by the grammar of RFC 8259 (sections 4 to 7) consumes all of it and gives the value back, members in key order. |
| JsonReader.CanonicalIdentifies | src/context-brief/contracts.ts:244-259 | Canonical texts, and so digests, of two values are equal exactly when the values are equal up to member order. |
| Unicode.BeforeIsUtf16Order | src/context-brief/contracts.ts:247-248 | One key sorts before another exactly when its UTF-16 code units, surrogate pairs included, come first lexicographically: a proper prefix, or the smaller unit at the first difference. |
| Unicode.CanonicalInOrder | src/context-brief/contracts.ts:244-256 | The canonical text of any value reads back as the same value, with the members of every object at any depth in the order of their keys' UTF-16 code units. |
| Unicode.QuoteIsShortest | src/context-brief/contracts.ts:244-256 | No string literal that reads as the same string is shorter than the one written. |
| Unicode.EscapeReads | src/context-brief/contracts.ts:244-256 | The reader takes four hexadecimal digits, in either case, for the character whose code they are, unless that is a surrogate's. |
| Unicode.EscapesInLowerCase | src/context-brief/contracts.ts:244-256 | The hexadecimal digits of an escaped control character are lower-case ones. |
| Text.UndecimalSteps | src/context-brief/contracts.ts:244-256 | Of the digits a number is printed with, each counts ten times the next. |
| Unicode.ByteLengthIsUtf8 | src/context-brief/service.ts:307-309 | The measured length of a text is the number of bytes of its UTF-8 encoding (RFC 3629, section 3). |
| BriefSize.BytesOfIsSize | src/context-brief/service.ts:307-309 | The UTF-8 length of the whole re-serialized document equals a sum over its parts that does not depend on member order. |
| BriefSize.PutSize | src/context-brief/service.ts:307-331 | Assigning one property at any depth changes the measured size by exactly the difference of the two values' sizes. |
| BriefSize.PutApart | src/context-brief/service.ts:612-703 | Assigning one property leaves every property on a different path as it was. |
| GreedyFill.GreedyIsGreatest | src/context-brief/service.ts:315-337 | For any test that every prefix of a fitting list passes, the single greedy pass keeps the lexicographically greatest in-order sublist that fits. |
| GreedyFill.DroppedDoesNotFit | src/context-brief/service.ts:315-337 | Any selection that agrees with the greedy one up to a dropped item and takes that item does not fit. |
| GreedyFill.Partition | src/context-brief/service.ts:310-337 | Kept and dropped items together are exactly the offered items, none lost and none repeated. |
| ContextBrief.FilledEffect | src/context-brief/service.ts:612-703 | Filling one section puts exactly the kept list at its path, sets its flag exactly when something was dropped, and changes the document's size by the list's size less the byte a set flag saves. |
| ContextBrief.FlagSize | src/context-brief/service.ts:651-652 | Setting a flag anywhere in a document makes the whole document one byte shorter if the flag turns true and one byte longer if it turns false. |
| ContextBrief.LaterIsLarger | src/context-brief/service.ts:612-703 | Filling later sections never makes the document smaller, but for one byte per flag. |
| ContextBrief.FinalWithinBudget | src/context-brief/service.ts:600-705 | Whatever is offered, a finished brief measures at most the budget and at least its mandatory size less two. |
| ContextBrief.MandatoryUnchanged | src/context-brief/service.ts:568-703 | Every property at any depth that is neither one of the seven lists nor one of the two flags is as it was in the mandatory document. |
| ContextBrief.SectionIsGreatest | src/context-brief/service.ts:315-337 | Of all in-order selections from a section's offer with which the whole document fits when the section's turn comes, the one kept is lexicographically greatest. |
| ContextBrief.DroppedStaysOut | src/context-brief/service.ts:612-703 | Putting a dropped item back into the finished document, with any selection of the items after it, exceeds the budget less the bytes that flags from that section on may save (two at most). |
| ContextBrief.SectionsPartition | src/context-brief/service.ts:612-703 | In the finished document each list is what its section kept; kept and dropped items are in-order sublists taken by opposite masks and partition the offer; a flag is true exactly when its section dropped something. |
| ContextBrief.ContentIsMandatory | src/context-brief/service.ts:568-598 | The content object the program builds, whatever its mandatory values, offers each of the seven sections an empty list and each flag false. |
| ContextBrief.Assembler.GrowList | src/context-brief/service.ts:315-337 | The loop keeps and logs exactly what the greedy choice does, and leaves exactly the kept list in the shared document. |
| ContextBrief.Assembler.FillAll | src/context-brief/service.ts:612-703 | Filling the seven sections one after another yields the specified final document and the omission log in section order. |
| ContextBrief.Assembler.Assemble | src/context-brief/service.ts:600-723 | An invalid budget and a mandatory document over budget are refused without any change; otherwise the brief carries the final document, all omissions, sizes within the bounds, the token estimate rounded up, and the digest of the content. |
| BriefMeaning.FinalIs | src/context-brief/service.ts:612-703 | The finished document, all of its members written out in order, holds at the seven named places the greedy choice from each place's own offer, every test made with the earlier choices in place and the later lists empty; each of the two truncation flags is true exactly when the list beside it is shorter than its offer; and the omission log is, list by list under that list's name, what the list lacks. |
| BriefMeaning.MeasuredInUtf8 | src/context-brief/service.ts:307-309 | A document is measured in the UTF-8 bytes of its canonical text. |
| BriefMeaning.AssembleBrief | src/context-brief/service.ts:568-723 | From the mandatory values and the seven offers: a budget outside 512 to 262144 and a document too large with its lists empty are refused; otherwise the brief is that document, its flags by the lengths of its lists, the digest its own, and its size within the budget. |
| ChangeSince.CurrentIffLatestPassed | src/context-brief/service.ts:351-368 | A criterion has current evidence exactly when, of the evidence with its ID and revision and this source's revision and fingerprint, the last passed and, where approval is required, is an approval with a standing authorization; and then it is that evidence. |
| ChangeSince.NothingCurrentOnNewSource | src/context-brief/service.ts:339-368 | When no evidence was taken on this source for this revision, nothing is current. |
| ChangeSince.WorkNeedingAttention | src/context-brief/service.ts:518-533 | The map has an item exactly when some entry gives it one of the outcomes needs-re-verification, needs-replanning and needs-user-decision, and holds the last such entry in the order of the reconciliations. |
| ChangeSince.OldestWins | src/context-brief/service.ts:518-533 | An item the oldest reconciliation flags is reported as that reconciliation has it, whatever newer ones say. |
| ChangeSince.NewestCanBeLost | src/context-brief/service.ts:465-533 | A concrete case where the newest outcome is hidden by an older one. |
| ChangeSince.NewestReportedIff | src/context-brief/service.ts:518-533 | The newest reconciliation's last word on an item is the one reported if and only if no older reconciliation flags that item, unless an older entry says the very same. |
| ChangeSince.CompletedWork | src/context-brief/service.ts:541-552 | Completed work lists exactly the required criteria with current evidence that the map of work needing attention does not hold as criteria, each with that evidence. |
| ManagedFiles.Project.MakePlan | src/core.ts:457-489 | In some listing order, every path of the manifest or the desired map is planned once, with its action or with its conflict. |
| ManagedFiles.PlanSaysExactlyWhen | src/core.ts:457-489 | Of every planned path, by what stands there, what is recorded and what is desired: exactly when it is created, removed, left unchanged or updated, and exactly when it is reported as unreadable, not managed, or locally edited. |
| ManagedFiles.PlanIsComplete | src/core.ts:457-489 | A plan reports a conflict exactly when some planned path cannot be read, is not managed, or was edited; otherwise its changes are exactly the paths that are not as desired. |
| ManagedFiles.Project.ApplySync | src/core.ts:640-735 | With a batch of user edits before each second look, the rest before the snapshot and more after the commit, the sync refuses on a conflict, gives up at the first path to be changed that is no longer ours when looked at, and otherwise commits all changes and the new manifest together, or fails if the snapshot cannot be read; it reports success exactly if it has committed and every path of the next plan can be read. |
| ManagedFiles.EndsExactlyWhen | src/core.ts:640-735 | How a sync ends, whatever the user does meanwhile: blocked exactly when something not as recorded stands at a planned path; given up exactly when something not as recorded is found at a path to be changed once one batch of edits more than looks before it has landed; refused exactly when such a path cannot be read in the end; and committed otherwise. |
| ManagedFiles.CommitLeaves | src/core.ts:640-735 | A committed sync leaves at any path the desired bytes, unless they were there as recorded when it was planned; nothing at a recorded path that is not desired; and elsewhere what the user's edits have left. |
| ManagedFiles.ManifestIsDesired | src/core.ts:674-720 | After a sync that commits the manifest lists exactly the desired paths with the hashes of the desired bytes. |
| ManagedFiles.SyncConverges | src/core.ts:683-700 | After a sync that commits all desired bytes are on disk if and only if no edit between planning and commit hit an unchanged path with other content. |
| ManagedFiles.NextPlanIsQuiet | src/core.ts:457-489 | After a sync that commits, the next plan has no conflict and only unchanged entries if and only if the desired bytes are on disk. |
| ManagedFiles.ReportsExactlyWhen | src/core.ts:614-735 | A committed sync reports success if and only if every path of the desired map was last left readable: by the edits after the commit or, where the sync did not write, by those before. |
| ManagedFiles.CommittedYetFailed | src/core.ts:728-734 | A concrete sync that reports failure with all changes and the new manifest in place. |
| ManagedFiles.EditInTheWindow | src/core.ts:683-700 | A concrete edit that survives a sync that commits. |
| ManagedFiles.OverwritesOnlyOurs | src/core.ts:683-719 | A path changed by a sync that commits was ours at its own second look; at the commit it still is if and only if the last edit that reached it after that look, if any, left nothing there or the recorded bytes. |
| ManagedFiles.EditLostAfterItsLook | src/core.ts:683-719 | A concrete edit, arriving after its path's second look, that a sync overwrites which can report success. |
| ManagedFiles.ManifestRecordsWrites | src/core.ts:674-720 | After any history of edits and syncs from an empty manifest, the manifest holds the hashes of exactly the bytes last written to each path still owned. |
| ManagedFiles.SyncRespectsUserBytes | src/core.ts:657-735 | After any history with edits between any two of its steps up to the snapshot: a sync or removal changes only planned paths, and nothing unless it commits; each changed path was absent or held exactly what was last written there when it was looked at again, and so still at the commit if and only if no later edit left other content; it is blocked exactly when a planned path holds something else when planned. |
| ManagedFiles.RemovalSucceeds | src/core.ts:738-739 | A removal goes through exactly when every managed path is absent or holds its recorded bytes. |
| ManagedFiles.RemovalUndoesSyncs | src/core.ts:647-739 | After any history of syncs towards any desired maps, in which the user at most deletes managed files and writes nothing to a path just looked at for creation, a removal commits and can report so, empties the manifest and leaves exactly the files the user's own edits would have left without Latchkit. |
| Transactions.WholeFiles | src/installer/transactions.ts:263-292 | With every journalled file in its recorded state before, or every one in its state after, the files are those from before the transaction or those it was to make. |
| Transactions.RevertedAndApplied | src/installer/transactions.ts:350-436 | Undoing and making a transaction bring every resource and .latchkit/manifest.json to the recorded state before and after, and change no other file. |
| Transactions.ConflictedExactlyWhen | src/installer/transactions.ts:263-292 | A recovery is blocked exactly when some resource, or the manifest, is neither as recorded before nor as recorded after. |
| Transactions.RecoveryIsWhole | src/installer/transactions.ts:332-366 | From whatever an interrupted transaction can leave, recovery ends with all of its changes or none. |
| Transactions.RecoveringIsWhole | src/installer/transactions.ts:332-366 | Every moment of a recovery from what an interrupted transaction can leave is itself recoverable to all or nothing. |
| Transactions.RecoveringAgain | src/installer/transactions.ts:253-366 | With files changed from outside, as long as recovery is not blocked: an interrupted recovery has replaced only files that were in their state after, recovering again is not blocked either and ends where the first would have. |
| Transactions.EditsElsewhereStayOpen | src/installer/transactions.ts:263-292 | Changes from outside that hit no file the journal names leave an interrupted transaction recoverable, with those changes kept. |
| Transactions.SyncCommitsByTransaction | src/core.ts:678-727 | The transaction a sync hands over makes exactly the commit that `ManagedFiles` specifies: the touched files as desired or gone, with the new manifest. |
| TransactionRuns.Machine.Recover | src/installer/transactions.ts:332-366 | With changes from outside before any step: a recovery is blocked exactly when its look at the named files goes well and finds one in neither recorded state, and then changes nothing; it completes exactly when no step fails, and then the journal is gone; which resources it tries to put back, and what each replacement found, are exact; and as long as no named file is hit after the look, every moment is on the way to the same end. |
| TransactionRuns.Machine.Apply | src/installer/transactions.ts:368-449 | With changes from outside before any step: it reports success exactly if the journal is written, every resource is found as in the snapshot and replaced, the manifest is replaced and the journal removed without a failure; as long as no named file is hit, every moment is recoverable to all or nothing, to which of the two is a function of the script whatever is reported, and recovery is never blocked and stops only by a second failure; every replacement that takes place is listed with what it found; an open journal refuses new work untouched. |
| TransactionRuns.SucceedsExactlyWhen | src/installer/transactions.ts:368-449 | A transaction reports success exactly when its journal, a look and a replacement for every resource, the manifest and the removal of the journal all go well, and no change from outside before the look at a resource last left there anything but what the snapshot has. |
| TransactionRuns.RecoversAllOrNothing | src/installer/transactions.ts:332-366 | Wherever the recovery of a failed transaction stops, what is in place, and what recovering it again gives, is all of the changes if the manifest was replaced and differs from before, and none otherwise, as long as no named file is hit. |
| TransactionRuns.LoggedLoses | src/installer/transactions.ts:416-433 | Each replacement of a transaction or its recovery does away with something that no record has if and only if the last change from outside since its own look left it there. |
| TransactionRuns.ManifestLostExactlyWhen | src/installer/transactions.ts:399-433 | A change to the manifest is overwritten if and only if the manifest is replaced at all and the last change since the snapshot left what no record has. |
| TransactionRuns.TurnLosesExactlyWhen | src/installer/transactions.ts:427-430 | A change to a resource between the look at it and its replacement is overwritten if and only if the look found it as in the snapshot, the replacement takes place, and the change left what no record has. |
| TransactionRuns.FailsInPlaceExactlyWhen | src/installer/transactions.ts:432-448 | All changes are in place although failure is reported if and only if the manifest was replaced, its step or the journal's removal failed, and the manifest differs from before or the journal is gone. |
| TransactionRuns.ManifestEditLost | src/installer/transactions.ts:433 | A concrete transaction that reports success and has overwritten a changed manifest. |
| TransactionRuns.EditLostBeforeRename | src/installer/transactions.ts:427-430 | A concrete transaction that reports success and has overwritten a resource changed between look and replacement. |
| TransactionRuns.FailedInPlace | src/installer/transactions.ts:432-448 | Two concrete transactions that report failure because the journal cannot be removed: one ends with all changes in place, the other, with an unchanged manifest, with all of them undone. |
| Storage.TemporaryIsInvisible | src/storage.ts:109-114 | Creating, filling or removing a temporary sibling changes nothing that readers of final paths see. |
| Storage.Disk.RenameOver | src/storage.ts:116-138 | Whether it succeeds, with how many renames (at most nine, one outside Windows) and how many steps are the specified function of the endings; until one rename succeeds nothing visible changes, and the one that does shows the whole content. |
| Storage.Disk.WriteAtomic | src/storage.ts:87-151 | At every moment readers see the old content or the whole new content, with a single switch; nothing but the target and its own temporary changes; in the end the new content is in place if and only if a rename went well, whatever is reported; the report, the number of renames and whether the temporary is left are the specified function of the endings, the last unlink's included. |
| Storage.WriteFateIs | src/storage.ts:101-151 | A write puts the new content in place exactly when its first four steps go well and one of up to nine renames on Windows, of one elsewhere, does after only busy ones, each followed by a good look at the paths; it reports success exactly when also the step right after that rename goes well and the last unlink at worst finds nothing; it leaves a temporary exactly when there was or had been made one, no rename went well, and the last step of cleaning up fails. |
| Storage.FailingNeedsFailures | src/storage.ts:101-151 | A write under a fresh temporary name fails only if one of its steps does, and leaves its temporary only if its last step, one of cleaning up, fails after an earlier one. |
| Storage.FailedInPlace | src/storage.ts:138-151 | A concrete write that reports failure with the new content in place. |
| Config.ValidateSelection | src/config/contracts.ts:208-224 | The loop with its set of seen IDs accepts exactly the lists of distinct known IDs, and reports the first offending position. |
| Config.ValidatePacks | src/config/contracts.ts:297-374 | The loop, with the set of IDs used so far, computes the pack list, or the first pack's error, an ID used before included. |
| Config.ValidateConfig | src/config/contracts.ts:240-378 | The whole validation with its loops computes the specified configuration or the specified first error. |
| Config.CloneIsSame | src/config/contracts.ts:125-135 | Cloning a JSON value changes nothing, at any depth. |
| Config.ValidatedIsConfig | src/config/contracts.ts:240-378 | Whatever is accepted has a supported version, distinct known selections, settings and packs exactly in the versions that have them, and valid packs and workspace settings. |
| Config.AcceptedIffReadsBack | src/config/contracts.ts:240-378 | The configurations validation can return are exactly those that it accepts again, unchanged, from what they are saved as. |
| ConfigMeaning.SavingKeepsEverything | src/config/contracts.ts:240-378 | Whatever JSON validation accepts, saving the result writes the same JSON value up to member order: nothing is dropped, added or altered at any depth. |
| ConfigAcceptance.AcceptedExactlyWhen | src/config/contracts.ts:240-378 | A JSON value is accepted if and only if it is, up to the order of members at any depth, what some configuration of the declared contract is saved as. |
| ConfigSchema.AcceptedExactlyAsSchema | src/config/contracts.ts:240-378 | A JSON value is accepted exactly when it is an object with schema version 1, 2 or 3 and the named members of that version and no others, each as written out: distinct known IDs, settings per provider, distinct packs with matching ID, version and one of the three sources, and the two workspace settings. |
| ConfigSchema.VersionRefused | src/config/contracts.ts:244-254 | No object is refused at "$", a missing or non-integer schema version at "$.schemaVersion", and an integer other than 1, 2 and 3 there as unsupported. |
| ConfigSchema.UnknownMemberRefused | src/config/contracts.ts:257-259 | The first member, in the order of the file, whose name the version does not have is the one the error names. |
| ConfigSchema.MissingMemberRefused | src/config/contracts.ts:260-262 | With no such member, the error names the first of the version's names, in their order, that the file has no member of. |
| ConfigSchema.SelectionRefused | src/config/contracts.ts:208-224 | The error of a selection names the first position that holds no allowed ID or an earlier one again. |
| ConfigSchema.PackRefused | src/config/contracts.ts:297-374 | The error of a complete pack names the first of ID, version, source and pin that is not as it has to be. |
| Patterns.PackIdIsPattern | src/config/contracts.ts:300 | The check of pack IDs accepts exactly what the regular expression matches. |
| Patterns.VersionIsPattern | src/config/contracts.ts:307 | The check of pack versions accepts exactly what the regular expression matches. |
| Patterns.CommitIsPattern | src/config/contracts.ts:330 | The check of commits accepts exactly what the regular expression matches. |
| Patterns.PortablePathExactlyWhen | src/config/contracts.ts:331-347 | A path inside a repository is accepted exactly when it is not empty, has no backslash and no slash in front, is normalised, and every longest stretch between slashes is neither empty, ".", "..", a reserved name in any case, nor has one of seven characters in it. |
| Patterns.WorktreeRootExactlyWhen | src/config/contracts.ts:158-177 | A worktree root is accepted exactly when it has 1 to 4096 UTF-16 code units, no line break or null character, is normalised, and either is absolute with no stretch between slashes or backslashes that is "..", or is a portable relative path. |
| ConfigMeaning.MigrationOnlyAdds | src/config/migrations.ts:69-83 | Every member of the original file but the schema version is in the migrated file with the same value. |
| Migration.BuildMigration | src/config/migrations.ts:44-98 | The version loop computes the configuration raised to the target, with the backup named after the version and bytes migrated from; the same version is up to date; a downgrade, a target outside 1 to 3 and a non-integer are refused as unsupported at "$.toVersion". |
| Migration.MigratedIsRaised | src/config/migrations.ts:68-83 | The migration to a version sets the version, adds empty provider settings when it passes version 2 and the pack latchkit-core 1.0.0, bundled and pinned, as the only one when it passes version 3, and leaves all else. |
| Migration.MigratedMembers | src/config/migrations.ts:68-83 | The same of the members of the JSON object that is saved. |
| Migration.MigratedIsConfig | src/config/migrations.ts:68-83 | A migrated configuration is accepted, has the target version, and keeps selections, workspace, and any settings and packs there were. |
| Migration.MigratedByWayOf | src/config/migrations.ts:68-83 | Migrating in one go equals migrating by way of any version in between, so 1 to 3 is 1 to 2 followed by 2 to 3. |
| Migration.ExecuteMigration | src/config/migrations.ts:100-118 | At every moment the visible files are those before, those with the backup, or those with backup and new configuration; a backup with other content refuses the run untouched; it fails otherwise exactly when one of its atomic writes does. |
| Migration.MigrateConfig | src/core.ts:315-333 | Wherever a run stops, by crash, error or end, a stage of exactly its migration is visible; its answer is determined by the files it began with, unless one of the writes it needs reports failure. |
| Migration.AnswerIs | src/core.ts:315-333 | What a run answers, from the files it begins with: unsupported without an integer target, not initialized without a configuration, that configuration's own error, up to date, unsupported for a target behind or beyond, the backup path taken by other bytes, and else completed with that backup and the raised configuration. |
| Migration.StageKeepsPreserved | src/config/migrations.ts:100-118 | One run, stopped anywhere, keeps the original readable and every other file as it was. |
| Migration.RerunsPreserve | src/config/migrations.ts:44-118 | For every crash point and every sequence of reruns to whatever targets, the original bytes are readable as the configuration or at their backup path, the configuration is one whole accepted version migrated from the original, and every other file is as it was. |
| Migration.RerunsConverge | src/core.ts:315-333 | After any crashes and reruns, a run that is let finish leaves the configuration that migrating the original in one go gives, or refuses exactly because that goal has been passed or the backup path is taken. |
| Migration.RerunsSucceed | src/config/migrations.ts:100-118 | If at the start every backup path was free or held the bytes it is named after, then after any crashes and reruns a run that is let finish succeeds exactly if its goal has not been passed, with the configuration that migrating in one go gives: no backup path is ever taken. |
| ConfigStore.StepKeepsLooks | src/core.ts:229-262 | In every step, only the lock holder has looked at the content, and what it saw is still there. |
| ConfigStore.EveryRunIsSequential | src/core.ts:180-262 | Every interleaving of initialisations, saves, conditional saves and migrations, with processes failing or dying anywhere, has the effect of its replacements made one after another, each on exactly what the one before left; every rejection fits content there was. |
| ConfigStore.SaveIfReplacesWhatWasRead | src/core.ts:240-262 | In every interleaving, a conditional save that replaced the file replaced exactly the bytes whose revision its caller supplied, even if the content had changed and changed back. |
| ConfigStore.EveryReplacementIs | src/core.ts:189-333 | In every interleaving, each replacement was of what the one before it had written: an initialisation of nothing, a conditional save of exactly the bytes of its revision, a migration of an accepted older configuration, which it raised; and each rejection had one of its request's own reasons on content that was there. |
| ConfigStore.NeverStuck | src/core.ts:189-333 | A process that holds the lock and has looked can always do exactly one of writing and answering with a rejection; an unconditional save can write at once. |
| Reconcile.MatchesIsSegmentPrefix | scripts/reconcile.ts:69-70 | Matching an ignore entry as a string prefix is matching its segments as a prefix of the path's segments, for every entry whatsoever. |
| Reconcile.DirectoryGoes | scripts/reconcile.ts:88-98 | A directory that is not ignored stays exactly when something strictly inside it stays. |
| Reconcile.Folder.Walk | scripts/reconcile.ts:73-104 | The recursive pass, in any directory order, removes exactly what is to go below a directory, and reports exactly its files and bytes. |
| Reconcile.Folder.ReconcileDirectory | scripts/reconcile.ts:60-107 | The pass leaves exactly the specified tree, or on a dry run the whole tree, and in both cases reports each doomed file once with their total bytes. |
| Reconcile.SweptIs | scripts/reconcile.ts:53-62 | What is left: whatever has the segments of an ignored entry in front, every link and special entry, of other files those whose segments are a file to keep, and of other directories those with something left inside; the files reported as removed are those not left. |
| Reconcile.SweptTwice | scripts/reconcile.ts:63-107 | What is left is a tree, and a second pass removes nothing. |
| Reconcile.BytesConserved | scripts/reconcile.ts:100-103 | Bytes before equal bytes after plus bytes reclaimed. |
| Reconcile.Folder.ListFiles | scripts/reconcile.ts:30-51 | The listing names every regular file of the tree exactly once. |
| Reconcile.CopyThenReconcile | scripts/build.ts:105-111 | Copying and then reconciling with the source's listing leaves exactly the source's files with their content, and only directories that hold some of them. |
| Publish.Directory.CommitSidecar | scripts/atomic-publish.ts:40-45 | One sidecar is written and renamed so that every moment is safe; it fails exactly by the ending of its write or of its rename, and then the only temporary is what that step leaves. |
| Publish.Directory.RollBack | scripts/atomic-publish.ts:47-51 | Removing the committed files in any order keeps every moment safe; it is clean exactly when all removals go well, and then no destination and no staged archive is left. |
| Publish.Directory.PublishArchiveSet | scripts/atomic-publish.ts:30-52 | At every moment, the rollback included, the last sidecar is present only beside the archive and all earlier sidecars, each whole, and nothing else is touched; it fails exactly as the first failing effect says; after a failure the failing sidecar's temporary is there exactly if its rename failed or its write had begun, and once cleaned up the files are those before without the staged archive, plus that temporary. |
| Publish.StopsAtFirstFailure | scripts/atomic-publish.ts:37-46 | A publication succeeds exactly if the archive is staged and its rename and both effects of every sidecar go well; otherwise the first effect that fails stops it, as that step. |
| Publish.TemporariesAreLeft | scripts/atomic-publish.ts:26-52 | Two concrete failing publications, cleaned up, that leave a temporary: one whole, one in part. |
| Pointer.DecodeIsUnescape | src/acceptance/service.ts:228-231 | Replacing "~1" and then "~0" reads every reference token as one left-to-right pass over its escapes does (RFC 6901, section 4). |
| Pointer.OtherOrderIsWrong | src/acceptance/service.ts:231 | Replacing in the other order would turn "~01" into "/". |
| Pointer.EvaluatePrinted | src/acceptance/service.ts:225-236 | Evaluating the pointer printed for any path of names (RFC 6901, section 3) gives the value at that path, or nothing where there is none. |
| Pointer.PropertyIs | src/acceptance/service.ts:225-236 | One step of a pointer reaches, in an object, the first own member of that name, in an array its length or the element whose decimal index is the name, and nothing anywhere else. |
| Pointer.ElementByIndex | src/acceptance/service.ts:225-236 | Array elements are reached by their decimal index. |
| ReusePlan.BuildPlan | src/verification/contracts.ts:238-289 | Building the plan throws, or yields the IDs of exactly the checks that are decided to be reused. |
| ReusePlan.EligibleExactlyWhen | src/verification/contracts.ts:150-213 | A check is considered for reuse exactly outside standard mode, when at some place stands evidence of kind "check" about the last criterion of its ID, at that criterion's revision, that passed, and none such stands behind it. |
| ReusePlan.ThrowsExactlyWhen | src/verification/contracts.ts:150-289 | Building the plan throws exactly when, outside standard mode, some check whose last evidence passed meets changed paths that are null and watches nothing, or watches something and they are no list but have a length that counts, or a list with something other than a string before any path that is a watched one or below it, segment by segment. |
| ReusePlan.WellTypedNeverThrows | src/verification/contracts.ts:150-289 | With changed paths of the declared type building the plan never throws. |
| ReusePlan.ReusesExactlyWhen | src/verification/contracts.ts:150-213 | For any request whatsoever: exactly which checks are reused, over the places of the evidence, the members or items of the changed paths, and the segments of the paths. |
| ReusePlan.NoChangeReruns | src/verification/contracts.ts:150-213 | With an empty list of changed paths a check that passed and watches something is rerun. |
| ReusePlan.NullThrows | src/server.ts:908-910 | A concrete request, null for its changed paths, on which building the plan throws. |
| Acceptance.ExecuteOne | src/acceptance/service.ts:593-641 | A pass on a source that is afterwards another one is recorded as failed, "source-changed"; every other answer is recorded as it is. |
| Acceptance.Verify | src/acceptance/service.ts:768-899 | Whatever the environment does around each check, the results are an in-order prefix of the checks, shortened only by an abort; a check is reused exactly if planned, and skipped exactly if the budget is used up at its turn or a check was skipped before; each runs on the source last inspected; the executed and skipped figures and the next checks are exact, and the reused figure is the plan's; the run passes exactly when every declared check has a passed result. |
| Acceptance.SkippedExactlyWhen | src/acceptance/service.ts:786-826 | A check is skipped exactly when it is not reused and, at its turn or at that of an earlier check not reused, fast mode found the time up or as many checks executed as it allows. |
| Acceptance.FiguresAre | src/acceptance/service.ts:866-899 | The figures for executed, reused and skipped are numbers of checks: of those that ran, those the plan reuses, and those skipped, whose IDs the next checks are. |
| Acceptance.StartsFromLastInspected | src/acceptance/service.ts:826-883 | Every execution starts from the source that the last inspection before it found, or the one the run began with. |
| Acceptance.CountsAddUp | src/acceptance/service.ts:768-883 | Every result is for its check in declared order, and every course the loop took is counted once: executions, actual reuses and skips add up to the results. |
| Acceptance.ReportAddsUp | src/acceptance/service.ts:866-899 | The reported figures for executed, reused and skipped add up to the results if and only if the plan reuses no check beyond the one the run was aborted at. |
| Acceptance.AbortedReportOvercounts | src/acceptance/service.ts:866-899 | A concrete aborted run whose reported figures exceed its results. |
| Acceptance.NothingRunsAfterFallback | src/acceptance/service.ts:786-826 | After the first skipped check nothing is executed; only planned reuse and skipping follow. |
| Acceptance.ExecutionsWithin | src/verification/contracts.ts:293-303 | The allowed executions are never exceeded, and outside fast mode nothing is skipped. |
| Acceptance.PassedMeans | src/acceptance/service.ts:885-893 | A run passes exactly when every declared check was reused, or ran, passed by itself, and found the source unchanged. |
| Acceptance.PassOnTwoSources | src/acceptance/service.ts:826-883 | A concrete run that passes on two different sources. |
| Acceptance.RunsOnOneSource | src/acceptance/service.ts:826-883 | All executions of a run are on the source it began with if and only if every inspection that an execution follows, with only reuse in between, found that source. |
| Acceptance.NeverTwiceActive | src/acceptance/service.ts:730-739 | In every interleaving no task has two verifications active, and a new one is turned away exactly when one is active or plan building once threw for it. |
| Acceptance.LostForGood | src/acceptance/service.ts:739-768 | Once building the plan has thrown for a project task, no later step lets that task be verified again. |
| Acceptance.OnlyThrowsLose | src/acceptance/service.ts:730-768 | In every interleaving, a task is lost only if some run for it was started with a request whose plan throws. |
| Acceptance.PlansBuiltAreSound | src/acceptance/service.ts:739-768 | In every interleaving, a run gets past building its plan only with a request whose plan does not throw, and while it builds it can do exactly one of that and throwing. |
| Acceptance.WellTypedLosesNothing | src/acceptance/service.ts:730-768 | In every interleaving of runs with well-typed requests no task is ever lost. |
| Acceptance.NullLosesTask | src/acceptance/service.ts:915-935 | A concrete run, with null for its changed paths, that loses its task. |
| EventLog.Log.AppendEvent | src/diagnostics/logger.ts:18-35 | The cut to 500 lines and the byte loop leave the longest suffix of the old lines and the new one that fits both limits, or the new one alone. |
| EventLog.NewestIsLongest | src/diagnostics/logger.ts:11-12 | What is kept is a suffix of at most 500 lines that take at most 262144 bytes with their line endings, or the newest line alone, and every longer suffix has more lines or bytes. |
| EventLog.LinesOfRender | src/diagnostics/logger.ts:37-50 | A written log is read back line by line as it was rendered. |
| EventLog.LogIsNewestOfHistory | src/diagnostics/logger.ts:18-35 | After any run of appends the log is the longest suffix of the entire event history that fits, or the newest line alone, although each append sees only the log before it. |
| ConsoleStore.EveryRun | web/console-store.ts:41-224 | In every ordering of responses the store is busy exactly while one user action or the start is in flight, every waiting reload knows its fence, and selections are kept while an action runs. |
| ConsoleStore.InstalledIffNewest | web/console-store.ts:56-65 | A workbench response is installed exactly when no reload and no user action has begun since its request. |
| ConsoleStore.InstalledFollowRequests | web/console-store.ts:56-65 | Installed responses follow the order of their requests. |
| ConsoleStore.OneActionInFlight | web/console-store.ts:80-110 | At most one user action is in flight, and none while the store starts. |
| ConsoleStore.ConflictKeepsProvidersAndSkills | web/console-store.ts:66-110 | A conflict keeps the selection the action began with; after a reload that succeeds, exactly its providers and skills, with everything else from the server. |
| ConsoleStore.ConflictKeepsAllIff | web/console-store.ts:66-110 | In every run, the reload after a conflict keeps the whole selection if and only if the server's workspace setting is the user's. |
| ConsoleStore.ConflictLosesWorkspace | web/console-store.ts:66-110 | A concrete run from the start in which a conflict loses a workspace edit. |
| ConsoleStore.RefreshUndoesClearedSearch | web/console-store.ts:206-224 | A concrete run from the start in which a fenced-off background refresh brings back a cleared search. |
| ConsoleStore.FencedRefreshKeepsMemory | web/console-store.ts:206-224 | In every run, a fenced-off refresh leaves the shown memory alone if and only if it did not begin over a search or does not find it cleared. |
| ConsoleMeaning.ShownAfterWorkbench | web/console-store.ts:56-65 | In every run, a workbench response is shown exactly when no reload and no user action has begun since the step that asked for it, and otherwise leaves what is shown; except that a background refresh begun over a search that then finds none shows again what was shown when it began. |
| ConsoleMeaning.ShownAfterOthers | web/console-store.ts:182-187 | Apart from those, only a search's response changes the shown memory, to what it found. |
| ConsoleMeaning.PlanShownExactlyWhen | web/console-store.ts:88-181 | In every run, a plan is shown exactly when some response brought it and since then there was no other plan, edit, sync, saved configuration or conflict. |
| ConsoleMeaning.SelectionWritten | web/console-store.ts:66-160 | Which steps write the selection, and what: a ticked ID goes to the end of its own list, an unticked one leaves it, and a loaded state brings its workspace setting. |
| ConsoleMeaning.StateWritten | web/console-store.ts:66-160 | A loaded state is shown; a saved one replaces a state that is shown, and nothing else does. |
| ConsoleMeaning.ChangedWritten | web/console-store.ts:88-181 | Edits and conflicts of user actions mark the selection as changed since the last plan, and only a new plan unmarks it. |
| ConsoleMeaning.WithoutIs | web/console-store.ts:123-131 | Unticking takes out every occurrence of the ID and leaves the rest in its order. |
| ConsoleMeaning.SendsExactlyWhen | web/console-store.ts:53-181 | Every user action sends its request, but `apply` only when a plan is shown and the selection, as sets of IDs and a workspace setting, is the saved one. |
| ConsoleMeaning.FailureEnds | web/console-store.ts:88-110 | Only a user action that meets a conflict goes on, reloading the state with the selection set aside; every other failure ends its task. |
| ConsoleStore.Store.ReceiveWorkbench | web/console-store.ts:56-65 | The code after the workbench response makes exactly the specified step, fence and background restore included. |
| ConsoleStore.Store.Begin | web/console-store.ts:80-86 | An action begins exactly when the store is not busy, and then fences older responses; applying without a plan or with unsaved edits does nothing else. |
| ConsoleStore.Store.Reject | web/console-store.ts:88-110 | On a conflict the selection is set aside and the plan dropped; on any other error the action just ends. |
| ConsoleStore.Store.ReceiveState | web/console-store.ts:66-79 | The loaded state is shown with its own selection, or after a conflict with the providers and skills set aside, and the workbench is requested. |
| ConsoleStore.Store.Complete | web/console-store.ts:144-187 | Each operation does with its response exactly its specified step; a sync is followed by a new preview before the store is free again. |
| ConsoleStore.Store.Abandon | web/console-store.ts:99-109 | A failed request of the start, a recovery or a reload frees exactly what it held. |
| ConsoleStore.Store.Poll | web/console-store.ts:206-212 | A background refresh begins exactly when the store is neither busy nor refreshing. |

## Left out

- Json: strings are sequences of Unicode scalar values, so lone surrogates are outside the model; numbers are integers, whose JavaScript printing above 1e21 uses exponents and is outside the model; `undefined` values do not occur.
- Pointer: properties inherited from JavaScript prototypes, such as `constructor`, are not modelled; own properties, elements and `length` are.
- ContextBrief: the budget is about the content; the omission log, the figures, the digest and the time stamp that are returned beside it are not measured by the program either. How the mandatory values and the offered lists are computed is left out, but for `ChangeSince`; they are arbitrary.
- ChangeSince: the locale-dependent order of the resulting lists and the digests that bind a dispatch.
- ManagedFiles: a transaction that fails, which `TransactionRuns` covers; the order of planned paths, project-instruction sections (their merging is in src/rules/ownership.ts), pack metadata in the manifest, and the plan identifier that rejects a stale preview. Edits that arrive between snapshot and commit are modelled in `TransactionRuns`, one transaction at a time, and do not occur in the histories here.
- Transactions: file modes, the registry of resource paths, and malformed journals.
- TransactionRuns: the resources of a batch have their turns one after another, in any order, instead of side by side, and all looks of one recovery happen at once, since what is done at one path does not depend on another; changes to the journal file itself; a snapshot that cannot be taken, which changes nothing.
- Storage: `Rendered(v)` and `Other(text, parsed)` with the same text are two values of the model, so bytes can differ in it where the files do not, and that `JSON.parse` undoes `JSON.stringify` is built into `Migration.Parsed`; permissions, links, creation of parent directories, and the pauses themselves; a directory sync that is lost in a power failure.
- Config: Unicode normalisation and the acceptance of repository addresses are arbitrary predicates; error messages beyond path and code; `validateManifest`.
- Migration: the listing of older backups in the message that refuses a downgrade.
- ConfigStore: the Git-ignore upkeep that goes with a save, and backups, which `Migration` covers.
- Reconcile: entries changed by others during a pass, and permission errors; a removed path is reported as its segments rather than as the joined string.
- Publish.Directory.PublishArchiveSet: requires distinct destinations that do not exist yet, because the rollback removes whatever stands at a committed destination.
- Acceptance: fixtures, processes, HTTP and browser runs, artifacts, evidence records and the authorization checks before the loop; their outcomes are arbitrary. The loop takes any set of reusable checks; which one a request gives is `ReusePlan`.
- EventLog: redaction; an event arrives as its printed line, which has no line ending in it.
- ConsoleStore: notices, connection texts, listeners, the missing session key, and a hidden document, which only prevents a poll; a function and the one awaiting it are taken to go on together when the inner one ends.
- Command line, server, user interface, providers, worktrees, installers, evidence and release scripts: plumbing around these parts, or parts that would add only easy members.
