# Northwind claims: verified models of its algorithms and protocols

The Northwind claims service has a number of parts whose correctness does not show in any one
function: translations of schemas between model providers, an evidence store that clients may
overwrite while it is being finalised, migrations that can stop half way or race with other writers,
the choice of regression tests from coverage data, a stream that splices a replay onto live events, and
several small state machines. This project models those parts in Dafny and proves what they keep, over
every input, every interleaving or every run. `dafny verify dfyconfig.toml` checks all of it.

Where the code updates state in place, the model is a class or a method with loops that is proved
against a specification, and the properties are lemmas about that specification. Requests, object
stores and databases are atomic operations on maps; hashing is an injective or arbitrary digest
function; clocks, fresh identifiers and the answers of other systems are parameters. Every lemma turns automatic induction
off, so that each proof by induction is the one its body spells out.

| part | modules |
|---|---|
| JSON values, text, JSON Schema 2020-12 acceptance (Core sections 8.2.3.1, 10.2.1, 10.3; Validation sections 6.1, 6.5.3) | Json, Text, Schema |
| provider schema translations | StrictSchema, GoogleSchema, FieldUnion, FieldUnionValues |
| Google tool names and continuations | GoogleTools, GoogleGateway |
| evidence finalisation | EvidenceKeys, EvidenceStorage, MinioEvidenceStorage, EvidenceSystem, EvidenceNames |
| record migration and terminal-disposition backfill | RecordShape, MigrateRecordShapes, BackfillTerminalDispositions |
| regression test selection and diff coverage | BackendTestMap, ImportWalk, DiffText, DiffPieces, ParseHunks, SelectBackendTests, CheckDiffCoverage, DiffCoverage |
| realtime replay and live splice | RealtimeEvents, RealtimeStream, RealtimeSplice, RealtimeDelivery, RealtimeGap |
| knowledge versions | KnowledgeLifecycle, KnowledgeRuns |
| identity stores | Identity, FixtureIdentity, SqliteIdentity, IdentitySimulation |
| knowledge retrieval | KnowledgeTerms, KnowledgeRetrieval, KnowledgeSearch |

## What the proofs found

Several natural statements are false of the code. Each has a lemma that gives an input that breaks it,
or the exact condition under which the code does what one would expect, and mostly both.

- The merged field-change union may refuse instances of the original: Python takes `True` for `1`, so
  a value schema can be dropped as a duplicate of another (FieldUnionValues.TruthValueIsLost). What is
  accepted then is FieldUnionValues.MergeIsKeptProduct, and constants all survive only if no two of them
  are such a pair (FieldUnionValues.SurviveExactlyWhenDistinguishable).
- The strict translation drops a required name that a closed object does not declare
  (StrictSchema.EmptyObjectSlipsIn), and tightens at a root exactly unless that lets an object in
  (StrictSchema.RootTightensExactly).
- A final key may keep bytes that do not hash to its name: the copy takes what has replaced the checked
  upload, and the refused copy is left in place (EvidenceSystem.OverwrittenBytesStay). It does exactly when
  the last action on the key was such a copy (EvidenceNames.MisnamedExactlyWhenCopied).
- A completion may answer that it has stored an object that is gone (EvidenceSystem.DeletedBeforeTheEnd): it
  does exactly when the key was deleted between its last check and its end (EvidenceSystem.CompletionIsLasting).
- A live stream may skip an event while an overflowing queue is being emptied, although a
  resynchronisation then follows (RealtimeDelivery.ReadWhileEmptyingSkips). It does exactly when it reads
  past an event the queue has lost (RealtimeGap.BrokenExactlyWhenTorn).
- One diff reader misplaces added lines after a missing-newline marker, and the other forgets the hunks that
  follow the removal of a line opening with `-- ` (CheckDiffCoverage.MarkerShiftsTheLine,
  ParseHunks.DashedLineHidesTheNextHunk). Both split lines wherever Python does, so a form feed inside a line
  does the same (CheckDiffCoverage.FormFeedShiftsTheLine, ParseHunks.FormFeedHidesTheNextHunk). Exactly when
  they read a diff right is CheckDiffCoverage.TextRecoversExactlyWhenFaithful and
  ParseHunks.TextRecoversExactlyWhenFaithful.
- A knowledge version whose validation failed can be ingested again and published, and one that was
  never ingested can be published (KnowledgeRuns.FailedValidationMayBePublished,
  KnowledgeRuns.UningestedMayBePublished, and exactly which are in KnowledgeRuns.PublishedUningestedExactly);
  a publication stopped between its two saves leaves the
  document without a published version (KnowledgeRuns.AvailableUnlessInterrupted).
- A malformed provider answer may leave open continuations that no caller knows
  (GoogleGateway.FailureOpens).
- The two identity stores differ on saves that skip a revision or carry a hash in the other store's format
  (IdentitySimulation.SharedHashLocksOneStore), on creating an unacceptable profile for a taken email and
  on reused session identifiers, and on nothing else as long as stored hashes are ASCII text
  (IdentitySimulation.AgreeExactlyWhenProper).
- A disposition may be written to a claim that no longer bears it out: the conditional update does not look
  at the claim's time of update, takes either of its references for the recorded one, and does not look at the
  decisions again (BackfillTerminalDispositions.UpdateTimeMayBeReplaced,
  BackfillTerminalDispositions.ReferenceMayBeReplaced, BackfillTerminalDispositions.DecisionMayBeJoined, and
  exactly in BackfillTerminalDispositions.WrittenDispositionIsProvable and
  BackfillTerminalDispositions.WrittenDispositionIsProvableThen).

## Model

| member | source | states |
|---|---|---|
| Schema.WeakerAccepts | backend/adapters/model_gateway.py:102-112 | A reading of a schema that checks fewer keywords accepts at least the same instances |
| StrictSchema.StrictResponseSchema | backend/adapters/model_gateway.py:529-578 | The recursive translator, with its local dictionary, computes the strict form specified by Strict |
| StrictSchema.StrictKeywords | backend/adapters/model_gateway.py:544-553 | The loop over the keywords of a node drops defaults and translates every other argument |
| StrictSchema.CloseNode | backend/adapters/model_gateway.py:569-578 | A node with properties or of type object comes out closed over the same properties with required equal to their names, and no other key changes; any other node is unchanged |
| StrictSchema.StrictIsStrictForm | backend/adapters/model_gateway.py:529-578 | At every depth a translated node has no default and some structural keyword, and comes out closed, with required equal to its property names, if it has properties or type object |
| StrictSchema.StrictFixedPoints | backend/adapters/model_gateway.py:529-578 | The translation is idempotent on every JSON value, and its fixed points are exactly the values in strict form at every depth |
| StrictSchema.StrictOnlyTightens | backend/adapters/model_gateway.py:529-578 | On the positive fragment, through references, definitions and the injected scalar union, the strict document accepts exactly the instances of the original that fill every declared property and add none; so it accepts nothing the original rejects |
| StrictSchema.UndeclaredRequiredIsLost | backend/adapters/model_gateway.py:569-578 | Where a closed root requires a name it does not declare, every object the strict schema accepts is one the original rejects |
| StrictSchema.RootTightensExactly | backend/adapters/model_gateway.py:529-578 | With every inner node translatable, the translation only tightens if and only if the root requires declared names only or its strict form accepts no object |
| StrictSchema.EmptyObjectSlipsIn | backend/adapters/model_gateway.py:569-578 | An object schema that requires an undeclared name: strict, it accepts the empty object that the original rejects |
| GoogleSchema.SupportedReads | backend/adapters/model_gateway.py:102-112 | Dropping constraint keywords accepts exactly what the undropped schema accepts when those keywords are ignored, at every depth |
| GoogleSchema.InlineIsReferenceFree | backend/adapters/model_gateway.py:130-147 | The inlined result holds no reference and no definitions at any depth |
| GoogleSchema.InlineSucceedsExactly | backend/adapters/model_gateway.py:130-147 | Inlining terminates on every input and succeeds if and only if every path of references reachable from the root is local, defined and free of cycles |
| GoogleSchema.InlineOnlyRelaxes | backend/adapters/model_gateway.py:130-147 | Inlining never loses an instance, even where a reference has siblings that the inliner drops |
| GoogleSchema.InlineAddsNothing | backend/adapters/model_gateway.py:130-147 | Where references stand alone inlining gains no instance either, given fuel for the unresolved definitions |
| GoogleSchema.InlineKeepsMeaning | backend/adapters/model_gateway.py:130-147 | A document whose references stand alone accepts the same instances before and after inlining |
| FieldUnion.MergeVariants | backend/adapters/model_gateway.py:149-176 | The loop that gathers codes and values computes the merged item, with the code's refusals and faults |
| FieldUnion.MergeIsProduct | backend/adapters/model_gateway.py:149-176 | For agreeing object variants the merged item accepts exactly the union of the codes times the union of the values times the shared properties |
| FieldUnion.MergeOnlyRelaxes | backend/adapters/model_gateway.py:149-176 | Every instance of an agreeing variant is an instance of the merged item |
| FieldUnion.GoogleOnlyRelaxes | backend/adapters/model_gateway.py:102-176 | Every instance the canonical schema accepts is accepted after dropping constraints, inlining and merging the union |
| FieldUnionValues.MergeIsKeptProduct | backend/adapters/model_gateway.py:149-176 | For any variants that merge, the merged item accepts exactly the union of the codes times the values kept times the first variant's other properties, a value being kept if Python takes no earlier one for it |
| FieldUnionValues.SurviveExactlyWhenDistinguishable | backend/adapters/model_gateway.py:166-167 | Every value some variant accepts survives if no two value schemas are equal to Python and yet different, and for constants only then |
| FieldUnionValues.TruthValueIsLost | backend/adapters/model_gateway.py:166-167 | The variants with values 1 and True merge, and the merged item refuses an instance that the second variant accepts |
| GoogleTools.NamesAgreeWhenDistinguished | backend/adapters/model_gateway.py:1263-1276 | Comparing the two counts of names accepts a request if and only if no two domain names share a provider name |
| GoogleTools.DecodeReturnsSent | backend/adapters/model_gateway.py:1366-1372 | A tool sent under its provider name is decoded to itself |
| GoogleGateway.Gateway.ContinuationCallIds | backend/adapters/model_gateway.py:1212-1225 | The loop over messages finds exactly the open continuations that the request answers or repeats |
| GoogleGateway.Gateway.RequestPayload | backend/adapters/model_gateway.py:1072-1145 | The message loop builds the payload or fails with the first error of names, roles, continuations, content, the response schema's translation or the required tool |
| GoogleGateway.Gateway.NormaliseResponse | backend/adapters/model_gateway.py:1346-1423 | Reads the parts in order, opening a continuation for each call, and stops at the first malformed part without closing any |
| GoogleGateway.Gateway.Call | backend/adapters/model_gateway.py:1012-1060 | One call leaves the store and gives the outcome that the call specification states, for every check, build, transport and answer outcome |
| GoogleGateway.ReadPartsAdds | backend/adapters/model_gateway.py:1246-1257 | An answer opens continuations under new identifiers only and leaves the open ones alone |
| GoogleGateway.SingleUse | backend/adapters/model_gateway.py:1021-1052 | Once a call passes its checks, the continuations it names are gone in every later state, whatever became of the call |
| GoogleGateway.SentOnce | backend/adapters/model_gateway.py:1021-1052 | No continuation is sent to the provider by two calls of a run |
| GoogleGateway.SuccessOpensExactly | backend/adapters/model_gateway.py:1374-1401 | A successful call opens exactly one new continuation for each function call of the answer, holding that part's identifier and signature |
| GoogleGateway.FailureOpens | backend/adapters/model_gateway.py:1053-1060 | A failed call opens continuations if and only if its answer was reached and holds a readable function call before its first unreadable part |
| GoogleGateway.EchoesCarryWhatWasOpened | backend/adapters/model_gateway.py:1180-1244 | A later request that repeats or answers a handed-out call, if it is sent, carries the provider's own identifier and, when repeated, its signature |
| GoogleGateway.NamesComeBack | backend/adapters/model_gateway.py:1366-1401 | The name handed out is the one sent tool with that provider name, and it is sent back under the same name |
| EvidenceKeys.RenderIsInjective | backend/adapters/evidence_storage.py:485-504 | Different staging and final keys of path-safe records are different strings |
| EvidenceKeys.KeyInIsExact | backend/adapters/evidence_storage.py:578-586 | Of all strings, the prefix test of reading and deleting admits exactly those that render a final key of that evidence record |
| EvidenceStorage.VerifyObject | backend/adapters/evidence_storage.py:801-853 | The chunked reading returns the checksum exactly when owner, media type, both sizes, the limit and the digest agree |
| EvidenceStorage.CompleteIsOutcomes | backend/adapters/evidence_storage.py:735-799 | Running the steps verify, copy, verify again and delete to the end has the result stated for the whole call |
| EvidenceStorage.RetryRecovers | backend/adapters/evidence_storage.py:747-799 | A call that would have succeeded and is cut off after any step returns the same key and checksum when retried, if staging is undisturbed until the copy |
| EvidenceStorage.OtherRegistrationReplaces | backend/adapters/evidence_storage.py:747-799 | Under another registered media type a completion replaces the finalised object |
| MinioEvidenceStorage.Adapter.CompleteUpload | backend/adapters/evidence_storage.py:735-799 | The method's store and outcome are those of the step machine run without interference |
| MinioEvidenceStorage.Adapter.ReadUpload | backend/adapters/evidence_storage.py:578-603 | Of all strings only one that renders a final key of the same evidence record is read, and reads that object if it is within the size limit, or nothing |
| MinioEvidenceStorage.Adapter.DeleteUpload | backend/adapters/evidence_storage.py:605-657 | Only a final key of the same record is deleted; deleted and already absent mean the object is gone, failed that nothing was changed, and unknown is answered only to another key or when the store broke off |
| MinioEvidenceStorage.Adapter.StoreGeneratedContent | backend/adapters/evidence_storage.py:659-733 | Stores, replays or refuses generated content as its specification states |
| MinioEvidenceStorage.GeneratedLeaves | backend/adapters/evidence_storage.py:659-733 | After success the generated key holds the demanded content |
| MinioEvidenceStorage.GeneratedIsImmutable | backend/adapters/evidence_storage.py:659-733 | Stored generated content is never changed: the same bytes are replayed and others refused |
| EvidenceSystem.RunsAreSound | backend/adapters/evidence_storage.py:735-853 | Every interleaving of uploads, completers, abandonment, generation and deletion keeps each promised key the registered object with the promised digest; any final key may be deleted at any time |
| EvidenceSystem.RunsKeepPromises | backend/adapters/evidence_storage.py:735-853 | No later step but the deletion of the key changes a promised object |
| EvidenceSystem.CompletionIsLasting | backend/adapters/evidence_storage.py:605-853 | From any store, in any interleaving, the final object that a successful completion names is there if and only if its key was not deleted between the call's last check and its end; it then matches registration and checksum, and stays that object until its key is deleted |
| EvidenceSystem.DeletedBeforeTheEnd | backend/adapters/evidence_storage.py:747-799 | A run from an idle system: a completion passes its second check, its key is deleted, and it answers stored although the object is gone |
| EvidenceSystem.CheckedBytesMayBeOverwritten | backend/adapters/evidence_storage.py:760-790 | Staging may change between the first check and the copy |
| EvidenceSystem.OverwrittenBytesStay | backend/adapters/evidence_storage.py:760-790 | Such bytes are copied, refused by the second check and left under a key that is not their digest |
| EvidenceNames.MisnamedExactlyWhenCopied | backend/adapters/evidence_storage.py:735-799 | In every run, a key named by a digest holds other bytes if and only if the last action to write or delete it copied a staged object that did not hash to the name |
| RecordShape.ShapeFixedPoints | scripts/migrate_record_shapes.py:62-76 | Rewriting is idempotent, and leaves a value alone if and only if no old form is left at any depth |
| RecordShape.ShapeAt | scripts/migrate_record_shapes.py:62-76 | Each place outside the removed field keeps its scalar except that an old photo kind becomes the current one; places inside the removed field are gone |
| MigrateRecordShapes.Records.MigrateRecordShapes | scripts/migrate_record_shapes.py:125-190 | The write-by-write method has the records and report of its specification: a marked, dry or refused run writes nothing |
| MigrateRecordShapes.Records.ReplaceAll | scripts/migrate_record_shapes.py:167-168 | The loop of replacements applies exactly the listed writes in order |
| MigrateRecordShapes.Records.InsertAll | scripts/migrate_record_shapes.py:169-179 | The loop of insertions appends exactly the added evaluations |
| MigrateRecordShapes.WholeRun | scripts/migrate_record_shapes.py:125-190 | Applying all writes leaves every record rewritten, then the evaluations, then the marker |
| MigrateRecordShapes.CutRun | scripts/migrate_record_shapes.py:125-190 | After any number of its writes a run stands at a rewritten prefix, or at all rewrites and a prefix of the evaluations |
| MigrateRecordShapes.SettledRun | scripts/migrate_record_shapes.py:125-190 | An undisturbed run makes every record current and evaluates each claim that had no applied evaluation |
| MigrateRecordShapes.CrashResumes | scripts/migrate_record_shapes.py:125-190 | Cut off after any single write before the marker and rerun, the migration is not refused and ends in the records of an undisturbed run up to fresh identifiers |
| MigrateRecordShapes.OnlyMarkerMissing | scripts/migrate_record_shapes.py:125-190 | With only the marker lost, a rerun writes the marker alone |
| MigrateRecordShapes.OneEvaluationEach | scripts/migrate_record_shapes.py:78-92 | Exactly one evaluation is added for each claim without an applied one |
| MigrateRecordShapes.BareBuilds | scripts/migrate_record_shapes.py:169-179 | Some builder makes, of every claim in current form, an applied evaluation of that claim in current form, as the results on runs assume |
| MigrateRecordShapes.NoSecondEvaluation | scripts/migrate_record_shapes.py:78-92 | None is added for a claim that has one |
| BackfillTerminalDispositions.EligibleExactlyWhenProvable | scripts/backfill_terminal_dispositions.py:73-135 | A claim is eligible for a disposition if and only if its fields and exactly one authorising decision prove it, with recorded revision = source revision + 1, decision, record and update times in order, and a decision identifier other than the external reference |
| BackfillTerminalDispositions.RepeatedReferenceIsRejected | backend/domain/models.py:489-490 | A claim whose external reference is the identifier of its decision is rejected, as the disposition's references must differ |
| BackfillTerminalDispositions.Collection.UpdateOne | scripts/backfill_terminal_dispositions.py:178-196 | The conditional update writes exactly when the stored claim still has every guarded field as judged, and sets the disposition alone |
| BackfillTerminalDispositions.WriteSetsDisposition | scripts/backfill_terminal_dispositions.py:178-196 | A write sets an empty disposition and nothing else, and the claim as written has its source revision, its record time and no lower revision |
| BackfillTerminalDispositions.WrittenDispositionIsProvable | scripts/backfill_terminal_dispositions.py:73-200 | Whatever others wrote in between, the claim as written proves its disposition, by the decisions it was judged with, if and only if its stored update time is no earlier than the record and it still goes by the recorded reference |
| BackfillTerminalDispositions.WrittenDispositionIsProvableThen | scripts/backfill_terminal_dispositions.py:73-200 | By the decisions stored at the time of the write it does if and only if, besides, exactly one of these authorises the creation and is the recorded one |
| BackfillTerminalDispositions.ReferenceMayBeReplaced | scripts/backfill_terminal_dispositions.py:191-194 | A claim judged by its number and given another external identifier since is written, and does not prove what is written |
| BackfillTerminalDispositions.UpdateTimeMayBeReplaced | scripts/backfill_terminal_dispositions.py:179-195 | A claim whose update time has been set before its record time since is written, and does not prove what is written |
| BackfillTerminalDispositions.DecisionMayBeJoined | scripts/backfill_terminal_dispositions.py:158-195 | A claim for which a second authorising decision has been stored since is written, and the decisions stored then do not prove what is written |
| BackfillTerminalDispositions.BackfillOne | scripts/backfill_terminal_dispositions.py:165-199 | One candidate is judged and reported once, and written only after a sound conditional update, under arbitrary other writers |
| BackfillTerminalDispositions.Backfill | scripts/backfill_terminal_dispositions.py:138-200 | Candidates are eligible plus rejected and, when applying, eligible are applied plus conflicts, key by key; dry runs write nothing; every write is sound; an undisturbed run has no conflict and writes exactly the eligible dispositions |
| BackfillTerminalDispositions.SecondRunChangesNothing | scripts/backfill_terminal_dispositions.py:138-200 | A second undisturbed run finds only claims the first rejected and changes nothing |
| Text.ReadShow | scripts/backend_test_map.py:66-138 | Line numbers survive their decimal rendering |
| BackendTestMap.LoadMap | scripts/backend_test_map.py:118-138 | The loading loop names every index again, and refuses another schema |
| BackendTestMap.Builder.BuildMap | scripts/backend_test_map.py:66-109 | The interning loops build a payload that loads back as the coverage the measurements state |
| BackendTestMap.Builder.MeasureFile | scripts/backend_test_map.py:88-108 | One file's entry reads back as its statements, its tests and its tests by line |
| ImportWalk.TestImporters | scripts/select_backend_tests.py:165-181 | The worklist terminates on cyclic graphs and finds exactly the test files reached by reverse imports through test-support modules |
| SelectBackendTests.SelectTests | scripts/select_backend_tests.py:76-126 | Full, skipped and scoped runs are chosen exactly as the changed paths demand, and a scoped run holds exactly the chosen existing test files |
| SelectBackendTests.TestsForBackendFile | scripts/select_backend_tests.py:129-162 | A known file's ranges or whole coverage, or an unknown file's importers, in each case exactly |
| SelectBackendTests.RangesTests | scripts/select_backend_tests.py:147-162 | The loop over ranges collects exactly the tests of some range |
| SelectBackendTests.ExecutedTestsAreChosen | scripts/select_backend_tests.py:76-162 | End to end through building and loading the map: an existing test file whose recorded context executed a changed executable line is chosen |
| SelectBackendTests.DiffedTestsAreChosen | scripts/select_backend_tests.py:76-244 | The same from the text of the diff, for every line a hunk replaces or removes, whatever line breaks the hunks' bodies hold |
| SelectBackendTests.UnreachedRangesChooseAll | scripts/select_backend_tests.py:147-162 | A range whose executable lines no context reached chooses every test of the file |
| SelectBackendTests.StaleOnlyAdds | scripts/select_backend_tests.py:129-162 | Marking more files stale never removes a test from the choice |
| DiffText.SplitJoined | scripts/select_backend_tests.py:231-244 | Rendered lines without Python line breaks split back into themselves |
| DiffPieces.SplitJoinedPieces | scripts/select_backend_tests.py:231-244 | A text of any rendered lines is split into the pieces of each, cut at every line break that Python knows |
| ParseHunks.ParseHunks | scripts/select_backend_tests.py:231-244 | The line loop recovers, from every readable rendered diff, the ranges of each old file up to its first hunk that is read as holding a line opening with three dashes and a space |
| ParseHunks.HeaderStep | scripts/select_backend_tests.py:50 | The hunk pattern reads the old range out of every rendered hunk header |
| ParseHunks.RecoversExactlyWhenFaithful | scripts/select_backend_tests.py:231-244 | What is gathered from the hunks is every range of every old file if and only if only last hunks hold such a line |
| ParseHunks.TextRecoversExactlyWhenFaithful | scripts/select_backend_tests.py:231-244 | Reading the text of a readable diff, whose bodies may hold line breaks, recovers every range of every old file if and only if only last hunks hold such a line |
| ParseHunks.WholeIsDashedExactly | scripts/select_backend_tests.py:231-244 | A hunk without line breaks holds such a line if and only if it removes one opening with two dashes and a space |
| ParseHunks.DashedLineHidesTheNextHunk | scripts/select_backend_tests.py:231-244 | Removing such a line hides the next hunk of its file, whatever else the hunk holds |
| ParseHunks.FormFeedHidesTheNextHunk | scripts/select_backend_tests.py:231-244 | So does adding a line that goes on with three dashes and a space after a form feed |
| CheckDiffCoverage.ChangedBackendLines | scripts/check_diff_coverage.py:13-47 | The line loop gathers, from every readable rendered diff, exactly the stated lines of each backend file |
| CheckDiffCoverage.HeaderNewLine | scripts/check_diff_coverage.py:25-37 | The new range of every rendered hunk header is read as its start, or as nothing when it adds no line |
| CheckDiffCoverage.SeenExactlyWhenFaithful | scripts/check_diff_coverage.py:13-47 | Of one hunk, whatever line breaks its text holds, exactly the added line numbers are gathered if and only if, of the lines it is read as that do not look removed, the first as many as it adds and no others look added |
| CheckDiffCoverage.RecoversExactlyWhenFaithful | scripts/check_diff_coverage.py:13-47 | What is gathered from the hunks is the added line numbers of every backend file if every hunk is faithful in this sense, and only then where no hunk with line breaks is read past the start of the next one |
| CheckDiffCoverage.TextRecoversExactlyWhenFaithful | scripts/check_diff_coverage.py:13-47 | The same of reading the text of a readable diff, whose bodies may hold line breaks |
| CheckDiffCoverage.WholeIsFaithfulExactlyWhenClear | scripts/check_diff_coverage.py:37-46 | An adding hunk without line breaks is faithful if and only if it holds no missing-newline marker before its additions, no removed line opening with two dashes and no added line opening with two pluses |
| CheckDiffCoverage.FrontShiftsTheLines | scripts/check_diff_coverage.py:37-46 | Without line breaks, the marker and the removed lines opening with two dashes shift all added lines by their number |
| CheckDiffCoverage.MarkerShiftsTheLine | scripts/check_diff_coverage.py:40-46 | The marker shifts the added lines by one |
| CheckDiffCoverage.FormFeedShiftsTheLine | scripts/check_diff_coverage.py:18-46 | A form feed in an added line shifts those after it by one |
| DiffCoverage.DiffCoverage | scripts/check_diff_coverage.py:50-76 | The counters are the sums over changed files of changed lines executed, and executed or missing; the rest is listed in ascending order by file |
| DiffCoverage.MeasureFile | scripts/check_diff_coverage.py:67-75 | One file's counts, and its uncovered lines in ascending order |
| DiffCoverage.CoveredPlusListed | scripts/check_diff_coverage.py:50-76 | Covered plus all listed lines equals executable |
| RealtimeEvents.OwedSplits | backend/domain/realtime.py:479-490 | What has been received and what is owed after its last cursor together are all that was owed |
| RealtimeStream.Events | backend/api/realtime.py:61-83 | The generator's two loops send exactly what the filter makes of the replay followed by the live deliveries, and a keep-alive for each empty answer |
| RealtimeSplice.NextKeeps | backend/api/realtime.py:42-87 | Every step of publisher, dispatcher, queue and stream keeps the invariant: nothing owed is lost between log, queue and client unless a resynchronisation is due |
| RealtimeSplice.ReplayedIsOwed | backend/services/realtime.py:242-265 | The replay is a prefix of what is owed after the cursor, and all of it unless it ends with a resynchronisation |
| RealtimeSplice.PublishKeepsQueue | backend/services/realtime.py:62-77 | Offering in log order keeps the queue ordered, permitted and free of repeats |
| RealtimeDelivery.ReceivedInOrder | backend/api/realtime.py:42-87 | In every interleaving the client receives strictly increasing cursors of recorded, permitted events after its own |
| RealtimeDelivery.UnbrokenUnlessDoomed | backend/api/realtime.py:42-87 | Unless a resynchronisation was sent or is on its way, the client has an unbroken start of what it is owed |
| RealtimeDelivery.CaughtUpIsComplete | backend/api/realtime.py:42-87 | Once queue and log are drained the client has received exactly all it is owed |
| RealtimeDelivery.CalmRunsHaveNoGap | backend/services/realtime.py:62-89 | If the queue is never read while it is being emptied there is no gap even on the way to a resynchronisation |
| RealtimeDelivery.ReadWhileEmptyingSkips | backend/services/realtime.py:69-77 | Otherwise a reachable run delivers the second of two queued events without the first |
| RealtimeDelivery.ReconnectsCompose | backend/api/realtime.py:42-87 | For any chain of runs, each opened with the last cursor the one before it sent and each calm or without a resynchronisation due at its end, the deliveries put together are an unbroken start of one stream from the first cursor, the rest being what the last cursor is owed |
| RealtimeGap.BrokenExactlyWhenTorn | backend/services/realtime.py:62-89 | In every run the client has an unbroken start of what it is owed if and only if no read has taken an event past one that was dropped, refused for lack of room or passed over |
| RealtimeGap.TearsOnlyWhileEmptying | backend/services/realtime.py:69-89 | Such a read happens only while the dispatcher is emptying the queue |
| RealtimeDelivery.StreamIsFiltered | backend/api/realtime.py:61-83 | In every run the stream's output is the generator's filter of what it has read |
| KnowledgeLifecycle.Administration.Active | backend/repositories/knowledge_admin.py:58-64 | Returns a published version of the document with the latest update, or none if there is none |
| KnowledgeLifecycle.Administration.Save | backend/repositories/knowledge_admin.py:39-44 | Replaces a record exactly when its stored revision is the expected one |
| KnowledgeLifecycle.Administration.CreateSource | backend/api/admin_knowledge.py:188-255 | Creates a draft unless the identifier or the version of the document exists |
| KnowledgeLifecycle.Administration.ValidateSource | backend/api/admin_knowledge.py:290-350 | Records evidence and moves to awaiting approval or failed, from draft, failed or indexed only |
| KnowledgeLifecycle.Administration.IngestSource | backend/api/admin_knowledge.py:355-465 | Moves a draft or failed version to indexed or failed, its evidence untouched |
| KnowledgeLifecycle.Administration.PublishSource | backend/api/admin_knowledge.py:527-612 | Supersedes the active version and then publishes, or stops in between; refuses unvalidated versions and their authors |
| KnowledgeLifecycle.Administration.WithdrawSource | backend/api/admin_knowledge.py:615-660 | Withdraws every version but one superseded or withdrawn |
| KnowledgeRuns.NextKeeps | backend/api/admin_knowledge.py:290-660 | Every request, stopped publications included, keeps one published version a document, evidence, and ranked links |
| KnowledgeRuns.AtMostOnePublished | backend/api/admin_knowledge.py:547-593 | In every run a document has at most one published version |
| KnowledgeRuns.EndedRecordsStay | backend/api/admin_knowledge.py:547-650 | Superseded and withdrawn records never change again |
| KnowledgeRuns.PublishedOnce | backend/api/admin_knowledge.py:547-593 | No record is published by two requests of a run |
| KnowledgeRuns.PublishedByAnother | backend/api/admin_knowledge.py:552-575 | Every published or superseded version has validation evidence and was published by someone other than its author |
| KnowledgeRuns.LinksAreAcyclic | backend/api/admin_knowledge.py:576-600 | Chains of previous versions never return, and lead to superseded versions of the same document |
| KnowledgeRuns.AvailableUnlessInterrupted | backend/api/admin_knowledge.py:576-650 | A document with a published version keeps one if and only if the request neither withdraws it nor stops in mid-publication |
| KnowledgeRuns.FailedValidationMayBePublished | backend/api/admin_knowledge.py:374-459 | A failed validation followed by ingestion can be published |
| KnowledgeRuns.UningestedMayBePublished | backend/api/admin_knowledge.py:547-562 | A draft without chunks can be validated and published, still without chunks |
| KnowledgeRuns.ChunksExactlyWhenIngested | backend/api/admin_knowledge.py:374-459 | In every run a record has chunks if and only if an accepted request ingested it, and an indexed one has been ingested |
| KnowledgeRuns.PublishedUningestedExactly | backend/api/admin_knowledge.py:547-593 | A publication is of a version without chunks if and only if no earlier request ingested it, and then the version awaited approval |
| KnowledgeRuns.PublishedEvidence | backend/api/admin_knowledge.py:547-562 | Publication carries passing evidence if and only if it does not come from an indexed version whose validation failed |
| FixtureIdentity.FixtureIdentityRepository.CreateAccount | backend/adapters/identity.py:113-131 | Refuses a taken email before it looks at the profile; otherwise inserts |
| FixtureIdentity.FixtureIdentityRepository.EnsureSeedAccount | backend/adapters/identity.py:61-95 | Inserts a missing seed account and leaves an existing one as it is |
| FixtureIdentity.FixtureIdentityRepository.SaveAccount | backend/adapters/identity.py:149-162 | Stores the whole record, its password hash included, at the next revision of the expected one under a free email, with the code's order of errors |
| FixtureIdentity.FixtureIdentityRepository.Login | backend/adapters/identity.py:97-108 | The loop over accounts finds the active account with that email and password, or none |
| FixtureIdentity.FixtureIdentityRepository.RevokeSessionById | backend/adapters/identity.py:198-213 | Revokes the named session under its revision, with the code's order of errors |
| SqliteIdentity.SQLiteIdentityRepository.CreateAccount | backend/adapters/identity.py:442-493 | Looks at the profile first, then inserts unless a key or email constraint fails |
| SqliteIdentity.SQLiteIdentityRepository.EnsureSeedAccount | backend/adapters/identity.py:388-440 | Inserts a missing seed row and leaves an existing one as it is |
| SqliteIdentity.SQLiteIdentityRepository.SaveAccount | backend/adapters/identity.py:530-579 | One update of every column, the password hash included, under identifier and revision, the reason for changing no row looked up afterwards |
| SqliteIdentity.SQLiteIdentityRepository.Login | backend/adapters/identity.py:374-386 | Looks the email up and verifies the salted password of that row |
| SqliteIdentity.SQLiteIdentityRepository.StoreSession | backend/adapters/identity.py:581-600 | Replaces the rows that share the token hash or the session identifier |
| SqliteIdentity.SQLiteIdentityRepository.RevokeSession | backend/adapters/identity.py:624-631 | One update of the unrevoked row, answered by its count |
| SqliteIdentity.SQLiteIdentityRepository.RevokeSessionById | backend/adapters/identity.py:662-682 | One update under identifier and revision, the reason for changing no row looked up afterwards |
| IdentitySimulation.AgreeExactlyWhenProper | backend/adapters/identity.py:61-682 | From related stores an operation gives the same reply and related stores if and only if it is proper: acceptable profile or free email, next revision with credentials of one password for both stores unless the email is taken, session identifier of one session |
| IdentitySimulation.SharedHashLocksOneStore | backend/adapters/identity.py:149-162 | A save that hands both stores one hash in the fixture's format is accepted by both, and then only the fixture authenticates its owner |
| IdentitySimulation.StoresStayAlike | backend/adapters/identity.py:61-682 | From the empty store every run of proper operations keeps the stores related, emails unique and session identifiers unique |
| IdentitySimulation.RepliesAreTheSame | backend/adapters/identity.py:61-682 | Every reply of every such run is the same from both |
| IdentitySimulation.SqliteSound | backend/adapters/identity.py:374-682 | SQLite keeps emails and session identifiers unique under every operation |
| IdentitySimulation.RevisionsOnlyRise | backend/adapters/identity.py:61-162 | Accounts never go, seeding never resets them, and any change comes with a higher revision |
| IdentitySimulation.RowRevisionsOnlyRise | backend/adapters/identity.py:388-579 | Rows never go, and any change of a row or of the password it verifies comes with a higher revision |
| IdentitySimulation.PasswordsStay | backend/adapters/identity.py:61-682 | As long as each save of an account carries the password it has, no operation changes that password in either store |
| KnowledgeRetrieval.Retriever.constructor | backend/adapters/knowledge_retrieval.py:126-133 | Keeps exactly the approved sources, in order, and reads text by the stop words, aliases and product terms of the code |
| KnowledgeTerms.WordsAreMaximalRuns | backend/adapters/knowledge_retrieval.py:67-72 | The words found in a text are exactly its maximal runs of word characters |
| KnowledgeRetrieval.Retriever.Search | backend/adapters/knowledge_retrieval.py:169-210 | The loops return the head of the ranking, cut at the limit, or the first fault |
| KnowledgeRetrieval.Retriever.ScoreChunks | backend/adapters/knowledge_retrieval.py:190-199 | The scores of a source's chunks that pass the filter and share a term |
| KnowledgeRetrieval.ChunkFilterIsRedundant | backend/adapters/knowledge_retrieval.py:250-305 | A chunk of a validated source passes the chunk filter if and only if its source passes the source filter |
| KnowledgeRetrieval.SortRanks | backend/adapters/knowledge_retrieval.py:205 | The sort orders by section match, then score, then chunk identifier |
| KnowledgeSearch.FailsClosed | backend/adapters/knowledge_retrieval.py:169-240 | A search that reaches the indexes fails if and only if some applicable source is invalid; no partial result is returned |
| KnowledgeSearch.RankingIsComplete | backend/adapters/knowledge_retrieval.py:169-206 | The ranking is sorted and holds exactly the scored chunks of applicable sources that share a term with the query |
| KnowledgeSearch.NothingOutranksTheReturned | backend/adapters/knowledge_retrieval.py:205-206 | No chunk left out ranks before one returned |
| KnowledgeSearch.SmallerLimitIsPrefix | backend/adapters/knowledge_retrieval.py:205-206 | A smaller limit returns a prefix |
| KnowledgeSearch.RankingIsUnique | backend/adapters/knowledge_retrieval.py:205 | Without ties two rankings of the same chunks are equal |
| KnowledgeSearch.SourceOrderDoesNotMatter | backend/adapters/knowledge_retrieval.py:169-206 | When identifiers tell the matching chunks apart, any order of the sources gives the same ranking, and the same success |

## Left out

- StrictSchema.StrictResponseSchema: the order of the required names is sorted by name, not by insertion, because JSON objects are maps; malformed shapes such as a string for items are passed through or treated as the code's faults.
- FieldUnion.GoogleOnlyRelaxes: asks that no two value schemas of the variants are equal to Python and yet different, because a dropped one can lose instances; the merged item without that condition is described by FieldUnionValues.MergeIsKeptProduct.
- Schema.WeakerAccepts: the schema semantics has no `oneOf`, `not`, `patternProperties` or non-scalar enum values, where the translations are not monotone; `format` is not admitted, and patterns are matched by an arbitrary function.
- GoogleGateway.Gateway.Call: the reason a media block cannot be sent, usage figures, structured output and HTTP are outcomes given as parameters; a tool message's content is given as read.
- GoogleGateway.Gateway.RequestPayload: generation settings other than the response schema, and tool declarations other than names, are not in the payload.
- GoogleGateway.SingleUse: calls of one gateway run one after another; the code does not lock its map.
- EvidenceStorage.VerifyObject: transport failures during a read are not modelled; a cut-off call is.
- MinioEvidenceStorage.Adapter.ReadUpload: a transport failure, which the code reports as unavailable storage, is not an outcome, nor is it of storing generated content or completing an upload, but for a staged object that is gone at the copy.
- EvidenceSystem.CompletionIsLasting: one completer for each evidence record, as the code does not serialise two; a checksum is registered with one size and media type.
- MigrateRecordShapes.SettledRun: building an applied evaluation and validating a claim are one assumed function, asked only to make of a claim in current form an applied evaluation of it in current form; counts by type, malformed records that raise, and the order of keys are not modelled.
- MigrateRecordShapes.CrashResumes: asks that stored identifiers are distinct and that `_id`, `claim_id`, `record_type` and `status` hold no old form, as in the stored data.
- BackfillTerminalDispositions.EligibleExactlyWhenProvable: a stored reference that is no string counts as present, although Python passes over zero and empty containers.
- BackfillTerminalDispositions.Backfill: equal stored timestamps and numbers are compared by value, not by representation; the list forms a MongoDB path may match are the one case of an external claim that is no document.
- BackendTestMap.Builder.BuildMap: reading coverage databases, resolving paths and compressing the file are left out; a fresh builder is asked for.
- SelectBackendTests.SelectTests: `.` and doubled separators in paths, the import graph's own construction and git are left out.
- SelectBackendTests.TestsForBackendFile: stale paths, which the code normalises, are taken as given.
- CheckDiffCoverage.ChangedBackendLines: text that, as a line or after a line break in one, looks like a new file header or opens a hunk, quoted file names or names with line breaks, and numerals that Python reads beyond plain digits are outside the readable diffs.
- CheckDiffCoverage.RecoversExactlyWhenFaithful: says nothing of a diff in which a hunk with line breaks is unfaithful and read past the start of the next hunk, whose lines may then make up for it.
- ParseHunks.ParseHunks: text that, as a line or after a line break in one, names a file of the old tree or reads as a hunk header, names with line breaks and digits beyond ASCII are outside the readable diffs.
- RealtimeSplice.NextKeeps: events become durable in cursor order and cursors are a strict total order; the dispatcher's own threads, its timeouts and its restart are the steps Publish, RequireResync, PublishInRecovery and Detach.
- RealtimeDelivery.ReconnectsCompose: a client without a cursor that has received nothing starts anew when it reconnects, so the chain does not cover it.
- RealtimeStream.Events: frames carry cursors only, and a client whose cursor is the empty string is not modelled.
- KnowledgeLifecycle.Administration.CreateSource: payload validation, content upload and checksums are left out, as are the operation, audit and idempotency records of every route.
- KnowledgeLifecycle.Administration.IngestSource: the ingestion service is an outcome given as a parameter.
- KnowledgeRuns.NextKeeps: requests run one after another; the code does not serialise concurrent publishers.
- IdentitySimulation.AgreeExactlyWhenProper: asks that a created account's identifier is new, both stores drawing it at random; a stored hash with characters beyond ASCII, on which the fixture's comparison raises an exception, is not modelled; the order of listed accounts differs between the stores and is not modelled; reading accounts and sessions by identifier, held revisions, schema upgrades, dates and preferences are left out.
- KnowledgeRetrieval.Retriever.Search: reading single chunks, the connection status and manifest validation are left out; letter case beyond ASCII, the payload formats and the fingerprint function are left out; an index or state that cannot be read is one case each.
- `rename_model_profile` rewrites a flat field in the same way as the migration, without nesting or resumption.
- MockEvidenceStorage shares one map between uploads and generated content and does not refine the S3 adapter.
- HTTP routes, authorisation, settings, logging, front end and command lines are not part of this model.
