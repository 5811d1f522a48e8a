# Verified model of the configuration registry

This project models the parts of the registry that have to be right when several things happen at
once or something stops half-way, and proves what they promise. It covers:

- **The database engine** (`storage`, `recovery`, `requests`, `lock_table`, `engine*`): the live files,
  `.revision` and the transaction journal as a disk changed by atomic steps; calls to `writeMany`,
  `snapshot` and `read` as processes with program counters; path locks and the publication lock; failures, crashes
  and recoveries at any step. The content hash is taken as injective. `write_lock`, `journal` and
  `db_engine` are the same code as objects whose methods are proved to take exactly those steps.
- **Product operations** (`schema`, `builder`, `form_rules`, `registry`, `products`, `serial`, `consistency`,
  `visibility`, `safety`, `key_*`, `edit_safety`, `product_*`): all seven operations as functions of a
  snapshot, and again as the imperative `ProductMutation` proved to do what the functions say; exactly when
  each is refused and for which reason, and exactly what each leaves behind; that the preconditions they
  commit with make them serialisable and lose no editor's update; and that the tree stays consistent over
  every run and, where the write order promises it, after every single write.
- **Attribution** (`engine_events`, `attribution`, `attribution_*`): the same engine with the log of its
  events and the synchronization to Git, run together: from a committed call's changes through the
  pending and sending files to a Git commit and its message.
- **The read path** (`long_poll`, `config_client`): the cache, held-open requests and the client.
- **Small kernels** (`base32`, `break_glass`, `request_sid`).

`wrappers`, `text` and `documents` hold what these share: optional values, the string order behind every
sort, paths and YAML values. YAML is a datatype, and parsing what was stringified gives the value back.
Encryption is a constructor that decryption removes. Which strings are http(s) URLs, how `String(…)`
spells a value and which keys `.sops.yaml` seals are parameters.

Where the code does less than it seems to promise, the model follows the code, a lemma gives an input
that shows it, and another says exactly when the promise holds:

- Retiring a product consults `archived/`, which is not among the paths the commit checks
  (`RetirementMissesArchive`, `Serialisable`). The product digest that deletion and archiving can be
  asked to match also covers files that are not YAML, which the commit does not check either
  (`ArchivingMissesDigest`).
- Adding keys writes values before the schema (`AdditionPassesThroughBroken`, `AddSafeIff`); the ordering
  table in `docs/system-design.md` does not list that operation.
- `.revision` is written through a temporary beside it. A kill before the rename leaves that file in the
  tree, where nothing removes it, every snapshot shows it and the next sync commits it
  (`TornKillReachesGit`, `CrashTreeIff`, `CrashLosesNothing`, `TemporariesStay`).
- A sync that follows a failed one without a restart drops what the failed one was sending
  (`RetryWithoutRecoveryLoses`, `RetryLosesIff`).
- `recover` rewrites `pending.jsonl` in place, so a kill while it does can lose entries
  (`KillInRecoverLoses`, `BootIsSafeIff`).
- An author whose write lands between the rename of `pending.jsonl` and the snapshot may never be named,
  though Git holds the change (`LateAuthorIsNeverNamed`, `CommitNamesItsChangesIff`).
- The schema builder passes drafts the validator refuses (`BuilderAcceptsTooMuch`, `BuiltSchemaParses`).
- A commit message lists files as given when none is configuration (`MessageShowsFileOrder`,
  `MessageIsCanonical`); the mirror always gives them sorted.
- A client that loads twice can show defaults beside an old commit (`SecondLoadMixes`, `SecondLoadKeepsIff`).
- An identifier minted after the clock steps back, or after a millisecond's counter has overflowed, can
  sort before the last (`StepBackReorders`, `NextIdSorts`, `NextIsLaterIff`).

Run `dafny verify dfyconfig.toml` to check everything.

## Model

| member | source | states |
|---|---|---|
| `Recovery.CrashAtomicity` | src/store/transaction-journal.ts:85-154 | A publication killed after any step, then recoveries killed any number of times, then one that completes: the database is the old one if no intent was recorded and otherwise the new one, one revision on; no journal is left and recovering again changes nothing; beside the files that were there before lies one temporary of `.revision` for each kill, of the publication or of a recovery, between creating and renaming it |
| `Recovery.CrashTreeIff` | src/store/file-writer.ts:20-43 | The tree a reader then sees is exactly the old or the new database if and only if no temporary lay in it before and no kill fell between creating and renaming one |
| `Recovery.FinishRuns` | src/store/data-layer.ts:337-356 | Finishing a recorded transaction, however much of it was already done, takes only legal steps and ends with every target in place, the intent's revision, its events appended and its directory gone |
| `Recovery.RecoverRuns` | src/store/data-layer.ts:113-121 | A recovery that runs to its end leaves exactly the version the disk stood for, an empty journal, and every event of the transaction it finished |
| `Storage.StepKeeps` | src/store/transaction-journal.ts:111-119 | No legal step on a recoverable disk changes the version it stands for, nor makes it unrecoverable |
| `Storage.PutIntentCommits` | src/store/transaction-journal.ts:85-97 | Recording the intent is the commit point: before it the disk stands for the old version, after it for the intent's |
| `EngineSteps.ActionKeeps` | src/store/data-layer.ts:225-323 | Every action of any caller, failure, crash or recovery step keeps the engine's whole invariant |
| `EngineTheorems.Linearisable` | src/store/data-layer.ts:123-323 | Over every interleaving, committed versions are a sequential history in which each call's ETag, read and directory preconditions held at its publication; every answer (written, unchanged, conflict, snapshot, read) is the one that history gives at a point no earlier than the call's arrival, and after it for a call's own commit; a snapshot is that version and the temporaries of `.revision` left by then, and the version alone if and only if there were none |
| `EngineTheorems.AnswerHolds` | src/store/data-layer.ts:257-319 | A call told written or unchanged: the version at its point holds the content asked for in every file it named |
| `EngineTheorems.RealTimeOrder` | src/store/data-layer.ts:225-323 | If one call has its answer before another arrives, the first one's point in the history comes no later than the second's, across crashes and reused names too |
| `EngineOrder.OneOrder` | src/store/data-layer.ts:123-323 | One point for every answer of a run at once, those lost in a crash included: at these points the history gives all of the answers, each lies between its call's arrival and its answer, they follow the order of the answers, strictly for a write, and a call that came after an answer came after its point |
| `EngineTheorems.RevisionsAreConsecutive` | src/store/data-layer.ts:309-310 | The n-th committed version has the first revision plus n |
| `EngineTheorems.WrittenRevisionsAreUnique` | src/store/data-layer.ts:309-319 | Two calls, of one process or of two with crashes between them, are never told they wrote the same revision |
| `EngineTheorems.HistoryOnlyGrows` | src/store/data-layer.ts:311-318 | No run, crashes included, loses or rewrites a committed version |
| `EngineTheorems.CrashLosesNothing` | src/store/data-layer.ts:113-121 | Kill the process in any reachable state: one completed recovery leaves the last committed version, no journal, and one more temporary of `.revision` than at first for each time a kill, or a failed removal, left one; the tree is exactly that version if and only if none ever was |
| `EngineTheorems.TemporariesStay` | src/store/data-layer.ts:169-170 | A temporary left behind is in the tree ever after, under a name no call can touch |
| `EngineStrays.ActionLeaves` | src/store/file-writer.ts:20-43 | Every action keeps the account of the temporaries: on disk are those left behind and the one now awaiting its rename, no two alike, and each snapshot shows those left when it was taken |
| `EngineTheorems.ReadersSeeCommitted` | src/store/data-layer.ts:151-184 | Whoever holds the publication lock of a healthy engine to read finds the last committed version, no half-done transaction, and every temporary of `.revision` ever left; the version alone if and only if none was |
| `EngineTheorems.JournalDiscipline` | src/store/transaction-journal.ts:123-147 | At most one intent is ever on disk and it can be finished; while orphans are swept no caller has a transaction to lose; the directory of a transaction being staged, or staged and waiting to publish, stays |
| `EngineTheorems.NeverDeadlocked` | src/store/data-layer.ts:374-383 | In every reachable state with an unfinished call, once recovery is over, some unfinished call can take its own next step |
| `EngineTidy.NothingLeftStaged` | src/store/data-layer.ts:270-305 | In every run, a call that was answered (anything but a failure) has left no journal directory behind, and one that throws while staging takes its own with it unless that fails too |
| `EngineProgress.StepsAreProgress` | src/store/data-layer.ts:225-323 | Every step of a call brings that call strictly nearer its end and moves no other call |
| `EngineProgress.NoEndlessRun` | src/store/data-layer.ts:225-323 | No run in which calls only take their own steps goes on for ever, however they take turns |
| `EngineProgress.AllCanFinish` | src/store/data-layer.ts:225-383 | From every reachable state with recovery over, calls taking their own steps bring every call to its end |
| `EngineLocks.BodiesAreDisjoint` | src/store/data-layer.ts:240-270 | Two calls past their path locks mutate different files |
| `EngineLocks.SomeCallCanAdvance` | src/store/data-layer.ts:374-383 | Sorted nested path locks with the publication lock innermost leave some call enabled |
| `EngineEvents.EveryCommitIsAttributed` | src/store/data-layer.ts:345-354 | In every reachable state each commit's changed files have had their events handed to onWrite under their author, or the intent to hand them over from is still on disk; with no intent left, all have |
| `EngineEvents.FinishPays` | src/store/data-layer.ts:342-354 | Finishing a transaction drops its intent only after every one of its events is out, and hands those out only after its revision is on disk |
| `EngineEvents.EventsFollowTheirChanges` | src/store/data-layer.ts:337-356 | In every run, crashes included, each event handed to onWrite is of a revision `.revision` has reached, and a committed version of that revision holds what the event says |
| `Requests.PublishChanged` | src/store/data-layer.ts:264-269 | Publishing only the mutations whose hash differs publishes everything that was asked for |
| `Requests.UnchangedIsIdentity` | src/store/data-layer.ts:307-308 | Nothing changed exactly when the request asks for the database as it is |
| `Requests.PermittedIff` | src/store/data-layer.ts:243-305 | A request is let through exactly where every file it expects or read is the one it names, present or absent, and every directory it listed holds just those names |
| `WriteLocks.WriteLock.Enter` | src/git/write-lock.ts:34-40 | A body starts only when none is running, and the one that starts is the earliest arrival |
| `WriteLocks.WriteLock.Leave` | src/git/write-lock.ts:41-46 | Returning or throwing, the finally block passes the lock to the next arrival |
| `WriteLocks.TurnsComeInArrivalOrder` | src/git/write-lock.ts:25-37 | The promise a caller awaits is resolved exactly when it is the earliest arrival unfinished |
| `WriteLocks.FirstCallerCanEnter` | src/git/write-lock.ts:34-46 | The first caller in the queue is never stuck, whatever became of those before it |
| `Journal.FileWriter.InstallStage` | src/store/file-writer.ts:50-57 | A rename moves the staged payload to its target in one step |
| `Journal.FileWriter.WriteRevision` | src/store/file-writer.ts:20-43 | Two steps, the temporary created and then renamed over `.revision`; run to its end it leaves the other temporaries as they were |
| `Journal.TransactionJournal.Prepare` | src/store/transaction-journal.ts:50-83 | Every payload is staged under its index and no live file changes |
| `Journal.TransactionJournal.Apply` | src/store/transaction-journal.ts:100-121 | Either nothing is touched because a payload is missing or corrupt, or the steps taken are the apply script and every target matches its hash |
| `Journal.TransactionJournal.CollectIntents` | src/store/transaction-journal.ts:123-144 | The listing's transactions without an intent are swept, the others returned, and no intent is lost |
| `Journal.TransactionJournal.PendingIntents` | src/store/transaction-journal.ts:123-147 | What is returned is the recorded transactions, lowest revision first |
| `DatabaseEngine.DBEngine.Finish` | src/store/data-layer.ts:337-356 | Refused for an unexpected revision or payload with nothing changed; otherwise exactly the finish script |
| `DatabaseEngine.DBEngine.Recover` | src/store/data-layer.ts:113-121 | The first call takes the disk through the recovery script; later calls change nothing |
| `DatabaseEngine.DBEngine.WriteMany` | src/store/data-layer.ts:225-323 | A call alone is answered from its preconditions alone; written means the database is exactly what was asked for, one revision on, with an event for every changed file; a conflict names a place whose precondition is false; written or unchanged, the ETags answered are those of exactly the files asked for, as they then stand |
| `DatabaseEngine.EtagsAreThose` | src/store/data-layer.ts:257-262 | The ETag answered for a file is that of the content it has in the database asked for, none for a deletion |
| `DatabaseEngine.NextWriteIsNotRefused` | src/store/data-layer.ts:240-253 | A next write that expects the ETags an answer carried is not refused for its expectations while those files stay as they are |
| `Schemas.StripMetadata` | src/store/metadata.ts:32-38 | The loop drops exactly the metadata keys |
| `Schemas.VersionRoundTrip` | src/store/metadata.ts:23-38 | A bumped counter reads back one higher and leaves the configuration as it was |
| `Schemas.UnsealSealed` | src/store/sops.ts:86-110 | Decrypting what was encrypted under a key gives the value back, lists included |
| `Schemas.ResolveEncrypted` | src/store/loader.ts:21-26 | Resolving an encrypted document gives the document that was encrypted, under the same keys |
| `Schemas.Validate` | src/schema/validator.ts:194-221 | Exactly the faulty keys are reported, and none is exactly when the document is accepted (what a definition permits: `PermitsIff`) |
| `Schemas.PermitsIff` | src/schema/validator.ts:224-292 | What each type accepts: exactly the whole numbers within the bounds, the two booleans, the strings, the strings listed, the http(s) URLs, the lists of strings; ciphertext exactly under a secret key, whatever its type; never null |
| `Schemas.BelowIsOrder` | src/schema/validator.ts:258-264 | Bounds are compared by a strict order, total but for NaN and the usual one on finite numbers |
| `Schemas.ParsedSays` | src/schema/validator.ts:364-402 | An entry is read exactly if its type is known, an enum lists values, its bounds leave room and its default is a value it permits; the definition then says what the fields say, and nothing else |
| `Schemas.SchemaReads` | src/schema/validator.ts:301-362 | Which files are schemas, and what each then says: shape version 1, a boolean mark if any, and keys each of which can be read |
| `Schemas.ResolveIff` | src/store/loader.ts:21-60 | What a stored file says: nothing if it is empty, its fields as they are without a `sops` block; with one, unreadable exactly if something under a sealed key was never encrypted |
| `Schemas.ParseEntries` | src/schema/validator.ts:339-362 | The loop parses every entry or refuses the file |
| `Schemas.ParsedIsCoherent` | src/schema/validator.ts:364-402 | A parsed definition can be met, and its default is a value it permits |
| `Schemas.DefaultsFor` | src/schema/validator.ts:174-180 | Exactly the keys with a default, each with its own |
| `Schemas.DefaultsAreAccepted` | src/schema/validator.ts:174-180 | For every readable schema, its defaults pass its own validation |
| `Schemas.AcceptsFewer` | src/schema/validator.ts:194-221 | Dropping definitions and values together keeps a valid document valid |
| `Schemas.AcceptsMerged` | src/schema/validator.ts:194-221 | One valid document laid over another is valid |
| `Schemas.FromTree` | src/schema/validator.ts:90-110 | Loads exactly when every product schema can be read, and then holds each product's own |
| `Builder.CheckKey` | src/schema/builder.ts:68-169 | Reports every flaw a draft has and no other, and remembers its name |
| `Builder.BuildSchema` | src/schema/builder.ts:177-208 | Succeeds exactly when no draft has a flaw; otherwise every problem of every draft is reported at once |
| `Builder.DeclarationParses` | src/schema/builder.ts:186-205 | What is written for a flawless draft parses exactly when the draft is sound, and then to the definition it asked for |
| `Builder.BuiltSchemaParses` | src/schema/builder.ts:171-208 | The builder refines the validator if and only if every draft is sound: an enum lists values, a listed default is a string, a URL default is an http(s) URL, no default is spelled like ciphertext; the keys then are those asked for |
| `Builder.BuilderAcceptsTooMuch` | src/schema/builder.ts:116-121 | An enum with nothing to choose from passes the builder and is refused by the validator |
| `FormRules.CleanIff` | src/schema/builder.ts:68-169 | The form passes exactly the drafts of capital-letter names, all different, of a known type, with bounds only on whole numbers and in order, values only for strings, no value in a secret, and a default that is listed or of the type and within the bounds |
| `FormRules.TrimIs` | src/schema/builder.ts:70 | Trimming takes the white space off both ends of a name and nothing else |
| `FormRules.AskedSays` | src/schema/builder.ts:186-205 | What the definition of a draft says, field by field: listed values make it an enum, a blank description is none, a secret has no default |
| `Registry.NamespaceSplitsOnce` | src/namespace.ts:11-13 | A namespace is one service and one environment in one way only |
| `Registry.NamespaceIff` | src/namespace.ts:11-13 | A namespace is exactly two segments around a slash |
| `Registry.ServiceRegistry.Index` | src/identity/registry.ts:50-69 | Succeeds exactly when no two services claim one uid, and then holds each under its own |
| `Registry.ServiceRegistry.FromYaml` | src/identity/registry.ts:71-86 | Loads exactly the well-formed files with distinct uids |
| `Registry.LoadsIff` | src/identity/registry.ts:14-43 | The well-formed files: version 1, and entries each with a name, a whole uid and at least one `<service>/<environment>`; they declare those services, in order |
| `Registry.ServiceRegistry.IdentifiesTheClaimant` | src/identity/registry.ts:94-96 | A uid identifies the one declared service that claims it |
| `Registry.ServiceRegistry.MayReadIsTheGrantTable` | src/identity/registry.ts:104-108 | A caller may read exactly what the file grants its uid under its name, whatever grants it claims |
| `Serialisability.Serialisable` | src/store/product-write-operations.ts:122-154 | If the engine accepts writes computed from a stale snapshot, the operation computes exactly those from the database it changes, if and only if its out-of-read-set guard holds there and every product schema there can be read; without those guards, whenever the schemas can be read |
| `Serialisability.PermittedIsCovered` | src/store/product-write-operations.ts:474-484 | Acceptance means every path read or written, and the listing, are as they were in the snapshot |
| `EditSafety.PermittedIsCoveredIff` | src/store/product-write-operations.ts:474-484 | A commit is let through exactly where all it read, all it writes and its listing are as in its snapshot |
| `EditSafety.EditIff` | src/store/product-write-operations.ts:411-413 | An edit of values, or an addition of keys, that carries an ETag is accepted exactly if it would be without one and the file is the one the ETag is of; with nothing else wrong it is refused as a conflict otherwise |
| `EditSafety.EditFindsItsFile` | src/store/product-write-operations.ts:255-262 | No lost update: an edit computed from any snapshot, if let through later, replaces exactly the file whose ETag its author gave |
| `Serialisability.RetirementMissesArchive` | src/store/product-write-operations.ts:179-180 | The archive consulted before retiring is not read under a precondition: a concrete snapshot and database where the retirement is accepted though it would now refuse |
| `ProductExamples.ArchivingMissesDigest` | src/store/product-write-operations.ts:315-325 | A concrete archiving is accepted though a file its digest covered has gone and it would now refuse |
| `Consistency.ParseKeysSplit` | src/store/product-write-operations.ts:242-244 | A schema of old and new keys reads as the old definitions beside the new |
| `Consistency.SchemaWithKeys` | src/store/product-write-operations.ts:291-296 | Replacing the keys of a readable schema changes nothing else it says |
| `Consistency.EncodedIsOk` | src/store/product-write-operations.ts:438-464 | An encoded document passes the schema its values passed, shows no secret, and reads back as what was encoded |
| `ProductSafety.CreateSafe` | src/store/product-write-operations.ts:106-118 | Creation keeps the tree consistent after every single write |
| `ProductSafety.ArchiveSafe` | src/store/product-write-operations.ts:340-346 | Archiving keeps the tree consistent after every single write |
| `ProductSafety.ValuesSafe` | src/store/product-write-operations.ts:404-437 | Writing values keeps the tree consistent |
| `ProductSafety.RetireSafe` | src/store/product-write-operations.ts:181-184 | Marking or unmarking a product keeps the tree consistent |
| `KeyEdits.DeleteSafe` | src/store/product-write-operations.ts:297-310 | Deleting keys keeps the tree consistent after every single write |
| `KeyEdits.DeleteNeverOrphans` | src/store/product-write-operations.ts:302-304 | On a consistent tree a deletion is never refused for what it would leave behind |
| `KeyAdditions.AddConsistent` | src/store/product-write-operations.ts:231-276 | An addition, once all of it has landed, leaves the tree consistent |
| `KeyAdditions.AddSafeIff` | src/store/product-write-operations.ts:271-276 | The tree is consistent after every single write of an addition if and only if no draft brings a default |
| `ProductExamples.AdditionPassesThroughBroken` | src/store/product-write-operations.ts:271-276 | A concrete accepted addition with a default leaves the tree inconsistent after its first write |
| `ProductTheorems.OperationKeepsConsistency` | src/store/product-write-operations.ts:62-349 | Every operation on a consistent database asks for a consistent database |
| `ProductTheorems.EveryPrefixIsConsistent` | src/store/product-write-operations.ts:106-346 | Every prefix of an operation's installs leaves a consistent tree, if and only if it is not an addition with defaults |
| `ProductTheorems.InstallsAreConsistent` | src/store/data-layer.ts:264-269 | The installs the engine really makes, unchanged files left out, pass through consistent trees only |
| `ProductRuns.StaleOperationKeeps` | src/store/product-write-operations.ts:474-484 | An operation computed from any old file set, if it is let through, leaves the tree consistent |
| `ProductRuns.RunsStayConsistent` | src/store/product-write-operations.ts:122-154 | Over every run of the engine, with operations interleaved and crashes anywhere, every committed version and every snapshot, stray temporaries and all, is consistent: names and uids unique, every declared service with a schema, every file valid, every secret hidden |
| `ProductRuns.NoLostUpdate` | src/store/product-write-operations.ts:404-413 | Over every run of the engine, a committed edit that carried an ETag replaced exactly the file that ETag is of, whatever was published since its author read it |
| `ProductDecisions.WriteDecides` | src/store/product-write-operations.ts:156-169 | Writing values, decided on every consistent tree: each refusal for exactly its own reason, in order (unknown product, undeclared environment, a file that has moved on from the one the editor saw, an ill-named environment, metadata named, an invalid document, an exhausted counter, a secret left in the clear), and accepted otherwise |
| `ProductDecisions.ChangesTake` | src/store/product-write-operations.ts:414-419 | After the changes each key named has the last value given for it and every other key its own |
| `ProductDecisions.RetireDecides` | src/store/product-write-operations.ts:177-181 | Retiring is refused exactly for an unknown product, or, marking without force, beside an archive |
| `ProductDecisions.PromoteDecides` | src/store/product-write-operations.ts:188-208 | Promotion, decided: each refusal for exactly its own reason, among them a target that is not next, a secret, and a key not set in the source; past those only the counter or a secret of the target can refuse it |
| `KeyDecisions.AddDecides` | src/store/product-write-operations.ts:219-276 | Adding keys, decided: each refusal for exactly its own reason, among them an environment that is not the lowest, a flawed or clashing draft, an unsound default, and a file that has moved on; it never fails validation |
| `KeyDecisions.AddEffect` | src/store/product-write-operations.ts:231-276 | The schema defines exactly the drafted keys beside its own, the lowest environment holds their defaults beside its own values, one version on if that is a change, and no other file changes |
| `KeyDecisions.DefaultsUnique` | src/store/product-write-operations.ts:246-251 | Only one set of values holds each draft's default under its own name |
| `KeyDecisions.DeleteDecides` | src/store/product-write-operations.ts:286-310 | Deleting keys, decided: past the digest, the product and the selection it is refused exactly if some environment that holds a selected key cannot be stored again |
| `KeyDecisions.KeyEditsRevalidate` | src/store/product-write-operations.ts:266-304 | On any tree, in order or not: a change of keys is accepted only if every document of the product passes the schema it leaves, and a deletion is refused for orphans only if one would not |
| `ProductOutcomes.PerformOpens` | src/store/product-write-operations.ts:122-140 | An ill-named product, an unreadable schema and an unreadable registry are refused; otherwise the operation acts on exactly what the snapshot holds |
| `ProductOutcomes.IdentifierIff` | src/store/product-write-operations.ts:46 | A product or environment name is letters, digits and dashes of which the first is a letter |
| `ProductOutcomes.OrderIs` | src/store/environment-order.ts:23-38 | The declared order is the strings of the file, all of it if it holds nothing else |
| `ProductOutcomes.DigestIff` | src/store/product-write-operations.ts:47-59 | Two databases have one product digest exactly if they agree on every file the product is made of |
| `ProductOutcomes.CreateDecides` | src/store/product-write-operations.ts:76-105 | Creation, decided: each refusal for exactly its own reason (a reserved name, a bad uid, a name or uid taken, data there already, environments not distinct and declared, an unreadable schema, defaults that are invalid, secret or metadata), and accepted otherwise |
| `ProductOutcomes.CreateEffect` | src/store/product-write-operations.ts:106-118 | The schema is the one given, each environment holds the defaults as version 1, the registry grants one more product exactly its environments, and no other file changes |
| `ProductOutcomes.GrantedLast` | src/store/product-write-operations.ts:106-118 | The registry is untouched until the last write of a creation |
| `ProductOutcomes.RetireEffect` | src/store/product-write-operations.ts:181-184 | Marking leaves a schema that reads as retiring and unmarking one that does not; its keys, every other field and every other file are as before |
| `ProductOutcomes.ArchiveDecides` | src/store/product-write-operations.ts:320-327 | Archiving, decided: refused exactly for a digest that has moved, an unknown product, one not marked, or an archive there already without force |
| `ProductOutcomes.ArchivedFirst` | src/store/product-write-operations.ts:340-346 | After any number of writes of an archiving, if any file is gone the grant is gone and the whole archive is there |
| `ProductOutcomes.RecordsAreExact` | src/store/product-write-operations.ts:427-434 | Each write of each operation records exactly the keys it is about: for an edit those whose value changes, or all it names if none does |
| `ProductEffects.ValuesEffect` | src/store/product-write-operations.ts:427-436 | The document takes exactly the changes; a new file gets version 1, an old one goes up by one if its configuration changed and stays the same file if not; no other file changes |
| `ProductEffects.UnnamedKept` | src/store/product-write-operations.ts:414-419 | Keys an edit does not name keep their values |
| `ProductEffects.PromoteNeverInvalid` | src/store/product-write-operations.ts:196-206 | Promotion on a consistent tree never fails schema validation |
| `ProductEffects.PromoteEffect` | src/store/product-write-operations.ts:196-206 | Promotion copies exactly the selected values; no other key and no other file changes |
| `ProductEffects.DeleteEffect` | src/store/product-write-operations.ts:290-310 | Exactly the selected keys leave the schema and every environment, each document one version on if it changed |
| `ProductEffects.ArchiveEffect` | src/store/product-write-operations.ts:328-346 | The archive holds when and by whom, the registry entry and every live text as it was; the product's schema, environments and grant are gone; no other file changes |
| `ProductFrame.PlansAreTidy` | src/store/data-layer.ts:233-238 | An accepted operation never asks for one path twice, nor for another product's files |
| `ProductFrame.OthersUntouched` | src/store/product-write-operations.ts:122-154 | No operation on one product changes another's files |
| `ProductFrame.CreateKeepsGrants` | src/store/product-write-operations.ts:113-118 | Creation changes no other product's grants |
| `ProductFrame.ArchiveKeepsGrants` | src/store/product-write-operations.ts:340-343 | Archiving takes away the product's grants and no other's |
| `ProductMutations.ProductMutation.SetValues` | src/store/product-write-operations.ts:404-437 | Pushes exactly the write, and records exactly the read, that the plan for these values has, or refuses for the same reason (decided by `WriteDecides`, a stale ETag included) |
| `ProductMutations.ProductMutation.EncodeDocument` | src/store/product-write-operations.ts:438-464 | The loop over the keys refuses exactly the documents with a filled secret left in the clear |
| `ProductMutations.ProductMutation.EditAll` | src/store/product-write-operations.ts:254-275 | The loop over the environments pushes every rewrite in order, or stops at the first refusal |
| `ProductMutations.ProductMutation.CreateProduct` | src/store/product-write-operations.ts:66-120 | Writes, reads and refusals are those of the creation plan (`CreateDecides`, `CreateEffect`) |
| `ProductMutations.ProductMutation.WriteProductValues` | src/store/product-write-operations.ts:156-169 | Writes, reads and refusals are those of the plan for writing values (`WriteDecides`, `ValuesEffect`, `EditIff`) |
| `ProductMutations.ProductMutation.MarkRetiring` | src/store/product-write-operations.ts:171-186 | Writes, reads and refusals are those of the retirement plan (`RetireDecides`, `RetireEffect`) |
| `ProductMutations.ProductMutation.PromoteValues` | src/store/product-write-operations.ts:188-208 | Writes, reads and refusals are those of the promotion plan (`PromoteDecides`, `PromoteEffect`) |
| `ProductMutations.ProductMutation.AddProductKeys` | src/store/product-write-operations.ts:210-278 | Writes, reads and refusals are those of the addition plan (`AddDecides`, `AddEffect`) |
| `ProductMutations.ProductMutation.DeleteProductKeys` | src/store/product-write-operations.ts:280-312 | Writes, reads and refusals are those of the deletion plan (`DeleteDecides`, `DeleteEffect`) |
| `ProductMutations.ProductMutation.ArchiveProduct` | src/store/product-write-operations.ts:314-348 | Writes, reads and refusals are those of the archiving plan (`ArchiveDecides`, `ArchiveEffect`) |
| `ProductMutations.ProductMutation.Commit` | src/store/product-write-operations.ts:474-484 | Every write carries the ETag its path had, every path read is checked, and so is the listing |
| `ProductMutations.Run` | src/store/product-write-operations.ts:122-154 | One action over one snapshot: the request of its plan, each write in its author's name and with the keys the plan records, or its refusal |
| `Attribution.WriteJournal.Append` | src/store/write-journal.ts:27-35 | The entry goes last |
| `Attribution.WriteJournal.Rotate` | src/store/write-journal.ts:37-50 | What was pending is now being sent; nothing is lost if and only if nothing was being sent before |
| `Attribution.WriteJournal.Recover` | src/store/write-journal.ts:73-94 | Run to its end, what peek shows is unchanged, orphaned entries first, and nothing is left being sent (what a kill in between does: `BootIsSafeIff`) |
| `Attribution.Mirror.MirrorSnapshot` | src/store/sync-engine.ts:124-134 | The destination's visible files become exactly the snapshot; every file of either is listed, sorted |
| `Attribution.MessageIsCanonical` | src/store/sync-engine.ts:83-104 | The message depends on the sets of actors, keys and files only, if and only if some file is configuration or the two listings read the same |
| `Attribution.ReplayGivesTheSameMessage` | src/store/sync-engine.ts:83-104 | Entries repeated or reordered by a replay give the identical message |
| `Attribution.MessageShowsFileOrder` | src/store/sync-engine.ts:92-93 | Two orders of one file list give different messages when none is configuration |
| `Attribution.MessageSays` | src/store/sync-engine.ts:83-104 | The message line by line: the namespaces of the configuration files, or else the files, then exactly the keys and the authors of the entries, each once and in order, and a trailer for each author |
| `Attribution.NamespaceOfConfig` | src/store/sync-engine.ts:90 | A configuration file is named in the subject by the namespace it holds |
| `Attribution.SyncEngine.PerformSync` | src/store/sync-engine.ts:61-80 | A commit is made exactly when the snapshot differs from the last; it holds the snapshot and names what was pending; only a failed commit leaves entries behind |
| `AttributionRuns.NothingIsLostIff` | src/store/write-journal.ts:27-94 | Over any interleaving of engine actions, syncs, failures and kills, every line ever appended is in the log, was named by a commit or was dropped by a clean sync, if and only if no sync began over lines a failed one left unsettled and no kill fell in a recover that held lines in memory alone |
| `AttributionRuns.RetryLosesIff` | src/store/write-journal.ts:37-50 | What a sync after a failed one drops depends on how far that one got: nothing before the rename or after its commit or clean status; in between every line being sent, but those a recovery had put back after they were settled |
| `AttributionRuns.BootIsSafeIff` | src/store/write-journal.ts:73-94 | A boot can be killed anywhere without loss if and only if, before it, every pending line was being sent as well |
| `AttributionRuns.RewrittenIsReached` | src/store/write-journal.ts:91 | Each point of the rewrite those kills fall on is reached by the boot |
| `AttributionHistory.EveryChangeReachesGit` | src/server.ts:81-107 | Over every run from a new installation without a losing step, each file a committed call changed is owed by an intent on disk, or recorded under its author by a line that is still in the log, named by a Git commit that holds that version or a later one, or dropped while Git held such a version |
| `AttributionHistory.NeverAhead` | src/store/sync-engine.ts:61-73 | When a commit is made it holds a committed version and the temporaries of `.revision` left when its snapshot was taken, all left before the rename of pending among them; the version alone if and only if there were none; and every line it names records a change that version or an earlier one made |
| `AttributionHistory.DroppedIsCommitted` | src/store/sync-engine.ts:66-70 | A line dropped by a clean sync is of a revision no later than a version Git then held, with what temporaries lay beside it |
| `AttributionHistory.CommitNamesItsChangesIff` | src/store/sync-engine.ts:61-73 | After a commit every event of its snapshot's revision or below has been named, or dropped before, if and only if none was appended between the rename of pending and the snapshot |
| `AttributionHistory.ChangeIsNamedIff` | src/store/sync-engine.ts:61-73 | One change at a time: it is named or dropped by then if and only if a line recording it was appended before the rename |
| `AttributionHistory.SnapshotIsReported` | src/store/data-layer.ts:151-184 | Every change of the version a commit holds had been handed to onWrite when the snapshot was taken; no event ever reports the temporaries beside it |
| `AttributionHistory.MessageNamesTheAuthor` | src/store/sync-engine.ts:83-104 | The commit message has a trailer for the author of every line the commit names |
| `AttributionExamples.RetryWithoutRecoveryLoses` | src/store/write-journal.ts:37-50 | A concrete run, from a new installation, in which a sync after a failed one loses a line |
| `AttributionExamples.KillInRecoverLoses` | src/store/write-journal.ts:91 | A concrete run in which a kill while recover rewrites pending loses a line, which no later run brings back |
| `AttributionExamples.LateAuthorIsNeverNamed` | src/store/sync-engine.ts:61-73 | A concrete run without a losing step in which Git holds a change, both files are empty, and no commit ever names its author |
| `AttributionExamples.TornKillReachesGit` | src/store/file-writer.ts:20-43 | A concrete run, from a new installation, of a kill between creating and renaming the temporary of `.revision`, one recovery and one sync: Git holds a file that no committed version has and no event reports, and every later state of the tree has it |
| `EngineSolo.RenamePoint` | src/store/data-layer.ts:343-344 | Whatever run of calls moves `.revision` has a moment at which such a kill can fall |
| `LongPoll.ConfigCache.ReloadWith` | src/store/cache.ts:50-76 | The tree is replaced whole and exactly the waiters it makes stale are woken and removed |
| `LongPoll.ConfigCache.WaitForChange` | src/routes/internal.ts:65-84 | A waiter stays registered exactly when the commit is still the one it has |
| `LongPoll.NoLostWakeup` | src/routes/internal.ts:65-84 | In every run of a server from its start, a held request is registered and the cache still has its commit, a registered waiter is a held request, and every 200 pairs the values and commit of one reload |
| `LongPoll.ReloadWakesTheStale` | src/store/cache.ts:67-75 | A reload wakes every held request that is now stale and no other |
| `LongPoll.EveryAnswerWasDue` | src/routes/internal.ts:98-160 | In every run, whoever was answered was answered at a moment when the answer was due: refused exactly without the grant; not-modified exactly for a request let go at its reader's own commit; else, if and only if the tree then held the namespace, its commit, its values without metadata, the flags of its environment, its retirement and the last synced commit; absent if and only if it did not |
| `LongPoll.HeldIff` | src/routes/internal.ts:110-112 | A request is held exactly if it is granted and names the commit the cache is at |
| `LongPoll.LetGoIsAnswered` | src/routes/internal.ts:65-84 | A held request that times out is let go at once, and one let go is answered when it next runs |
| `LongPoll.SyncedIsTheLast` | src/store/cache.ts:34-66 | The synced commit a 200 carries is the last one reported, by a reload or by a push |
| `LongPoll.GrantsAreTheLast` | src/routes/internal.ts:98-114 | The grants and retirements in force are those last loaded |
| `ConfigClients.CacheRoundTrip` | src/client/config-client.ts:246-300 | A client's own cache file comes back whole; another service's is never used |
| `ConfigClients.CacheIsUsedIff` | src/client/config-client.ts:246-272 | A cache file is used exactly if it is the service's own and has a commit and values; missing flags are none |
| `ConfigClients.ConfigClient.Load` | src/client/config-client.ts:65-75 | Defaults, or the service's own cache file laid over them |
| `ConfigClients.ConfigClient.Apply` | src/client/config-client.ts:181-191 | Values, flags and commit are taken over together, the cache file is replaced or, if that write fails, stays, and the handlers run exactly when the commit is new |
| `ConfigClients.ConfigClient.Refresh` | src/client/config-client.ts:112-129 | Anything but a 200 leaves everything in place; the result says whether the commit moved |
| `ConfigClients.ConfigClient.Watch` | src/client/config-client.ts:147-161 | The loop applies every answer that is one, in order, and survives the others |
| `ConfigClients.OneAnswerAtATime` | src/client/config-client.ts:65-84 | After its one load a client's values, flags and commit always come from one answer |
| `ConfigClients.SecondLoadKeepsIff` | src/client/config-client.ts:67-75 | A later load keeps the three together if and only if there is a cache file, or no answer had come, or that answer overrode none of the new defaults |
| `ConfigClients.SecondLoadMixes` | src/client/config-client.ts:67-75 | A concrete second load shows a default beside the commit that overrode it |
| `Base32.SymbolIs` | src/auth/base32.ts:7 | The alphabet is that of table 3 of RFC 4648 |
| `Base32.PushAppends` | src/auth/base32.ts:19 | The 32-bit wrap of the never-masked accumulator keeps every bit that is still pending |
| `Base32.EncodeBase32` | src/auth/base32.ts:30-46 | The digits' bits are the bytes' bits, zeros filling the last group; there are ceil(8n/5) of them (section 6 of RFC 4648) |
| `Base32.EncodingIsUnique` | src/auth/base32.ts:30-46 | At most one digit string encodes given bytes |
| `Base32.DecodeBase32` | src/auth/base32.ts:9-28 | Case, padding and white space aside, refuses exactly the inputs with a foreign character; otherwise gives the whole bytes at the front of the digits' bits |
| `Base32.DecodingInvertsEncoding` | src/auth/base32.ts:9-46 | Whatever decodes an encoding is what was encoded |
| `Base32.RoundTrip` | src/auth/base32.ts:9-46 | Every byte string survives the trip, also in lower case and with padding |
| `BreakGlassGate.CodeIsFixedWidth` | src/auth/totp.ts:25-43 | A code has exactly its width in decimal digits and writes the truncated digest's low digits |
| `BreakGlassGate.TruncatedIs` | src/auth/totp.ts:32-39 | Of a digest of twenty bytes, the number whose bits are those of four of its bytes without the first, starting where the low half of the last byte says (section 5.3 of RFC 4226) |
| `BreakGlassGate.VerifyTotp` | src/auth/totp.ts:55-74 | The loop finds the newest step within tolerance whose code was given and which is unspent |
| `BreakGlassGate.SucceedsIff` | src/auth/break-glass.ts:130-166 | What becomes of an attempt, in every step of thirty seconds: it succeeds if and only if iam is down, a record exists, the password is right and the code is that of an unspent step within tolerance, and then spends the newest such step; it is refused exactly while iam is up, and throws exactly over an unreadable secret or a step before the epoch |
| `BreakGlassGate.BreakGlass.TryIn` | src/auth/break-glass.ts:123-169 | Only a success spends a counter; every attempt alerts once, but one that throws over an unreadable secret or a clock before the epoch |
| `BreakGlassGate.CodesAreSpentOnce` | src/auth/break-glass.ts:112-169 | However attempts interleave, accepted counters strictly increase, and those made within a span of time number at most the steps it touches and one more |
| `BreakGlassGate.RefusalsSpendNothing` | src/auth/break-glass.ts:132-138 | Attempts refused because iam is up change neither the counters the others spend nor what is spent in the end, wherever they fall |
| `RequestSid.Minter.Uuidv7` | src/logging/request-sid.ts:17-46 | The bytes are laid out in place as RFC 9562 asks, the rest staying random, and the text is their grouped hexadecimal |
| `RequestSid.TimeNeverGoesBack` | src/logging/request-sid.ts:21-32 | The timestamp never decreases, whatever the clock does |
| `RequestSid.NextIsLaterIff` | src/logging/request-sid.ts:21-32 | The next stamp is later if and only if the clock has not run behind the last one used or the fresh counter comes out higher |
| `RequestSid.IdsSortAsMinted` | src/logging/request-sid.ts:17-46 | While the clock is not behind, identifiers sort as strings in the order they were minted, whatever their random parts |
| `RequestSid.RoomInAMillisecond` | src/logging/request-sid.ts:21-28 | Within one millisecond the counter goes up by one each time until it overflows |
| `RequestSid.FirstLeavesRoom` | src/logging/request-sid.ts:29-32 | The first identifier of a millisecond leaves room for at least 2048 more |
| `RequestSid.NextIdSorts` | src/logging/request-sid.ts:17-46 | Of two strings minted in turn in any run the second sorts after the first if the clock had not fallen behind or the fresh counter is higher, and before it if the clock had and the counter is lower, whatever their random parts |
| `RequestSid.StepBackReorders` | src/logging/request-sid.ts:28-32 | From the start, on a clock that reads 10 and then 9: of the two strings minted the second sorts first |

## Left out

- Git, SSH, SOPS and scrypt processes: a commit, a push and a decryption either happen or fail.
- HMAC and SHA: a digest is a constructor, or a function from counters to bytes.
- YAML and JSON text, regular expressions over it, URL parsing: values and predicates stand for them.
- A malformed `.revision` file and a malformed intent, both of which the engine refuses to read.
- Directory nesting, symbolic links and file modes: files live in a flat set of directories. Of path legality only the leading dot is modelled; a call that names an illegal path throws before it arrives.
- Torn lines: a line of the log, a staged payload, an intent and a removal are single steps; rewriting a file in place is one step a line; `.revision` takes two, and its temporary holds any text from the first.
- Temporaries of staged payloads, intents and mirrored files: recovery sweeps the first two with their directory, and the next mirror removes the third.
- Fairness: calls are shown to end if they keep taking steps, not that the host lets each of them.
- The order in which directories list files: environments are visited, and files mirrored, in name order.
- Texts of error messages: each refusal has its own constructor.
- Concurrent edits of one `ProductMutation`, and the callback after a commit.
- `Serialisable`: the encryption nonces and the archive's date are the same on both sides, as parameters.
- `RunsStayConsistent`: `.sops.yaml` does not change during a run, and other writers leave products' files alone.
- Names in `services.yaml` that are themselves ciphertext or file text count as malformed.
- `IdsSortAsMinted`: stops at 48 bits of milliseconds, where the source's timestamp wraps.
- `mirrorTree`, used only when no snapshot reader is given, and the files of a mirror half written: Git is asked only once it is whole.
- `bootstrapFrom`, which fills an empty database from Git before its first start.
- The global `schema.yaml`, flags, the scheduler, `RepositoryState`, HTTP routing, views and settings: they would add only easy members.
