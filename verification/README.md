# Wisphive: a verified model of its stateful cores

Wisphive's daemon sits between coding agents and a human approver. This project
models the parts of it that are protocols, state machines or transformations
with written invariants, and proves what those parts promise:

- **Terminal attach** (`Terminal`, `TerminalProtocol`, `TerminalScreen`,
  `TerminalHistory`, `TerminalTheorems`, `TerminalProgress`). A PTY reader, input and resize handlers, a database batcher and any number of
  viewers share one session. Sequence numbers are assigned under the parser
  lock, and sending a frame is a later step. Every interleaving, including a
  respawn after a crash, is a sequence of steps over one state; a history of all
  epochs remembers the output that a respawn forgets.
- **Event ingest** (`Ingest`, `IngestProtocol`, `IngestNames`, `IngestTheorems`,
  `IngestProgress`). Hooks append to `events.jsonl`; the daemon tails, rotates, recovers, prunes, crashes and
  restarts. Files are inodes with names, so a hook can keep writing to a file
  that has been renamed or deleted.
- **Decision queue** (`Queue`, `QueueTheorems`, `QueueAnswers`). Four collections that must agree,
  one-shot reply channels, and the claim/complete path of managed spawns.
- **Codex hook audit** (`CodexAudit`, `CodexAuditTheorems`, `CodexLayers`,
  `CodexPluginHooks`, `CodexAuditMeaning`, `Inspector`, `InspectorTheorems`, `SemVer`, `SemVerTheorems`). The recorded audit of hook
  sources, the worklist over configuration layers, the JSON inspector, and the
  version order that selects the active plugin.
- **Stop ladder** (`StopLadder`). SIGTERM, grace, SIGKILL, confirmation, against an
  operating system that answers arbitrarily from the whole history.
- **Hook installer** (`ShellQuote`, `ShellGrammar`, `HookInstall`, `HookInstallTheorems`). A quoter and
  a parser that undo each other, and the JSON edit and unedit built on them.
- **Config transaction** (`ConfigTxn`, `ConfigTheorems`), **replay limiter** (`ReplayGate`), **brick
  detector** (`Brick`) and **snapshot comparison** (`Snapshot`).

State that the source updates in place is a class whose methods are proved
against functions on values; loops are loops with invariants. Protocols are
state machines in which a step that is not enabled changes nothing, so a run is
any finite sequence of steps, and theorems about runs quantify over all of them.
`Lists`, `Orders`, `Json` and `PathNames` hold shared vocabulary.

Some properties one might expect hold only under a condition. Each is proved
together with a concrete failure and the exact condition:

- A failed database batch leaves a hole in a viewer's seed
  (`FailedBatchLeavesAGap`). `SeedComplete` says when the rows below a boundary
  are complete, `SeamlessOutput` when seed and live output are one piece of
  everything the session ever output, `SeedReachesCap` when the seed goes as far
  back as the byte cap allows.
- A hook that holds a segment open as its recovery ends can lose a line
  (`StragglerLosesALine`); a write is lost if and only if its file has lost its
  last name (`WriteLosesIff`), and a nameless file never gets a name again
  (`NamelessForever`).
- Version comparison is not transitive on sets that mix SemVer and other names
  (`MixedVersionsCycle`, `OrderedIffNoStraddling`).
- The Codex form of a hook command is not recognised when the path looks like a
  flag (`DashedPathNotRecognised`, `CodexFormRecognised`). The installer passes
  the directory of the running executable joined with the binary's name, or the
  bare name (`crates/wisphive_daemon/src/hook_install.rs:317-329`): on Linux that is
  an absolute path or does not start with a dash, so the case arises only where
  the system reports the executable by a relative path.
- Uninstalling drops a user's rule with an empty list of hooks
  (`EmptyRuleDropped`); `UninstallUnchangedIff` says when nothing changes.
- Reusing a decision id under an outstanding claim delivers a cancelled decision
  (`ReuseDelivers`, `CancelledNeverDelivered`).

Where code and comments disagree the model follows the code: the comment at
`crates/wisphive_daemon/src/event_ingest.rs:217-222` says failed segments are never
re-read, but startup recovery does read them (lines 307-362).

`dafny verify dfyconfig.toml` checks the whole project.

## Model

| member | source | states |
|---|---|---|
| `Terminal.TailOutput` | crates/wisphive_daemon/src/state/terminals.rs:594-632 | the seed is the newest rows the byte cap and the row limit admit: the newest always, further ones only while below the cap and not past it, and as many as that |
| `Terminal.SeedAdmitted` | crates/wisphive_daemon/src/state/terminals.rs:594-632 | the seed has the one length these rules admit |
| `Terminal.TerminalSession.constructor` | crates/wisphive_daemon/src/terminal.rs:709-713 | a session starts at the given sequence base with nothing sent and nothing persisted |
| `Terminal.TerminalSession.IngestOutput` | crates/wisphive_daemon/src/terminal.rs:183-207 | screen, sequence number and high-water mark move together |
| `Terminal.TerminalSession.AssignCommandSeq` | crates/wisphive_daemon/src/terminal.rs:442-505 | input and resize take a number under the same lock; input leaves the screen alone and a resize sets its rows to the rows and its columns to the columns asked for |
| `Terminal.TerminalSession.Broadcast` | crates/wisphive_daemon/src/terminal.rs:200-206 | sending appends to the channel and changes nothing else |
| `Terminal.TerminalSession.Attach` | crates/wisphive_daemon/src/terminal.rs:237-244 | boundary, snapshot, subscription and settle target are read in one piece |
| `Terminal.TerminalSession.NotePersisted` | crates/wisphive_daemon/src/terminal.rs:1005-1017 | the watermark moves to the one computed from the batch |
| `Terminal.NotedWatermarkIsLeast` | crates/wisphive_daemon/src/terminal.rs:1005-1017 | that watermark is the least number not below the old one that is past every output of the batch |
| `TerminalProtocol.NextKeeps` | crates/wisphive_daemon/src/terminal.rs:183-277 | every step of every thread keeps the invariant relating frames, channel, pipeline, rows and viewers |
| `TerminalProtocol.RunKeeps` | crates/wisphive_daemon/src/terminal.rs:183-277 | the invariant holds after every interleaving |
| `TerminalProtocol.BatchInsertedKeeps` | crates/wisphive_daemon/src/terminal.rs:1059-1067 | every row of a batch is new to the table, and the invariant survives the insert |
| `TerminalProtocol.BatchFailedKeeps` | crates/wisphive_daemon/src/terminal.rs:1059-1067 | a dropped batch keeps the invariant, with its frames counted as lost |
| `TerminalProtocol.RespawnKeeps` | crates/wisphive_daemon/src/terminal.rs:709-713 | a respawned session starts above every stored row and changes none of them |
| `TerminalTheorems.ExactlyOnce` | crates/wisphive_daemon/src/terminal.rs:209-251 | in every run a viewer's snapshot, after the epoch's seed, shows exactly the frames below its boundary, one change each and input none, and each later frame is in exactly one of three places: not yet sent, not yet received, or accepted once |
| `TerminalTheorems.SnapshotShows` | crates/wisphive_daemon/src/terminal.rs:209-251 | in every run the bytes a viewer's snapshot was fed after the seed are the output below its boundary, byte for byte, its size is that of the last resize below it, rows and columns apart, and the seed holds the bytes of the seeded rows, oldest first |
| `TerminalTheorems.RespawnShowsSeed` | crates/wisphive_daemon/src/terminal.rs:709-760 | after any run a respawn that could read the rows starts its screen with exactly their bytes, oldest first, and then the banner |
| `TerminalTheorems.DrainedViewer` | crates/wisphive_daemon/src/server.rs:3291-3322 | with nothing in flight and the channel read to its end, the accepted frames are exactly the frames from the boundary on, each once |
| `TerminalTheorems.AcceptedOutputIsPrefix` | crates/wisphive_daemon/src/server.rs:3291-3322 | accepted live output is a prefix of the output produced from the boundary on, in order and without a hole |
| `TerminalTheorems.SeedComplete` | crates/wisphive_daemon/src/terminal.rs:257-277 | in every run, once a viewer's wait has ended without timing out, the rows below its boundary are those of earlier epochs followed by all output of this one up to there, if and only if none of that output was in a failed batch |
| `TerminalTheorems.SeamlessOutput` | crates/wisphive_daemon/src/terminal.rs:237-277 | for a viewer whose wait did not time out, seed followed by live output is one contiguous piece, ending the seed at the boundary, of all output of all epochs, if and only if no output missing from the database, from a failed batch or in flight at a crash, lies within the reach of the seed |
| `TerminalTheorems.SeedReachesCap` | crates/wisphive_daemon/src/state/terminals.rs:594-632 | the same viewer's seed is what the byte cap and row limit would give on all output of all epochs, if and only if none of that much is missing and the scan of the stored rows stops there too |
| `TerminalHistory.PriorIsWhatSurvived` | crates/wisphive_daemon/src/terminal.rs:709-713 | what an epoch starts from is, in order, all output of all earlier epochs except exactly what was in a failed batch or not yet handed to the database when its daemon died |
| `TerminalHistory.SeedIff` | crates/wisphive_daemon/src/state/terminals.rs:594-632 | for any history of stored and missing chunks: the seeds of the stored rows and of all output are equal under that condition and no other |
| `TerminalTheorems.RowsAreFresh` | crates/wisphive_daemon/src/terminal.rs:709-713 | over every run no insert is ever ignored: stored rows never change, new rows are stored as sent, and a respawn numbers above all of them |
| `TerminalTheorems.FailedBatchLeavesAGap` | crates/wisphive_daemon/src/terminal.rs:1059-1069 | a run in which the second of three batches fails, the third raises the watermark over it, the wait ends without timing out, and the seed has the first and third chunk without the second |
| `TerminalProgress.WaitEnds` | crates/wisphive_daemon/src/terminal.rs:253-277 | in every run a viewer's wait can end without timing out once no output is on its way to the database, unless the very output it waits for was in a failed batch |
| `TerminalProgress.ReceivesNext` | crates/wisphive_daemon/src/server.rs:3291-3322 | in every run a live viewer at most 256 frames behind takes the next frame, keeping it unless its snapshot holds it already; one further behind is cut off |
| `TerminalProgress.GoesLive` | crates/wisphive_daemon/src/server.rs:3240-3290 | timed out or not, a viewer goes live with the newest stored output rows below its boundary, as many as the cap admits, or with nothing when they cannot be read |
| `Ingest.IngestLine` | crates/wisphive_daemon/src/event_ingest.rs:424-526 | exactly a decision line adds its key, and a table without repeats stays so |
| `Ingest.ReimportAll` | crates/wisphive_daemon/src/event_ingest.rs:257-293 | success if and only if neither reading nor the database failed before the end of the file; then every line is recorded, and on failure all lines before the stop are; nothing is inserted twice or from elsewhere |
| `Ingest.PrunerSparesFailedSegments` | crates/wisphive_daemon/src/logging.rs:309-317 | of the files recovery reads, the pruner may delete the normal segments and never the failed ones |
| `Ingest.CollectRecoverySegments` | crates/wisphive_daemon/src/event_ingest.rs:382-416 | the scan collects exactly the names of readable regular files that start with events- and end in .jsonl, in order, each marked failed or not by whether it ends in .failed.jsonl; unreadable entries stop nothing |
| `IngestNames.NamesClassified` | crates/wisphive_daemon/src/event_ingest.rs:408-410 | the name of a rotated segment is a normal name and that of a failed one a failed name, whatever its stamp |
| `IngestNames.NamesDiffer` | crates/wisphive_daemon/src/event_ingest.rs:208-210 | different segments have different names |
| `IngestNames.FailedName` | crates/wisphive_daemon/src/event_ingest.rs:223-225 | replacing the extension of a segment's name gives the name of its failed form, though the stamp itself contains a dot |
| `IngestNames.CollectedIff` | crates/wisphive_daemon/src/event_ingest.rs:382-416 | in a readable directory that may hold other files, the scan collects a segment if and only if it is there |
| `IngestNames.CollectedIsListing` | crates/wisphive_daemon/src/event_ingest.rs:307-318 | any order of what was collected lists every segment of the directory exactly once |
| `IngestNames.ScanStartsRecovery` | crates/wisphive_daemon/src/event_ingest.rs:307-318 | so any order of what was collected may start the protocol's recovery |
| `IngestNames.PrunesExactly` | crates/wisphive_daemon/src/logging.rs:309-317 | of the segments of the directory the pruner's name test admits exactly those the protocol lets it delete |
| `IngestProtocol.NextKeeps` | crates/wisphive_daemon/src/event_ingest.rs:98-252 | every hook, startup, running and crash step keeps the invariant of files, names, handles and table |
| `IngestProtocol.RunKeeps` | crates/wisphive_daemon/src/event_ingest.rs:98-362 | it holds after every run |
| `IngestTheorems.NothingLost` | crates/wisphive_daemon/src/event_ingest.rs:98-362 | after any run every appended decision line is in the table or in a file that still has a name, except a line written to a recovered segment after its recovery had reached the end |
| `IngestTheorems.NothingLostWithoutStragglers` | crates/wisphive_daemon/src/event_ingest.rs:307-362 | without a hook holding a segment open as its recovery ends there is no exception |
| `IngestTheorems.StartupReadsEveryFile` | crates/wisphive_daemon/src/event_ingest.rs:307-416 | after any run a file that still has a name is the current log, or the startup scan of its directory collects its name |
| `IngestTheorems.EveryLineFound` | crates/wisphive_daemon/src/event_ingest.rs:98-416 | with the daemon down after any run, what the scan collects starts a recovery, and every line ever appended is in the table, in the current log, in a segment of that recovery, or past what was recovered of a deleted one |
| `IngestTheorems.InsertedAtMostOnce` | crates/wisphive_daemon/src/event_ingest.rs:257-293 | over every run no decision is inserted twice, and none that no hook wrote |
| `IngestTheorems.CleanStartupImportsEverything` | crates/wisphive_daemon/src/event_ingest.rs:98-190 | a startup without database or read errors has imported, when tailing begins, every line of every file it found, and a tail that caught up has imported the whole log |
| `IngestTheorems.RotationImportsEverything` | crates/wisphive_daemon/src/event_ingest.rs:203-252 | in every run, once a rotation that met no read or database error is over, every line of the log it took away is recorded |
| `IngestProgress.RotationCompletes` | crates/wisphive_daemon/src/event_ingest.rs:203-252 | from every reachable state in which the log is full, a rotation in which nothing fails files the log as a segment, records every line of it, and goes on tailing a new, empty log from its start |
| `IngestProgress.TailsOn` | crates/wisphive_daemon/src/event_ingest.rs:155-180 | in every run a line beyond the offset is read next, and a decision recorded unless the database refuses it |
| `IngestProgress.FollowsTheLog` | crates/wisphive_daemon/src/event_ingest.rs:133-153 | a log that was replaced or cut short is read from its start, any other not again |
| `IngestTheorems.StragglerLosesALine` | crates/wisphive_daemon/src/event_ingest.rs:307-362 | a run in which a full log is rotated, its import meets a database error, the daemon dies, the next startup recovers and removes the failed segment, and a hook that held it open all along writes a line that is lost |
| `IngestTheorems.WriteLosesIff` | crates/wisphive_daemon/src/event_ingest.rs:307-362 | in every reachable state a hook that writes a new decision loses it if and only if its file has no name left, and it has none only if some hook held a segment open as its recovery ended |
| `IngestTheorems.NamelessForever` | crates/wisphive_daemon/src/event_ingest.rs:98-362 | in every run a file without a name never has one again, so what is lost stays lost |
| `Queue.DecisionQueue.constructor` | crates/wisphive_daemon/src/queue.rs:46-62 | the queue starts empty |
| `Queue.DecisionQueue.Enqueue` | crates/wisphive_daemon/src/queue.rs:75-117 | an id in use is refused and nothing changes; otherwise a new channel, a pending item and one announcement |
| `Queue.DecisionQueue.FinalizeLocal` | crates/wisphive_daemon/src/queue.rs:120-137 | the id leaves all four collections, and it is announced resolved exactly when it was known |
| `Queue.DecisionQueue.ClaimDecision` | crates/wisphive_daemon/src/queue.rs:140-152 | succeeds exactly on a pending id with a sender, moving item and channel into the claim |
| `Queue.DecisionQueue.CompleteClaim` | crates/wisphive_daemon/src/queue.rs:155-168 | delivers exactly when the id is still claimed and the receiver is there |
| `Queue.DecisionQueue.Resolve` | crates/wisphive_daemon/src/queue.rs:171-195 | never touches a managed id; otherwise delivers and announces once |
| `Queue.DecisionQueue.ResolveAll` | crates/wisphive_daemon/src/queue.rs:200-225 | resolves exactly the matching unmanaged items, in order |
| `QueueTheorems.NextKeeps` | crates/wisphive_daemon/src/queue.rs:75-225 | every operation, and every loss of a claim or a receiver, keeps the queue and channel invariants |
| `QueueTheorems.RunKeeps` | crates/wisphive_daemon/src/queue.rs:75-225 | they hold after every run |
| `QueueAnswers.EnqueueAnswers` | crates/wisphive_daemon/src/queue.rs:75-117 | in every reachable state a free id is enqueued last on a channel of its own and announced once; one that is pending or claimed changes nothing |
| `QueueAnswers.FinalizeAnswers` | crates/wisphive_daemon/src/queue.rs:120-137 | finalizing removes the id everywhere, keeps everybody else in order, delivers nothing and announces exactly an id in use |
| `QueueAnswers.ClaimAnswers` | crates/wisphive_daemon/src/queue.rs:140-152 | a pending request is claimed with its own reply channel, everybody else staying as they were |
| `QueueAnswers.CompleteAnswers` | crates/wisphive_daemon/src/queue.rs:155-168 | a held claim of an id still claimed is announced and delivered on its channel if the receiver is there; otherwise nothing changes |
| `QueueAnswers.ResolveAnswers` | crates/wisphive_daemon/src/queue.rs:171-195 | a pending request no managed spawn waits for is delivered exactly this decision on its own channel if the receiver is there, and announced exactly once, everybody else staying as they were |
| `QueueAnswers.ResolveIgnores` | crates/wisphive_daemon/src/queue.rs:171-195 | resolving a managed or unknown id changes nothing |
| `QueueAnswers.ResolveAllAnswers` | crates/wisphive_daemon/src/queue.rs:200-225 | a bulk decision answers exactly the pending requests its filter lets through that are not managed, in order, each once on its own channel, and leaves all others pending in order |
| `QueueAnswers.StaysPendingIff` | crates/wisphive_daemon/src/queue.rs:200-225 | a pending request stays pending if and only if it is managed or the filter does not let it through |
| `QueueTheorems.CollectionsAgree` | crates/wisphive_daemon/src/queue.rs:75-195 | in every reachable queue sender keys are the ids of a repeat-free pending list, disjoint from the claimed ids, and managed ids lie in their union |
| `QueueTheorems.BroadcastBalance` | crates/wisphive_daemon/src/queue.rs:75-195 | announcements minus resolutions of an id are one exactly while it is pending or claimed, else zero |
| `QueueTheorems.RepliesOnce` | crates/wisphive_daemon/src/queue.rs:155-195 | no reply channel ever carries two decisions |
| `QueueTheorems.AnswersTheAsker` | crates/wisphive_daemon/src/queue.rs:155-225 | in every run a delivery goes out on the channel opened for the very request that the delivering step names, with its decision |
| `QueueTheorems.ManagedOnlyByCompletion` | crates/wisphive_daemon/src/queue.rs:155-225 | in every run a step that delivers to a managed spawn is the completion of a claim somebody holds, on that claim's channel and with its decision |
| `QueueTheorems.CancelledNeverDelivered` | crates/wisphive_daemon/src/queue.rs:120-168 | unless an id was enqueued again under an outstanding claim, a decision finalized while claimed is never delivered |
| `QueueTheorems.ReuseDelivers` | crates/wisphive_daemon/src/queue.rs:155-168 | from every reachable state with a cancelled claim held, enqueueing its id again lets the holder deliver on the cancelled channel |
| `QueueTheorems.CancelledClaimReachable` | crates/wisphive_daemon/src/queue.rs:120-152 | such a state is reached for any request |
| `SemVer.CompareIdentifiers` | crates/wisphive_daemon/src/process_registry.rs:1208-1284 | the loop over both identifier iterators computes the lexicographic comparison of the two lists |
| `SemVer.JoinSplit` | crates/wisphive_daemon/src/process_registry.rs:1167-1206 | splitting at a separator loses nothing |
| `SemVerTheorems.PreIdIsTotalOrder` | crates/wisphive_daemon/src/process_registry.rs:1224-1236 | pre-release identifiers are totally ordered and equal only when identical |
| `SemVerTheorems.BuildIdIsTotalOrder` | crates/wisphive_daemon/src/process_registry.rs:1260-1275 | so are build identifiers, leading zeros included |
| `SemVerTheorems.NumeralsByValue` | crates/wisphive_daemon/src/process_registry.rs:1229-1231 | comparing numerals by length and then text is comparing the numbers they spell |
| `SemVerTheorems.ParseInjective` | crates/wisphive_daemon/src/process_registry.rs:1167-1206 | a parsed version determines its string |
| `SemVerTheorems.ParseExactly` | crates/wisphive_daemon/src/process_registry.rs:1153-1206 | a string parses to a version if and only if it is its text and the version is well formed: three decimals within 64 bits, pre-release and build of dotted identifiers of letters, digits and hyphens, a numeric pre-release identifier being a number in decimal |
| `SemVerTheorems.EqualMeansIdentical` | crates/wisphive_daemon/src/process_registry.rs:1286-1297 | on strings that parse, Equal means identical strings |
| `SemVerTheorems.SemVerOrder` | crates/wisphive_daemon/src/process_registry.rs:1286-1297 | on strings that parse, the comparison is antisymmetric and transitive |
| `SemVerTheorems.RefinesPrecedence` | crates/wisphive_daemon/src/process_registry.rs:1208-1297 | it is the precedence of section 11 of Semantic Versioning 2.0.0, ties broken by build metadata alone: absent before present, then identifier by identifier, numbers by value and then by their digits and before other texts, which compare as text |
| `SemVerTheorems.OrderedIffNoStraddling` | crates/wisphive_daemon/src/process_registry.rs:1286-1297 | on any set of versions it is transitive if and only if no unparsable name lies, as text, between two versions that compare the other way round |
| `SemVerTheorems.UniformSetsAreOrdered` | crates/wisphive_daemon/src/process_registry.rs:1286-1297 | in particular when all of the set parses or none of it |
| `SemVerTheorems.MixedVersionsCycle` | crates/wisphive_daemon/src/process_registry.rs:1286-1297 | 1.9.0, 1.10.0 and 1.5 compare in a circle |
| `SemVerTheorems.ActiveIsUniqueMaximum` | crates/wisphive_daemon/src/process_registry.rs:1363-1368 | without `local`, the last of any sorted arrangement is the one version greater than all others |
| `Inspector.InspectHookValue` | crates/wisphive_daemon/src/process_registry.rs:455-612 | the three nested loops compute the fold over events, rules and hooks, refusing at the first refusal |
| `InspectorTheorems.InspectionMeans` | crates/wisphive_daemon/src/process_registry.rs:552-611 | an accepted document's gate positions are exactly the PreToolUse hooks that are not disabled and run the expected command; each has the empty matcher, is neither asynchronous nor conditional in rule or hook, and for Claude has a timeout, its own, its rule's or 600, above the daemon's; the foreign list names exactly the other enabled hooks by type and command, once each |
| `InspectorTheorems.AcceptedIff` | crates/wisphive_daemon/src/process_registry.rs:455-612 | a document is refused if and only if it, a rule or a hook has the wrong shape, it switches all Codex hooks off, or an enabled PreToolUse hook running the expected command is asynchronous, conditional, not for every tool, or too short for the daemon, all said of the JSON fields |
| `InspectorTheorems.FreshInstallAccepted` | crates/wisphive_daemon/src/hook_install.rs:139-172 | for every configured timeout, a fresh Claude install is accepted with its gate at (0, 0) and nothing foreign by exactly the daemons whose timeout is less than the effective one plus a hundred seconds |
| `InspectorTheorems.SameConfigurationAccepts` | crates/wisphive_daemon/src/config.rs:340-347 | the daemon that shares the clamped configuration accepts |
| `Inspector.EffectiveHookTimeout` | crates/wisphive_daemon/src/config.rs:169-179 | the effective timeout is the number of seconds from 10 to 86400 nearest to the configured one, and 3600 when none is |
| `CodexAudit.ScanLayers` | crates/wisphive_daemon/src/process_registry.rs:1943-2057 | the worklist loop terminates and computes the walk over layers |
| `CodexAudit.VisitServes` | crates/wisphive_daemon/src/process_registry.rs:1956-2057 | after each turn whatever a visited layer asks for is queued, and the queue grows only by visiting an existing file for the first time |
| `CodexAudit.AuditSnapshot.constructor` | crates/wisphive_daemon/src/process_registry.rs:668-691 | an empty snapshot |
| `CodexAudit.AuditSnapshot.RecordRead` | crates/wisphive_daemon/src/process_registry.rs:698-713 | a read returns the file's text and records its digest or absence, even when decoding fails |
| `CodexAudit.AuditSnapshot.VerifyUnchanged` | crates/wisphive_daemon/src/process_registry.rs:720-781 | succeeds if and only if every recorded digest and absence holds and, for Codex, the user scan, the enabled plugins and the rebuilt inventory are the same |
| `CodexAuditTheorems.VerdictIsStable` | crates/wisphive_daemon/src/process_registry.rs:1876-2149 | if the audit accepts one file system and its snapshot is found unchanged on another, the audit accepts the other with the same gate, gate locations and foreign list |
| `CodexAuditTheorems.UntouchedVerifies` | crates/wisphive_daemon/src/process_registry.rs:720-781 | on the file system that was audited, verification always succeeds |
| `CodexAuditTheorems.WalkAgrees` | crates/wisphive_daemon/src/process_registry.rs:1943-2057 | file systems that agree on everything recorded give the same walk |
| `CodexAuditTheorems.FilesAgree` | crates/wisphive_daemon/src/process_registry.rs:2083-2120 | and the same inspection of hook files |
| `CodexAuditTheorems.PluginsAgree` | crates/wisphive_daemon/src/process_registry.rs:2062-2148 | an equal rebuilt inventory and equal recorded hook files give the same plugin verdict, whatever manifests produced it |
| `CodexAuditTheorems.ActiveRootIsGreatest` | crates/wisphive_daemon/src/process_registry.rs:1303-1370 | the active root is `local` or that of the one greatest installed version |
| `CodexAuditMeaning.AcceptedAuditMeans` | crates/wisphive_daemon/src/process_registry.rs:1822-1864 | an accepted audit has the project file's gate, every layer the child would read is absent or lets that gate run, its inventory holds exactly the hook sources the enabled plugins contribute, and its foreign list names exactly the foreign hooks of all sources: project and user files, reachable layers, and the files and inline definitions of those plugins |
| `CodexAuditMeaning.AuditAcceptedIff` | crates/wisphive_daemon/src/process_registry.rs:1876-2149 | the audit accepts if and only if the project's hook file passes the inspection, so does the user's if there is one, every reachable layer is absent or lets the gate run, and the enabled plugins have valid keys, can be collected, and contribute only sources that pass |
| `CodexAuditMeaning.ForeignListedOnce` | crates/wisphive_daemon/src/process_registry.rs:1925-1940 | an accepted audit lists each foreign hook once, however many sources report it |
| `CodexAuditMeaning.AuditRecordsReads` | crates/wisphive_daemon/src/process_registry.rs:693-713 | every hook file, reachable layer and governing manifest an accepted audit read is in its snapshot, with its digest or as absent |
| `CodexLayers.RefusedIff` | crates/wisphive_daemon/src/process_registry.rs:1985-2040 | a layer is refused if and only if it disables hooks, allows only managed ones, records a gate hook, by path, rule and hook number, as anything but enabled, or records a key out of format |
| `CodexLayers.KeyShapedIff` | crates/wisphive_daemon/src/process_registry.rs:1799-1822 | the format test accepts exactly an absolute path to a hooks.json, an event name, a rule and a hook index joined by colons, colons in the path included |
| `CodexAuditMeaning.BareProjectAccepted` | crates/wisphive_daemon/src/process_registry.rs:1883-1957 | with nothing but an acceptable project hook file the audit accepts, reporting exactly that file's gate positions and hooks |
| `CodexAuditMeaning.PluginSwitchPrecedence` | crates/wisphive_daemon/src/process_registry.rs:2062-2065 | after the whole walk, plugins load unless the project's layer says no, or it is silent and the selected profile's says no, or both are silent and the user's says no; a file that is two of these counts once, as the user's before the project's before the profile's |
| `CodexPluginHooks.CollectedIff` | crates/wisphive_daemon/src/process_registry.rs:1486-1644 | the collection finds exactly the files and inline definitions that the governing manifest of a plugin's active root declares, or the default file where it declares none |
| `CodexPluginHooks.CollectAllOkIff` | crates/wisphive_daemon/src/process_registry.rs:1486-1644 | the collection succeeds if and only if every plugin's place can be listed or is empty, its active root is a directory, its manifest is a JSON object, and what that declares is permitted paths only, well-formed inline definitions only, or nothing with a sound default |
| `CodexPluginHooks.VersionsAre` | crates/wisphive_daemon/src/process_registry.rs:1337-1362 | the installed versions are exactly the subdirectories with a version's name |
| `CodexPluginHooks.EnabledIff` | crates/wisphive_daemon/src/process_registry.rs:1100-1133 | the enabled plugins are exactly those some configured entry names as name and marketplace joined by an at sign and does not switch off |
| `CodexPluginHooks.CollectedFilesInside` | crates/wisphive_daemon/src/process_registry.rs:1377-1436 | every one of those files is a regular file inside the real location of the active root, or that root's one default file |
| `PathNames.AtOrBelowIff` | crates/wisphive_daemon/src/process_registry.rs:1418-1426 | a path is inside a root if and only if the root's components are the first of its own; in characters, the root itself or the root, a slash and anything |
| `CodexAuditTheorems.LayersVisitedExactly` | crates/wisphive_daemon/src/process_registry.rs:1943-2057 | when no layer is refused the walk visits the three roots and exactly the layers reachable through existing layers' profiles, no profile layer twice, and at most three more layers than there are files |
| `StopLadder.SignalGroup` | crates/wisphive_daemon/src/process_registry.rs:2387-2400 | an id not above one is refused without a system call |
| `StopLadder.ProcessGroupGone` | crates/wisphive_daemon/src/process_registry.rs:2407-2412 | only an ESRCH from the probe counts as gone |
| `StopLadder.StopManaged` | crates/wisphive_daemon/src/process_registry.rs:2761-2841 | against any behaviour: Ok exactly when the last event is a probe that found the group empty, after reaping the leader with the returned status; SIGTERM first and once, SIGKILL at most once, at the first clock reading past the grace and at no other time, with the leader if unreaped, only this group and only above one; every poll asks after the leader until it is reaped, probes the group at once when it is and at every poll after; the history holds the system's own answers; at most 160 sleeps; Err only after SIGKILL and a full confirmation period without finding the group empty |
| `StopLadder.SafeAppend` | crates/wisphive_daemon/src/process_registry.rs:2780-2840 | which next actions keep a history of the ladder safe |
| `ConfigTxn.ConfigStore.constructor` | crates/wisphive_daemon/src/config.rs:643-658 | the store starts with the given content and no temporary files |
| `ConfigTxn.ConfigStore.WriteAtomic` | crates/wisphive_daemon/src/config.rs:643-677 | the content is replaced or untouched, and the temporary name is gone either way |
| `ConfigTxn.ConfigStore.UpdateJson` | crates/wisphive_daemon/src/config.rs:836-849 | without a fault the content becomes what the mutation makes of the object in the file, or of an empty one where there is none; garbage, a non-object, a rejected mutation and a system fault each give their own error and leave the content |
| `ConfigTxn.NextKeeps` | crates/wisphive_daemon/src/config.rs:692-751 | every step of every caller, and every crash, keeps exclusion, lock order and explained outcomes |
| `ConfigTxn.RunKeeps` | crates/wisphive_daemon/src/config.rs:692-880 | they hold after every run |
| `ConfigTheorems.FileIsSerialReplay` | crates/wisphive_daemon/src/config.rs:867-880 | with any number of callers and crashes anywhere, the file is the initial content with the committed updates applied one after another, in the order the lock was taken |
| `ConfigTheorems.EachCommitApplies` | crates/wisphive_daemon/src/config.rs:836-880 | with any number of callers and crashes anywhere, there is a sequence of contents from the initial one to the file in which each commit's mutation is accepted and applied to what the one before it left |
| `ConfigTheorems.UndisturbedCallAnswers` | crates/wisphive_daemon/src/config.rs:643-849 | from every reachable state a call nobody disturbs returns, with success exactly when its mutation accepts what the file holds and no system call fails, else with the error of what went wrong first; it frees its locks and leaves no temporary file |
| `ConfigTheorems.OnePerProcess` | crates/wisphive_daemon/src/config.rs:690-703 | of the callers of one process at most one is in the transaction |
| `ConfigTheorems.DeadStaysDead` | crates/wisphive_daemon/src/config.rs:680-690 | after a crash no caller of that process holds a lock or goes on, and what its calls had returned stands |
| `ConfigTheorems.TmpNamesNotReused` | crates/wisphive_daemon/src/config.rs:654-658 | no two writes of one process use the same temporary name |
| `ConfigTheorems.SuccessIsCommitted` | crates/wisphive_daemon/src/config.rs:836-849 | a call that returned success is committed, its mutation applied to the state it saw when it took the lock |
| `ConfigTheorems.FailureChangesNothing` | crates/wisphive_daemon/src/config.rs:782-795 | a call that returned an error is not committed; corrupt means the file was garbage, not-an-object that it was something else than an object, rejected that the mutation gave that reason |
| `ConfigTheorems.UnreadableIsKept` | crates/wisphive_daemon/src/config.rs:840-845 | a file that is not a JSON object is never overwritten in any run |
| `ShellQuote.ParseSingle` | crates/wisphive_daemon/src/hook_install.rs:512-521 | the single-quote loop follows the parser inside quotes |
| `ShellQuote.ParseDouble` | crates/wisphive_daemon/src/hook_install.rs:522-532 | so does the double-quote loop, with backslash escapes |
| `ShellQuote.ParseArgv0` | crates/wisphive_daemon/src/hook_install.rs:506-544 | the cursor loops compute the parser of argv[0] |
| `ShellQuote.RecogniseHookCommand` | crates/wisphive_daemon/src/hook_install.rs:460-494 | the loop over an `env` prefix computes the recogniser |
| `ShellQuote.QuoteRoundTrip` | crates/wisphive_daemon/src/hook_install.rs:441-450 | argv[0] of the quoted form of any non-empty path is that path, alone or before whitespace and any text |
| `ShellQuote.ClaudeFormRecognised` | crates/wisphive_daemon/src/hook_install.rs:460-494 | the Claude form is recognised if and only if the path's base name is `wisphive-hook` |
| `ShellQuote.CodexFormRecognised` | crates/wisphive_daemon/src/hook_install.rs:434-439 | the Codex form is recognised if and only if moreover the path is not a plain one starting with a dash |
| `ShellGrammar.Argv0Iff` | crates/wisphive_daemon/src/hook_install.rs:500-544 | the parser yields a text if and only if the command starts with a word of the shell grammar, of bare, escaped, single- and double-quoted pieces up to whitespace or the end, that stands for it |
| `ShellGrammar.RunsIff` | crates/wisphive_daemon/src/hook_install.rs:460-490 | the command text is what follows leading whitespace and, after env, its flags and assignments, unset flags with their operand |
| `ShellGrammar.RecognisedIff` | crates/wisphive_daemon/src/hook_install.rs:452-494 | a command is recognised if and only if it runs a program whose base name is wisphive-hook |
| `ShellGrammar.QuotedIff` | crates/wisphive_daemon/src/hook_install.rs:441-450 | a path is written as it is if and only if it has only letters, digits and four marks; otherwise in single quotes |
| `PathNames.FileNameIsLastNamed` | crates/wisphive_daemon/src/hook_install.rs:488-493 | the base name is the last component of the path that is neither empty nor a dot, unless that goes up |
| `ShellQuote.DashedPathNotRecognised` | crates/wisphive_daemon/src/hook_install.rs:476-484 | such a path is taken for a flag of `env` |
| `HookInstall.UpdateHooksOf` | crates/wisphive_daemon/src/hook_install.rs:553-563 | the inner loop updates exactly our hooks of a rule and says whether there were any |
| `HookInstall.UpdateExistingWisphiveHooks` | crates/wisphive_daemon/src/hook_install.rs:546-576 | the rules array is updated in place to the updated rules, and found tells whether any was ours |
| `HookInstall.SettingsDocument.constructor` | crates/wisphive_daemon/src/hook_install.rs:207-216 | the document read |
| `HookInstall.SettingsDocument.EnsureHooksObject` | crates/wisphive_daemon/src/hook_install.rs:218-236 | an absent hooks member becomes an empty object; anything but an object is refused and nothing changes |
| `HookInstall.SettingsDocument.AddHookEntry` | crates/wisphive_daemon/src/hook_install.rs:389-432 | succeeds exactly when there is a hooks object, leaving the installed document, else nothing changes |
| `HookInstall.SettingsDocument.RemoveHookEntries` | crates/wisphive_daemon/src/hook_install.rs:595-617 | leaves the document without our hooks under the event |
| `HookInstallTheorems.InstallTwice` | crates/wisphive_daemon/src/hook_install.rs:389-432 | for any recognised command installing twice is installing once |
| `HookInstallTheorems.InstalledUpToDate` | crates/wisphive_daemon/src/hook_install.rs:405-429 | after installing, the event has a hook of ours, and every hook of ours under it carries the wanted command and timeout |
| `HookInstallTheorems.OursIff` | crates/wisphive_daemon/src/hook_install.rs:546-576 | our entries are exactly those whose command is a string that runs wisphive-hook |
| `HookInstallTheorems.InstallAllTwice` | crates/wisphive_daemon/src/hook_install.rs:158-160 | so is installing a whole list of events twice |
| `HookInstallTheorems.InstalledEach` | crates/wisphive_daemon/src/hook_install.rs:158-160 | the loop over events edits each listed event and no other |
| `HookInstallTheorems.UninstallAfterInstall` | crates/wisphive_daemon/src/hook_install.rs:595-617 | uninstalling after installing is uninstalling alone if and only if the event was already listed |
| `HookInstallTheorems.UninstallLeavesEmptyList` | crates/wisphive_daemon/src/hook_install.rs:401-403 | otherwise an empty list stays behind |
| `HookInstallTheorems.ForeignHooksKept` | crates/wisphive_daemon/src/hook_install.rs:546-617 | neither installing nor uninstalling changes, drops or reorders anybody else's hooks under any event, or touches anything outside the event's list |
| `HookInstallTheorems.UpdateTouchesOnlyOurs` | crates/wisphive_daemon/src/hook_install.rs:546-588 | a rule without our hook is untouched, and in a mixed rule only our entries change |
| `HookInstallTheorems.ForeignAfterRemove` | crates/wisphive_daemon/src/hook_install.rs:590-617 | removal keeps the foreign hooks in order and leaves none of ours |
| `HookInstallTheorems.UninstallKeepsRules` | crates/wisphive_daemon/src/hook_install.rs:600-615 | the rules left are one for one those with something of anybody else's in them, each with its matcher and other fields and its foreign hooks in order |
| `HookInstallTheorems.RuleKeptIff` | crates/wisphive_daemon/src/hook_install.rs:600-615 | a rule is dropped if and only if every hook in it is ours, which an empty list meets |
| `HookInstallTheorems.UninstallUnchangedIff` | crates/wisphive_daemon/src/hook_install.rs:595-617 | uninstalling leaves a document as it was if and only if no rule of the event has a hook of ours or an empty list of hooks |
| `HookInstallTheorems.EmptyRuleDropped` | crates/wisphive_daemon/src/hook_install.rs:600-609 | a user's rule with an empty list of hooks is dropped, though nothing in it is ours |
| `ReplayGate.ReplayRateLimiter.constructor` | crates/wisphive_daemon/src/replay_gate.rs:48-50 | ten grants per sixty seconds |
| `ReplayGate.ReplayRateLimiter.WithLimits` | crates/wisphive_daemon/src/replay_gate.rs:54-60 | an empty limiter with the given limits |
| `ReplayGate.ReplayRateLimiter.TryAcquire` | crates/wisphive_daemon/src/replay_gate.rs:68-81 | prunes every key, then records the attempt if it fits |
| `ReplayGate.StoredHits` | crates/wisphive_daemon/src/replay_gate.rs:68-81 | after every attempt the stored list of each key is its full grant history filtered to the window |
| `ReplayGate.GrantedIff` | crates/wisphive_daemon/src/replay_gate.rs:75-80 | an attempt is granted if and only if fewer than max earlier grants of its key are younger than the window |
| `ReplayGate.SlidingWindow` | crates/wisphive_daemon/src/replay_gate.rs:21-28 | no interval as long as the window holds more than max grants of one key |
| `ReplayGate.BudgetsAreSeparate` | crates/wisphive_daemon/src/replay_gate.rs:30-38 | the grants of a key are those it would get alone |
| `Brick.ProcessDenial` | crates/wisphive_hook/src/brick.rs:126-165 | the eviction loop and the updates give the next state and the notification decision |
| `Brick.Capped` | crates/wisphive_hook/src/brick.rs:148-160 | eviction leaves at most eight causes |
| `Brick.Oldest` | crates/wisphive_hook/src/brick.rs:150-155 | the evicted cause is the first by notification time, then by key |
| `Brick.CountIsRunLength` | crates/wisphive_hook/src/brick.rs:136-140 | the stored count is the length of the current run of same-cause denials, saturated |
| `Brick.NotifiesAfterThree` | crates/wisphive_hook/src/brick.rs:146-163 | every notification is preceded by two more denials for its cause with nothing else between |
| `Brick.TrackedCapped` | crates/wisphive_hook/src/brick.rs:49-50 | at most eight causes are ever tracked |
| `Brick.RenotifiesOnlyIfPushedOut` | crates/wisphive_hook/src/brick.rs:142-160 | a cause notified at t notifies again within the hour only if at least eight other causes were notified at t or later |
| `Brick.NotifiesWhenDue` | crates/wisphive_hook/src/brick.rs:142-146 | a third denial in a row notifies whenever its cause was not notified within the hour |
| `Brick.NotifiesExactly` | crates/wisphive_hook/src/brick.rs:142-163 | while fewer than eight other causes have been notified, both conditions together are equivalent to notifying |
| `Snapshot.ParseIndex` | scripts/itr_snapshot_check.py:102-114 | succeeds if and only if every non-blank line holds an issue id that can be a key and no key repeats, with 1, 1.0 and true one key, and then files exactly those records |
| `Snapshot.SameKeyIff` | scripts/itr_snapshot_check.py:102-114 | two ids are one key if and only if they are equal as numbers, or equal and no numbers; a list or an object is none |
| `Snapshot.PopIds` | scripts/itr_snapshot_check.py:134-135 | the inner loop takes the id, and nothing else, out of every row |
| `Snapshot.ListsReadIff` | scripts/itr_snapshot_check.py:132-139 | each list of a record is the array at its field, or empty if the field is absent or one of the seven values that count as false, with objects for rows and numbers for blockers |
| `Snapshot.ResolvedIff` | scripts/itr_snapshot_check.py:117-125 | an issue is resolved if and only if its status is done or wontfix |
| `Snapshot.CanonicalRecord` | scripts/itr_snapshot_check.py:128-140 | the edits on the copy give the normal form, and fail exactly on unreadable lists |
| `Snapshot.SortEqual` | scripts/itr_snapshot_check.py:136-139 | two lists sort to the same list if and only if they hold the same elements |
| `Snapshot.CanonicalEqual` | scripts/itr_snapshot_check.py:128-140 | two records have one normal form if and only if they agree: equal outside the lists, same rows up to row ids, same open blockers, in any order |
| `Snapshot.NoDriftIff` | scripts/itr_snapshot_check.py:151-159 | the three listings hold, in increasing order, exactly the ids on one side only and the ids whose records do not agree; nothing is reported if and only if the issue ids are the same and every pair of records agrees |
| `Snapshot.RestoreIsNoDrift` | scripts/itr_snapshot_check.py:24-37 | renumbering, permuting and pruning as an import does is never reported |
| `Snapshot.RestoreDropsStaleEdges` | scripts/itr_snapshot_check.py:143-148 | a restore drops exactly as many blocker edges as were counted stale, and leaves none that would be |

## Left out

- Operating-system and library calls (PTY, signals, `flock`, rename, Tokio channels, SQLite, vt100, SHA-256) are atomic steps or parameters; a vt100 screen is the sequence of what was applied to it, and the digest is taken to tell contents apart.
- The bounded connection channel behind a viewer's forwarder, which drops a frame when full (`crates/wisphive_daemon/src/server.rs:3302-3306`); theorems about viewers end at the forwarder.
- Session exit, delete and list operations of the terminal manager, frame timestamps, and the database write path's retry policy.
- Rotation stamps are taken to be distinct and to render as distinct texts of digits, dashes and dots; directory entries to be readable where a theorem speaks of all files; appends to be whole lines; and recovery to finish before pruning, as at `crates/wisphive_daemon/src/server.rs:195-203`.
- The pruner's age test (`crates/wisphive_daemon/src/logging.rs:322-358`): any segment its name test admits may be deleted at any startup, so the safety theorems hold for every retention period; the run that loses a line prunes nothing.
- The audit records built from ingested events, and retention of the decision table.
- CodexAudit.AuditCodex: the audit's straight-line steps are one function; only the worklist, recorded reads and verification are written as loops and methods.
- The rules by which one TOML layer is scanned (`crates/wisphive_daemon/src/process_registry.rs:848-1084`) are a parameter; the walk and the verdict hold for every scan.
- The order of plugin files and inline hooks inside the inventory is a parameter; where a theorem needs it, the two sorts are assumed to lose and add nothing.
- The session-argument audit (`crates/wisphive_daemon/src/process_registry.rs:1658-1781`), spawn-request validation and argv building: lists of independent checks.
- TOML and JSON text parsing and printing; models start from parsed values. Error texts are reduced to their kind.
- The permission list the Claude installer also edits (`crates/wisphive_daemon/src/hook_install.rs:334-365`); the inspector does not read it.
- Brick state files, the marker file and the notification text; state writes are taken to succeed.
- Snapshot.NoDriftIff: the comparison takes integer issue and blocker ids, as the script declares them; sorting other ids, which the script's parser would let through, is not modelled.
- The remaining helpers of `crates/wisphive_daemon/src/queue.rs:228-290` (snapshots and counts), the tracing layers, `sudo_gate.rs`, `disk_alert.rs`, `config_watch.rs`, `notify.rs`, `worktree.rs`, the adapters, the CLI and the frontends: plumbing, or members that would only be easy.
