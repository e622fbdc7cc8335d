# A verified model of the opbox synchronization protocol

opbox keeps a directory in sync between any number of daemons. Each daemon holds two replicas: *stable*, which is
what the shared log says plus its own edits, and *prior*, the baseline last accepted from disk. Local edits are
imported into both and queued in a durable outbox; a writer appends the outbox to a totally ordered log; a reader
brings the log back; stable is projected onto disk with guarded file operations.

This project models that protocol in Dafny and proves what holds in all of its runs:

* **Convergence.** Whatever the daemons do, through duplicate appends, disconnects and crashes, a daemon's stable state
  is the join of what it minted and the foreign records below its cursor. Once outboxes are empty and cursors are at
  the tail, all namespaces, trees and texts are equal (`Convergence`). And that can always be reached: from every state
  of every run some run of sending and reading alone settles the network, unless a daemon runs out of conflict names
  (`DeliveryProgress`, `Settling`).
* **Causality and ids.** Every stable state contains everything its operations refer to, so a namespace never lacks an
  object's metadata; prior is below stable; no (client, clock) id is ever used twice (`Convergence`).
* **Outbox delivery.** Nothing is lost, nothing is trimmed before it is in the log, first occurrences are in id order,
  and the writer's contiguity assertion fires in some continuation exactly if a `Connected` is processed while
  something stale can still be sent (`DeliverySafety`, `DeliveryResults`, `DeliveryTiming`).
* **Epochs.** As long as transactions and file operations return, no run of engine, semantic lane and file-system client
  reaches a panic, assertion or bail; at most one epoch is active (`EpochResults`). A path asked for stays remembered until
  a scan that covers it is out, every swap file left behind is removed once, and epoch numbers are never used twice
  (`EpochScans`, `EpochGuards`).
* **The whole daemon.** The epoch machine joined with the tables and the disk: a refused operation is what discards an
  epoch, the tables are what calls for work. A daemon's step fails exactly if its transaction does; after a refusal no
  table of prior changes and no operation is executed until a full scan is under way; an idle engine never sleeps on
  work; and every run is, in its tables and on its disk, a run of `Projection` (`Joint`, `JointSafety`, `JointRefines`,
  `JointResults`).
* **Conflict resolution.** Materialization is a function of the set of claims; winners, losers and path uniqueness; the
  delete-then-insert rewrite of the stable tree (`NamespaceResults`, `StableTree`). Who wins, who is served next and
  what a conflict name looks like are told byte by byte (`ConflictOrder`, `ConflictNames`).
* **Local edits.** A local delete ends exactly the claims of the missing files, which does not always take the file away:
  `StaleDeleteUndone` is a deletion that the next plan reverses, and `DeletionLasts` says exactly when it lasts. An import makes exactly one claim for
  every file that is new or brought back, and each has its row in the stable tree (`LocalEdits`, `LocalEditRuns`). A file
  brought back within the window continues one determined tombstone, and outside it is new (`Reuse`). A file the user
  created is still there, with its bytes, after the round that imports it (`NewFiles`).
* **Projection.** Guarded operations replace only the file version prior recorded, and the plan reaches a fixpoint
  (`ProjectionSafety`, `ProjectionFixpoint`).
* **Self-echo.** The evidence of a recorded write lasts through drops, crashes, batches and user edits up to four exactly
  named kinds of transaction. While it lasts, importing the untouched file stages nothing if and only if stable still
  says what was written; once stable has moved on, the daemon's own write is staged like any file. What is suppressed
  is always the bytes the daemon itself planned to write there (`SelfEcho`, `EchoRuns`).
* **The sync round.** In every run, as long as no object is live at two paths, prior is true of the files it names
  (`Baseline`); a full import that nobody disturbs makes prior agree with the disk file for file, the projection after it
  makes the disk exactly what stable says (`QuietRound`), and settled daemons then hold equal disks (`DiskResults`).
* **Reading the log** without gap or repeat, and exactly when a reconnect is safe (`LogReading`); **batching** that does
  not matter, and exactly when a split fails (`ReplicaBatch`); **staging** that fails exactly when two
  readings resolve to one object or claim (`Staging`);
  **packaging** that round-trips and exactly which records are read (`Codec`, `CodecReading`); **diff replay** that ends in the new text
  (`TextDiff`); **scan coalescing** that covers every request (`Scans`).

`dafny verify dfyconfig.toml` checks everything.

## How the model is built

Handlers are functions from a state to an `Outcome`; a panic, assertion, `expect` or `bail!` about ordering is `Fault`.
A protocol is a state machine whose steps may interleave in any order, and a run is a sequence of enabled steps. Code
that works in place is a class or a method with loops whose `ensures` ties it to such a function: `ReplicaStore`
(the transactions of the semantic service), `StableTree.Table`, `RuntimeState` (the epoch ledger), `WriterSession`,
`MessageBuffer`, `FileStore.InMemoryFileIO`, `TextDiff.Text`, and the loops of `NamespaceResults` and `Codec`.

A Yrs document is the set of operations it has integrated, and applying an update is union. Each operation carries its
(client, clock) id and names what it relies on: its predecessor, the struct an insertion follows, the struct a deletion
removes, the object a claim places. `Documents.Closed` says that all of that is present, which is also what keeps Yrs from
leaving an update pending. Documents are compared as sets where the source compares encoded bytes.

Assumptions, each an explicit condition of a step or a parameter:

* `Delivery.Timely`: when `Connected` is processed, an outbox read asked for before has been answered, or its answer is
  there and empty, or the new session has already failed again. `ConnectSafeExactlyWhenNothingStale` shows that this is
  exactly what is needed, and `UntimelyReplyFaults` is a whole run that reaches the writer's assertion without it.
* `LogReading.Timely`: nothing read is still buffered when a reader reconnect asks for the cursor.
  `ReconnectSafeExactlyWhenDrained` shows that this is exactly what is needed; a batch in flight does no harm.
* `Network.Initial` and `GeneratedFresh`: client ids are distinct, and generated object and claim ids are new.
* Foreign code is a parameter: rendering, hashing, the captured edit (`Captured`: the next clocks of the client,
  referring to the base document), encryption, checksums and the JSON form of a pointer (`Codec.Sound`).
* A transaction is atomic; a faulting one changes nothing.
* Transactions and file operations return: `Epochs` has no error replies. In the source such an error ends the actor. In
  the joined machine it ends the run, and `OnlyTransactionsFail` shows that nothing else does. When a transaction fails
  is stated too: a batch or a namespace update only when conflict names run out (`ApplyFailsOnlyOnNames`,
  `LocalUpdateComplete`), staging exactly when two readings of the epoch that are not own echoes resolve to one object or
  claim (`StagingFails`). `SharedTombstoneFails`, `RenamedFails` and `TwoLiveFails` are ordinary ways there.
* `Baseline.NoCollision`, in the sync round only: different texts have different hashes.

Where the code and its notes differ the code is followed: a `ProjectionChanged` event lets an active projection finish,
and a recent tombstone is reused by path before it is looked up by file key. Five findings: deferred epoch commits can
never occur, because the lane runs one transaction at a time (`DeferralUnused`); the draining phase is passed through
within one engine step, because one phase operation is out at a time (`DrainingPasses`); the sort before
`derive_visible_placements` has no effect on its result, which sorts again per path; and a rename whose old path is filled
again leaves one object live at two paths (`ReuseLeavesTwoRows`), after which an import that edits both fails
(`TwoLiveFails`) and an edit of one leaves the other file stale with no work planned for it (`StaleTwin`); and planning
does not compare claims, so a file that another daemon removed and brought back unchanged keeps its old claim in prior, and
deleting it here is undone by the next plan (`StaleDeleteUndone`).

## Model

| member | source | states |
|---|---|---|
| Convergence.Converged | crates/core/src/semantic/service.rs:633-785 | in every run, once all outboxes are empty and all cursors are at the tail, any two daemons have the same stable namespace, the same tree and the same text documents |
| Convergence.StableIsJoin | crates/core/src/semantic/service.rs:633-785 | in every reachable state, stable is exactly the join of what the daemon minted and the other-origin records below its cursor, and the tree is the materialization of the namespace |
| Convergence.WorldStepSafe | crates/core/src/semantic/service.rs:633-1574 | every transaction, delivery step, batch, crash and repeated append keeps the network invariant; delivery steps never fault |
| Convergence.RunInv | crates/core/src/semantic/service.rs:633-1574 | the network invariant holds at every point of every run |
| Convergence.StableClosed | crates/core/src/crdt/namespace.rs:382-402 | every reachable stable state contains everything its operations refer to, so each active claim's object has metadata |
| Convergence.ApplyFailsOnlyOnNames | crates/core/src/crdt/namespace.rs:382-402 | a batch of the log can fail to apply only because a loser runs out of conflict names, never for missing metadata or kinds |
| Convergence.LocalUpdateComplete | crates/core/src/semantic/service.rs:1418-1433 | the namespace update of an import, resurrected objects included, never names an object without metadata |
| Convergence.PriorBelowStable | crates/core/src/semantic/service.rs:1120-1151 | prior is below stable for the namespace and every text object, in every reachable state |
| Convergence.PriorCountsNamespace | crates/core/src/semantic/service.rs:1396-1494 | prior holds exactly the namespace operations this daemon ever minted, and its next clock is one no message has used |
| Convergence.PriorCountsText | crates/core/src/semantic/service.rs:2081-2156 | the same for every text object: own insertions in prior are those ever minted, with clocks 0..n-1 each used once |
| Convergence.IdsNeverReused | crates/core/src/crdt/text_doc.rs:385-415 | no two operations minted anywhere share a (client, clock) id |
| Convergence.DeliveryHolds | crates/core/src/log/writer.rs:266-424 | the delivery invariant holds for every daemon against the one shared log, in every reachable state |
| Settling.CanSettle | crates/core/src/engine/actor.rs:1098-1166 | from every reachable state some run of outbox delivery and log batches, without new messages, crashes or connection failures, empties all outboxes and brings all daemons to the tail, unless the rest of the log leaves a daemon without conflict names |
| DeliveryProgress.Progress | crates/core/src/engine/actor.rs:669-702 | in every reachable state of a daemon with anything left to send, receive or reconnect, a step that keeps the timing assumption can be taken and leaves less to do; where nothing is left the outbox is empty |
| StoreCalls.StoreCallsMet | crates/core/src/semantic/service.rs:787-947 | in every reachable state a batch, a removal of tracked files and a commit of staged rows give a namespace in which claim and object ids are added once, which is what the store's methods ask for |
| NetworkSafety.CausallyClosed | crates/core/src/semantic/service.rs:653-726 | at any cut of the log at or past its cursor, what a daemon holds is causally closed |
| NetworkSafety.LogForeign | crates/core/src/semantic/service.rs:654-667 | records of other daemons carry no operation under this daemon's client id |
| NetworkMint.KeepTransact | crates/core/src/semantic/service.rs:959-1574 | a local transaction keeps the invariant of the whole network |
| NetworkMint.OwnMintedGrows | crates/core/src/crdt/text_doc.rs:385-415 | what a transaction mints never repeats an id of anything minted before |
| NetworkRuns.KeepRecord | crates/core/src/log/writer.rs:323-329 | a landed or repeated record keeps every daemon's invariant |
| NetworkRuns.KeepRestart | crates/core/src/app/db.rs:97-101 | a crash that loses volatile state, staged rows and reservation marks keeps the invariant |
| NetworkRuns.BatchInWorld | crates/core/src/semantic/service.rs:787-822 | the namespace a batch produces has each claim once, only text objects, and metadata for every claim |
| Network.LocalKeeps | crates/core/src/semantic/service.rs:211-1574 | each transaction keeps the replica invariant, adds to stable exactly what it puts in the outbox, and mints only admissible messages |
| ReplicaSafety.KeepApply | crates/core/src/semantic/service.rs:633-785 | applying a batch keeps prior below stable, staged rows valid and the active plan within stable, whatever epoch is active |
| ReplicaMint.KeepCommitImport | crates/core/src/semantic/service.rs:1361-1574 | an import commit keeps the invariant, and the outbox gets exactly what stable gets |
| ReplicaMint.KeepDeletes | crates/core/src/semantic/service.rs:959-1014 | local deletes put the same removals in prior, stable and the outbox |
| LocalEdits.DeletesMean | crates/core/src/semantic/service.rs:959-1014 | a local delete ends exactly the claims prior has at the missing paths, in prior's and in stable's namespace, tombstones those paths and leaves every other row alone |
| LocalEdits.DeletesInTree | crates/core/src/semantic/service.rs:973-992 | afterwards no row of the stable tree has one of those claims, and every other active claim keeps a row |
| LocalEdits.DeletionLasts | crates/core/src/semantic/service.rs:973-992 | the object of a deleted file leaves the stable tree if and only if no active claim holds it there but those prior names at the missing paths |
| LocalEdits.StaleDeleteUndone | crates/core/src/semantic/service.rs:1037-1055 | planning does not compare claims: when the active claim of an unchanged file is not the one prior names, deleting the file changes nothing in the tree and the next plan writes it back |
| LocalEdits.ReclaimedElsewhere | crates/core/src/semantic/service.rs:633-790 | one update that removes a file's claim and claims the path for the same object anew leads there |
| PriorClaims.PriorRowsClaimed | crates/core/src/semantic/service.rs:959-1494 | in every run of the network each prior row names a claim that was made for its object, and each applied mark belongs to an intent on file |
| PriorClaims.EchoRealigns | crates/core/src/semantic/service.rs:2006-2071 | a suppressed reading makes prior's row the stable one, with stable's text, and clears just that path's intents and marks |
| LocalEdits.ImportMeans | crates/core/src/semantic/service.rs:1396-1448 | an import adds to prior's and stable's namespace exactly an object for each new file and a claim of its path for each file new or brought back, and ends no claim |
| LocalEdits.ImportedInTree | crates/core/src/semantic/service.rs:1417-1448 | some path of the stable tree has the row of each such file, unless its claim was ended before |
| LocalEdits.ImportMessages | crates/core/src/semantic/service.rs:1496-1560 | the outbox gets that namespace update only if some file is not an update, and of texts only the staged edits |
| LocalEditRuns.DeletedInRun | crates/core/src/semantic/service.rs:959-1014 | in every run of the network a local delete leaves no stable row with a claim of a missing file and a row for every other active claim |
| LocalEditRuns.ImportedInRun | crates/core/src/semantic/service.rs:1361-1574 | in every run of the network an import commit leaves in the stable tree a row for every file new or brought back |
| Reuse.ChoiceMeans | crates/core/src/semantic/transaction.rs:472-545 | the tombstone reused was removed within the window, on the reading's path or with its file key; the path's own comes first, then the latest, then the least stored path; none is reused only if none is within the window |
| Reuse.ChoiceExists | crates/core/src/semantic/transaction.rs:472-545 | there always is such a choice |
| Reuse.ChoiceUnique | crates/core/src/semantic/transaction.rs:472-545 | and only one |
| Reuse.OldIsNew | crates/core/src/semantic/service.rs:1925-1965 | with nothing removed from its path or with its file key since the cutoff, a file is a new object under a new claim |
| Reuse.LateIsContinued | crates/core/src/semantic/service.rs:1925-1958 | otherwise it keeps the object of the chosen tombstone, under a new claim, with an edit exactly if its content differs |
| Reuse.LiveIsUpdate | crates/core/src/semantic/service.rs:1919-1924 | a tracked file is an update: it keeps its object and its claim, and has an edit exactly if its content differs |
| ReplicaMint.LocalNsMessage | crates/core/src/crdt/namespace.rs:142-212 | namespace operations minted from prior carry fresh ids and rely only on what stable holds |
| ReplicaMint.TextMessage | crates/core/src/semantic/service.rs:2081-2156 | a staged text update carries fresh ids and relies only on what stable holds |
| ReplicaMint.RowsMint | crates/core/src/semantic/service.rs:1450-1545 | committing staged rows one by one adds to stable exactly the text messages queued for them |
| ReplicaSteps.StagedRowOk | crates/core/src/semantic/service.rs:1898-2004 | a staged row is an edit of a document below stable, and reused objects are known |
| ReplicaSteps.KeepRealign | crates/core/src/semantic/service.rs:2006-2071 | realigning prior to a recognized write keeps the invariant |
| ReplicaSteps.KeepPlan | crates/core/src/semantic/service.rs:1016-1118 | a new plan is made of stable documents and known objects |
| ReplicaSteps.KeepCommitProjection | crates/core/src/semantic/service.rs:1120-1236 | committing an exhausted plan moves prior up to documents still below stable and changes nothing stable |
| ReplicaSteps.ApplyAdds | crates/core/src/semantic/service.rs:633-785 | a batch adds exactly the foreign operations in it and moves the cursor by its length |
| ReplicaBatch.TwoBatches | crates/core/src/semantic/service.rs:633-785 | two consecutive batches give the same tables as their concatenation |
| ReplicaBatch.BatchingIrrelevant | crates/core/src/semantic/service.rs:633-785 | however records are cut into batches that apply, the whole applies too, the tables are the same and the cursor moves by their number |
| ReplicaBatch.SplitFaults | crates/core/src/semantic/service.rs:787-822 | a split fails exactly when some batch of it with foreign namespace operations leaves a namespace that has no tree on the way, even if the whole has one |
| ReplicaBatch.BatchFails | crates/core/src/semantic/service.rs:633-790 | a batch fails exactly if it does not begin at the cursor, or brings a namespace update to one that has no tree |
| Staging.StagingFails | crates/core/src/semantic/service.rs:1898-1990 | staging an epoch's readings fails if and only if, on the tables the epoch starts from, two of them that are not own echoes resolve to one object or one claim: the live row's, else the reused tombstone's object, else a new one |
| Staging.SharedTombstoneFails | crates/core/src/semantic/transaction.rs:472-560 | two readings that reuse one tombstone, one by its path and one by its file key, make the import fail |
| Staging.RenamedFails | crates/core/src/semantic/service.rs:1920-1965 | after a rename, filling the old path within the window and editing the renamed file in one import makes it fail |
| Staging.TwoLiveFails | crates/core/src/semantic/service.rs:1920-1923 | with one object live at two paths, every import that reads both fails |
| Staging.ReuseLeavesTwoRows | crates/core/src/semantic/service.rs:1450-1494 | committing a reading that reused another path's row makes its own path live on that object and leaves the other row as it was |
| ReplicaBatch.CacheDocs | crates/core/src/semantic/service.rs:648-735 | the per-batch document caches, overlaid on the tables, are what applying single messages would leave |
| ReplicaBatch.CollectClaims | crates/core/src/crdt/namespace.rs:242-264 | succeeds exactly when every active claim's object has metadata, and collects each active claim once |
| ReplicaBatch.MaterializeDoc | crates/core/src/crdt/namespace.rs:333-343 | computes the tree of a namespace document, failing exactly when the specification does |
| ReplicaStore.Store.WriteStableNamespace | crates/core/src/semantic/service.rs:787-947 | the row-by-row rewrite leaves exactly the materialized tree |
| ReplicaStore.Store.ApplySharedMessageBatch | crates/core/src/semantic/service.rs:633-785 | the batch transaction matches its specification, and a refused batch changes nothing |
| ReplicaStore.Store.ApplyLocalDeletes | crates/core/src/semantic/service.rs:959-1014 | the delete transaction matches its specification, outbox message included |
| ReplicaStore.Store.CommitSyncImportEpoch | crates/core/src/semantic/service.rs:1361-1574 | the import commit matches its specification, outbox messages in order included |
| ReplicaStore.Store.GetNextWork | crates/core/src/semantic/service.rs:1016-1118 | the planning loops produce the specified plan and file one intent per write |
| ReplicaStore.Store.CommitProjectionEpoch | crates/core/src/semantic/service.rs:1120-1236 | the commit loop moves prior up action by action as specified |
| ReplicaStore.AcceptRows | crates/core/src/semantic/service.rs:1450-1545 | the staged-row loop updates stable, prior and the outbox as specified |
| Documents.ClosedIsComplete | crates/core/src/crdt/namespace.rs:382-402 | causal closure of the operations gives every active claim's object its metadata |
| Documents.TreeFacts | crates/core/src/semantic/service.rs:834-863 | the rows of a materialized tree have distinct claims and known objects |
| Documents.NsClockSpans | crates/core/src/crdt/namespace.rs:282-290 | the number of a client's ids in a gap-free document is its next clock |
| NamespaceResults.MaterializedResolves | crates/core/src/crdt/namespace.rs:333-471 | one placement per active claim, distinct paths, each requested path to the least (creator, object, claim) |
| NamespaceResults.LosersStayOff | crates/core/src/crdt/namespace.rs:455-468 | no loser takes a path that some claim asks for |
| ConflictOrder.WinnerIsLeast | crates/core/src/crdt/namespace.rs:437-453 | of the claims on a path the one that gets it has the creator that comes first byte by byte, with equal creators the object, with equal objects the claim |
| ConflictOrder.LosersAscend | crates/core/src/crdt/namespace.rs:431-455 | losers are served by path, and on one path by creator, object and claim |
| ConflictOrder.LoserTakesFirst | crates/core/src/crdt/namespace.rs:457-506 | a claim that does not get its path gets the first of its conflict names that nobody asks for and no claim served before it has |
| ConflictNames.CandidateIs | crates/core/src/crdt/namespace.rs:494-518 | a conflict name puts ` (conflict suffix)` right before the last extension, a leading dot starting none, in the same directory |
| ConflictNames.SuffixesAre | crates/core/src/crdt/namespace.rs:477-492 | the suffixes in order: six letters of the creator, six, eight and all of the object, the object with six letters of the claim, each only if it differs from the one before |
| ConflictNames.LettersAre | crates/core/src/types.rs:21-23 | letter i of an id is the one whose number its five bits from 5 i stand for, bits past the end reading as zero |
| ConflictNames.BitsOf | crates/core/src/types.rs:21-23 | byte i of an id is the value of the eight bits from 8 i |
| ConflictNames.IdsToldApart | crates/core/src/types.rs:21-23 | different ids of one length have different letters |
| NamespaceResults.DeriveVisiblePlacements | crates/core/src/crdt/namespace.rs:421-471 | the loops compute a function of the set of claims, whatever order they are enumerated in |
| NamespaceResults.GroupByPath | crates/core/src/crdt/namespace.rs:422-429 | groups each claim once under its requested path, paths in order |
| NamespaceResults.PickWinners | crates/core/src/crdt/namespace.rs:435-453 | the best claim of each path wins it, all others lose |
| NamespaceResults.PlaceLosing | crates/core/src/crdt/namespace.rs:455-466 | losers take free conflict paths in rank order, or the whole derivation fails |
| NamespaceResults.LosersPlaced | crates/core/src/crdt/namespace.rs:455-466 | every placed loser has a path of its own outside the taken ones |
| Namespace.NextAvailableConflictPath | crates/core/src/crdt/namespace.rs:473-506 | the first candidate not yet taken, or failure exactly when all are taken |
| Namespace.PlainSuffixes | crates/core/src/crdt/namespace.rs:477-492 | conflict suffixes contain no path separator, so conflict names are valid file names |
| StableTree.DesiredOfMaterialized | crates/core/src/semantic/service.rs:834-863 | materialization never repeats a path or a claim in the desired table |
| StableTree.BuildDesired | crates/core/src/semantic/service.rs:834-863 | builds the desired table and fails exactly on a repeated path |
| StableTree.RepeatRefused | crates/core/src/semantic/service.rs:790-957 | a list of placements that repeats a path is refused |
| StableTree.Delta | crates/core/src/semantic/service.rs:883-906 | deletes exactly the outdated paths and inserts exactly the wanted ones |
| StableTree.Table.Rewrite | crates/core/src/semantic/service.rs:834-947 | deletes then inserts reach exactly the desired table and no insert is refused for a repeated path or claim |
| Order.AscendingUnique | crates/core/src/crdt/namespace.rs:404-419 | a set has only one ascending enumeration, so sorting forgets the order of enumeration |
| Order.SortAscends | crates/core/src/crdt/namespace.rs:404-419 | sorting yields the same elements in strictly ascending order |
| DeliverySafety.StepSafe | crates/core/src/engine/actor.rs:486-702 | under the timing assumption, which is exact, no step of engine, lane or writer hits an assertion, and the delivery invariant is kept |
| DeliverySafety.LogStep | crates/core/src/log/writer.rs:323-329 | records of others and repeated records of our own keep the delivery invariant |
| DeliverySafety.KeepSubmit | crates/core/src/log/writer.rs:367-379 | the next request carries exactly the id the writer expects |
| DeliverySafety.TableReserve | crates/core/src/semantic/transaction.rs:1059-1123 | a reservation takes the lowest free ids without a gap and marks exactly them |
| DeliverySafety.TableTrim | crates/core/src/semantic/transaction.rs:1125-1141 | a trim removes exactly the reserved ids at or below its bound |
| DeliveryResults.NothingLost | crates/core/src/semantic/transaction.rs:1023-1150 | every minted message is in the outbox or its record is in the log, so nothing is trimmed before it is durable |
| DeliveryResults.OutboxGenuine | crates/core/src/semantic/transaction.rs:980-1057 | the outbox holds the highest minted ids, ascending, each with its own message |
| DeliveryResults.FirstOccurrencesInOrder | crates/core/src/log/writer.rs:266-424 | across any number of disconnects and repeats, first occurrences in the log are in id order |
| DeliveryResults.QuietMeansDelivered | crates/core/src/engine/actor.rs:669-702 | a connected daemon with nothing left to do has an empty outbox and all its messages in the log |
| DeliveryTiming.ConnectSafeExactlyWhenNothingStale | crates/core/src/engine/actor.rs:1098-1125 | in every reachable state with Connected next, no continuation reaches an assertion if and only if no read is outstanding, or its answer is there and empty, or the session has already failed again |
| DeliveryResults.UntimelyReplyFaults | crates/core/src/log/writer.rs:369-374 | a run in which a daemon that minted one message, and answers a read too late, reaches the contiguity assertion |
| WriterSession.Session.TakeAppend | crates/core/src/log/writer.rs:359-415 | the session object takes an append as the protocol says, failing exactly on a gap |
| WriterSession.Session.FinishUpload | crates/core/src/log/writer.rs:331-357 | a finished upload is submitted as the protocol says |
| WriterSession.Session.TakeAck | crates/core/src/log/writer.rs:323-329 | acknowledgements report ids in submission order |
| EpochResults.NoRunFaults | crates/core/src/engine/actor.rs:536-896 | as long as transactions and file operations return, no run of engine, semantic actor and file-system client reaches a panic, assertion, expect or bail |
| EpochResults.StepSafe | crates/core/src/semantic/actor.rs:97-559 | every enabled step, with the transaction or operation in it returning, finishes and keeps the invariant of phases, lane and ledger |
| EpochResults.OneAtATime | crates/core/src/fs/client.rs:56-97 | at most one epoch is active, one transaction runs and one phase operation is with the file system |
| EpochResults.TransactionsInTurn | crates/core/src/semantic/actor.rs:97-301 | scans and plans start only between epochs; actions and commits belong to the one active epoch |
| EpochResults.CommittedOnce | crates/core/src/semantic/actor.rs:743-915 | when an epoch commit starts, the completed actions are exactly the dispatched ones, and all of an exhausted plan |
| EpochResults.DeferralUnused | crates/core/src/semantic/actor.rs:446-543 | epoch commits are never deferred |
| EpochResults.NoLateDispatch | crates/core/src/engine/actor.rs:567-655 | after an epoch's commit is requested nothing more of the epoch is dispatched |
| EpochResults.DrainingPasses | crates/core/src/engine/actor.rs:821-872 | no run rests in the draining phase: the commit of an invalidated projection is requested in the step that invalidates it |
| EpochResults.RefusalDiscards | crates/core/src/engine/actor.rs:821-886 | an invalidating answer at once ends dispatching, requests the discarding commit and leaves a full scan pending |
| EpochResults.DiscardedMeansFullScan | crates/core/src/engine/actor.rs:802-886 | until the commit of a discarded projection is taken, a full scan is pending |
| EpochResults.NeverStuck | crates/core/src/engine/actor.rs:567-655 | outside Idle something is queued, running or on its way back |
| EpochScans.ScopeMoves | crates/core/src/engine/actor.rs:536-561 | each step widens the remembered scope by just what it asks for, and then keeps it or hands it whole to the file system and forgets it |
| EpochScans.RequestIsScanned | crates/core/src/engine/actor.rs:536-561 | in every run a path asked for stays remembered until a scan that covers it is with the file system |
| EpochScans.RefusedThenFull | crates/core/src/engine/actor.rs:776-803 | a refused import or projection action leaves a full scan pending |
| EpochScans.EverySwapRemoved | crates/core/src/engine/actor.rs:657-667 | in every run each swap file left behind is removed once or still waits, at most sixteen removals are out, and one waits only when that many are |
| EpochGuards.EpochNumbersFresh | crates/core/src/semantic/actor.rs:583-637 | no two epochs of a kind in one run have the same number |
| EpochSteps.NeverDeferred | crates/core/src/semantic/actor.rs:517-543 | an epoch commit at the head of the lane finds all its actions committed |
| EpochSafety.DriveInv | crates/core/src/engine/actor.rs:567-668 | the loop top dispatches and requests commits without breaking the invariant, and leaves an action out in every active epoch |
| JointResults.OnlyTransactionsFail | crates/core/src/engine/actor.rs:915-1180 | in every run of a whole daemon, a step fails exactly if it starts a transaction that fails on the tables as they are |
| JointResults.RunRefines | crates/core/src/engine/actor.rs:567-896 | every run of a whole daemon is, in its tables, its disk, its open epoch and its results, a run of the guarded projection machine: that machine's guards are what the epoch machine does |
| JointResults.DaemonReplacesOnlyItsOwn | sim/src/in_memory_file_io.rs:418-477 | in every run of a whole daemon a file operation touches only its path, and replaces only the version prior recorded or creates a missing file |
| JointResults.PriorMovesOnSuccess | crates/core/src/semantic/service.rs:1120-1151 | while a projection is open prior moves only by its commit, which comes only after every planned operation has ended on disk and none was refused |
| JointResults.RefusedThenFullScan | crates/core/src/engine/actor.rs:802-886 | in every run, from a refusal on and short of a crash, no table of prior changes and no operation is executed, and once the answer is taken a full scan is pending, until that scan is with the file system |
| JointResults.RefusalLeavesEverything | crates/core/src/engine/actor.rs:821-886 | an operation refused by the disk puts the daemon in that state at once and leaves disk and tables as they were |
| JointResults.NeverIdleOnWork | crates/core/src/engine/actor.rs:704-764 | in every run an idle engine has no scan pending, and if prior and stable call for a projection an event is queued or the batch that sends it is running |
| JointReads.ReadGives | sim/src/in_memory_file_io.rs:385-416 | reading a file for an import gives its own content and fingerprint exactly if its stat is the scanned one, and otherwise an answer that calls for a rescan |
| JointReads.ChangedIsRescanned | crates/core/src/engine/actor.rs:776-803 | a file that changed after the scan is not imported, and once the answer is taken a full scan is pending |
| JointSafety.EchoesPlanNothing | crates/core/src/semantic/service.rs:766-785 | a batch of own echoes only, which announces nothing, leaves the plan as it was |
| JointSafety.PlanningPlansNothing | crates/core/src/semantic/service.rs:1016-1118 | planning leaves the plan as it was, so the plan handed over is empty exactly if there is no work |
| JointSafety.JointStepSafe | crates/core/src/engine/actor.rs:567-896 | every step of a whole daemon keeps the invariant that ties machine, plan, results and tables to each other |
| JointSafety.JointStepFaults | crates/core/src/semantic/actor.rs:97-559 | under that invariant only the start of a request can fail, and it fails exactly if its transaction does |
| JointRefines.StepMatched | crates/core/src/engine/actor.rs:567-896 | every step of a whole daemon is a step the guarded projection machine allows, or leaves tables and disk alone |
| RuntimeState.SemanticRuntimeState.ReserveEpoch | crates/core/src/semantic/actor.rs:583-637 | reserves the next epoch number, refusing while one of the kind is active |
| RuntimeState.SemanticRuntimeState.InstallEpoch | crates/core/src/semantic/actor.rs:596-670 | installs a plan exactly when its ids belong to the epoch and are distinct |
| RuntimeState.SemanticRuntimeState.FinishAction | crates/core/src/semantic/actor.rs:702-836 | completes an action exactly once and only in its own epoch |
| RuntimeState.SemanticRuntimeState.FinishEpoch | crates/core/src/semantic/actor.rs:743-915 | hands over the completed actions, all of them when the plan was exhausted |
| FileStore.VersionsNeverReused | sim/src/in_memory_file_io.rs:62-223 | no change gives an existing (inode, mtime) pair a new content |
| FileStore.InodesAfter | sim/src/in_memory_file_io.rs:62-223 | an edited file keeps its inode, a created one gets an inode never used before, a renamed one takes its entry along, every other file stays |
| FileStore.StatNamesContent | sim/src/in_memory_file_io.rs:225-293 | a file that still has a recorded stat still has the recorded content |
| FileStore.InMemoryFileIO.AppendFile | sim/src/in_memory_file_io.rs:69-96 | appends in place under the same inode and a new mtime, or creates the file |
| FileStore.InMemoryFileIO.PrependFile | sim/src/in_memory_file_io.rs:129-156 | the same for prepending |
| FileStore.InMemoryFileIO.ReplaceFileContents | sim/src/in_memory_file_io.rs:98-127 | the same for replacing the contents |
| FileStore.InMemoryFileIO.RenameFile | sim/src/in_memory_file_io.rs:167-177 | moves the entry unchanged, failing exactly when the source is missing |
| FileStore.InMemoryFileIO.Write | sim/src/in_memory_file_io.rs:418-454 | a guarded write's result and new state |
| FileStore.InMemoryFileIO.Delete | sim/src/in_memory_file_io.rs:456-477 | a guarded delete's result and new state |
| ProjectionSafety.ReplacesOnlyWhatPriorRecorded | sim/src/in_memory_file_io.rs:418-477 | under every interleaving with user edits, an operation that changes the disk touches only its path and replaces only the version prior recorded, content included, or creates a missing file |
| ProjectionSafety.RefusedExactly | sim/src/in_memory_file_io.rs:285-293 | an action is refused exactly when the file is neither the recorded version nor already right |
| ProjectionSafety.HostRunInv | crates/core/src/semantic/service.rs:1132-1140 | every fingerprint in prior, staged rows and results names a content on record, in every run |
| ProjectionFixpoint.Fixpoint | crates/core/src/semantic/service.rs:1016-1236 | on an agreeing disk the whole plan succeeds in any order, every stable path holds its text, exactly the tracked paths absent from stable are removed, nothing else is touched, and no work is left |
| ProjectionFixpoint.ProjectionRound | crates/core/src/semantic/service.rs:1016-1236 | the same from planning to commit with intents recorded in between |
| ProjectionFixpoint.PlanByPath | crates/core/src/semantic/service.rs:1037-1104 | what the plan holds, path by path |
| Baseline.BaselineRun | crates/core/src/semantic/service.rs:1418-1545 | in every run whose states have each object live at one path at most, the fingerprint prior records at a path is that of the text prior holds for its object |
| QuietRound.ImportAgrees | crates/core/src/semantic/service.rs:211-340 | a full import without user edits reads the files whose stat is not prior's and removes what is gone; afterwards prior's live paths are exactly the files, with their fingerprints and texts |
| QuietRound.QuietRoundInRun | crates/core/src/semantic/service.rs:211-1236 | from any idle state of such a run, a full import and the projection after it succeed and leave exactly the stable paths on disk, each with its rendered text, and no work |
| NewFiles.NewFileStays | crates/core/src/semantic/service.rs:211-1236 | after such a round a file created on a path that nobody claims is still on disk, with its bytes unless it took over a recent tombstone's object |
| QuietRound.StaleTwin | crates/core/src/semantic/service.rs:1037-1104 | with one object live at two paths, committing an edit of one file leaves the other stale, and no work is planned for it where stable has both |
| DiskResults.EqualDisks | crates/core/src/semantic/service.rs:633-1236 | settled daemons whose disks are what their stable says hold the same files with the same bytes |
| EchoRuns.EvidenceStep | crates/core/src/semantic/service.rs:2006-2071 | the evidence of a write survives a step if and only if the step does not consume it as an echo, commit its path, file another object or document under its path and hash, or record another stat for it; drops, scans, batches, crashes and user edits never end it |
| EchoRuns.OwnWriteReadBack | crates/core/src/semantic/service.rs:1898-2071 | in every run, after a write is recorded and as long as nothing ends its evidence, importing the file unchanged since then stages nothing and leaves no work at the path if stable still says what was written, and otherwise stages its row like any other |
| EchoRuns.UpdateMovesOn | crates/core/src/semantic/service.rs:2037-2050 | a foreign text update moves stable on exactly if it brings an operation the written document lacks |
| EchoRuns.MovedOnIsStaged | crates/core/src/semantic/service.rs:1930-2004 | once stable has moved on, the daemon's own write is staged over prior's older text, with an edit exactly if that text renders otherwise |
| EchoRuns.SuppressedIsOwnWrite | crates/core/src/semantic/service.rs:2006-2050 | in every run a suppressed reading has the very bytes this daemon planned to write there and recorded with that fingerprint, whatever the hash, so no edit is swallowed |
| EchoRuns.RecordedWrite | crates/core/src/semantic/service.rs:430-458 | in every run a recorded write was planned, its fingerprint is that of the planned text, and recording it completes the evidence |
| EchoRuns.SameStatSameText | sim/src/in_memory_file_io.rs:225-293 | from then on any file or reading with the recorded stat has the recorded fingerprint and the planned text |
| SelfEcho.SuppressedIsStable | crates/core/src/semantic/service.rs:2037-2050 | in every run a suppressed reading hashes to what stable renders at its path |
| LogReading.StepSafe | crates/core/src/engine/actor.rs:943-1150 | under the timing assumption no drain meets an empty or gappy buffer and no batch is out of place |
| LogReading.AppliedWithoutGaps | crates/core/src/engine/actor.rs:943-1019 | in every run the timer is armed exactly when something is buffered and no batch is in flight, and the applied batches cover the log without gap or repeat |
| LogReading.CoversIsRange | crates/core/src/types.rs:122-149 | covering batches are exactly the consecutive sequence numbers |
| LogReading.ReconnectSafeExactlyWhenDrained | crates/core/src/engine/actor.rs:960-969 | a reconnect can lead to a failure exactly when a record is still buffered as the cursor is asked for |
| MessageBuffer.SharedMessageBuffer.Insert | crates/core/src/engine/shared_message_buffer.rs:25-31 | appends, and opens the window only for the first envelope |
| MessageBuffer.SharedMessageBuffer.NextFireAt | crates/core/src/engine/shared_message_buffer.rs:47-56 | due exactly when the buffer is nonempty: at the end of the window, or at once when full |
| MessageBuffer.SharedMessageBuffer.Drain | crates/core/src/engine/shared_message_buffer.rs:58-62 | hands over everything and leaves the buffer empty |
| MessageBuffer.TryFrom | crates/core/src/types.rs:122-149 | accepts exactly the nonempty contiguous sequences |
| Codec.RoundTrip | crates/core/src/log/codec.rs:212-267 | whatever its size, a message that is packaged, sent and read back is the same message with the same origin |
| Codec.PackageFails | crates/core/src/log/codec.rs:212-267 | packaging fails exactly when the message does not fit inline and its headers with the pointer exceed the record limit |
| Codec.BodiesFit | crates/core/src/log/codec.rs:72-78 | every encrypted body record is within the S2 limit; parts are nonempty, within the inline limit and as few as possible |
| Codec.ChunksJoin | crates/core/src/log/codec.rs:236-246 | the parts in order make up the payload |
| Codec.SharedToS2Package | crates/core/src/log/codec.rs:212-267 | builds the specified package, failing exactly if one of its records is over the limit |
| Codec.ReadFullMultipart | crates/core/src/log/reader.rs:112-197 | the nested read loops reassemble the stream however it is batched, failing exactly on a bad body, count, size or checksum |
| Codec.HeadersDecode | crates/core/src/log/codec.rs:93-197 | the headers of a message decode to its origin, kind and object |
| CodecReading.ReceivedExactly | crates/core/src/log/reader.rs:112-197 | a record is read as a message from an origin if and only if the first header of each name says so and the payload, inline or behind a pointer, opens whole |
| CodecReading.ReassembledExactly | crates/core/src/log/reader.rs:112-197 | a pointer's stream is accepted exactly if every body opens and their number, total size and checksum are the pointer's |
| CodecReading.ParsesExactly | crates/core/src/log/codec.rs:134-147 | an outbox id is read exactly from its decimal form below 2^64, with leading zeros and a plus sign allowed |
| CodecReading.InlineExactly | crates/core/src/log/codec.rs:212-235 | a message goes inline exactly if its payload is under 1 047 552 bytes and the sealed record, headers counted, within 1 048 576 |
| CodecReading.PointerNames | crates/core/src/log/codec.rs:224-262 | anything else is announced by a bodiless record whose pointer has the given id and time, the payload's checksum and size, and as many parts as 1 047 552-byte pieces |
| Codec.ParseDecimal | crates/core/src/log/codec.rs:104-147 | an outbox id survives printing and parsing |
| TextDiff.ApplyStringDiff | crates/core/src/crdt/text_doc.rs:203-286 | for every valid script the document ends as exactly the new text; the blunt branch is taken exactly for incoherent scripts; a coherent one removes and inserts only what it says |
| TextDiff.Replay | crates/core/src/crdt/text_doc.rs:251-285 | replaying runs at a moving cursor keeps every edit in range and turns old into new |
| TextDiff.MeasureRuns | crates/core/src/crdt/text_doc.rs:208-232 | the weight of the heaviest run of equal changes, and the bytes that lie in runs of at least three |
| Scans.CoalesceExact | crates/core/src/engine/actor.rs:144-167 | coalescing covers both scopes and widens to a full scan exactly when neither covers the other |
| Scans.EveryRequestCovered | crates/core/src/engine/actor.rs:536-561 | every requested path is covered by the pending scope or by a scan started after the request |

## Left out

- Init import (`commit_init_import_epoch_tx`, `engine/init.rs`, `engine/clone.rs`): sequential drivers over the same pieces; daemons start empty.
- `apply_scan`'s choice of files to read, ignored files and size limits: a scan step may name any live prior paths as missing and read any file.
- The outbox and the log reader are not joined with the epoch machine: `Network` runs the same transactions under the guards `JointRefines` shows the machine keeps, and `Delivery` carries what they mint.
- QuietRound.QuietRoundInRun: takes the round's transactions and operations as one composition on the state it starts from; a round cut short by batches, refusals or user edits is covered by the run results, and files ignored for size or encoding are left out.
- Binary objects, `set_object_kind` and stat import actions: rejected or unused in v0.
- Yrs internals, the diff algorithm, AES-GCM, xxh3 and JSON: foreign; modelled as op-set union, any valid script, and parameters with their inverse laws.
- S2 sessions, retry classification and stream creation: only the ordered append log, in-order acknowledgements and the record type's size limit are modelled.
- SQL, the connection pool and retries: tables are maps and sequences, a transaction is one atomic step; the objects table and its foreign keys are implied by the stable namespace.
- Real file I/O with swap files: the in-memory file store is the file system; `ConflictAfterSwap`, clobbering clones and operations that fail outright do not occur in it.
- CLI, config, IPC, spy, watcher, gitignore, status reporting and stop handling: I/O and display.
- Numeric widths: sequence numbers, outbox ids and offsets are unbounded except where `Codec` parses u64; the f64 thresholds of the diff are exact rationals.
- TextDiff.ApplyStringDiff: does not model the `u32` casts of byte counts; texts are assumed shorter than 4 GiB.
- SelfEcho.SuppressedIsStable: compares hashes, so two texts of one hash are not told apart; `EchoRuns.SuppressedIsOwnWrite` says whose bytes they are.
- LogReading.AppliedWithoutGaps: capacity back-pressure only delays steps and is not modelled.
