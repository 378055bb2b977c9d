# A verified model of the reorg-safe indexer

The indexer copies the event logs of an EVM chain into a relational database, batch by batch, and promises that
wiping the database and indexing again recreates the same state, and that a chain reorganization leaves no trace
in what readers see. This project models that code in Dafny and proves when the promises hold, and when they do not.

Check everything with `dafny verify dfyconfig.toml`.

## How the model is built

The database is a set of maps keyed by the real primary keys, and the RPC is an environment that may switch chains
between calls, answer the same height differently within a call, and fail at any request. Each transaction may fail
before any of its statements. Code that changes state is a class or a method and is proved equal to a
specification function; the theorems about runs are proved about those functions.

| file | content |
|---|---|
| `Prelude`, `Records` | results, lower-casing, decimal text, logs, events, normalized records and their keys |
| `Normalization` | what an event becomes, column by column, and which records share a primary key |
| `Tables`, `Repository` | the block, fact and checkpoint tables, the object that executes statements, `saveRecords` |
| `Environment`, `Reorg`, `Sync`, `Pipeline` | RPC and failures, reorg detection and recovery, range planning, `execute` |
| `Chains`, `Referential`, `Replay` | hash-linked chains, foreign keys, runs on one chain |
| `Recovery`, `Integrity`, `Views`, `Tracking` | recovery, invariants of every reachable state, what readers see, databases that show a chain |
| `Forks`, `Convergence`, `Reorganizations` | runs across a fork, convergence, progress and many reorganizations in a row |
| `SmoothRuns` | the resume point, and so the outcome, of runs in which nothing fails |
| `Limits`, `Example`, `Failures` | what happens when a hypothesis of convergence fails, with concrete chains |
| `Reports` | what `execute` returns, in terms of the chain, the logs and the database |
| `Queries`, `Completeness` | the list and lookup queries; when no record is lost, and what the lists of a chain show |
| `Discovery`, `TokenTables`, `MetadataPipeline`, `MetadataRuns` | token discovery, the retry queue, whole runs of the metadata stages |
| `Backoff`, `Daemon` | delay arithmetic, the loop with `stop` and the shutdown timeout |

The decoder is an arbitrary total function from logs to events. Production wiring is assumed: all stores are present,
and the indexer name and chain are set. `currentIndexedBlock` is part of the configuration; theorems about runs ask for
it to be absent, as in `apps/indexer/src/index.ts:70-76`.

## Where the code falls short of its documentation

The repository's `README.md` (lines 31-32) promises replay and reorg safety without conditions. The theorems name the
conditions. Throughout, only blocks with logs have a row, as in the code, and chains may have any mixture of both. With
chains `x` (indexed up to block `c`) and `y` (now served) that last agree at `a`, a call resumes after the block
`Forks.Resume`: `c` if the highest stored row is shared, otherwise where the walk ends (`Recovery.Rollback`).

- Blocks are skipped when the resume point lies above the fork. With fresh rows and keys, a run shows what a from-scratch
  run shows iff neither chain has a log between the fork and the block it resumed after, and none below the start is
  indexed (`Convergence.Seamless`). This is exact for one call (`Reorganizations.OneCallConverges`), for runs that meet
  no orphan (`Convergence.Convergence`) and for every run (`Convergence.EveryCaughtUpRun`). In `Example.QuietForkExample`
  an empty block is replaced by one with a deposit, and no call ever notices.
- After a resume that leaves an orphan on top, the next call recovers again iff the batch brought no log, so where a run
  resumes for good depends on which calls fail and on the batch size. Without failures that point is
  `SmoothRuns.FinalResume`, and the run converges iff it is seamless (`SmoothRuns.SmoothRunConverges`). In
  `Failures.BatchSizeDecides` nothing fails, and batches of one block converge where batches of three do not.
- A recovery from an orphan at height 0, or with a depth limit of 0, demotes nothing. If the batch after it has no log,
  every later call repeats it, and the indexer makes no progress (`SmoothRuns.NoProgressIsExact`, `SmoothRuns.IdleRun`).
- The walk ends at the first height without a row. Recovery leaves only blocks of the new chain iff the fork is within
  reach, or the highest row below the gap is shared (`Limits.ReachIsExact`, `Limits.GapEndsSearch`,
  `Example.GapExample`).
- When the walk ends at the depth limit on a diverged row, or when the chain switches between the check and the fetch of
  one call, orphans stay below the new blocks. An orphan is permanent iff a row of the new chain lies on top of it
  (`Limits.OrphanStaysIffCovered`). At the depth limit that is so iff the batch of the same call has a log
  (`Limits.DepthExitLeavesOrphan`, `Failures.DepthExample`); after a switch within a call, iff the call succeeds and its
  batch has a log (`Limits.SwitchDuringCallHidesFork`, `Failures.SwitchExample`). Otherwise the next answered check
  reports the orphan.
- The resume point is -1 in exactly the cases of `Limits.NegativeResumeIsExact`; then no call ever succeeds again
  (`Limits.ForkBelowFirstBlockIsFatal`, `Failures.NegativeExample`). From a later start block, a block below the start may
  be indexed (`Limits.ResumeBelowStartIsExact`, `Limits.BlockBelowStartIsIndexed`, `Failures.BelowStartExample`).
- A record that is included again on the new fork has a key that an orphaned fact already holds; it is skipped and
  stays invisible (the last clause of `Convergence.Convergence`, `Example.ReinclusionExample`). A block that was demoted
  once never becomes canonical again (`Limits.DemotedForever`), so a chain that flips to a fork and back is never shown
  in full again (`Failures.FlipExample`).
- Facts whose block hash is not in lower case never join their header (`Limits.HashCaseDecides`).

- Primary keys leave no room for two records of one table at one log index of a transaction, for an intent that a
  transaction announces twice, or for two fills of a match whose order hashes share ten characters; the later record is
  skipped. A batch is stored whole iff none of its logs do this and its keys are new (`Completeness.NothingIsLost`).

Smaller differences: the comment on `ReorgDetector` speaks of following parent hashes, but the code walks by height, and
no parent hash is ever stored (`Integrity.NoParentIsStored`);
`raw_trades` has no migration for the column `price_0_to_1` that `packages/database/src/repository.ts:159` writes, and
the model follows the write; a stop during a batch that reaches the chain head is followed by a full polling sleep
(`Daemon.StopDuringBatchMaySleep`), and the daemon's `Stopped` can be left again (`Daemon.StoppedIsForGood`).

## Model

| member | source | states |
|---|---|---|
| Convergence.Convergence | apps/indexer/src/pipeline.ts:136-286 | for histories with and without empty blocks: when the resume point leaves no orphan below, every run that covers the new blocks, with any failures and batch sizes, ends at the head; if the resume is seamless, with the blocks of a from-scratch run iff no new block was stored before, and then with its visible facts iff no new record's key was; and if no new block was stored before, with its blocks iff the resume is seamless |
| Convergence.EveryCaughtUpRun | apps/indexer/src/pipeline.ts:136-286 | with fresh rows and keys, every run that has caught up, however often it had to recover, resumed after one of the points in closed form and shows what a from-scratch run shows iff that resume was seamless; failures and batch sizes decide which point it is |
| SmoothRuns.SmoothRunConverges | apps/indexer/src/pipeline.ts:136-286 | when nothing fails, a long enough run shows what a from-scratch run shows iff its final resume point, a function of the chains, the checkpoint and the batch size, is seamless; above that point rows and keys are fresh |
| SmoothRuns.SmoothRun | apps/indexer/src/pipeline.ts:174-286 | if no new block was stored before, such a run recovers as often as predicted and ends with the old rows up to that point and the new blocks on top, at the head or, if it recovers forever, at the end of one batch |
| SmoothRuns.FatalRun | apps/indexer/src/reorg.ts:109-112 | if the last of these recoveries rewinds to -1, the run ends in the rewound state |
| SmoothRuns.NoProgressIsExact | apps/indexer/src/reorg.ts:101-131 | a recovery resumes where it was iff that block is stored and has height 0, or the depth limit is 0 |
| SmoothRuns.IdleRun | apps/indexer/src/pipeline.ts:174-286 | if it does, and the batch after it has no log, no undisturbed call changes the database any more |
| Convergence.CaughtUpState | apps/indexer/src/pipeline.ts:174-286 | when the resume point leaves no orphan below, every run that covers the missing blocks ends in one and the same database |
| Convergence.RunAcrossFork | apps/indexer/src/pipeline.ts:174-286 | at every point of such a run the database is the old one, or the rewound one with a prefix of the new chain indexed on top |
| Convergence.PendingCall | apps/indexer/src/pipeline.ts:174-286 | one call after the switch, for any fork and any history: it fails and changes nothing, or rewinds to the resume point and indexes at most the next batch on top |
| Convergence.FreshResume | apps/indexer/src/pipeline.ts:189-286 | indexing on top of a rewind to any height gives the canonical blocks of a from-scratch run iff that height is seamless, if no row was stored before |
| Forks.RunOnTop | apps/indexer/src/pipeline.ts:174-286 | every run on the new chain ends with the old rows up to one of the resume points and new blocks after it |
| Forks.CallOnTop | apps/indexer/src/pipeline.ts:174-286 | one call from such a database changes nothing, or indexes further on top, or, only if the highest row is still an orphan, resumes at the next resume point |
| Forks.CheckAnswers | apps/indexer/src/reorg.ts:62-132 | the check reports a fork iff the highest stored row is not shared, and returns the resume point in closed form |
| Tracking.ReferenceView | apps/indexer/src/pipeline.ts:136-286 | indexing a chain from scratch shows exactly the chain's records |
| Tracking.FromScratch | apps/indexer/src/pipeline.ts:136-286 | indexing any prefix of a chain from scratch tracks the chain up to there |
| Tracking.RewoundView | apps/indexer/src/reorg.ts:164-177 | after a rewind to block a readers see exactly the old chain's facts up to a |
| Tracking.AdvancedView | packages/database/src/repository.ts:40-235 | more blocks on top complete the view iff none of their keys was stored |
| Reorganizations.ManyReorganizations | apps/indexer/src/pipeline.ts:136-286 | if every episode meets a fork that it resumes from seamlessly, at a block that is not negative, with fresh rows and keys: reorganizations may arrive in the middle of the previous recovery or backlog, and at every point readers see exactly the facts of one of the chains, and those of the last chain once the last episode has covered it |
| Reorganizations.OneEpisode | apps/indexer/src/pipeline.ts:136-286 | an episode of any length that resumes seamlessly, at a block that is not negative, with fresh rows and keys, leaves the old view or exactly the new chain's up to the checkpoint |
| Reorganizations.InitialRunTracks | apps/indexer/src/pipeline.ts:136-286 | a run from the empty database, stopped anywhere in the initial backlog, shows exactly the chain up to its checkpoint, which is where such an episode may begin |
| Reorganizations.RecoveriesAreBounded | apps/indexer/src/reorg.ts:62-132 | with a positive depth limit and no orphan at height 0, a run on one chain recovers at most as often as there are orphans at its start, which are canonical rows, wherever calls fail |
| Reorganizations.UndisturbedCallSucceeds | apps/indexer/src/pipeline.ts:136-286 | without failures the call that meets the fork succeeds iff the resume point is not -1 |
| Reorganizations.UndisturbedCallsCover | apps/indexer/src/pipeline.ts:136-286 | n undisturbed calls cover n batches across the fork, so that the coverage asked for by convergence is reached |
| Reorganizations.OneCallConverges | apps/indexer/src/pipeline.ts:136-286 | one undisturbed call to the head leaves, with fresh rows and keys, what a from-scratch run leaves iff neither chain has a log between the fork and the resume point and none below the start is indexed |
| Limits.ReachIsExact | apps/indexer/src/reorg.ts:97-132 | recovery leaves only blocks of the new chain canonical iff the walk meets the fork before a gap and the depth limit, or the highest row below the gap is shared |
| Limits.AncestorSearchIsExact | apps/indexer/src/reorg.ts:97-132 | the check returns the resume point, and the rows left canonical are exactly those on the served chain iff the fork is within reach |
| Limits.GapEndsSearch | apps/indexer/src/reorg.ts:109-112 | a missing row ends the walk right below it, and recovery leaves only blocks of the new chain iff the highest row below the gap is shared |
| Limits.OrphanStaysIffCovered | apps/indexer/src/reorg.ts:62-132 | after any resume, if no new block was stored before, an orphan stays canonical in every later run, unreported by every later check, iff a row of the new chain lies on top |
| Limits.DepthExitLeavesOrphan | apps/indexer/src/reorg.ts:130-131 | beyond the depth limit a diverged row stays canonical, and, if no new block was stored before, it does so for good iff the batch of the recovering call has a log |
| Limits.SwitchDuringCallHidesFork | apps/indexer/src/pipeline.ts:174-233 | when the chain switches after the check of a call, and no new block was stored before, every orphan becomes permanent iff the call succeeds and its batch, known from head and batch size, has a log |
| Limits.NegativeResumeIsExact | apps/indexer/src/reorg.ts:109-112 | the rollback height is -1 iff block 0 has no row, all rows from block 1 to the tip are orphans, and the depth allows to see them |
| Limits.ForkBelowFirstBlockIsFatal | apps/indexer/src/reorg.ts:109-112 | then the next undisturbed call and all calls after it fail, on whatever chains, and leave the checkpoint at -1 |
| Limits.FatalForkStaysFatal | apps/indexer/src/reorg.ts:109-112 | in that case no run on the new chain has a successful call |
| Limits.ResumeBelowStartIsExact | apps/indexer/src/reorg.ts:109-112 | recovery resumes below the configured start iff the rows reach down to the start, all are orphans and the depth allows it |
| Limits.BlockBelowStartIsIndexed | apps/indexer/src/pipeline.ts:189-204 | the next undisturbed call then indexes the block before the start |
| Limits.ReincludedRecordIsInvisible | packages/database/src/repository.ts:69-98 | a record of the new fork whose key an orphan holds is missing from the view although a from-scratch run shows it |
| Example.ExampleFork | apps/indexer/src/reorg.ts:97-132 | concrete chains that meet every hypothesis of convergence about chains, reach and seamlessness |
| Example.ReinclusionExample | apps/indexer/src/pipeline.ts:136-286 | a two-block input on which recovery loses a transaction that was included again |
| Example.QuietForkExample | apps/indexer/src/reorg.ts:62-87 | a two-block input, one block deep and with fresh rows and keys, on which no run on the new chain ever changes the database |
| Example.GapExample | apps/indexer/src/reorg.ts:109-112 | a four-block input with an empty block on which recovery leaves an orphan canonical |
| Failures.BatchSizeDecides | apps/indexer/src/pipeline.ts:174-286 | on the same input, without any failure, one call with batches of three blocks leaves that orphan for good while calls with batches of one recover twice and converge |
| Failures.DepthExample | apps/indexer/src/reorg.ts:130-131 | a fork of two blocks with a depth limit of one leaves an orphan for good |
| Failures.SwitchExample | apps/indexer/src/pipeline.ts:174-233 | a call during which the chain switches leaves an orphan for good |
| Failures.NegativeExample | apps/indexer/src/reorg.ts:109-112 | the only block with a log is replaced, and no later call changes the database, whatever chain is served |
| Failures.BelowStartExample | apps/indexer/src/reorg.ts:109-112 | the first indexed block is replaced, and the block before the configured start becomes canonical |
| Failures.FlipExample | packages/database/src/blockMetadata.ts:80-97 | the chain flips to a fork for one call and back: every run that catches up on the original chain misses the demoted block and its deposit |
| Recovery.StoredCheck | apps/indexer/src/reorg.ts:62-132 | the complete answer of the check for the rows of any history and a fork at any height |
| Integrity.ReportedBlockIsCheckpoint | packages/database/src/checkpoint.ts:44-100 | what the next call reads is the block that the last successful call reported, whether it recovered, indexed or found nothing to do |
| Tables.CheckpointReadsLastWrite | packages/database/src/checkpoint.ts:44-100 | a read sees the last write under the same name, and nothing if that was for another chain |
| Discovery.DiscoverMerges | packages/metadata/src/discoveryEngine.ts:14-91 | discovering two lists of records separately and merging by minimum is discovering them together |
| MetadataPipeline.MisidentifiedTokenIsLost | packages/metadata/src/metadataPipeline.ts:142-154 | a settled token is still known iff the job did not complete or the processor answered for that token; only a processor other than the shipped one does otherwise |
| MetadataRuns.TokensAreConserved | packages/metadata/src/metadataPipeline.ts:44-214 | if processors answer for the token they were given: the tables hold exactly the tokens ever enqueued, each with the block of its first appearance, whatever storage does |
| MetadataRuns.TokensArePartitioned | packages/metadata/src/metadataPipeline.ts:44-214 | if, besides, no job fails to be removed after its metadata was stored: every enqueued token is in exactly one of repository, live queue and dead queue |
| MetadataRuns.QueueDrains | packages/metadata/src/metadataPipeline.ts:89-214 | calls with a positive limit that come when every live job is due, and record their first outcome, settle every token after as many calls as there are attempts left |
| MetadataRuns.DailyCallsDrain | packages/metadata/src/metadataPipeline.ts:220-228 | so calls a day apart settle every token, whatever the processors answer, since no retry waits longer |
| MetadataRuns.NewTokenIsTaken | packages/metadata/src/metadataPipeline.ts:61-71 | a token that was in neither table is a pending job without attempts, due at once: the next call with room for it takes it |
| MetadataRuns.NothingIsInvented | packages/metadata/src/metadataPipeline.ts:142-154 | in every run each stored row has the name, symbol, decimals and source that a processor answered for its token, and rows never disappear |
| MetadataRuns.CompletedJobIsStored | packages/metadata/src/metadataPipeline.ts:142-154 | a completed job leaves the queue, its token gets the processor's answer with the job's block, and nothing else changes |
| MetadataPipeline.EveryJobIsSettled | packages/metadata/src/metadataPipeline.ts:89-214 | a call that does not reject settles every job it took: gone if completed, otherwise with one more failed attempt |
| MetadataRuns.FailedJobWaits | packages/database/src/metadataQueue.ts:41-69 | before its new `run_at` a failed job is never selected and its row does not change, in any run |
| MetadataRuns.FirstSeen | packages/metadata/src/metadataPipeline.ts:142-154 | when batches arrive in block order and processors answer for their token, every stored or queued block is the least at which the token was ever seen, however batches are split and interleaved with processing |
| Limits.NegativeCheckpointIsFinal | packages/shared/src/sync.ts:50-56 | from a negative checkpoint no call ever succeeds or changes the database again |
| Limits.DemotedForever | packages/database/src/blockMetadata.ts:80-97 | no run, on whatever chains, makes a demoted block canonical again |
| Limits.HashCaseDecides | packages/contracts/src/normalizer.ts:87-116 | a newly stored fact is visible iff its block hash is in lower case |
| Limits.SharedNameForgetsCheckpoint | packages/database/src/checkpoint.ts:85-91 | indexing another chain keeps this chain's checkpoint iff the indexer names differ or there was none |
| Limits.OverrideIgnoresCheckpoint | apps/indexer/src/pipeline.ts:140-157 | with `currentIndexedBlock` set, a call starts after that block, whatever the checkpoint says |
| Limits.TransactionsMakeKeys | packages/contracts/src/handlers/orderMatched.handler.ts:29-68 | primary keys, fill ids included, tell blocks apart whenever transaction hashes do |
| Replay.ReplayInvariant | apps/indexer/src/pipeline.ts:136-286 | every run that covers a chain from an empty database ends in one state, for all batch sizes and failure patterns |
| Replay.RunOnChain | apps/indexer/src/pipeline.ts:199-286 | any run on one chain leaves the state that indexing the covered blocks in one piece leaves, and covers what its successful calls asked for |
| Replay.BatchesCompose | apps/indexer/src/pipeline.ts:256-286 | two adjacent batches committed in turn leave the database of one batch |
| Replay.StepOnChain | apps/indexer/src/pipeline.ts:136-286 | one call on a chain the database agrees with does nothing or exactly the next batch, and reports its range |
| Replay.CallsFollowPlan | packages/shared/src/sync.ts:62-88 | undisturbed calls execute the planned ranges, one each and in order |
| Sync.RangesTile | packages/shared/src/sync.ts:38-88 | the ranges lie end to end from the first missing block to the head, and their number is the rounded-up quotient |
| Pipeline.ExecuteCall | apps/indexer/src/pipeline.ts:136-293 | the statement-by-statement `execute` computes the specified next database and result, failures included |
| Reports.ReportIsExact | apps/indexer/src/pipeline.ts:194-329 | a successful call reports the head it was told, `caughtUp` iff the last block is the head, the blocks that remain, the numbers of logs with known and unknown events, as inserted exactly the new rows and every other record as skipped, and `reorgRecovered` iff the check found a reorganization; all zero for an empty range |
| Reports.FailureNamesItsCause | apps/indexer/src/pipeline.ts:136-293 | the error of a failed call tells which of reading the checkpoint, checking or recovering, asking the RPC, planning and writing failed |
| Pipeline.CommitBatch | apps/indexer/src/pipeline.ts:256-286 | the batch transaction applies records, headers and checkpoint, or nothing |
| Pipeline.Recover | apps/indexer/src/pipeline.ts:176-192 | the recovery transaction demotes and rewinds, or changes nothing |
| Pipeline.ExtractBlockHeaders | apps/indexer/src/pipeline.ts:350-371 | one lower-cased header for each hash, in order of first appearance |
| Replay.HeadersAreRowKeys | apps/indexer/src/pipeline.ts:350-371 | the headers are exactly the blocks that have a log |
| Reorg.FindCommonAncestor | apps/indexer/src/reorg.ts:97-132 | the counting-down loop with its exits computes the specified walk |
| Reorg.CheckReorg | apps/indexer/src/reorg.ts:62-91 | the check compares the tip and walks only when it differs |
| Reorg.HashesMatchRegardlessOfCase | apps/indexer/src/reorg.ts:83-121 | two hashes count as equal iff they differ in nothing but case |
| Reorg.MarkNonCanonical | apps/indexer/src/reorg.ts:164-185 | rows above the rollback height are demoted and the checkpoint is set to it |
| Recovery.RecoveryDemotesOnlyOrphans | apps/indexer/src/reorg.ts:101-131 | whichever exit the walk takes, exactly the canonical rows above the rollback height are demoted, each of them off the served chain, and other chains are untouched |
| Recovery.RecoveryProgress | apps/indexer/src/reorg.ts:101-131 | a recovery shrinks the set of canonical rows iff depth limit and tip height are positive |
| Recovery.TipSpeaksForAll | apps/indexer/src/reorg.ts:62-91 | for rows of one linked chain the check reports no reorganization iff every canonical row is on the served chain |
| Integrity.ReachableStates | apps/indexer/src/pipeline.ts:162-286 | under arbitrary chain switches, recoveries and failures: one canonical row per height, none above the checkpoint, no rows before the first checkpoint, every fill has its trade and every other fact its block header |
| Integrity.NoParentIsStored | apps/indexer/src/pipeline.ts:350-371 | no run ever stores a parent hash |
| Integrity.FailedCallIsAtomic | apps/indexer/src/pipeline.ts:174-286 | a failed call leaves the old database or exactly the committed recovery |
| Integrity.RecoveryLowersCheckpoint | apps/indexer/src/reorg.ts:164-177 | recovery never raises the checkpoint, whatever the RPC answers |
| Views.ViewAfterIndexing | packages/database/src/repository.ts:40-235 | indexing adds exactly the new records to the view iff none of their keys was stored |
| Repository.SaveRecords | packages/database/src/repository.ts:40-239 | the five loops succeed iff no statement fails and every new fill has its trade, and then insert first-wins in record order |
| Repository.InsertGroup | packages/database/src/repository.ts:69-98 | one loop inserts its group and files each record under inserted or skipped |
| Repository.GroupingIsInvisible | packages/database/src/repository.ts:60-235 | the five grouped passes leave the tables of one in-order pass |
| Repository.InsertAllConcat | packages/database/src/repository.ts:40-235 | saving a and then b is saving their concatenation |
| Repository.InsertAllKeepsRows | packages/database/src/repository.ts:69-98 | stored rows are never changed or removed |
| Repository.SaveOutcome | packages/database/src/repository.ts:40-239 | saving is clean iff nothing fails and the foreign keys hold, and what it then leaves |
| Repository.SaveAccounting | packages/database/src/repository.ts:40-235 | inserted and skipped partition the input, agree with the statistics and count the new rows |
| Repository.ResavingInsertsNothing | packages/database/src/repository.ts:40-235 | saving a stored batch again changes nothing and skips everything |
| Referential.NormalizeStamps | packages/contracts/src/normalizer.ts:87-116 | every record carries the coordinates, topics and data of its log, and a fill travels with its trade |
| Normalization.MatchIsRecorded | packages/contracts/src/handlers/orderMatched.handler.ts:10-70 | a match becomes one trade with the two sides of the event in place, in lower case, and for each side a fill with that side's order hash and amount that names the trade; the price is the whole quotient of the amounts, 0 if the first is 0 |
| Normalization.VaultEventIsRecorded | packages/contracts/src/handlers/withdrawRequested.handler.ts:8-31 | each deposit and withdrawal event becomes one record of its user, token and amount, with the kind and request block of its event |
| Normalization.IntentIsRecorded | packages/contracts/src/handlers/intentMatched.handler.ts:8-28 | a routed swap becomes one record, and exactly diagnostic and unknown events become none |
| Normalization.KeysTellRecords | packages/database/src/repository.ts:69-98 | two records share a primary key iff they belong to one table and transaction and to one log index, or for swaps one intent; fills, besides, agree in ten characters of the order hash |
| Referential.NormalizedForeignKeys | packages/contracts/src/handlers/orderMatched.handler.ts:29-68 | whole logs never violate the foreign key of the fills |
| Completeness.NothingIsLost | packages/database/src/repository.ts:40-235 | a batch of logs adds a row for each of its records, holds every one of them unchanged and skips none, iff no two logs compete for a row, no match is ambiguous, and no key was stored |
| Completeness.DistinctIffApart | packages/contracts/src/normalizer.ts:87-116 | the records of a batch have pairwise different keys iff no two of its logs fill one table from one log index of a transaction or announce one intent in it, and no match has order hashes that share ten characters |
| Completeness.TrackedViewIsComplete | apps/indexer/src/pipeline.ts:136-286 | readers of a database that tracks such a chain see each record of each indexed log, and nothing else |
| Tables.Database.InsertFact | packages/database/src/repository.ts:69-98 | one conflict-ignoring insert: the first writer wins, a missing trade or a failure stops it |
| Tables.Database.SaveBlock | packages/database/src/blockMetadata.ts:80-97 | an existing row, demoted or not, is left alone |
| Tables.Database.GetLatestCanonicalBlock | packages/database/src/blockMetadata.ts:103-128 | a highest canonical row of the chain, or none |
| Tables.Database.GetBlockByNumber | packages/database/src/blockMetadata.ts:134-161 | a canonical row at the height, or none |
| Tables.Database.MarkNonCanonical | packages/database/src/blockMetadata.ts:167-186 | demotes the chain's rows from a height upwards, nothing else |
| Tables.Database.SaveCheckpoint | packages/database/src/checkpoint.ts:70-100 | upsert by indexer name alone, overwriting the chain |
| Queries.ListIsExact | packages/query/src/DepositQueries.ts:108-124 | a list holds exactly the user's facts in canonical blocks, each once |
| Queries.LookupIsExact | packages/query/src/DepositQueries.ts:73-106 | a lookup returns the fact iff it is in the canonical view |
| Queries.ListIsStrict | packages/query/src/TradeQueries.ts:91-112 | with one canonical block per height, the order by block, transaction and log index has no ties |
| Queries.ListsOfTrackedChain | packages/query/src/TradeQueries.ts:91-112 | in a database that tracks a chain, a list shows the user's facts of that chain, strictly newest first |
| Completeness.ListShowsEvents | packages/query/src/TradeQueries.ts:91-112 | in a database that tracks a chain without competing logs, the list of a user shows exactly the indexed events that concern the user, on either side of a match, each as the record of its log, strictly decreasing by block, transaction index and log index |
| Completeness.LookupShowsEvent | packages/query/src/DepositQueries.ts:73-106 | there a lookup finds a row iff an indexed log has that transaction, log index and kind of event, and shows that log's record |
| Queries.ViewDecidesLists | packages/query/src/DepositQueries.ts:108-124 | databases with the same view answer every list alike, whatever orphans they hold |
| Queries.AnswerExists | packages/query/src/DepositQueries.ts:108-124 | every list query has an answer |
| Queries.TwoColumnsSuffice | packages/database/src/blockMetadata.ts:207-221 | the two-column join of `withCanonical` selects what the three-column join selects iff a hash fixes its height |
| Discovery.DiscoverTokens | packages/metadata/src/discoveryEngine.ts:14-99 | the collect, group, sort and pick loops compute the specified tokens |
| Discovery.DiscoveryIsMinimum | packages/metadata/src/discoveryEngine.ts:53-91 | addresses are unique and exactly those of the candidates, each with an earliest sighting, and the list is sorted |
| Discovery.FirstSightingsAreFound | packages/metadata/src/discoveryEngine.ts:14-91 | the tokens are exactly the addresses that some rule which does not throw emits for the chain, once each, with an emitted sighting such that no other has a lower block, or there an earlier transaction hash, or there a lower log index; and they are listed in that order |
| Discovery.FirstEmittedWins | packages/metadata/src/discoveryEngine.ts:53-78 | of several candidates for one address at one place, the first one collected is announced |
| Discovery.RulesConcat | packages/metadata/src/discoveryEngine.ts:30-41 | rules are asked in their order |
| Discovery.OrderOfRecordsIsInvisible | packages/metadata/src/discoveryEngine.ts:20-91 | the tokens and their places depend only on which records there are |
| Discovery.SortedIsStable | packages/metadata/src/discoveryEngine.ts:58-91 | the modelled sort orders, permutes and keeps the order of ties |
| Discovery.StableSortIsUnique | packages/metadata/src/discoveryEngine.ts:58-91 | every stable sort gives the same sequence |
| Discovery.SightingOrder | packages/metadata/src/discoveryEngine.ts:58-68 | the comparator is a total preorder whose ties are equal places |
| TokenTables.TokenDatabase.Enqueue | packages/database/src/metadataQueue.ts:12-35 | conflict-ignoring insert, row by row |
| TokenTables.TokenDatabase.NextPending | packages/database/src/metadataQueue.ts:41-69 | the first eligible rows in order, as many as the limit allows |
| TokenTables.DueJobsAreTaken | packages/database/src/metadataQueue.ts:41-52 | an answer takes pending and failed jobs whose time has come: all of them if the limit allows, otherwise as many as it allows, by the block of observation and then by the text of the address |
| TokenTables.TokenDatabase.MarkFailed | packages/database/src/metadataQueue.ts:96-122 | one more attempt, dead at five |
| TokenTables.TokenDatabase.MarkCompleted | packages/database/src/metadataQueue.ts:74-91 | the job is removed, nothing else |
| TokenTables.TokenDatabase.Upsert | packages/database/src/metadataRepository.ts:20-49 | the row for the lower-cased address is replaced |
| MetadataPipeline.EnqueueBatch | packages/metadata/src/metadataPipeline.ts:44-84 | unknown tokens become pending jobs in one insert |
| MetadataPipeline.ProcessQueue | packages/metadata/src/metadataPipeline.ts:89-214 | the loop settles each selected job, and rejects when a failure cannot be recorded |
| MetadataPipeline.EnqueuedIsLedger | packages/metadata/src/metadataPipeline.ts:47-72 | checking both tables and inserting once enters exactly the first sightings of unknown tokens |
| MetadataPipeline.ExclusiveUnlessHalfDone | packages/metadata/src/metadataPipeline.ts:142-154 | a token stays in one table iff it is not the case that its metadata was stored and its job could not be removed |
| MetadataRuns.AttemptsAreBounded | packages/database/src/metadataQueue.ts:96-122 | Pending, Failed and Dead mean 0, 1 to 4 and 5 attempts in every reachable state, and n tokens cause at most 5n outcomes |
| MetadataRuns.FailureSchedulesRetry | packages/metadata/src/metadataPipeline.ts:169-228 | a failure counts one attempt, keeps its error, waits a minute doubled per earlier attempt, at most a day, and the fifth one is final |
| MetadataRuns.FirstSightingIsExact | packages/metadata/src/metadataPipeline.ts:47-72 | the recorded blocks are the true first sightings iff the first batch that mentions a token is never undercut later |
| MetadataRuns.LateSightingIsIgnored | packages/metadata/src/metadataPipeline.ts:47-60 | out of order, a token seen at block 9 and then at block 5 keeps block 9 |
| Backoff.GuardIsInvisible | apps/indexer/src/daemon.ts:277-282 | the exponent guard never changes a delay iff the ceiling is reached within thirty doublings |
| Backoff.DelaysAreMonotone | apps/indexer/src/daemon.ts:277-282 | later failures never wait less |
| Backoff.JitterIsBounded | apps/indexer/src/daemon.ts:277-282 | the jittered delay stays within the rounded base times one plus or minus the jitter factor |
| Backoff.JitterIsSymmetric | apps/indexer/src/daemon.ts:277-282 | the extreme draws give the extreme delays, the middle one the delay without jitter, and a larger draw no smaller delay |
| Backoff.RetryDelayIsDoubling | packages/metadata/src/metadataPipeline.ts:220-228 | the metadata delay is saturated doubling for every number of attempts |
| Daemon.EveryInterleavingIsSound | apps/indexer/src/daemon.ts:143-262 | in every interleaving one loop and one batch at most, and the counter is the length of the trailing run of failures |
| Daemon.StopIsFinal | apps/indexer/src/daemon.ts:168-193 | after `stop` no batch begins and the loop takes at most three more steps |
| Daemon.StopWakesTheLoop | apps/indexer/src/daemon.ts:168-193 | a first stop wakes a sleeping loop, whose next step ends it without a batch; a loop sleeps after a stop iff it already did after an earlier one |
| Daemon.LabelTellsTheState | apps/indexer/src/daemon.ts:197-249 | in every interleaving the label tells where the loop is and how its last batch ended, unless it is Stopped |
| Daemon.StopDuringBatchMaySleep | apps/indexer/src/daemon.ts:197-249 | a stop during a batch ends the loop with that batch iff the batch succeeded and did not reach the head |
| Daemon.StoppedIsForGood | apps/indexer/src/daemon.ts:181-187 | the label Stopped is final iff no batch is in flight |
| Daemon.TimeoutIsNotTheEnd | apps/indexer/src/daemon.ts:181-187 | a run in which the daemon is Stopped and then backing off |
| Daemon.ContinuousIndexer.AfterExecute | apps/indexer/src/daemon.ts:208-247 | success resets the counter, failure counts and backs off, and the loop sleeps or goes on |
| Daemon.ContinuousIndexer.RequestStop | apps/indexer/src/daemon.ts:168-193 | sets the flag once, wakes a sleeping loop and arms the timeout |

## Left out

- Pipeline.ExecuteCall: requires one canonical row per height, because with several the database chooses the answer of `getLatestCanonicalBlock`; `Integrity.ReachableStates` proves that every reachable database meets it.
- Integrity.ReachableStates: asks that within one `getLogs` answer a hash also fixes its height, which every hash-linked chain gives.
- Backoff.JitterIsBounded: rounds real numbers; floating point is not modelled, and a failure count below one, which the daemon never passes, is excluded.
- MetadataRuns.TokensAreConserved: assumes that processors answer for the token they were asked about, as the shipped one does (packages/metadata/src/erc20Processor.ts:39, 63); `MetadataPipeline.MisidentifiedTokenIsLost` shows what another one would do.
- MetadataRuns.TokensArePartitioned: assumes, besides, that no job fails to be removed after its metadata was stored; `MetadataPipeline.ExclusiveUnlessHalfDone` shows that this is exactly when a token is in two tables.
- MetadataRuns.FirstSeen: makes the same assumption about processors.
- Convergence.Convergence: the new chain is at least as long as the old checkpoint; a shorter head is not modelled as a reorganization.
- Queries.ListIsStrict: assumes that in one block a transaction index belongs to one transaction.
- Completeness.NothingIsLost: assumes transaction hashes without underscores, as hexadecimal text is; fill ids are joined with underscores.
- The five fact tables are one map whose keys name the table; amounts are numbers rather than decimal text, column widths, timestamps and swap legs are not stored.
- Errors carry their kind only; inside the batch transaction every database failure is one kind of error.
- The rollback depth is a natural number; the code accepts negative values from its configuration.
- Runs are proved for one indexer that no other writer disturbs.
- Discovery rules are arbitrary functions that may throw; the three shipped rules and their address check are not modelled.
- `localeCompare` is lexicographic order, as it is on the lower-case hexadecimal text of hashes; the same holds for the order of addresses in the queue.
- Failing reads of `nextPending` and of the existence checks end a call before it changes anything and are not modelled.
- The daemon's process signals and logs are not modelled; its loop is cut at the awaits.
- `SyncOrchestrator`, the block and metadata queries, HTTP routes, health checks, metrics, configuration and migrations would only add easy members.
- RPC transport and ABI decoding are library code: the reader is an environment and the decoder an arbitrary function.
