/** `IndexingPipeline.execute` (apps/indexer/src/pipeline.ts): one step of the indexing state machine. */
module Pipeline {
  import opened Prelude
  import opened Records
  import opened Tables
  import opened Environment
  import opened Repository
  import opened Referential
  import opened Reorg
  import opened Sync

  datatype IndexingResult = IndexingResult(
    fromBlock: int, toBlock: int, latestChainBlock: int,
    logsFetched: nat, eventsDecoded: nat, unknownEvents: nat, normalizedRecords: nat,
    insertedCount: nat, updatedCount: nat, skippedCount: nat,
    remainingBlocks: int, caughtUp: bool, reorgRecovered: bool)

  // --- Block headers --------------------------------------------------------------------------------

  predicate HasHash(headers: seq<BlockKey>, hash: string) {
    exists i :: 0 <= i < |headers| && headers[i].hash == hash
  }

  function AddHeader(headers: seq<BlockKey>, chainId: int, log: Log): seq<BlockKey> {
    var hash := ToLower(log.blockHash);
    if HasHash(headers, hash) then headers else headers + [BlockKey(chainId, log.blockNumber, hash)]
  }

  /** The headers found in `logs`, one for each hash, in order of first appearance. */
  function Headers(chainId: int, logs: seq<Log>): seq<BlockKey> {
    if logs == [] then []
    else AddHeader(Headers(chainId, logs[..|logs| - 1]), chainId, logs[|logs| - 1])
  }

  function WithBlocks(blocks: BlockTable, ks: seq<BlockKey>): BlockTable
    decreases ks
  {
    if ks == [] then blocks else WithBlocks(WithBlock(blocks, ks[0]), ks[1..])
  }

  method ExtractBlockHeaders(chainId: int, logs: seq<Log>) returns (headers: seq<BlockKey>)
    ensures headers == Headers(chainId, logs)
  {
    headers := [];
    for i := 0 to |logs|
      invariant headers == Headers(chainId, logs[..i])
    {
      assert logs[..i + 1][..i] == logs[..i];
      var hash := ToLower(logs[i].blockHash);
      if !HasHash(headers, hash) {
        headers := headers + [BlockKey(chainId, logs[i].blockNumber, hash)];
      }
    }
    assert logs[..|logs|] == logs;
  }

  // --- Specification of one call ------------------------------------------------------------------

  function UnknownCount(decode: Decoder, logs: seq<Log>): nat {
    if logs == [] then 0
    else (if decode(logs[0]).UnknownEvent? then 1 else 0) + UnknownCount(decode, logs[1..])
  }

  /** The database after the batch transaction has committed `logs` up to block `toBlock`. */
  function Indexed(cfg: Config, s: State, logs: seq<Log>, toBlock: int): State {
    State(
      s.checkpoints[cfg.indexer := Checkpoint(cfg.chainId, toBlock)],
      WithBlocks(s.blocks, Headers(cfg.chainId, logs)),
      InsertAll(s.facts, RecordsOf(cfg.decode, cfg.chainId, logs)))
  }

  /** Statements of the batch transaction: one per record, one per header, the checkpoint, the commit. */
  function BatchStatements(cfg: Config, logs: seq<Log>): nat {
    |RecordsOf(cfg.decode, cfg.chainId, logs)| + |Headers(cfg.chainId, logs)| + 2
  }

  const RECOVERY_STATEMENTS: nat := 3

  /** The foreign key of the fills cannot stop a batch of whole logs, so only a failure can. */
  predicate BatchCommits(cfg: Config, logs: seq<Log>, faults: Faults) {
    !Blown(faults.batch, BatchStatements(cfg, logs))
  }

  /** What the planning and indexing phase of a call comes to. */
  datatype Phase =
    | Stopped(error: Error)
    | UpToDate(range: SyncOutput, head: int)
    | Batch(range: SyncOutput, head: int, logs: seq<Log>)

  /** Planning, fetching and committing the next batch after `current`. */
  function NextBatch(
    cfg: Config, batchSize: int, current: Option<int>, rpc: Rpc, faults: Faults): Phase
  {
    if rpc.head.None? then Stopped(RpcError)
    else
      var planned := CalculateSyncRange(cfg.startBlock, rpc.head.value, current, batchSize);
      if planned.Failure? then Stopped(planned.error)
      else
        var range := planned.value;
        if range.nextToBlock < range.nextFromBlock then UpToDate(range, rpc.head.value)
        else
          var fetched := rpc.logs(range.nextFromBlock, range.nextToBlock);
          if fetched.None? then Stopped(RpcError)
          else if !BatchCommits(cfg, fetched.value, faults) then Stopped(PersistenceError)
          else Batch(range, rpc.head.value, fetched.value)
  }

  function Applied(cfg: Config, s: State, phase: Phase): State {
    if phase.Batch? then Indexed(cfg, s, phase.logs, phase.range.nextToBlock) else s
  }

  function EventCount(decode: Decoder, logs: seq<Log>): nat {
    if logs == [] then 0
    else (if decode(logs[0]).UnknownEvent? then 0 else 1) + EventCount(decode, logs[1..])
  }

  ghost function Report(cfg: Config, s: State, phase: Phase, recovered: bool): Result<IndexingResult, Error> {
    match phase
    case Stopped(error) => Failure(error)
    case UpToDate(range, head) =>
      Success(IndexingResult(range.nextFromBlock, range.nextToBlock, head, 0, 0, 0, 0, 0, 0, 0, 0, true, recovered))
    case Batch(range, head, logs) =>
      var records := RecordsOf(cfg.decode, cfg.chainId, logs);
      var saved := ResultOf(s.facts, records);
      Success(IndexingResult(range.nextFromBlock, range.nextToBlock, head,
                             |logs|, EventCount(cfg.decode, logs), UnknownCount(cfg.decode, logs), |records|,
                             saved.insertedCount, saved.updatedCount, saved.skippedCount,
                             range.remainingBlocks, range.isCaughtUp, recovered))
  }

  function StartingPoint(cfg: Config, s: State): Option<int> {
    if cfg.currentIndexedBlock.Some? then cfg.currentIndexedBlock.value
    else CheckpointOf(s, cfg.indexer, cfg.chainId)
  }

  /** Where the reorg check leaves a call: the database, the last indexed block, whether it recovered. */
  datatype Ready = Ready(state: State, current: Option<int>, recovered: bool)

  ghost function Prepared(cfg: Config, s: State, rpc: Rpc, faults: Faults): Result<Ready, Error> {
    if cfg.currentIndexedBlock.None? && faults.failedRead == Some(0) then Failure(CheckpointError)
    else
      var check := Check(s.blocks, cfg.chainId, cfg.maxRollbackDepth, rpc, faults);
      if check.Failure? then Failure(check.error)
      else if check.value.NoReorg? then Success(Ready(s, StartingPoint(cfg, s), false))
      else if Blown(faults.recovery, RECOVERY_STATEMENTS) then Failure(ReorgError)
      else Success(Ready(Recovered(s, cfg.chainId, cfg.indexer, check.value.block), Some(check.value.block), true))
  }

  /** One call of `execute`: the database it leaves and what it returns or throws. */
  ghost function Execute(cfg: Config, batchSize: int, s: State, rpc: Rpc, faults: Faults)
    : (State, Result<IndexingResult, Error>)
  {
    var base := Prepared(cfg, s, rpc, faults);
    if base.Failure? then (s, Failure(base.error))
    else
      var b := base.value;
      var phase := NextBatch(cfg, batchSize, b.current, rpc, faults);
      (Applied(cfg, b.state, phase), Report(cfg, b.state, phase, b.recovered))
  }

  // --- The call itself --------------------------------------------------------------------------------

  /** Decodes and normalizes the logs, one by one. */
  method NormalizeLogs(cfg: Config, logs: seq<Log>) returns (records: seq<Record>, decoded: nat, unknown: nat)
    ensures records == RecordsOf(cfg.decode, cfg.chainId, logs)
    ensures decoded == EventCount(cfg.decode, logs) && unknown == UnknownCount(cfg.decode, logs)
  {
    records, decoded, unknown := [], 0, 0;
    for i := 0 to |logs|
      invariant records + RecordsOf(cfg.decode, cfg.chainId, logs[i..]) == RecordsOf(cfg.decode, cfg.chainId, logs)
      invariant decoded + EventCount(cfg.decode, logs[i..]) == EventCount(cfg.decode, logs)
      invariant unknown + UnknownCount(cfg.decode, logs[i..]) == UnknownCount(cfg.decode, logs)
    {
      assert logs[i..][1..] == logs[i + 1..];
      var event := cfg.decode(logs[i]);
      if event.UnknownEvent? {
        unknown := unknown + 1;
      } else {
        decoded := decoded + 1;
      }
      records := records + Normalize(cfg.chainId, logs[i], event);
    }
    assert logs[|logs|..] == [];
  }

  /** The recovery transaction: all of it, or nothing. */
  method Recover(cfg: Config, db: Database, rollbackTo: int, faults: Faults) returns (ok: bool)
    modifies db
    ensures ok <==> !Blown(faults.recovery, RECOVERY_STATEMENTS)
    ensures db.View() == if ok then Recovered(old(db.View()), cfg.chainId, cfg.indexer, rollbackTo) else old(db.View())
  {
    var saved := db.View();
    db.Begin(faults.recovery);
    ok := MarkNonCanonical(db, cfg.chainId, cfg.indexer, rollbackTo);
    if ok {
      ok := db.Spend();
    }
    if !ok {
      db.Rollback(saved);
    }
  }

  lemma {:induction false} WithBlocksSnoc(blocks: BlockTable, ks: seq<BlockKey>, i: nat)
    requires i < |ks|
    ensures WithBlocks(blocks, ks[..i + 1]) == WithBlock(WithBlocks(blocks, ks[..i]), ks[i])
    decreases i
  {
    if i > 0 {
      assert ks[..i + 1][1..] == ks[1..][..i] && ks[..i][1..] == ks[1..][..i - 1];
      WithBlocksSnoc(WithBlock(blocks, ks[0]), ks[1..], i - 1);
    }
  }

  method SaveHeaders(db: Database, headers: seq<BlockKey>) returns (ok: bool)
    modifies db`blocks, db`fuse
    ensures ok <==> !Blown(old(db.fuse), |headers|)
    ensures ok ==> db.blocks == WithBlocks(old(db.blocks), headers) && db.fuse == Burn(old(db.fuse), |headers|)
  {
    ok := true;
    for i := 0 to |headers|
      invariant db.fuse == Burn(old(db.fuse), i) && !Blown(old(db.fuse), i)
      invariant db.blocks == WithBlocks(old(db.blocks), headers[..i])
    {
      WithBlocksSnoc(old(db.blocks), headers, i);
      ok := db.SaveBlock(headers[i]);
      if !ok {
        return;
      }
    }
    assert headers[..|headers|] == headers;
    ok := true;
  }

  /** The batch transaction: records, headers and checkpoint, or nothing. */
  method CommitBatch(
    cfg: Config, db: Database, logs: seq<Log>, records: seq<Record>, toBlock: int, faults: Faults)
    returns (res: Result<PersistenceResult, Error>)
    requires records == RecordsOf(cfg.decode, cfg.chainId, logs)
    modifies db
    ensures res.Success? <==> BatchCommits(cfg, logs, faults)
    ensures res.Success? ==> db.View() == Indexed(cfg, old(db.View()), logs, toBlock)
                             && res.value == ResultOf(old(db.facts), records)
    ensures res.Failure? ==> res.error == PersistenceError && db.View() == old(db.View())
  {
    var saved := db.View();
    assert ForeignKeysHold(db.facts, records) by {
      NormalizedForeignKeys(db.facts, cfg.decode, cfg.chainId, logs);
    }
    db.Begin(faults.batch);
    res := SaveRecords(db, records);
    var ok := res.Success?;
    if ok {
      var headers := ExtractBlockHeaders(cfg.chainId, logs);
      ok := SaveHeaders(db, headers);
    }
    if ok {
      ok := db.SaveCheckpoint(cfg.indexer, cfg.chainId, toBlock);
    }
    if ok {
      ok := db.Spend();
    }
    if !ok {
      db.Rollback(saved);
      res := Failure(PersistenceError);
    }
  }

  /** Resolves the last indexed block and recovers from a reorganization, if there is one. */
  method Prepare(cfg: Config, db: Database, rpc: Rpc, faults: Faults) returns (res: Result<(Option<int>, bool), Error>)
    requires OnePerHeight(db.blocks, cfg.chainId)
    modifies db
    ensures var base := Prepared(cfg, old(db.View()), rpc, faults);
            && (base.Failure? ==> res == Failure(base.error) && db.View() == old(db.View()))
            && (base.Success? ==> res == Success((base.value.current, base.value.recovered))
                                  && db.View() == base.value.state)
  {
    var current;
    if cfg.currentIndexedBlock.Some? {
      current := cfg.currentIndexedBlock.value;
    } else if faults.failedRead == Some(0) {
      return Failure(CheckpointError);
    } else {
      current := db.GetCheckpoint(cfg.indexer, cfg.chainId);
    }
    var reorg :- CheckReorg(db, cfg.chainId, cfg.maxRollbackDepth, rpc, faults);
    if reorg.NoReorg? {
      return Success((current, false));
    }
    var recovered := Recover(cfg, db, reorg.block, faults);
    res := if recovered then Success((Some(reorg.block), true)) else Failure(ReorgError);
  }

  method ExecuteCall(cfg: Config, batchSize: int, db: Database, rpc: Rpc, faults: Faults)
    returns (res: Result<IndexingResult, Error>)
    requires OnePerHeight(db.blocks, cfg.chainId)
    modifies db
    ensures (db.View(), res) == Execute(cfg, batchSize, old(db.View()), rpc, faults)
  {
    var ready :- Prepare(cfg, db, rpc, faults);
    var (current, reorgRecovered) := ready;
    if rpc.head.None? {
      return Failure(RpcError);
    }
    var range :- CalculateSyncRange(cfg.startBlock, rpc.head.value, current, batchSize);
    if range.nextToBlock < range.nextFromBlock {
      return Success(IndexingResult(range.nextFromBlock, range.nextToBlock, rpc.head.value,
                                    0, 0, 0, 0, 0, 0, 0, 0, true, reorgRecovered));
    }
    var fetched := rpc.logs(range.nextFromBlock, range.nextToBlock);
    if fetched.None? {
      return Failure(RpcError);
    }
    var records, decoded, unknown := NormalizeLogs(cfg, fetched.value);
    var saved :- CommitBatch(cfg, db, fetched.value, records, range.nextToBlock, faults);
    res := Success(IndexingResult(range.nextFromBlock, range.nextToBlock, rpc.head.value,
                                  |fetched.value|, decoded, unknown, |records|,
                                  saved.insertedCount, saved.updatedCount, saved.skippedCount,
                                  range.remainingBlocks, range.isCaughtUp, reorgRecovered));
  }
}
