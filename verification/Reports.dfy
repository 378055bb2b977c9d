/** What a successful `execute` reports: the numbers agree with the chain, the logs and the database. */
module Reports {
  import opened Prelude
  import opened Records
  import opened Tables
  import opened Environment
  import opened Repository
  import opened Referential
  import opened Reorg
  import opened Pipeline

  /** The positions, from `k` on, of the logs whose event is unknown. */
  function UnknownFrom(decode: Decoder, logs: seq<Log>, k: nat): set<nat> {
    set i: nat | k <= i < |logs| && decode(logs[i]).UnknownEvent?
  }

  /** The positions, from `k` on, of the logs whose event is known. */
  function DecodedFrom(decode: Decoder, logs: seq<Log>, k: nat): set<nat> {
    set i: nat | k <= i < |logs| && !decode(logs[i]).UnknownEvent?
  }

  /** The two counters of the decoding loop count positions, and each log is counted once. */
  lemma {:induction false} CountersCount(decode: Decoder, logs: seq<Log>, k: nat)
    requires k <= |logs|
    ensures UnknownCount(decode, logs[k..]) == |UnknownFrom(decode, logs, k)|
    ensures EventCount(decode, logs[k..]) == |DecodedFrom(decode, logs, k)|
    ensures EventCount(decode, logs[k..]) + UnknownCount(decode, logs[k..]) == |logs| - k
    decreases |logs| - k
  {
    if k < |logs| {
      CountersCount(decode, logs, k + 1);
      assert logs[k..][1..] == logs[k + 1..];
      var unknown, decoded := UnknownFrom(decode, logs, k + 1), DecodedFrom(decode, logs, k + 1);
      if decode(logs[k]).UnknownEvent? {
        assert UnknownFrom(decode, logs, k) == unknown + {k} && DecodedFrom(decode, logs, k) == decoded;
      } else {
        assert UnknownFrom(decode, logs, k) == unknown && DecodedFrom(decode, logs, k) == decoded + {k};
      }
    }
  }

  /** The answer to the fetch of a call, with what the report says of it. */
  ghost predicate Describes(cfg: Config, r: IndexingResult, logs: seq<Log>) {
    && r.logsFetched == |logs| && r.unknownEvents == |UnknownFrom(cfg.decode, logs, 0)|
    && r.eventsDecoded == |DecodedFrom(cfg.decode, logs, 0)|
    && r.normalizedRecords == |RecordsOf(cfg.decode, cfg.chainId, logs)|
  }

  /**
   * Every successful call, the early exit included, reports the head it was told, how far it still is, and
   * whether it is there; the log counters of the range it covered, and nothing for an empty range; and as
   * inserted exactly the new rows, every other record being skipped.
   */
  lemma ReportIsExact(cfg: Config, batchSize: int, s: State, rpc: Rpc, faults: Faults)
    requires Execute(cfg, batchSize, s, rpc, faults).1.Success?
    ensures var (s', res) := Execute(cfg, batchSize, s, rpc, faults); var r := res.value;
            && rpc.head == Some(r.latestChainBlock)
            && (r.caughtUp <==> r.toBlock >= r.latestChainBlock)
            && r.remainingBlocks == Max(0, r.latestChainBlock - r.toBlock)
            && r.fromBlock - 1 <= r.toBlock < r.fromBlock + batchSize
            && (r.fromBlock <= r.toBlock ==>
                  r.toBlock <= r.latestChainBlock
                  && rpc.logs(r.fromBlock, r.toBlock).Some?
                  && Describes(cfg, r, rpc.logs(r.fromBlock, r.toBlock).value))
            && (r.toBlock < r.fromBlock ==> Describes(cfg, r, []))
            && r.eventsDecoded + r.unknownEvents == r.logsFetched
            && r.insertedCount == |s'.facts| - |s.facts|
            && r.insertedCount + r.skippedCount == r.normalizedRecords && r.updatedCount == 0
            && (r.reorgRecovered <==>
                  Check(s.blocks, cfg.chainId, cfg.maxRollbackDepth, rpc, faults).value.RollbackTo?)
  {
    hide Check, RecordsOf, InsertAll, ResultOf, WithBlocks, Headers, UnknownCount, EventCount, UnknownFrom, DecodedFrom,
      BatchCommits;
    var base := Prepared(cfg, s, rpc, faults).value;
    var phase := NextBatch(cfg, batchSize, base.current, rpc, faults);
    NoRecords(cfg);
    if phase.Batch? {
      var records := RecordsOf(cfg.decode, cfg.chainId, phase.logs);
      CountersCount(cfg.decode, phase.logs, 0);
      assert phase.logs[0..] == phase.logs;
      NormalizedForeignKeys(s.facts, cfg.decode, cfg.chainId, phase.logs);
      SaveAccounting(s.facts, records);
    }
  }

  lemma NoRecords(cfg: Config)
    ensures RecordsOf(cfg.decode, cfg.chainId, []) == [] && UnknownCount(cfg.decode, []) == 0
    ensures EventCount(cfg.decode, []) == 0
    ensures UnknownFrom(cfg.decode, [], 0) == {} && DecodedFrom(cfg.decode, [], 0) == {}
  {
  }

  /** The planner accepts its input: nothing is negative, and a batch has a block. */
  predicate Plannable(head: int, current: Option<int>, batchSize: int) {
    head >= 0 && batchSize > 0 && (current.Some? ==> current.value >= 0)
  }

  /** A failed call names its cause: the first step that could not be taken. */
  lemma FailureNamesItsCause(cfg: Config, batchSize: int, s: State, rpc: Rpc, faults: Faults)
    requires Execute(cfg, batchSize, s, rpc, faults).1.Failure?
    ensures var error := Execute(cfg, batchSize, s, rpc, faults).1.error;
            var base := Prepared(cfg, s, rpc, faults);
            var check := Check(s.blocks, cfg.chainId, cfg.maxRollbackDepth, rpc, faults);
            && (error == CheckpointError <==> cfg.currentIndexedBlock.None? && faults.failedRead == Some(0))
            && (error == ReorgError <==>
                  && !(cfg.currentIndexedBlock.None? && faults.failedRead == Some(0))
                  && (check.Failure? || (check.value.RollbackTo? && Blown(faults.recovery, 3))))
            && (error in {CheckpointError, ReorgError} <==> base.Failure?)
            && (base.Success? && rpc.head.None? ==> error == RpcError)
            && (base.Success? && rpc.head.Some? ==>
                  (error == ValidationError <==> !Plannable(rpc.head.value, base.value.current, batchSize)))
            && (base.Success? && rpc.head.Some? && Plannable(rpc.head.value, base.value.current, batchSize) ==>
                  var from := if base.value.current.None? then cfg.startBlock else base.value.current.value + 1;
                  var logs := rpc.logs(from, Min(from + batchSize - 1, rpc.head.value));
                  && from <= rpc.head.value
                  && (error == RpcError <==> logs.None?)
                  && (error == PersistenceError <==> logs.Some? && !BatchCommits(cfg, logs.value, faults)))
  {
    hide Walk, RecordsOf, InsertAll, ResultOf, WithBlocks, Headers, BatchCommits;
    CheckFailsAsReorg(s.blocks, cfg, rpc, faults);
  }

  lemma CheckFailsAsReorg(blocks: BlockTable, cfg: Config, rpc: Rpc, faults: Faults)
    ensures var check := Check(blocks, cfg.chainId, cfg.maxRollbackDepth, rpc, faults);
            check.Failure? ==> check.error == ReorgError
  {
    if faults.failedRead != Some(1) && Latest(blocks, cfg.chainId).Some? {
      var tip := Latest(blocks, cfg.chainId).value.number;
      WalkFailsAsReorg(blocks, cfg.chainId, rpc, faults, tip, MinBlock(tip, cfg.maxRollbackDepth), 0);
    }
  }

  lemma {:induction false} WalkFailsAsReorg(
    blocks: BlockTable, chainId: int, rpc: Rpc, faults: Faults, n: int, min: int, i: nat)
    ensures var walk := Walk(blocks, chainId, rpc, faults, n, min, i); walk.Failure? ==> walk.error == ReorgError
    decreases n - min
  {
    if n >= min {
      WalkFailsAsReorg(blocks, chainId, rpc, faults, n - 1, min, i + 1);
    }
  }
}
