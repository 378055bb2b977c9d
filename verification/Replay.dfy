/**
 * Indexing one chain: the state after any run of calls has a closed form that does not depend on
 * batch sizes, on where calls failed, or on how the chain grew in between.
 */
module Replay {
  import opened Prelude
  import opened Records
  import opened Tables
  import opened Environment
  import opened Repository
  import opened Reorg
  import opened Sync
  import opened Pipeline
  import opened Chains

  // --- Closed form of the header inserts -----------------------------------------------------------

  /** `blocks` with a fresh canonical row for each key it does not hold yet. */
  function AddRows(blocks: BlockTable, ks: set<BlockKey>): BlockTable {
    map k | k in blocks.Keys + ks :: if k in blocks then blocks[k] else BlockRow("", true)
  }

  function HeaderKey(chainId: int, l: Log): BlockKey {
    BlockKey(chainId, l.blockNumber, ToLower(l.blockHash))
  }

  function RowKeys(chainId: int, logs: seq<Log>): set<BlockKey> {
    set l | l in logs :: HeaderKey(chainId, l)
  }

  predicate HashFixesNumber(logs: seq<Log>) {
    forall l, l' :: l in logs && l' in logs && SameHash(l.blockHash, l'.blockHash) ==> l.blockNumber == l'.blockNumber
  }

  lemma {:induction false} WithBlocksIsAddRows(blocks: BlockTable, ks: seq<BlockKey>)
    ensures WithBlocks(blocks, ks) == AddRows(blocks, set k | k in ks)
    decreases ks
  {
    if ks != [] {
      WithBlocksIsAddRows(WithBlock(blocks, ks[0]), ks[1..]);
      assert (set k | k in ks) == {ks[0]} + set k | k in ks[1..];
    }
  }

  /** One header for each block that has a log. */
  lemma {:induction false} HeadersAreRowKeys(chainId: int, logs: seq<Log>)
    requires HashFixesNumber(logs)
    ensures (set k | k in Headers(chainId, logs)) == RowKeys(chainId, logs)
  {
    if logs != [] {
      var init, last := logs[..|logs| - 1], logs[|logs| - 1];
      assert logs == init + [last];
      HeadersAreRowKeys(chainId, init);
      var hs := Headers(chainId, init);
      assert RowKeys(chainId, logs) == RowKeys(chainId, init) + {HeaderKey(chainId, last)};
      if HasHash(hs, ToLower(last.blockHash)) {
        var i :| 0 <= i < |hs| && hs[i].hash == ToLower(last.blockHash);
        assert hs[i] in RowKeys(chainId, init);
      } else {
        assert (set k | k in Headers(chainId, logs)) == (set k | k in hs) + {HeaderKey(chainId, last)};
      }
    }
  }

  lemma IndexedBlocks(cfg: Config, s: State, logs: seq<Log>, to: int)
    requires HashFixesNumber(logs)
    ensures Indexed(cfg, s, logs, to).blocks == AddRows(s.blocks, RowKeys(cfg.chainId, logs))
  {
    WithBlocksIsAddRows(s.blocks, Headers(cfg.chainId, logs));
    HeadersAreRowKeys(cfg.chainId, logs);
  }

  lemma {:induction false} RecordsConcat(decode: Decoder, chainId: int, a: seq<Log>, b: seq<Log>)
    ensures RecordsOf(decode, chainId, a + b) == RecordsOf(decode, chainId, a) + RecordsOf(decode, chainId, b)
  {
    if a == [] {
      assert a + b == b;
    } else {
      assert (a + b)[1..] == a[1..] + b;
      RecordsConcat(decode, chainId, a[1..], b);
    }
  }

  lemma ChainHashFixesNumber(c: Chain, lo: int, hi: int)
    requires ValidChain(c) && 0 <= lo && hi < |c|
    ensures HashFixesNumber(LogsIn(c, lo, hi))
  {
    forall l, l' | l in LogsIn(c, lo, hi) && l' in LogsIn(c, lo, hi) && SameHash(l.blockHash, l'.blockHash)
      ensures l.blockNumber == l'.blockNumber
    {
      LogsMembers(c, lo, hi, l);
      LogsMembers(c, lo, hi, l');
      assert LogMatches(c, l.blockNumber, l) && LogMatches(c, l'.blockNumber, l');
      assert Commits(c, l.blockNumber, c, l'.blockNumber);
    }
  }

  // --- Advancing along a chain -----------------------------------------------------------------------

  /** `s` with the blocks `lo..hi` of the chain indexed on top, in one piece. */
  function AdvanceTo(cfg: Config, s: State, c: Chain, lo: int, hi: int): State
    requires 0 <= lo && hi < |c|
  {
    if hi < lo then s else Indexed(cfg, s, LogsIn(c, lo, hi), hi)
  }

  lemma AddRowsComposes(blocks: BlockTable, ks: set<BlockKey>, ls: set<BlockKey>)
    ensures AddRows(AddRows(blocks, ks), ls) == AddRows(blocks, ks + ls)
  {
  }

  lemma IndexedBlocksCompose(cfg: Config, s: State, a: seq<Log>, b: seq<Log>, mid: int, hi: int)
    requires HashFixesNumber(a + b)
    ensures Indexed(cfg, Indexed(cfg, s, a, mid), b, hi).blocks == Indexed(cfg, s, a + b, hi).blocks
  {
    assert forall l :: l in a ==> l in a + b;
    assert forall l :: l in b ==> l in a + b;
    IndexedBlocks(cfg, s, a + b, hi);
    IndexedBlocks(cfg, s, a, mid);
    IndexedBlocks(cfg, Indexed(cfg, s, a, mid), b, hi);
    assert RowKeys(cfg.chainId, a + b) == RowKeys(cfg.chainId, a) + RowKeys(cfg.chainId, b);
    AddRowsComposes(s.blocks, RowKeys(cfg.chainId, a), RowKeys(cfg.chainId, b));
  }

  /** Two batches committed one after the other are one batch. */
  lemma BatchesCompose(cfg: Config, s: State, a: seq<Log>, b: seq<Log>, mid: int, hi: int)
    requires HashFixesNumber(a + b)
    ensures Indexed(cfg, Indexed(cfg, s, a, mid), b, hi) == Indexed(cfg, s, a + b, hi)
  {
    IndexedBlocksCompose(cfg, s, a, b, mid, hi);
    RecordsConcat(cfg.decode, cfg.chainId, a, b);
    InsertAllConcat(s.facts, RecordsOf(cfg.decode, cfg.chainId, a), RecordsOf(cfg.decode, cfg.chainId, b));
    var cp := s.checkpoints;
    assert cp[cfg.indexer := Checkpoint(cfg.chainId, mid)][cfg.indexer := Checkpoint(cfg.chainId, hi)]
        == cp[cfg.indexer := Checkpoint(cfg.chainId, hi)];
  }

  /** Indexing two adjacent ranges one after the other is indexing their union. */
  lemma AdvanceComposes(cfg: Config, s: State, c: Chain, lo: int, mid: int, hi: int)
    requires ValidChain(c) && 0 <= lo <= mid + 1 && mid <= hi < |c|
    ensures AdvanceTo(cfg, AdvanceTo(cfg, s, c, lo, mid), c, mid + 1, hi) == AdvanceTo(cfg, s, c, lo, hi)
  {
    hide RecordsOf, InsertAll, WithBlocks, Headers, ToLower, LogsIn;
    if lo <= mid && mid < hi {
      LogsSplit(c, lo, mid, hi);
      ChainHashFixesNumber(c, lo, hi);
      BatchesCompose(cfg, s, LogsIn(c, lo, mid), LogsIn(c, mid + 1, hi), mid, hi);
    }
  }

  // --- One call -----------------------------------------------------------------------------------------

  /** The last block that counts as indexed: the checkpoint, or the block before the start. */
  function Position(cfg: Config, s: State): int {
    var cp := CheckpointOf(s, cfg.indexer, cfg.chainId);
    if cp.Some? then cp.value else cfg.startBlock - 1
  }

  /** The state is one that indexing chain `c` can continue from: nothing on it contradicts `c`. */
  ghost predicate OnChain(cfg: Config, s: State, c: Chain) {
    && cfg.currentIndexedBlock.None?
    && Agrees(s.blocks, cfg.chainId, c)
    && (CheckpointOf(s, cfg.indexer, cfg.chainId).Some? ==> Position(cfg, s) >= 0)
  }

  /** The block up to which a successful call indexes. */
  function Target(position: int, batchSize: int, head: int): int {
    Max(position, Min(position + batchSize, head))
  }

  /** When the tip agrees with the chain, the only answers of the reorg check are "none" and failure. */
  lemma AgreeingCheck(blocks: BlockTable, chainId: int, depth: nat, rpc: Rpc, faults: Faults, c: Chain)
    requires Agrees(blocks, chainId, c) && Serves(rpc, c)
    ensures var check := Check(blocks, chainId, depth, rpc, faults);
            && (check == Success(NoReorg) || check == Failure(ReorgError))
            && (faults.failedRead.None? && Answers(rpc, c) ==> check.Success?)
  {
  }

  lemma AddedRowsAgree(cfg: Config, s: State, c: Chain, lo: int, hi: int)
    requires ValidChain(c) && Agrees(s.blocks, cfg.chainId, c) && 0 <= lo && hi < |c|
    ensures Agrees(AdvanceTo(cfg, s, c, lo, hi).blocks, cfg.chainId, c)
  {
    if lo <= hi {
      var logs := LogsIn(c, lo, hi);
      ChainHashFixesNumber(c, lo, hi);
      IndexedBlocks(cfg, s, logs, hi);
      forall k | k in RowKeys(cfg.chainId, logs)
        ensures RowOn(k, c)
      {
        var l :| l in logs && k == HeaderKey(cfg.chainId, l);
        LogsMembers(c, lo, hi, l);
        ToLowerIdempotent(l.blockHash);
      }
      forall k | k in CanonicalKeys(AdvanceTo(cfg, s, c, lo, hi).blocks, cfg.chainId)
        ensures RowOn(k, c)
      {
        if k in s.blocks {
          assert k in CanonicalKeys(s.blocks, cfg.chainId);
        }
      }
    }
  }

  /** On a chain the second half of a call does nothing, or exactly the next batch. */
  lemma NextBatchOnChain(
    cfg: Config, batchSize: int, current: Option<int>, c: Chain, rpc: Rpc, faults: Faults)
    requires Serves(rpc, c) && (current.Some? ==> current.value >= 0)
    ensures var phase := NextBatch(cfg, batchSize, current, rpc, faults);
            var p := if current.Some? then current.value else cfg.startBlock - 1;
            phase.Stopped? || (
              && rpc.head == Some(phase.head) && batchSize > 0
              && phase.range.nextFromBlock == p + 1
              && phase.range.nextToBlock == Target(p, batchSize, phase.head)
              && (phase.UpToDate? ==> phase.range.nextToBlock == p)
              && (phase.Batch? ==> p < phase.range.nextToBlock < |c|
                                   && phase.logs == LogsIn(c, p + 1, phase.range.nextToBlock)))
  {
    hide RecordsOf, LogsIn, BatchCommits;
  }

  /** Without failures the second half of a call succeeds. */
  lemma NextBatchSucceeds(
    cfg: Config, batchSize: int, current: Option<int>, c: Chain, rpc: Rpc, faults: Faults)
    requires Serves(rpc, c) && (current.Some? ==> current.value >= 0)
    requires faults.batch.None? && Answers(rpc, c) && batchSize > 0
    ensures !NextBatch(cfg, batchSize, current, rpc, faults).Stopped?
  {
  }

  lemma AdvanceKeepsOnChain(cfg: Config, s: State, c: Chain, lo: int, hi: int)
    requires ValidChain(c) && OnChain(cfg, s, c) && 0 <= lo <= hi < |c|
    ensures OnChain(cfg, AdvanceTo(cfg, s, c, lo, hi), c)
    ensures Position(cfg, AdvanceTo(cfg, s, c, lo, hi)) == hi
  {
    AddedRowsAgree(cfg, s, c, lo, hi);
  }

  /** `s'` is `s` with the blocks after its position indexed up to `hi`. */
  ghost predicate Advances(cfg: Config, s: State, c: Chain, hi: int, s': State) {
    && Position(cfg, s') == hi >= Position(cfg, s)
    && (hi == Position(cfg, s) ==> s' == s)
    && (hi > Position(cfg, s) ==>
          hi < |c| && Position(cfg, s) >= -1 && s' == AdvanceTo(cfg, s, c, Position(cfg, s) + 1, hi))
  }

  /** A call whose reorg check finds nothing does what its second half does. */
  lemma QuietCall(cfg: Config, batchSize: int, s: State, rpc: Rpc, faults: Faults)
    requires cfg.currentIndexedBlock.None?
    requires var check := Check(s.blocks, cfg.chainId, cfg.maxRollbackDepth, rpc, faults);
             check.Success? ==> check.value.NoReorg?
    ensures var (s', res) := Execute(cfg, batchSize, s, rpc, faults);
            var phase := NextBatch(cfg, batchSize, CheckpointOf(s, cfg.indexer, cfg.chainId), rpc, faults);
            && (res.Failure? ==> s' == s)
            && (res.Success? ==> (
                  && !phase.Stopped? && s' == Applied(cfg, s, phase) && !res.value.reorgRecovered
                  && res.value.fromBlock == phase.range.nextFromBlock
                  && res.value.toBlock == phase.range.nextToBlock))
  {
  }

  /** One call on a chain the state agrees with: nothing, or exactly the next batch. */
  lemma StepOnChain(cfg: Config, batchSize: int, s: State, c: Chain, rpc: Rpc, faults: Faults)
    requires ValidChain(c) && OnChain(cfg, s, c) && Serves(rpc, c)
    ensures var (s', res) := Execute(cfg, batchSize, s, rpc, faults);
            && OnChain(cfg, s', c)
            && (res.Failure? ==> s' == s)
            && (res.Success? ==> (
                  && rpc.head.Some? && batchSize > 0 && !res.value.reorgRecovered
                  && res.value.fromBlock == Position(cfg, s) + 1
                  && res.value.toBlock == Target(Position(cfg, s), batchSize, rpc.head.value)
                  && Advances(cfg, s, c, res.value.toBlock, s')))
  {
    hide RecordsOf, InsertAll, WithBlocks, Headers, ResultOf, ToLower, LogsIn, NextBatch, Check, Agrees;
    var current := CheckpointOf(s, cfg.indexer, cfg.chainId);
    AgreeingCheck(s.blocks, cfg.chainId, cfg.maxRollbackDepth, rpc, faults, c);
    NextBatchOnChain(cfg, batchSize, current, c, rpc, faults);
    QuietCall(cfg, batchSize, s, rpc, faults);
    var phase := NextBatch(cfg, batchSize, current, rpc, faults);
    var (s', res) := Execute(cfg, batchSize, s, rpc, faults);
    if res.Success? && phase.Batch? {
      AdvanceKeepsOnChain(cfg, s, c, Position(cfg, s) + 1, phase.range.nextToBlock);
      assert s' == AdvanceTo(cfg, s, c, Position(cfg, s) + 1, phase.range.nextToBlock);
    } else {
      assert s' == s;
    }
  }

  lemma StepSucceeds(cfg: Config, batchSize: int, s: State, c: Chain, rpc: Rpc, faults: Faults)
    requires ValidChain(c) && OnChain(cfg, s, c) && Serves(rpc, c)
    requires faults == NO_FAULTS && Answers(rpc, c) && batchSize > 0
    ensures Execute(cfg, batchSize, s, rpc, faults).1.Success?
  {
  }

  // --- Whole runs ---------------------------------------------------------------------------------------

  /** One call of `execute`, with the batch size it is configured with and everything it meets. */
  datatype Call = Call(batchSize: int, rpc: Rpc, faults: Faults)

  ghost function After(cfg: Config, s: State, call: Call): State {
    Execute(cfg, call.batchSize, s, call.rpc, call.faults).0
  }

  ghost predicate Succeeds(cfg: Config, s: State, call: Call) {
    Execute(cfg, call.batchSize, s, call.rpc, call.faults).1.Success?
  }

  ghost function Run(cfg: Config, s: State, calls: seq<Call>): State
    decreases calls
  {
    if calls == [] then s else Run(cfg, After(cfg, s, calls[0]), calls[1..])
  }

  ghost predicate AllServe(calls: seq<Call>, c: Chain) {
    forall call :: call in calls ==> Serves(call.rpc, c)
  }

  /** The batch sizes of the successful calls that saw a head of at least `head`, added up. */
  ghost function Covered(cfg: Config, s: State, calls: seq<Call>, head: int): nat
    decreases calls
  {
    if calls == [] then 0
    else
      var call := calls[0];
      (if Succeeds(cfg, s, call) && call.rpc.head.Some? && call.rpc.head.value >= head && call.batchSize > 0
       then call.batchSize else 0)
      + Covered(cfg, After(cfg, s, call), calls[1..], head)
  }

  lemma AdvancesComposes(cfg: Config, s: State, c: Chain, mid: int, s': State, hi: int, s'': State)
    requires ValidChain(c) && Advances(cfg, s, c, mid, s') && Advances(cfg, s', c, hi, s'')
    ensures Advances(cfg, s, c, hi, s'')
  {
    hide AdvanceTo;
    if Position(cfg, s) < mid < hi {
      AdvanceComposes(cfg, s, c, Position(cfg, s) + 1, mid, hi);
    }
  }

  /**
   * Any run on one chain, whatever the batch sizes and wherever calls fail, leaves the state that
   * indexing the covered blocks in one piece leaves; and it covers at least what its successful
   * calls were asked for.
   */
  lemma {:induction false} RunOnChain(cfg: Config, s: State, calls: seq<Call>, c: Chain, head: int)
    requires ValidChain(c) && OnChain(cfg, s, c) && AllServe(calls, c)
    ensures OnChain(cfg, Run(cfg, s, calls), c)
    ensures Advances(cfg, s, c, Position(cfg, Run(cfg, s, calls)), Run(cfg, s, calls))
    ensures Position(cfg, Run(cfg, s, calls)) >= Min(Position(cfg, s) + Covered(cfg, s, calls, head), head)
    decreases calls
  {
    hide Execute, AdvanceTo;
    if calls != [] {
      var call := calls[0];
      var s' := After(cfg, s, call);
      StepAdvances(cfg, s, c, call);
      RunOnChain(cfg, s', calls[1..], c, head);
      var end := Run(cfg, s', calls[1..]);
      AdvancesComposes(cfg, s, c, Position(cfg, s'), s', Position(cfg, end), end);
    }
  }

  lemma StepAdvances(cfg: Config, s: State, c: Chain, call: Call)
    requires ValidChain(c) && OnChain(cfg, s, c) && Serves(call.rpc, c)
    ensures var s' := After(cfg, s, call);
            && OnChain(cfg, s', c)
            && Advances(cfg, s, c, Position(cfg, s'), s')
            && (Succeeds(cfg, s, call) ==>
                  call.rpc.head.Some? && call.batchSize > 0
                  && Position(cfg, s') == Target(Position(cfg, s), call.batchSize, call.rpc.head.value))
  {
    StepOnChain(cfg, call.batchSize, s, c, call.rpc, call.faults);
  }

  /**
   * Replay invariant: from an empty database, any run that covers the chain ends in one and the same
   * state, for every choice of batch sizes and every pattern of failures on the way.
   */
  lemma ReplayInvariant(cfg: Config, c: Chain, calls: seq<Call>)
    requires ValidChain(c) && cfg.currentIndexedBlock.None? && AllServe(calls, c)
    requires cfg.startBlock < |c| && Covered(cfg, EMPTY, calls, |c| - 1) >= |c| - cfg.startBlock
    ensures Run(cfg, EMPTY, calls) == AdvanceTo(cfg, EMPTY, c, cfg.startBlock, |c| - 1)
  {
    hide Execute, AdvanceTo, Run, Covered;
    assert OnChain(cfg, EMPTY, c);
    assert Position(cfg, EMPTY) == cfg.startBlock - 1;
    RunOnChain(cfg, EMPTY, calls, c, |c| - 1);
  }

  /** A call that nothing disturbs, on a chain whose head stands still. */
  ghost predicate Undisturbed(call: Call, c: Chain, batchSize: nat) {
    && call.batchSize == batchSize && call.faults == NO_FAULTS
    && Serves(call.rpc, c) && Answers(call.rpc, c) && call.rpc.head == Some(|c| - 1)
  }

  /** Undisturbed calls execute the planned ranges, one each, in order. */
  lemma {:induction false} CallsFollowPlan(cfg: Config, s: State, c: Chain, calls: seq<Call>, batchSize: nat)
    requires ValidChain(c) && OnChain(cfg, s, c) && batchSize > 0
    requires forall call :: call in calls ==> Undisturbed(call, c, batchSize)
    requires var cp := CheckpointOf(s, cfg.indexer, cfg.chainId);
             |calls| <= |Plan(cfg.startBlock, cp, |c| - 1, batchSize)|
    ensures var plan := Plan(cfg.startBlock, CheckpointOf(s, cfg.indexer, cfg.chainId), |c| - 1, batchSize);
            Position(cfg, Run(cfg, s, calls)) == if calls == [] then Position(cfg, s) else plan[|calls| - 1].nextToBlock
    decreases calls
  {
    hide Execute, Check, InsertAll, WithBlocks, RecordsOf, Headers;
    if calls != [] {
      var call := calls[0];
      var cp := CheckpointOf(s, cfg.indexer, cfg.chainId);
      var plan := Plan(cfg.startBlock, cp, |c| - 1, batchSize);
      assert call in calls && Undisturbed(call, c, batchSize);
      StepSucceeds(cfg, batchSize, s, c, call.rpc, call.faults);
      StepAdvances(cfg, s, c, call);
      var s' := After(cfg, s, call);
      assert CheckpointOf(s', cfg.indexer, cfg.chainId) == Some(plan[0].nextToBlock);
      assert plan[1..] == Plan(cfg.startBlock, Some(plan[0].nextToBlock), |c| - 1, batchSize);
      CallsFollowPlan(cfg, s', c, calls[1..], batchSize);
    }
  }
}
