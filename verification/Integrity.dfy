/**
 * What holds in every reachable state, under arbitrary chain switches, recoveries and failures:
 * the RPC is only assumed to answer `getLogs` sensibly, not to stick to one chain.
 */
module Integrity {
  import opened Prelude
  import opened Records
  import opened Tables
  import opened Environment
  import opened Repository
  import opened Reorg
  import opened Pipeline
  import opened Referential
  import opened Replay
  import opened Recovery

  // --- What is asked of the RPC ---------------------------------------------------------------------------

  /** One `getLogs` answer: in range, and with one hash for each height and one height for each hash. */
  predicate SaneLogs(logs: seq<Log>, from: int, upTo: int) {
    && (forall l :: l in logs ==> from <= l.blockNumber <= upTo)
    && (forall l, l' :: l in logs && l' in logs ==>
          (l.blockNumber == l'.blockNumber <==> SameHash(l.blockHash, l'.blockHash)))
  }

  ghost predicate SaneRpc(rpc: Rpc) {
    forall f, t :: rpc.logs(f, t).Some? ==> SaneLogs(rpc.logs(f, t).value, f, t)
  }

  ghost predicate LowerCaseRpc(rpc: Rpc) {
    forall f, t :: rpc.logs(f, t).Some? ==> forall l :: l in rpc.logs(f, t).value ==> IsLower(l.blockHash)
  }

  // --- Canonical rows and the checkpoint --------------------------------------------------------------------

  predicate Below(ks: set<BlockKey>, limit: int) {
    forall k :: k in ks ==> 0 <= k.number <= limit
  }

  predicate NoRows(blocks: BlockTable, chainId: int) {
    forall k :: k in blocks ==> k.chainId != chainId
  }

  /** One canonical row per height, none above the checkpoint, and no rows before the first checkpoint. */
  predicate Consistent(cfg: Config, s: State) {
    var cp := CheckpointOf(s, cfg.indexer, cfg.chainId);
    && OnePerHeight(s.blocks, cfg.chainId)
    && (cp.None? ==> NoRows(s.blocks, cfg.chainId))
    && (cp.Some? ==> Below(CanonicalKeys(s.blocks, cfg.chainId), cp.value))
  }

  /** A state whose canonical rows all lie below the batch that is indexed next. */
  predicate Room(cfg: Config, s: State, from: int) {
    && OnePerHeight(s.blocks, cfg.chainId)
    && Below(CanonicalKeys(s.blocks, cfg.chainId), from - 1)
  }

  lemma IndexedKeepsConsistent(cfg: Config, s: State, logs: seq<Log>, from: int, upTo: int)
    requires Room(cfg, s, from) && SaneLogs(logs, from, upTo) && from - 1 <= upTo
    ensures Consistent(cfg, Indexed(cfg, s, logs, upTo))
  {
    hide RecordsOf, InsertAll, WithBlocks, Headers, ToLower;
    IndexedBlocks(cfg, s, logs, upTo);
    var after := Indexed(cfg, s, logs, upTo);
    var rows := RowKeys(cfg.chainId, logs);
    forall k | k in CanonicalKeys(after.blocks, cfg.chainId)
      ensures k in CanonicalKeys(s.blocks, cfg.chainId) || k in rows
      ensures 0 <= k.number <= upTo
    {
    }
    forall k, k' | k in CanonicalKeys(after.blocks, cfg.chainId) && k' in CanonicalKeys(after.blocks, cfg.chainId)
                   && k.number == k'.number
      ensures k == k'
    {
      if k in rows && k' in rows {
        var l :| l in logs && k == HeaderKey(cfg.chainId, l);
        var l' :| l' in logs && k' == HeaderKey(cfg.chainId, l');
      }
    }
  }

  /** The block after which the next batch starts, given the last indexed one. */
  function NextAfter(cfg: Config, current: Option<int>): int {
    if current.None? then cfg.startBlock else current.value + 1
  }

  /** The reorg check and recovery leave a consistent state with room for the next batch. */
  lemma PreparedIsConsistent(cfg: Config, s: State, rpc: Rpc, faults: Faults)
    requires cfg.currentIndexedBlock.None? && Consistent(cfg, s)
    ensures var base := Prepared(cfg, s, rpc, faults);
            base.Success? ==> (
              && Consistent(cfg, base.value.state)
              && base.value.current == CheckpointOf(base.value.state, cfg.indexer, cfg.chainId)
              && Room(cfg, base.value.state, NextAfter(cfg, base.value.current)))
  {
  }

  lemma ExecuteKeepsConsistent(cfg: Config, batchSize: int, s: State, rpc: Rpc, faults: Faults)
    requires cfg.currentIndexedBlock.None? && SaneRpc(rpc) && Consistent(cfg, s)
    ensures Consistent(cfg, Execute(cfg, batchSize, s, rpc, faults).0)
  {
    hide Indexed, Consistent, Room, Report, Prepared;
    PreparedIsConsistent(cfg, s, rpc, faults);
    var base := Prepared(cfg, s, rpc, faults);
    if base.Success? {
      var phase := NextBatch(cfg, batchSize, base.value.current, rpc, faults);
      if phase.Batch? {
        IndexedKeepsConsistent(cfg, base.value.state, phase.logs, phase.range.nextFromBlock, phase.range.nextToBlock);
      }
    }
  }

  // --- References between rows --------------------------------------------------------------------------------

  /** The block a fact names; fills name theirs through their trade. */
  function BlockKeyOf(r: Record): BlockKey
    requires !r.OrderFill?
  {
    BlockKey(r.base.chainId, r.base.blockNumber, r.base.blockHash)
  }

  predicate FactRefers(s: State, k: FactKey)
    requires k in s.facts
  {
    var r := s.facts[k];
    && KeyOf(r) == k
    && (r.OrderFill? ==> TradeKeyOf(r) in s.facts)
    && (!r.OrderFill? ==> BlockKeyOf(r) in s.blocks)
  }

  /** Every fill has its trade and every other fact its block header. */
  predicate Referring(s: State) {
    forall k :: k in s.facts ==> FactRefers(s, k)
  }

  lemma IndexedKeepsReferring(cfg: Config, s: State, logs: seq<Log>, upTo: int)
    requires Referring(s) && HashFixesNumber(logs) && forall l :: l in logs ==> IsLower(l.blockHash)
    ensures Referring(Indexed(cfg, s, logs, upTo))
  {
    hide WithBlocks, Headers, ToLower, RecordsOf;
    var after := Indexed(cfg, s, logs, upTo);
    var rs := RecordsOf(cfg.decode, cfg.chainId, logs);
    IndexedBlocks(cfg, s, logs, upTo);
    InsertAllKeepsRows(s.facts, rs);
    NormalizedForeignKeys(s.facts, cfg.decode, cfg.chainId, logs);
    forall k | k in after.facts
      ensures FactRefers(after, k)
    {
      InsertAllLookup(s.facts, rs, k);
      if k in s.facts {
        assert FactRefers(s, k);
      } else {
        FirstIsMember(rs, k);
        var r := after.facts[k];
        assert r in rs;
        RecordsMembers(cfg.decode, cfg.chainId, logs, r);
        var l :| l in logs && r in Normalize(cfg.chainId, l, cfg.decode(l));
        NormalizeStamps(cfg.chainId, l, cfg.decode(l), r);
        if !r.OrderFill? {
          assert BlockKeyOf(r) == HeaderKey(cfg.chainId, l);
        }
      }
    }
  }

  /** Recovery deletes nothing that a fact refers to. */
  lemma RecoveredRefers(s: State, chainId: int, indexer: string, block: int)
    requires Referring(s)
    ensures Referring(Recovered(s, chainId, indexer, block))
  {
    forall k | k in s.facts
      ensures FactRefers(Recovered(s, chainId, indexer, block), k)
    {
      assert FactRefers(s, k);
    }
  }

  lemma ExecuteKeepsReferring(cfg: Config, batchSize: int, s: State, rpc: Rpc, faults: Faults)
    requires SaneRpc(rpc) && LowerCaseRpc(rpc) && Referring(s)
    ensures Referring(Execute(cfg, batchSize, s, rpc, faults).0)
  {
    hide Indexed, Report, Check, Recovered, Referring, BatchCommits;
    var base := Prepared(cfg, s, rpc, faults);
    if base.Success? {
      if base.value.recovered {
        var check := Check(s.blocks, cfg.chainId, cfg.maxRollbackDepth, rpc, faults);
        RecoveredRefers(s, cfg.chainId, cfg.indexer, check.value.block);
      }
      var phase := NextBatch(cfg, batchSize, base.value.current, rpc, faults);
      if phase.Batch? {
        IndexedKeepsReferring(cfg, base.value.state, phase.logs, phase.range.nextToBlock);
      }
    }
  }

  // --- Failures and recoveries -----------------------------------------------------------------------------------

  /** A failed call leaves the old state, or exactly the recovery it had committed before it failed. */
  lemma FailedCallIsAtomic(cfg: Config, batchSize: int, s: State, rpc: Rpc, faults: Faults)
    requires Execute(cfg, batchSize, s, rpc, faults).1.Failure?
    ensures var s' := Execute(cfg, batchSize, s, rpc, faults).0;
            var check := Check(s.blocks, cfg.chainId, cfg.maxRollbackDepth, rpc, faults);
            || s' == s
            || (check.Success? && check.value.RollbackTo? && !Blown(faults.recovery, RECOVERY_STATEMENTS)
                && s' == Recovered(s, cfg.chainId, cfg.indexer, check.value.block))
  {
    hide Check, Recovered, BatchCommits, RecordsOf, ResultOf, EventCount, UnknownCount;
  }

  /** A successful call, recovered or not, leaves the checkpoint at the block it reports: there the next one resumes. */
  lemma ReportedBlockIsCheckpoint(cfg: Config, batchSize: int, s: State, rpc: Rpc, faults: Faults)
    requires cfg.currentIndexedBlock.None? && Execute(cfg, batchSize, s, rpc, faults).1.Success?
    ensures var (s', res) := Execute(cfg, batchSize, s, rpc, faults);
            && Position(cfg, s') == res.value.toBlock
            && (res.value.fromBlock <= res.value.toBlock ==>
                  CheckpointOf(s', cfg.indexer, cfg.chainId) == Some(res.value.toBlock))
  {
    hide Check, BatchCommits, RecordsOf, ResultOf, EventCount, UnknownCount, InsertAll, WithBlocks, Headers;
  }

  /** Whatever the RPC answers, recovery never raises the checkpoint. */
  lemma RecoveryLowersCheckpoint(cfg: Config, s: State, rpc: Rpc, faults: Faults)
    requires Consistent(cfg, s)
    requires var check := Check(s.blocks, cfg.chainId, cfg.maxRollbackDepth, rpc, faults);
             check.Success? && check.value.RollbackTo?
    ensures var r := Check(s.blocks, cfg.chainId, cfg.maxRollbackDepth, rpc, faults).value.block;
            var cp := CheckpointOf(s, cfg.indexer, cfg.chainId);
            cp.Some? && r <= cp.value
  {
    var tip := Latest(s.blocks, cfg.chainId).value;
    assert tip in CanonicalKeys(s.blocks, cfg.chainId);
    WalkBounds(s.blocks, cfg.chainId, rpc, faults, tip.number, MinBlock(tip.number, cfg.maxRollbackDepth), 0);
  }

  // --- Every reachable state ------------------------------------------------------------------------------------

  /**
   * The whole-run invariant. Nothing links one call's RPC answers to another's: chains may be
   * switched at will, and every call may fail anywhere.
   */
  lemma {:induction false} ReachableStates(cfg: Config, s: State, calls: seq<Call>)
    requires cfg.currentIndexedBlock.None? && Consistent(cfg, s)
    requires forall call :: call in calls ==> SaneRpc(call.rpc)
    ensures Consistent(cfg, Run(cfg, s, calls))
    ensures Referring(s) && (forall call :: call in calls ==> LowerCaseRpc(call.rpc)) ==> Referring(Run(cfg, s, calls))
    decreases calls
  {
    hide Execute, Consistent, Referring;
    if calls != [] {
      var call := calls[0];
      assert call in calls;
      ExecuteKeepsConsistent(cfg, call.batchSize, s, call.rpc, call.faults);
      if Referring(s) && LowerCaseRpc(call.rpc) {
        ExecuteKeepsReferring(cfg, call.batchSize, s, call.rpc, call.faults);
      }
      ReachableStates(cfg, After(cfg, s, call), calls[1..]);
    }
  }

  /** No row names a parent: the header that is stored with a batch leaves it empty. */
  predicate Parentless(blocks: BlockTable) {
    forall k :: k in blocks ==> blocks[k].parentHash == ""
  }

  lemma {:induction false} HeadersAreParentless(blocks: BlockTable, ks: seq<BlockKey>)
    requires Parentless(blocks)
    ensures Parentless(WithBlocks(blocks, ks))
    decreases ks
  {
    if ks != [] {
      HeadersAreParentless(WithBlock(blocks, ks[0]), ks[1..]);
    }
  }

  /** Nothing ever fills it in, so a walk along parent hashes would have nothing to follow. */
  lemma {:induction false} NoParentIsStored(cfg: Config, s: State, calls: seq<Call>)
    requires Parentless(s.blocks)
    ensures Parentless(Run(cfg, s, calls).blocks)
    decreases calls
  {
    hide Headers, WithBlocks, RecordsOf, InsertAll, ResultOf, Check, BatchCommits;
    if calls != [] {
      var call := calls[0];
      var base := Prepared(cfg, s, call.rpc, call.faults);
      if base.Success? {
        var phase := NextBatch(cfg, call.batchSize, base.value.current, call.rpc, call.faults);
        if phase.Batch? {
          HeadersAreParentless(base.value.state.blocks, Headers(cfg.chainId, phase.logs));
        }
      }
      NoParentIsStored(cfg, After(cfg, s, call), calls[1..]);
    }
  }

  /** The empty database is a legitimate start. */
  lemma EmptyIsReachable(cfg: Config)
    ensures Consistent(cfg, EMPTY) && Referring(EMPTY)
  {
  }
}
