/** The hypotheses of convergence: when they hold, and what the code does when one of them fails. */
module Limits {
  import opened Prelude
  import opened Records
  import opened Tables
  import opened Environment
  import opened Repository
  import opened Reorg
  import opened Pipeline
  import opened Referential
  import opened Chains
  import opened Normalization
  import opened Replay
  import opened Recovery
  import opened Views
  import opened Tracking
  import opened Forks
  import opened Convergence
  import opened Reorganizations

  // --- Where recovery lands ----------------------------------------------------------------------------------------

  /**
   * The walk meets the fork among the rows directly below the tip, not below the depth limit; or it ends
   * at a height without a row, and the highest row below that height is shared.
   */
  predicate WithinReach(cfg: Config, x: Chain, c: int, a: int)
    requires -1 <= c < |x| && Reported(cfg, x, c, a)
  {
    var first, floor := FirstInBlock(cfg, x, c), Floor(cfg, x, c);
    a >= Max(first, floor) || (floor < first && Top(x, cfg.startBlock, first - 2) <= Shared(cfg, a))
  }

  lemma NoOrphansWithinReach(cfg: Config, x: Chain, c: int, a: int)
    requires -1 <= c < |x| && Reported(cfg, x, c, a)
    ensures NoOrphans(cfg, x, a, Resume(cfg, x, c, a)) <==> WithinReach(cfg, x, c, a)
  {
    var first, floor := FirstInBlock(cfg, x, c), Floor(cfg, x, c);
    if a < Max(first, floor) {
      if floor >= first {
        assert Logged(x, floor) && Shared(cfg, a) + 1 <= floor <= Resume(cfg, x, c, a);
      } else {
        var t := Top(x, cfg.startBlock, first - 2);
        assert t > Shared(cfg, a) ==> Logged(x, t);
      }
    }
  }

  lemma OrphansAreSeen(cfg: Config, s: State, x: Chain, c: int, y: Chain, a: int, r: int)
    requires StoredRows(cfg, s, x, c) && Fork(cfg, x, c, y, a) && -1 <= r <= c
    ensures Agrees(Rewound(cfg, s, r).blocks, cfg.chainId, y) <==> NoOrphans(cfg, x, a, r)
    ensures forall k :: k in CanonicalKeys(s.blocks, cfg.chainId) ==>
              (RowOn(k, y) <==> k.number <= a) && 0 <= k.number
  {
    hide ToLower, GoodChain, Coherent, Rewound;
    RewoundRows(cfg, s, x, c, r);
    forall h | cfg.startBlock <= h <= c
      ensures RowOn(RowAt(cfg.chainId, x, h), y) <==> h <= a
    {
      ToLowerIdempotent(x[h].hash);
      assert Agree(x, y, h) <==> h <= a;
    }
    if !NoOrphans(cfg, x, a, r) {
      var h :| Shared(cfg, a) + 1 <= h <= r && Logged(x, h);
      assert RowAt(cfg.chainId, x, h) in CanonicalKeys(Rewound(cfg, s, r).blocks, cfg.chainId);
    }
  }

  /** Recovery leaves nothing but blocks of the new chain canonical exactly when the fork is within reach. */
  lemma ReachIsExact(cfg: Config, s: State, x: Chain, c: int, y: Chain, a: int)
    requires StoredRows(cfg, s, x, c) && Fork(cfg, x, c, y, a) && Reported(cfg, x, c, a)
    ensures Agrees(Rewound(cfg, s, Resume(cfg, x, c, a)).blocks, cfg.chainId, y) <==> WithinReach(cfg, x, c, a)
  {
    hide Agrees, WithinReach, NoOrphans, GoodChain, Coherent, ForksAt, Resume, Rewound, Reported;
    NoOrphansWithinReach(cfg, x, c, a);
    OrphansAreSeen(cfg, s, x, c, y, a, Resume(cfg, x, c, a));
  }

  /**
   * The check returns the block to resume after, and within reach the ancestor search is exact: the rows
   * that stay canonical are those, and only those, that lie on the chain the RPC serves.
   */
  lemma AncestorSearchIsExact(cfg: Config, s: State, x: Chain, c: int, y: Chain, a: int, rpc: Rpc, faults: Faults)
    requires StoredRows(cfg, s, x, c) && Fork(cfg, x, c, y, a) && Reported(cfg, x, c, a) && Serves(rpc, y)
    requires Check(s.blocks, cfg.chainId, cfg.maxRollbackDepth, rpc, faults).Success?
    ensures var r := Resume(cfg, x, c, a);
            && Check(s.blocks, cfg.chainId, cfg.maxRollbackDepth, rpc, faults) == Success(RollbackTo(r))
            && ((forall k :: k in CanonicalKeys(Rewound(cfg, s, r).blocks, cfg.chainId)
                             <==> k in CanonicalKeys(s.blocks, cfg.chainId) && RowOn(k, y))
                <==> WithinReach(cfg, x, c, a))
  {
    hide GoodChain, Coherent, Check, WithinReach, RowOn, Serves, ForksAt;
    var r := Resume(cfg, x, c, a);
    CheckAnswers(cfg, s.blocks, x, c, y, a, c, rpc, faults);
    ReachIsExact(cfg, s, x, c, y, a);
    OrphansAreSeen(cfg, s, x, c, y, a, r);
    DemoteKeeps(s.blocks, cfg.chainId, r);
    hide Resume, Reported, Rewound;
    SharedRowsStay(cfg, s, x, c, y, a);
  }

  /** Recovery never demotes a shared row. */
  lemma SharedRowsStay(cfg: Config, s: State, x: Chain, c: int, y: Chain, a: int)
    requires StoredRows(cfg, s, x, c) && Fork(cfg, x, c, y, a)
    ensures forall k :: k in CanonicalKeys(s.blocks, cfg.chainId) && k.number <= a ==>
              k in CanonicalKeys(Rewound(cfg, s, Resume(cfg, x, c, a)).blocks, cfg.chainId)
    ensures forall k :: k in CanonicalKeys(Rewound(cfg, s, Resume(cfg, x, c, a)).blocks, cfg.chainId) ==>
              k in CanonicalKeys(s.blocks, cfg.chainId)
  {
    hide ToLower, GoodChain, Coherent, ForksAt;
    var r := Resume(cfg, x, c, a);
    RewoundRows(cfg, s, x, c, r);
    assert forall h :: cfg.startBlock <= h <= a && h <= c && Logged(x, h) ==> h <= r;
  }

  /**
   * Blocks without logs have no row, and the walk stops at the first such height: recovery then leaves only
   * blocks of the new chain exactly when the highest row below that height is shared.
   */
  lemma GapEndsSearch(cfg: Config, s: State, x: Chain, c: int, y: Chain, a: int, rpc: Rpc, faults: Faults)
    requires StoredRows(cfg, s, x, c) && Fork(cfg, x, c, y, a) && Reported(cfg, x, c, a) && Serves(rpc, y)
    requires var gap := FirstInBlock(cfg, x, c) - 1; Floor(cfg, x, c) <= gap && a <= gap
    requires Check(s.blocks, cfg.chainId, cfg.maxRollbackDepth, rpc, faults).Success?
    ensures var gap := FirstInBlock(cfg, x, c) - 1;
            && Check(s.blocks, cfg.chainId, cfg.maxRollbackDepth, rpc, faults) == Success(RollbackTo(gap - 1))
            && (Agrees(Rewound(cfg, s, gap - 1).blocks, cfg.chainId, y)
                <==> Top(x, cfg.startBlock, gap - 1) <= Shared(cfg, a))
  {
    hide GoodChain, Coherent, Check, Serves, ForksAt, Agrees, Rewound, Top, Bottom;
    CheckAnswers(cfg, s.blocks, x, c, y, a, c, rpc, faults);
    ReachIsExact(cfg, s, x, c, y, a);
  }

  // --- Orphans that stay ---------------------------------------------------------------------------------------------

  /** Once a fresh row of the new chain lies on top, no run on that chain recovers any more. */
  lemma {:induction false} LockedIn(
    cfg: Config, s: State, x: Chain, c: int, y: Chain, a: int, n: int, p: int, calls: seq<Call>) returns (q: int)
    requires cfg.currentIndexedBlock.None? && StoredRows(cfg, s, x, c) && Fork(cfg, x, c, y, a) && AllServe(calls, y)
    requires -1 <= n <= c && n <= p < |y| && FreshRows(s.blocks, NewRows(cfg, y, n)) && !Quiet(y, n + 1, p)
    ensures p <= q < |y| && Run(cfg, OnTop(cfg, s, y, n, p), calls) == OnTop(cfg, s, y, n, q)
    decreases calls
  {
    hide Execute, OnTop, Reported, Resume, Check, GoodChain, Coherent, Fork, After, Serves;
    q := p;
    if calls != [] {
      assert FreshRows(s.blocks, RowsOf(cfg.chainId, y, n + 1, p)) by {
        assert RowsOf(cfg.chainId, y, n + 1, p) <= NewRows(cfg, y, n);
      }
      var n', p' := CallOnTop(cfg, s, x, c, y, a, n, p, calls[0]);
      q := LockedIn(cfg, s, x, c, y, a, n, p', calls[1..]);
    }
  }

  /** The row of block `h` is an orphan in every state that a run on the new chain reaches, and no check reports it. */
  ghost predicate OrphanForGood(cfg: Config, u: State, x: Chain, y: Chain, h: int)
    requires 0 <= h < |x|
  {
    forall calls, rpc, faults :: AllServe(calls, y) && Serves(rpc, y) ==>
      StaysOrphan(cfg, Run(cfg, u, calls), x, y, h, rpc, faults)
  }

  ghost predicate StaysOrphan(cfg: Config, end: State, x: Chain, y: Chain, h: int, rpc: Rpc, faults: Faults)
    requires 0 <= h < |x|
  {
    && RowAt(cfg.chainId, x, h) in CanonicalKeys(end.blocks, cfg.chainId)
    && !RowOn(RowAt(cfg.chainId, x, h), y)
    && Check(end.blocks, cfg.chainId, cfg.maxRollbackDepth, rpc, faults) in {Success(NoReorg), Failure(ReorgError)}
  }

  lemma OrphanIsLockedIn(cfg: Config, s: State, x: Chain, c: int, y: Chain, a: int, n: int, p: int, h: int)
    requires cfg.currentIndexedBlock.None? && StoredRows(cfg, s, x, c) && Fork(cfg, x, c, y, a)
    requires -1 <= n <= c && n <= p < |y| && FreshRows(s.blocks, NewRows(cfg, y, n)) && !Quiet(y, n + 1, p)
    requires Shared(cfg, a) < h <= n && Logged(x, h)
    ensures OrphanForGood(cfg, OnTop(cfg, s, y, n, p), x, y, h)
  {
    hide OnTop, Check, Coherent, LogsMatchBlocks, Linked, KeysFixBlock, LowerHashes, ToLower, Run, Serves, AllServe;
    ToLowerIdempotent(x[h].hash);
    assert !Agree(x, y, h);
    forall calls, rpc, faults | AllServe(calls, y) && Serves(rpc, y)
      ensures StaysOrphan(cfg, Run(cfg, OnTop(cfg, s, y, n, p), calls), x, y, h, rpc, faults)
    {
      var q := LockedIn(cfg, s, x, c, y, a, n, p, calls);
      var end := OnTop(cfg, s, y, n, q);
      OnTopParts(cfg, s, x, c, y, n, q);
      assert RowAt(cfg.chainId, x, h) in CanonicalKeys(Rewound(cfg, s, n).blocks, cfg.chainId);
      assert RowsOf(cfg.chainId, y, n + 1, q) <= NewRows(cfg, y, n);
      assert !Quiet(y, n + 1, q);
      NewTipIsOnChain(cfg, s, x, c, y, n, q);
      TipOnChain(end.blocks, cfg.chainId, cfg.maxRollbackDepth, rpc, faults, y);
    }
  }

  /** Without a row of the new chain on top, the next check that is answered reports the orphan. */
  lemma OrphanIsReported(cfg: Config, s: State, x: Chain, c: int, y: Chain, a: int, n: int, p: int, h: int)
    requires StoredRows(cfg, s, x, c) && Fork(cfg, x, c, y, a) && -1 <= n <= c && n <= p < |y| && Quiet(y, n + 1, p)
    requires Shared(cfg, a) < h <= n && Logged(x, h)
    ensures !OrphanForGood(cfg, OnTop(cfg, s, y, n, p), x, y, h)
  {
    hide OnTop, Check, Coherent, GoodChain, ForksAt, ToLower, Resume, Serves, Answers;
    var u, rpc := OnTop(cfg, s, y, n, p), Answering(y);
    GoodChainParts(cfg, y);
    AnsweringServes(y);
    QuietOnTop(cfg, s, x, c, y, n, p);
    CheckSucceeds(u.blocks, cfg, rpc, NO_FAULTS, y);
    CheckAnswers(cfg, u.blocks, x, c, y, a, n, rpc, NO_FAULTS);
    assert Check(u.blocks, cfg.chainId, cfg.maxRollbackDepth, rpc, NO_FAULTS)
        == Success(RollbackTo(Resume(cfg, x, n, a)));
    assert !StaysOrphan(cfg, Run(cfg, u, []), x, y, h, rpc, NO_FAULTS);
  }

  /** An orphan stays for good exactly when a row of the new chain lies on top. */
  lemma OrphanStaysIffCovered(cfg: Config, s: State, x: Chain, c: int, y: Chain, a: int, n: int, p: int, h: int)
    requires cfg.currentIndexedBlock.None? && StoredRows(cfg, s, x, c) && Fork(cfg, x, c, y, a)
    requires -1 <= n <= c && n <= p < |y| && FreshRows(s.blocks, NewRows(cfg, y, n))
    requires Shared(cfg, a) < h <= n && Logged(x, h)
    ensures OrphanForGood(cfg, OnTop(cfg, s, y, n, p), x, y, h) <==> !Quiet(y, n + 1, p)
  {
    hide OnTop, OrphanForGood, Fork, StoredRows, FreshRows;
    if Quiet(y, n + 1, p) {
      OrphanIsReported(cfg, s, x, c, y, a, n, p, h);
    } else {
      OrphanIsLockedIn(cfg, s, x, c, y, a, n, p, h);
    }
  }

  /**
   * When the walk gives up at the depth limit, the diverged row at that height stays canonical. It does
   * so for good, unnoticed by every later check, exactly when the batch of the same call has a log;
   * otherwise the next answered check reports it again.
   */
  lemma DepthExitLeavesOrphan(
    cfg: Config, s: State, x: Chain, c: int, y: Chain, a: int, call: Call, batchSize: nat)
    requires cfg.currentIndexedBlock.None? && StoredRows(cfg, s, x, c) && Fork(cfg, x, c, y, a)
    requires Reported(cfg, x, c, a) && Floor(cfg, x, c) >= FirstInBlock(cfg, x, c) && a < Floor(cfg, x, c)
    requires Undisturbed(call, y, batchSize) && batchSize > 0
    requires FreshRows(s.blocks, NewRows(cfg, y, Floor(cfg, x, c)))
    ensures var r := Floor(cfg, x, c);
            && r == Resume(cfg, x, c, a)
            && (OrphanForGood(cfg, After(cfg, s, call), x, y, r) <==> !Quiet(y, r + 1, Target(r, batchSize, |y| - 1)))
  {
    hide GoodChain, Coherent, ForksAt, OrphanForGood, OnTop, Execute, Answers, Serves, Target, Top, Bottom;
    var r := Resume(cfg, x, c, a);
    assert Logged(x, r) && r > Shared(cfg, a) && r == Floor(cfg, x, c) by {
      DepthExitIsOrphan(cfg, x, c, a);
    }
    hide Resume, Floor, FirstInBlock, Reported;
    UndisturbedCallSucceeds(cfg, s, x, c, y, a, call, batchSize);
    var p := PendingCall(cfg, s, x, c, y, a, call);
    OrphanStaysIffCovered(cfg, s, x, c, y, a, r, p, r);
  }

  lemma DepthExitIsOrphan(cfg: Config, x: Chain, c: int, a: int)
    requires -1 <= c < |x| && Reported(cfg, x, c, a)
    requires Floor(cfg, x, c) >= FirstInBlock(cfg, x, c) && a < Floor(cfg, x, c)
    ensures var r := Resume(cfg, x, c, a); r == Floor(cfg, x, c) && Logged(x, r) && r > Shared(cfg, a)
  {
  }

  /** Within one call the blocks are those of chain `x` while the head and the logs are those of chain `y`. */
  ghost predicate Switches(rpc: Rpc, x: Chain, y: Chain) {
    && (rpc.head.Some? ==> 0 <= rpc.head.value < |y|)
    && (forall i, h :: rpc.block(i, h).Some? ==> 0 <= h < |x| && SameHash(rpc.block(i, h).value, x[h].hash))
    && (forall f, t :: 0 <= f && t < |y| && rpc.logs(f, t).Some? ==> rpc.logs(f, t).value == LogsIn(y, f, t))
  }

  /** A call during which the chain switches, after the check: it indexes the new chain on top of the old one. */
  lemma SwitchingCall(cfg: Config, s: State, x: Chain, c: int, y: Chain, a: int, call: Call) returns (p: int)
    requires cfg.currentIndexedBlock.None? && StoredRows(cfg, s, x, c) && Fork(cfg, x, c, y, a)
    requires Switches(call.rpc, x, y)
    ensures c <= p < |y| && After(cfg, s, call) == OnTop(cfg, s, y, c, p)
    ensures Succeeds(cfg, s, call) ==>
              call.rpc.head.Some? && call.batchSize > 0 && p == Target(c, call.batchSize, call.rpc.head.value)
    ensures !Succeeds(cfg, s, call) ==> p == c
  {
    hide Coherent, LogsMatchBlocks, Linked, KeysFixBlock, LowerHashes, ToLower, Indexed, NextBatch, Walk, LogsIn;
    RewindToTipIsIdle(cfg, s, x, c, y);
    var served := Rpc(call.rpc.head, (i, h) => None, call.rpc.logs);
    RowsOfOwnChain(cfg, s, x, c);
    assert Check(s.blocks, cfg.chainId, cfg.maxRollbackDepth, call.rpc, call.faults)
        in {Success(NoReorg), Failure(ReorgError)};
    QuietCall(cfg, call.batchSize, s, call.rpc, call.faults);
    SameBatch(cfg, call.batchSize, c, call.rpc, served, call.faults);
    p := BatchOnTop(cfg, call.batchSize, s, c, y, served, call.faults);
    if !Succeeds(cfg, s, call) {
      p := c;
    }
  }

  lemma SameBatch(cfg: Config, batchSize: int, c: int, rpc: Rpc, other: Rpc, faults: Faults)
    requires rpc.head == other.head && rpc.logs == other.logs
    ensures NextBatch(cfg, batchSize, Some(c), rpc, faults) == NextBatch(cfg, batchSize, Some(c), other, faults)
  {
  }

  /** When every request is answered and no statement fails, such a call succeeds. */
  lemma SwitchingCallSucceeds(cfg: Config, s: State, x: Chain, c: int, y: Chain, a: int, call: Call)
    requires cfg.currentIndexedBlock.None? && StoredRows(cfg, s, x, c) && Fork(cfg, x, c, y, a) && c >= 0
    requires Switches(call.rpc, x, y) && call.rpc.head.Some? && call.batchSize > 0 && call.faults == NO_FAULTS
    requires forall i, h :: 0 <= h < |x| ==> call.rpc.block(i, h).Some?
    requires forall f, t :: 0 <= f && t < |y| ==> call.rpc.logs(f, t).Some?
    ensures Succeeds(cfg, s, call)
  {
    hide Coherent, LogsMatchBlocks, Linked, KeysFixBlock, LowerHashes, ToLower, Indexed, NextBatch, Walk, LogsIn,
      Report, ForksAt;
    var served := Rpc(call.rpc.head, (i, h) => if 0 <= h < |y| then Some(y[h].hash) else None, call.rpc.logs);
    RowsOfOwnChain(cfg, s, x, c);
    assert Check(s.blocks, cfg.chainId, cfg.maxRollbackDepth, call.rpc, call.faults) == Success(NoReorg);
    SameBatch(cfg, call.batchSize, c, call.rpc, served, call.faults);
    NextBatchSucceeds(cfg, call.batchSize, Some(c), y, served, call.faults);
    ReportFails(cfg, Ready(s, Some(c), false), NextBatch(cfg, call.batchSize, Some(c), call.rpc, call.faults));
  }

  lemma RowsOfOwnChain(cfg: Config, s: State, x: Chain, c: int)
    requires StoredRows(cfg, s, x, c)
    ensures forall k :: k in CanonicalKeys(s.blocks, cfg.chainId) ==> RowOn(k, x)
  {
    forall k | k in CanonicalKeys(s.blocks, cfg.chainId)
      ensures RowOn(k, x)
    {
      ToLowerIdempotent(x[k.number].hash);
    }
  }

  /**
   * After such a call every orphaned row of the old chain stays canonical for good, unnoticed, exactly
   * when the call succeeds and its batch has a log of the new chain.
   */
  lemma SwitchDuringCallHidesFork(
    cfg: Config, s: State, x: Chain, c: int, y: Chain, a: int, call: Call, h: int)
    requires cfg.currentIndexedBlock.None? && StoredRows(cfg, s, x, c) && Fork(cfg, x, c, y, a)
    requires Switches(call.rpc, x, y) && FreshRows(s.blocks, NewRows(cfg, y, c))
    requires Shared(cfg, a) < h <= c && Logged(x, h)
    ensures OrphanForGood(cfg, After(cfg, s, call), x, y, h)
            <==> (&& Succeeds(cfg, s, call) && call.rpc.head.Some?
                  && !Quiet(y, c + 1, Target(c, call.batchSize, call.rpc.head.value)))
  {
    hide GoodChain, Coherent, ForksAt, OrphanForGood, OnTop, Execute, Switches, Succeeds, Target;
    var p := SwitchingCall(cfg, s, x, c, y, a, call);
    OrphanStaysIffCovered(cfg, s, x, c, y, a, c, p, h);
  }

  // --- Resuming too low ----------------------------------------------------------------------------------------------

  /** A negative checkpoint is final: no call ever succeeds again or changes anything. */
  lemma {:induction false} NegativeCheckpointIsFinal(cfg: Config, s: State, calls: seq<Call>)
    requires cfg.currentIndexedBlock.None? && CanonicalKeys(s.blocks, cfg.chainId) == {}
    requires CheckpointOf(s, cfg.indexer, cfg.chainId).Some? && Position(cfg, s) < 0
    ensures Run(cfg, s, calls) == s && Covered(cfg, s, calls, 0) == 0
    decreases calls
  {
    if calls != [] {
      var call := calls[0];
      var base := Prepared(cfg, s, call.rpc, call.faults);
      assert base.Success? ==> base.value == Ready(s, CheckpointOf(s, cfg.indexer, cfg.chainId), false);
      assert base.Success? ==> NextBatch(cfg, call.batchSize, base.value.current, call.rpc, call.faults).Stopped?;
      NegativeCheckpointIsFinal(cfg, s, calls[1..]);
    }
  }

  /**
   * The resume point is -1 exactly when all rows from block 1 to the tip are orphans, none is below, and
   * depth allows it.
   */
  lemma NegativeResumeIsExact(cfg: Config, x: Chain, c: int, a: int)
    requires 0 <= c < |x| && -1 <= a
    ensures Resume(cfg, x, c, a) == -1
            <==> (&& Reported(cfg, x, c, a) && FirstInBlock(cfg, x, c) == 1 && a < 1
                  && Top(x, cfg.startBlock, c) <= cfg.maxRollbackDepth)
  {
  }

  /**
   * Then the next undisturbed call is the last that changes anything: neither it nor any later call
   * succeeds, whatever the RPC serves from then on.
   */
  lemma ForkBelowFirstBlockIsFatal(
    cfg: Config, s: State, x: Chain, c: int, y: Chain, a: int, call: Call, batchSize: nat, calls: seq<Call>)
    requires cfg.currentIndexedBlock.None? && StoredRows(cfg, s, x, c) && Fork(cfg, x, c, y, a) && 0 <= c
    requires Resume(cfg, x, c, a) == -1 && Undisturbed(call, y, batchSize) && batchSize > 0
    ensures Run(cfg, s, [call] + calls) == Rewound(cfg, s, -1) && Covered(cfg, s, [call] + calls, 0) == 0
  {
    hide GoodChain, Coherent, Check, Top, Bottom, NextBatch, Report, Indexed, Reported, ToLower, Run, Covered;
    assert forall k :: k in CanonicalKeys(s.blocks, cfg.chainId) ==> 0 <= k.number < |y|;
    CheckSucceeds(s.blocks, cfg, call.rpc, call.faults, y);
    CheckAnswers(cfg, s.blocks, x, c, y, a, c, call.rpc, call.faults);
    QuietResume(cfg, x, c, a);
    NegativeStops(cfg, batchSize, -1, call.rpc, call.faults);
    NegativeRewindIsFinal(cfg, s, x, c, calls);
    UndisturbedCallSucceeds(cfg, s, x, c, y, a, call, batchSize);
    assert After(cfg, s, call) == Rewound(cfg, s, -1) && !Succeeds(cfg, s, call);
    FirstCall(cfg, s, call, calls);
  }

  lemma FirstCall(cfg: Config, s: State, call: Call, calls: seq<Call>)
    ensures Run(cfg, s, [call] + calls) == Run(cfg, After(cfg, s, call), calls)
    ensures !Succeeds(cfg, s, call) ==>
              Covered(cfg, s, [call] + calls, 0) == Covered(cfg, After(cfg, s, call), calls, 0)
  {
    hide Execute;
    assert ([call] + calls)[1..] == calls;
  }

  /** Nor does any run on the new chain, disturbed or not: it leaves the old state or the fatal one. */
  lemma {:induction false} FatalForkStaysFatal(
    cfg: Config, s: State, x: Chain, c: int, y: Chain, a: int, calls: seq<Call>)
    requires cfg.currentIndexedBlock.None? && StoredRows(cfg, s, x, c) && Fork(cfg, x, c, y, a) && 0 <= c
    requires Resume(cfg, x, c, a) == -1 && AllServe(calls, y)
    ensures Run(cfg, s, calls) in {s, Rewound(cfg, s, -1)} && Covered(cfg, s, calls, 0) == 0
    decreases calls
  {
    hide GoodChain, Coherent, Execute, Top, Bottom, Reported, RowsOf, OnTop, Serves;
    if calls != [] {
      var p := PendingCall(cfg, s, x, c, y, a, calls[0]);
      var s1 := Rewound(cfg, s, -1);
      NothingToAdvance(cfg, s1, y, -1);
      if After(cfg, s, calls[0]) == s && !Succeeds(cfg, s, calls[0]) {
        FatalForkStaysFatal(cfg, s, x, c, y, a, calls[1..]);
      } else {
        OnTopIsAdvance(cfg, s, y, -1, p);
        assert After(cfg, s, calls[0]) == s1;
        NegativeRewindIsFinal(cfg, s, x, c, calls[1..]);
      }
    }
  }

  lemma NegativeRewindIsFinal(cfg: Config, s: State, x: Chain, c: int, calls: seq<Call>)
    requires cfg.currentIndexedBlock.None? && StoredRows(cfg, s, x, c)
    ensures Run(cfg, Rewound(cfg, s, -1), calls) == Rewound(cfg, s, -1)
    ensures Covered(cfg, Rewound(cfg, s, -1), calls, 0) == 0
  {
    hide Execute;
    RewoundRows(cfg, s, x, c, -1);
    assert CanonicalKeys(Rewound(cfg, s, -1).blocks, cfg.chainId) == {};
    NegativeCheckpointIsFinal(cfg, Rewound(cfg, s, -1), calls);
  }

  /** Recovery resumes below the start exactly when the rows reach down to the start and all of them are orphans. */
  lemma ResumeBelowStartIsExact(cfg: Config, x: Chain, c: int, a: int)
    requires cfg.startBlock - 1 <= c < |x| && -1 <= a
    ensures Resume(cfg, x, c, a) < cfg.startBlock - 1
            <==> (&& Reported(cfg, x, c, a) && FirstInBlock(cfg, x, c) == cfg.startBlock && a < cfg.startBlock
                  && Floor(cfg, x, c) < cfg.startBlock)
    ensures Resume(cfg, x, c, a) >= cfg.startBlock - 2
  {
  }

  /** From a start block of at least 2, the next undisturbed call then indexes the block before the start. */
  lemma BlockBelowStartIsIndexed(
    cfg: Config, s: State, x: Chain, c: int, y: Chain, a: int, call: Call, batchSize: nat) returns (p: int)
    requires cfg.currentIndexedBlock.None? && StoredRows(cfg, s, x, c) && Fork(cfg, x, c, y, a)
    requires Undisturbed(call, y, batchSize) && batchSize > 0 && cfg.startBlock - 1 < |y|
    requires Resume(cfg, x, c, a) == cfg.startBlock - 2 >= 0
    requires FreshRows(s.blocks, NewRows(cfg, y, cfg.startBlock - 2))
    ensures cfg.startBlock - 1 <= p < |y| && After(cfg, s, call) == OnTop(cfg, s, y, cfg.startBlock - 2, p)
    ensures Logged(y, cfg.startBlock - 1) ==>
              RowAt(cfg.chainId, y, cfg.startBlock - 1) in CanonicalKeys(After(cfg, s, call).blocks, cfg.chainId)
  {
    hide GoodChain, Coherent, Execute, OnTop, Resume, ForksAt;
    UndisturbedCallSucceeds(cfg, s, x, c, y, a, call, batchSize);
    p := PendingCall(cfg, s, x, c, y, a, call);
    assert ValidChain(y) by {
      GoodChainParts(cfg, y);
    }
    OnTopParts(cfg, s, x, c, y, cfg.startBlock - 2, p);
    assert RowsOf(cfg.chainId, y, cfg.startBlock - 1, p) <= NewRows(cfg, y, cfg.startBlock - 2);
  }

  // --- Rows and keys that were stored before -------------------------------------------------------------------

  /** A demoted block never becomes canonical again, whatever the RPC answers. */
  lemma {:induction false} DemotedForever(cfg: Config, s: State, calls: seq<Call>, k: BlockKey)
    requires k in s.blocks && !s.blocks[k].canonical
    ensures k in Run(cfg, s, calls).blocks && !Run(cfg, s, calls).blocks[k].canonical
    decreases calls
  {
    hide Check, RecordsOf, InsertAll, Headers, WithBlocks, ToLower, ResultOf;
    if calls != [] {
      var call := calls[0];
      var base := Prepared(cfg, s, call.rpc, call.faults);
      if base.Success? {
        var phase := NextBatch(cfg, call.batchSize, base.value.current, call.rpc, call.faults);
        if phase.Batch? {
          WithBlocksIsAddRows(base.value.state.blocks, Headers(cfg.chainId, phase.logs));
        }
      }
      DemotedForever(cfg, After(cfg, s, call), calls[1..], k);
    }
  }

  /**
   * A record of the new fork whose key an orphaned fact already holds - a transaction that was
   * included again - is missing from the view although indexing from scratch shows it.
   */
  lemma ReincludedRecordIsInvisible(cfg: Config, s: State, x: Chain, c: int, y: Chain, a: int, r: int, rec: Record)
    requires Tracks(cfg, s, x, c) && Fork(cfg, x, c, y, a) && -1 <= r <= c && r < |y| - 1 && cfg.startBlock < |y|
    requires Seamless(cfg, x, y, a, r) && rec in NewRecords(cfg, y, r) && KeyOf(rec) in s.facts
    ensures KeyOf(rec) in View(Reference(cfg, y), cfg.chainId)
    ensures KeyOf(rec) !in View(OnTop(cfg, s, y, r, |y| - 1), cfg.chainId)
  {
    hide RecordsOf, InsertAll, WithBlocks, Headers, Coherent, Linked, LogsIn, CanonicalKeys, RowsOf, KeysFixBlock,
      LowerHashes, Indexed, FromStart, ForksAt, View, FactsUpTo, ToLower;
    var s1 := Rewound(cfg, s, r);
    ResumedTracks(cfg, s, x, c, y, a, r);
    ReferenceView(cfg, y);
    RecordIsInChain(cfg, y, r, rec);
    NewKeysAreNotOld(cfg, y, r, |y| - 1);
    ChainHashFixesNumber(y, r + 1, |y| - 1);
    OldFactsKeepVisibility(cfg, s1, LogsIn(y, r + 1, |y| - 1), |y| - 1, KeyOf(rec));
    InView(cfg, s1, KeyOf(rec));
    InView(cfg, OnTop(cfg, s, y, r, |y| - 1), KeyOf(rec));
  }

  lemma InView(cfg: Config, s: State, k: FactKey)
    ensures k in View(s, cfg.chainId) <==> k in s.facts && Visible(s, cfg.chainId, k)
  {
  }

  lemma RecordIsInChain(cfg: Config, y: Chain, r: int, rec: Record)
    requires -1 <= r < |y| && FromStart(cfg, y, r) && rec in NewRecords(cfg, y, r)
    ensures KeyOf(rec) in FactsUpTo(cfg, y, |y| - 1)
  {
    hide RecordsOf, InsertAll, LogsIn;
    SplitAtResume(cfg, y, r, |y| - 1);
    var all := ChainRecords(cfg, y, cfg.startBlock, |y| - 1);
    InsertAllLookup(map[], all, KeyOf(rec));
    FirstIsMember(all, KeyOf(rec));
  }

  // --- One indexer, no override ---------------------------------------------------------------------------------

  /** Indexing another chain keeps this chain's checkpoint exactly when the names differ or there was none. */
  lemma SharedNameForgetsCheckpoint(cfg: Config, other: Config, s: State, logs: seq<Log>, upTo: int)
    requires cfg.chainId != other.chainId
    ensures CheckpointOf(Indexed(other, s, logs, upTo), cfg.indexer, cfg.chainId)
            == CheckpointOf(s, cfg.indexer, cfg.chainId)
            <==> cfg.indexer != other.indexer || CheckpointOf(s, cfg.indexer, cfg.chainId).None?
  {
    hide WithBlocks, Headers, RecordsOf, InsertAll;
  }

  /** With an override the next batch starts after the given block, so blocks are skipped or repeated. */
  lemma OverrideIgnoresCheckpoint(cfg: Config, batchSize: int, s: State, rpc: Rpc, faults: Faults, block: nat)
    requires cfg.currentIndexedBlock == Some(Some(block))
    requires Execute(cfg, batchSize, s, rpc, faults).1.Success?
    ensures var res := Execute(cfg, batchSize, s, rpc, faults).1.value;
            !res.reorgRecovered ==> res.fromBlock == block + 1
                                    && (res.fromBlock == Position(cfg, s) + 1 <==> block == Position(cfg, s))
  {
    hide Check, Recovered, BatchCommits, RecordsOf, ResultOf, EventCount, UnknownCount;
  }

  // --- Letter case of hashes --------------------------------------------------------------------------------------

  predicate LowerRows(blocks: BlockTable) {
    forall k :: k in blocks ==> IsLower(k.hash)
  }

  /** Headers are stored in lower case but facts keep the hash of the log: only lower-case hashes join. */
  lemma HashCaseDecides(cfg: Config, s: State, logs: seq<Log>, upTo: int, k: FactKey)
    requires HashFixesNumber(logs) && LowerRows(s.blocks) && FreshRows(s.blocks, RowKeys(cfg.chainId, logs))
    requires FreshKeys(s.facts, RecordsOf(cfg.decode, cfg.chainId, logs))
    requires First(RecordsOf(cfg.decode, cfg.chainId, logs), k).Some? && !k.FillKey?
    ensures var s' := Indexed(cfg, s, logs, upTo);
            && LowerRows(s'.blocks) && k in s'.facts && !s'.facts[k].OrderFill?
            && (Visible(s', cfg.chainId, k) <==> IsLower(s'.facts[k].base.blockHash))
  {
    hide WithBlocks, Headers, ToLower, RecordsOf, InsertAll;
    var s' := Indexed(cfg, s, logs, upTo);
    IndexedBlocks(cfg, s, logs, upTo);
    var l := NewFact(cfg, s, logs, k);
    assert HeaderKey(cfg.chainId, l) in RowKeys(cfg.chainId, logs);
    forall key | key in s'.blocks
      ensures IsLower(key.hash)
    {
      if key !in s.blocks {
        var l' :| l' in logs && key == HeaderKey(cfg.chainId, l');
        ToLowerIdempotent(l'.blockHash);
      }
    }
  }

  // --- Keys and transactions ---------------------------------------------------------------------------------

  /** A transaction is included in one block only, and its hash is free of the separator of fill ids. */
  ghost predicate TransactionsFixBlock(c: Chain) {
    && (forall h, l :: 0 <= h < |c| && l in c[h].logs ==> '_' !in ToLower(l.txHash))
    && (forall h, l, h', l' ::
          (0 <= h < |c| && l in c[h].logs && 0 <= h' < |c| && l' in c[h'].logs
           && ToLower(l.txHash) == ToLower(l'.txHash)) ==> h == h')
  }

  /** So primary keys tell blocks apart whenever transactions do. */
  lemma TransactionsMakeKeys(cfg: Config, c: Chain)
    requires LogsMatchBlocks(c) && TransactionsFixBlock(c)
    ensures KeysFixBlock(cfg, c)
  {
    hide ToLower, Normalize;
    forall r, r' | Recorded(cfg, c, r) && Recorded(cfg, c, r') && KeyOf(r) == KeyOf(r')
      ensures BlockNumberOf(r) == BlockNumberOf(r')
    {
      var h, l :| 0 <= h < |c| && l in c[h].logs && r in Normalize(cfg.chainId, l, cfg.decode(l));
      var h', l' :| 0 <= h' < |c| && l' in c[h'].logs && r' in Normalize(cfg.chainId, l', cfg.decode(l'));
      assert LogMatches(c, h, l) && LogMatches(c, h', l');
      NormalizeStamps(cfg.chainId, l, cfg.decode(l), r);
      NormalizeStamps(cfg.chainId, l', cfg.decode(l'), r');
      KeysTellRecords(cfg.chainId, l, cfg.decode(l), r, l', cfg.decode(l'), r');
    }
  }
}
