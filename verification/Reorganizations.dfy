/** Progress across a fork, and any number of reorganizations in a row, each arriving whenever it likes. */
module Reorganizations {
  import opened Prelude
  import opened Records
  import opened Tables
  import opened Environment
  import opened Reorg
  import opened Pipeline
  import opened Chains
  import opened Replay
  import opened Recovery
  import opened Integrity
  import opened Views
  import opened Tracking
  import opened Forks
  import opened Convergence

  // --- Progress ------------------------------------------------------------------------------------------------------

  lemma CheckSucceeds(blocks: BlockTable, cfg: Config, rpc: Rpc, faults: Faults, y: Chain)
    requires Answers(rpc, y) && faults.failedRead.None?
    requires Latest(blocks, cfg.chainId).Some? ==> 0 <= Latest(blocks, cfg.chainId).value.number < |y|
    ensures Check(blocks, cfg.chainId, cfg.maxRollbackDepth, rpc, faults).Success?
  {
    hide Walk;
    var tip := Latest(blocks, cfg.chainId);
    if tip.Some? {
      var n := tip.value.number;
      WalkAnswers(blocks, cfg.chainId, rpc, faults, y, n, MinBlock(n, cfg.maxRollbackDepth), 0);
    }
  }

  /** When nothing fails, the call that meets the new chain succeeds, unless it rewinds to before block 0. */
  lemma UndisturbedCallSucceeds(cfg: Config, s: State, x: Chain, c: int, y: Chain, a: int, call: Call, batchSize: nat)
    requires cfg.currentIndexedBlock.None? && StoredRows(cfg, s, x, c) && Fork(cfg, x, c, y, a)
    requires Undisturbed(call, y, batchSize) && batchSize > 0
    ensures Succeeds(cfg, s, call) <==> Resume(cfg, x, c, a) >= 0
  {
    hide GoodChain, Coherent, Check, Top, Bottom, NextBatch, Report, Indexed, Resume, Reported, ToLower;
    var r := Resume(cfg, x, c, a);
    assert forall k :: k in CanonicalKeys(s.blocks, cfg.chainId) ==> 0 <= k.number < |y|;
    CheckSucceeds(s.blocks, cfg, call.rpc, call.faults, y);
    CheckAnswers(cfg, s.blocks, x, c, y, a, c, call.rpc, call.faults);
    QuietResume(cfg, x, c, a);
    var base := Prepared(cfg, s, call.rpc, call.faults);
    assert base.Success? && base.value.current == Some(r);
    if r >= 0 {
      NextBatchSucceeds(cfg, batchSize, Some(r), y, call.rpc, call.faults);
    } else {
      NegativeStops(cfg, batchSize, r, call.rpc, call.faults);
    }
    ReportFails(cfg, base.value, NextBatch(cfg, batchSize, Some(r), call.rpc, call.faults));
  }

  lemma QuietResume(cfg: Config, x: Chain, c: int, a: int)
    requires -1 <= c < |x|
    ensures !Reported(cfg, x, c, a) ==> Resume(cfg, x, c, a) == c
  {
  }

  lemma NegativeStops(cfg: Config, batchSize: int, r: int, rpc: Rpc, faults: Faults)
    requires r < 0
    ensures NextBatch(cfg, batchSize, Some(r), rpc, faults).Stopped?
  {
  }

  lemma ReportFails(cfg: Config, b: Ready, phase: Phase)
    ensures Report(cfg, b.state, phase, b.recovered).Success? <==> !phase.Stopped?
  {
  }

  /**
   * The hypothesis of convergence can be met: n undisturbed calls cover n batches, the first of them across
   * the fork.
   */
  lemma UndisturbedCallsCover(
    cfg: Config, s: State, x: Chain, c: int, y: Chain, a: int, calls: seq<Call>, batchSize: nat)
    requires cfg.currentIndexedBlock.None? && StoredRows(cfg, s, x, c) && Fork(cfg, x, c, y, a) && batchSize > 0
    requires Resume(cfg, x, c, a) >= 0 && NoOrphans(cfg, x, a, Resume(cfg, x, c, a))
    requires forall call :: call in calls ==> Undisturbed(call, y, batchSize)
    ensures AllServe(calls, y) && Covered(cfg, s, calls, |y| - 1) == |calls| * batchSize
  {
    hide GoodChain, Coherent, Execute, OnTop, RowsOf, Resume, Check, AdvanceTo, Serves, Answers;
    if calls != [] {
      var call := calls[0];
      assert Undisturbed(call, y, batchSize);
      var r := Resume(cfg, x, c, a);
      UndisturbedCallSucceeds(cfg, s, x, c, y, a, call, batchSize);
      var p := PendingCall(cfg, s, x, c, y, a, call);
      ResumedOnChain(cfg, s, x, c, y, a, r);
      assert After(cfg, s, call) == AdvanceTo(cfg, Rewound(cfg, s, r), y, r + 1, p) by {
        OnTopIsAdvance(cfg, s, y, r, p);
      }
      OnTopIsOnChain(cfg, Rewound(cfg, s, r), y, r, p);
      CallsOnChainCover(cfg, After(cfg, s, call), y, calls[1..], batchSize);
      assert |calls| * batchSize == batchSize + |calls[1..]| * batchSize by {
        OneMore(|calls[1..]|, batchSize);
      }
      assert Serves(call.rpc, y) && call.rpc.head == Some(|y| - 1) && call.batchSize == batchSize;
    }
  }

  lemma OneMore(n: nat, batchSize: nat)
    ensures (n + 1) * batchSize == batchSize + n * batchSize
  {
  }

  lemma OnTopIsAdvance(cfg: Config, s: State, y: Chain, r: int, p: int)
    requires -1 <= r && p < |y|
    ensures OnTop(cfg, s, y, r, p) == AdvanceTo(cfg, Rewound(cfg, s, r), y, r + 1, p)
  {
  }

  lemma {:induction false} CallsOnChainCover(cfg: Config, s: State, y: Chain, calls: seq<Call>, batchSize: nat)
    requires ValidChain(y) && OnChain(cfg, s, y) && batchSize > 0
    requires forall call :: call in calls ==> Undisturbed(call, y, batchSize)
    ensures AllServe(calls, y) && Covered(cfg, s, calls, |y| - 1) == |calls| * batchSize
    decreases calls
  {
    hide Execute, Check, AdvanceTo, OnChain, ValidChain;
    if calls != [] {
      var call := calls[0];
      assert Undisturbed(call, y, batchSize);
      StepSucceeds(cfg, batchSize, s, y, call.rpc, call.faults);
      StepAdvances(cfg, s, y, call);
      CallsOnChainCover(cfg, After(cfg, s, call), y, calls[1..], batchSize);
      assert |calls| * batchSize == batchSize + |calls[1..]| * batchSize;
    }
  }

  lemma OneCallReachesHead(cfg: Config, s: State, x: Chain, c: int, y: Chain, a: int, call: Call, batchSize: nat)
    requires cfg.currentIndexedBlock.None? && StoredRows(cfg, s, x, c) && Fork(cfg, x, c, y, a)
    requires Undisturbed(call, y, batchSize) && batchSize >= |y| && Resume(cfg, x, c, a) >= 0
    ensures After(cfg, s, call) == OnTop(cfg, s, y, Resume(cfg, x, c, a), |y| - 1)
  {
    hide GoodChain, Coherent, Execute, OnTop, RowsOf, Resume, ForksAt;
    UndisturbedCallSucceeds(cfg, s, x, c, y, a, call, batchSize);
    var p := PendingCall(cfg, s, x, c, y, a, call);
  }

  /**
   * One undisturbed call whose batch reaches the head: with fresh rows and keys it leaves what a
   * from-scratch run leaves exactly when neither chain has a log between the fork and the block it resumes after.
   */
  lemma OneCallConverges(cfg: Config, s: State, x: Chain, c: int, y: Chain, a: int, call: Call, batchSize: nat)
    requires cfg.currentIndexedBlock.None? && Tracks(cfg, s, x, c) && Fork(cfg, x, c, y, a) && cfg.startBlock < |y|
    requires Undisturbed(call, y, batchSize) && batchSize >= |y|
    requires var r := Resume(cfg, x, c, a); r >= 0 && FreshAbove(cfg, s, y, r)
    ensures var end := After(cfg, s, call);
            SameBlocks(cfg, end, Reference(cfg, y)) && SameView(cfg, end, Reference(cfg, y))
            <==> Seamless(cfg, x, y, a, Resume(cfg, x, c, a))
  {
    var r := Resume(cfg, x, c, a);
    hide GoodChain, Coherent, Execute, OnTop, RowsOf, Resume, Seamless, View, SameBlocks, SameView, FreshRows,
      FreshKeys, Referring, NewRecords, NewRows, ForksAt, Undisturbed, After, Reference, FactsUpTo, CanonicalKeys;
    OneCallReachesHead(cfg, s, x, c, y, a, call, batchSize);
    FreshResume(cfg, s, x, c, y, a, r);
    if Seamless(cfg, x, y, a, r) {
      SeamlessResume(cfg, s, x, c, y, a, r);
    }
  }

  /**
   * A run from an empty database, stopped anywhere in its backlog and whatever failed, has either stored
   * nothing or tracks its chain up to the checkpoint: a reorganization may arrive at any time.
   */
  lemma InitialRunTracks(cfg: Config, x: Chain, calls: seq<Call>)
    requires GoodChain(cfg, x) && cfg.currentIndexedBlock.None? && AllServe(calls, x)
    ensures var end := Run(cfg, EMPTY, calls); end == EMPTY || Tracks(cfg, end, x, Position(cfg, end))
  {
    hide GoodChain, AdvanceTo, Run, Tracks;
    GoodChainParts(cfg, x);
    hide ValidChain, LogsMatchBlocks, LowerHashes;
    assert OnChain(cfg, EMPTY, x);
    RunOnChain(cfg, EMPTY, calls, x, 0);
    var p := Position(cfg, Run(cfg, EMPTY, calls));
    if p >= cfg.startBlock {
      FromScratch(cfg, x, p);
    }
  }

  // --- How often a run recovers ---------------------------------------------------------------------------------

  /** The canonical rows that are not on the chain. */
  ghost function Orphans(cfg: Config, s: State, y: Chain): set<BlockKey> {
    set k | k in CanonicalKeys(s.blocks, cfg.chainId) && !RowOn(k, y)
  }

  /** The call commits a recovery. */
  ghost predicate Recovers(cfg: Config, s: State, call: Call) {
    var base := Prepared(cfg, s, call.rpc, call.faults);
    base.Success? && base.value.recovered
  }

  ghost function RecoveryCount(cfg: Config, s: State, calls: seq<Call>): nat
    decreases calls
  {
    if calls == [] then 0
    else (if Recovers(cfg, s, calls[0]) then 1 else 0) + RecoveryCount(cfg, After(cfg, s, calls[0]), calls[1..])
  }

  /** Blocks of the chain add no orphans. */
  lemma BatchAddsNoOrphans(
    cfg: Config, batchSize: int, w: State, current: Option<int>, y: Chain, rpc: Rpc, faults: Faults)
    requires ValidChain(y) && Serves(rpc, y)
    ensures Orphans(cfg, Applied(cfg, w, NextBatch(cfg, batchSize, current, rpc, faults)), y) <= Orphans(cfg, w, y)
  {
    hide RecordsOf, LogsIn, BatchCommits, WithBlocks, Headers, Coherent, Linked, ToLower, LogsMatchBlocks;
    var phase := NextBatch(cfg, batchSize, current, rpc, faults);
    if phase.Batch? {
      NextBatchOnChain(cfg, batchSize, current, y, rpc, faults);
      var lo, hi := phase.range.nextFromBlock, phase.range.nextToBlock;
      AdvancedBlocks(cfg, w, y, lo, hi);
      forall k | k in RowsOf(cfg.chainId, y, lo, hi)
        ensures RowOn(k, y)
      {
        ToLowerIdempotent(y[k.number].hash);
      }
    }
  }

  /** A recovery removes at least the highest row, an orphan, and no call adds one. */
  lemma CallRemovesOrphans(cfg: Config, s: State, y: Chain, call: Call)
    requires ValidChain(y) && Serves(call.rpc, y) && Consistent(cfg, s)
    requires cfg.maxRollbackDepth >= 1 && forall k :: k in Orphans(cfg, s, y) ==> k.number >= 1
    ensures Orphans(cfg, After(cfg, s, call), y) <= Orphans(cfg, s, y)
    ensures Recovers(cfg, s, call) ==> |Orphans(cfg, After(cfg, s, call), y)| < |Orphans(cfg, s, y)|
  {
    hide Check, NextBatch, Report, Indexed, ValidChain, RowOn, Serves, Recovered;
    var base := Prepared(cfg, s, call.rpc, call.faults);
    if base.Success? {
      BatchAddsNoOrphans(cfg, call.batchSize, base.value.state, base.value.current, y, call.rpc, call.faults);
      if base.value.recovered {
        var tip := RecoveryRemovesTip(cfg, s, y, call.rpc, call.faults);
        Smaller(Orphans(cfg, After(cfg, s, call), y), Orphans(cfg, s, y), tip);
      }
    }
  }

  lemma RecoveryRemovesTip(cfg: Config, s: State, y: Chain, rpc: Rpc, faults: Faults) returns (tip: BlockKey)
    requires Serves(rpc, y) && Consistent(cfg, s)
    requires cfg.maxRollbackDepth >= 1 && forall k :: k in Orphans(cfg, s, y) ==> k.number >= 1
    requires var check := Check(s.blocks, cfg.chainId, cfg.maxRollbackDepth, rpc, faults);
             check.Success? && check.value.RollbackTo?
    ensures var r := Check(s.blocks, cfg.chainId, cfg.maxRollbackDepth, rpc, faults).value.block;
            tip in Orphans(cfg, s, y)
            && Orphans(cfg, Recovered(s, cfg.chainId, cfg.indexer, r), y) <= Orphans(cfg, s, y) - {tip}
  {
    var r := Check(s.blocks, cfg.chainId, cfg.maxRollbackDepth, rpc, faults).value.block;
    tip := Latest(s.blocks, cfg.chainId).value;
    ReportedTipIsOrphan(s, cfg.chainId, cfg.maxRollbackDepth, rpc, faults, y);
    RecoveryDemotesOnlyOrphans(s, cfg.chainId, cfg.indexer, cfg.maxRollbackDepth, rpc, faults, y);
    RecoveryProgress(s, cfg.chainId, cfg.maxRollbackDepth, rpc, faults, y);
  }

  lemma ReportedTipIsOrphan(s: State, chainId: int, depth: nat, rpc: Rpc, faults: Faults, y: Chain)
    requires Serves(rpc, y)
    requires Check(s.blocks, chainId, depth, rpc, faults).Success?
    requires Check(s.blocks, chainId, depth, rpc, faults).value.RollbackTo?
    ensures var tip := Latest(s.blocks, chainId);
            tip.Some? && tip.value in CanonicalKeys(s.blocks, chainId) && !RowOn(tip.value, y)
  {
    hide Walk;
  }

  /**
   * Recoveries end: on one chain, with a positive depth limit and no orphan at height 0, a run recovers at
   * most as often as there are orphans at its start, wherever calls fail.
   */
  lemma {:induction false} RecoveriesAreBounded(cfg: Config, s: State, y: Chain, calls: seq<Call>)
    requires cfg.currentIndexedBlock.None? && ValidChain(y) && AllServe(calls, y) && Consistent(cfg, s)
    requires forall call :: call in calls ==> SaneRpc(call.rpc)
    requires cfg.maxRollbackDepth >= 1 && forall k :: k in Orphans(cfg, s, y) ==> k.number >= 1
    ensures RecoveryCount(cfg, s, calls) + |Orphans(cfg, Run(cfg, s, calls), y)| <= |Orphans(cfg, s, y)|
    ensures |Orphans(cfg, s, y)| <= |CanonicalKeys(s.blocks, cfg.chainId)|
    decreases calls
  {
    hide ValidChain, Serves, SaneRpc, Execute, Consistent, RowOn, Prepared;
    SubsetSize(Orphans(cfg, s, y), CanonicalKeys(s.blocks, cfg.chainId));
    if calls != [] {
      var call := calls[0];
      assert call in calls;
      CallRemovesOrphans(cfg, s, y, call);
      ExecuteKeepsConsistent(cfg, call.batchSize, s, call.rpc, call.faults);
      SubsetSize(Orphans(cfg, After(cfg, s, call), y), Orphans(cfg, s, y));
      RecoveriesAreBounded(cfg, After(cfg, s, call), y, calls[1..]);
    }
  }

  // --- Any number of reorganizations -------------------------------------------------------------------------------

  /** The last block on which the chains agree, up to block `c`. */
  ghost function ForkPoint(x: Chain, y: Chain, c: int): (a: int)
    requires Linked(x) && Linked(y) && Coherent(x, y) && -1 <= c < |x| && c < |y|
    ensures ForksAt(x, y, c, a)
  {
    ForkPointExists(x, y, c);
    var a :| ForksAt(x, y, c, a);
    a
  }

  /** Chain `y` may replace chain `x` when blocks up to `c` are indexed. */
  ghost predicate Joins(cfg: Config, x: Chain, c: int, y: Chain) {
    GoodChain(cfg, x) && GoodChain(cfg, y) && Coherent(x, y) && -1 <= c < |x| && c < |y|
  }

  /** The block after which a call on chain `y` resumes. */
  ghost function ResumePoint(cfg: Config, x: Chain, c: int, y: Chain): int
    requires Joins(cfg, x, c, y)
  {
    Resume(cfg, x, c, ForkPoint(x, y, c))
  }

  /** The RPC serves `chain` during `calls`; the next reorganization may arrive at any point of the recovery. */
  datatype Episode = Episode(chain: Chain, calls: seq<Call>)

  /** An episode that resumes seamlessly, with fresh rows and keys, in the state it finds. */
  ghost predicate Settles(cfg: Config, s: State, x: Chain, c: int, e: Episode) {
    && Joins(cfg, x, c, e.chain) && AllServe(e.calls, e.chain)
    && var r := ResumePoint(cfg, x, c, e.chain);
       && r >= 0 && Seamless(cfg, x, e.chain, ForkPoint(x, e.chain, c), r) && FreshAbove(cfg, s, e.chain, r)
  }

  /** Whether the episode ends before its first call has reached the database. */
  ghost predicate Untouched(cfg: Config, s: State, x: Chain, c: int, e: Episode)
    requires Joins(cfg, x, c, e.chain)
  {
    ResumePoint(cfg, x, c, e.chain) < c && Run(cfg, s, e.calls) == s
  }

  /** The chain that the database follows after the episode. */
  ghost function Followed(cfg: Config, s: State, x: Chain, c: int, e: Episode): Chain
    requires Joins(cfg, x, c, e.chain)
  {
    if Untouched(cfg, s, x, c, e) then x else e.chain
  }

  lemma OneEpisode(cfg: Config, s: State, x: Chain, c: int, e: Episode)
    requires cfg.currentIndexedBlock.None? && Tracks(cfg, s, x, c) && Settles(cfg, s, x, c, e)
    ensures var end := Run(cfg, s, e.calls);
            && Tracks(cfg, end, Followed(cfg, s, x, c, e), Position(cfg, end))
            && (Covered(cfg, s, e.calls, |e.chain| - 1) >= |e.chain| - 1 - ResumePoint(cfg, x, c, e.chain) ==>
                  Followed(cfg, s, x, c, e) == e.chain && Position(cfg, end) == |e.chain| - 1)
  {
    hide Run, Covered, AdvanceTo, View, CanonicalKeys, RowsOf, FactsUpTo, Referring, FreshRows, FreshKeys,
      FromStart, NewRows, NewRecords, AllServe, Quiet, Rewound, OnChain, Coherent, ForksAt, LogsMatchBlocks,
      KeysFixBlock, LowerHashes;
    var y, a := e.chain, ForkPoint(x, e.chain, c);
    var r, end := Resume(cfg, x, c, a), Run(cfg, s, e.calls);
    assert Fork(cfg, x, c, y, a);
    hide Resume, GoodChain, Linked;
    RunAcrossFork(cfg, s, x, c, y, a, e.calls, |y| - 1);
    if Untouched(cfg, s, x, c, e) {
      OrphansAreOffChain(cfg, s, x, c, y, a);
      TrackedPosition(cfg, s, x, c);
    } else {
      RewoundPosition(cfg, s, r);
      AdvancedEpisode(cfg, s, x, c, y, a, r, Position(cfg, end), end);
    }
  }

  lemma RewoundPosition(cfg: Config, s: State, r: int)
    ensures Position(cfg, Rewound(cfg, s, r)) == r
  {
  }

  lemma AdvancedEpisode(cfg: Config, s: State, x: Chain, c: int, y: Chain, a: int, r: int, p: int, end: State)
    requires Tracks(cfg, s, x, c) && Fork(cfg, x, c, y, a) && 0 <= r <= c
    requires Seamless(cfg, x, y, a, r) && FreshAbove(cfg, s, y, r) && Position(cfg, Rewound(cfg, s, r)) == r
    requires Advances(cfg, Rewound(cfg, s, r), y, p, end)
    ensures Tracks(cfg, end, y, p)
  {
    hide AdvanceTo, View, CanonicalKeys, RowsOf, GoodChain, Coherent, FactsUpTo, Referring, FreshRows, FreshKeys,
      FromStart, ForksAt, Quiet, Rewound, FreshAbove, Tracks;
    ResumedTracks(cfg, s, x, c, y, a, r);
    if r < p {
      FreshPrefix(cfg, s, y, r, p);
      AdvancedTracks(cfg, Rewound(cfg, s, r), y, r, p);
    }
  }

  lemma OrphansAreOffChain(cfg: Config, s: State, x: Chain, c: int, y: Chain, a: int)
    requires StoredRows(cfg, s, x, c) && Fork(cfg, x, c, y, a) && Resume(cfg, x, c, a) < c
    ensures !OnChain(cfg, s, y)
  {
    hide ToLower, GoodChain, Coherent;
    var t := Top(x, cfg.startBlock, c);
    ToLowerIdempotent(x[t].hash);
    assert RowAt(cfg.chainId, x, t) in CanonicalKeys(s.blocks, cfg.chainId) && !Agree(x, y, t);
    assert !RowOn(RowAt(cfg.chainId, x, t), y);
  }

  lemma FreshPrefix(cfg: Config, s: State, y: Chain, r: int, p: int)
    requires -1 <= r <= p < |y| && FreshAbove(cfg, s, y, r)
    ensures FreshRows(Rewound(cfg, s, r).blocks, RowsOf(cfg.chainId, y, r + 1, p))
    ensures FreshKeys(Rewound(cfg, s, r).facts, ChainRecords(cfg, y, r + 1, p))
  {
    hide RecordsOf, LogsIn, ToLower;
    ChainRecordsSplit(cfg, y, r + 1, p, |y| - 1);
    RewoundKeeps(cfg, s, r, RowsOf(cfg.chainId, y, r + 1, p));
    assert RowsOf(cfg.chainId, y, r + 1, p) <= NewRows(cfg, y, r);
  }

  ghost predicate AllSettle(cfg: Config, s: State, x: Chain, c: int, es: seq<Episode>)
    decreases es
  {
    es == [] || (
      && Settles(cfg, s, x, c, es[0])
      && var end := Run(cfg, s, es[0].calls);
         AllSettle(cfg, end, Followed(cfg, s, x, c, es[0]), Position(cfg, end), es[1..]))
  }

  ghost function RunAll(cfg: Config, s: State, es: seq<Episode>): State
    decreases es
  {
    if es == [] then s else RunAll(cfg, Run(cfg, s, es[0].calls), es[1..])
  }

  ghost function LastFollowed(cfg: Config, s: State, x: Chain, c: int, es: seq<Episode>): Chain
    requires AllSettle(cfg, s, x, c, es)
    decreases es
  {
    if es == [] then x
    else
      var end := Run(cfg, s, es[0].calls);
      LastFollowed(cfg, end, Followed(cfg, s, x, c, es[0]), Position(cfg, end), es[1..])
  }

  /** The successful calls of the last episode cover what is missing of its chain. */
  ghost predicate LastCovers(cfg: Config, s: State, x: Chain, c: int, es: seq<Episode>)
    requires AllSettle(cfg, s, x, c, es)
    decreases es
  {
    es != [] && (
      var end := Run(cfg, s, es[0].calls);
      if |es| == 1
      then Covered(cfg, s, es[0].calls, |es[0].chain| - 1) >= |es[0].chain| - 1 - ResumePoint(cfg, x, c, es[0].chain)
      else LastCovers(cfg, end, Followed(cfg, s, x, c, es[0]), Position(cfg, end), es[1..]))
  }

  /**
   * However often the chain reorganizes, and wherever the previous recovery or backlog then stands, readers
   * see at every point exactly the facts of one of the chains; and once the last episode has covered its
   * chain, those of the last chain up to its head.
   */
  lemma {:induction false} ManyReorganizations(cfg: Config, s: State, x: Chain, c: int, es: seq<Episode>)
    requires cfg.currentIndexedBlock.None? && Tracks(cfg, s, x, c) && AllSettle(cfg, s, x, c, es)
    ensures Tracks(cfg, RunAll(cfg, s, es), LastFollowed(cfg, s, x, c, es), Position(cfg, RunAll(cfg, s, es)))
    ensures LastCovers(cfg, s, x, c, es) ==>
              var y := es[|es| - 1].chain; |y| > 0 && Tracks(cfg, RunAll(cfg, s, es), y, |y| - 1)
    decreases es
  {
    hide Run, Covered, Tracks, Settles, Followed, ResumePoint;
    if es == [] {
      assert Position(cfg, s) == c by {
        TrackedPosition(cfg, s, x, c);
      }
    } else {
      var e, end := es[0], Run(cfg, s, es[0].calls);
      SettledChain(cfg, s, x, c, e);
      OneEpisode(cfg, s, x, c, e);
      ManyReorganizations(cfg, end, Followed(cfg, s, x, c, e), Position(cfg, end), es[1..]);
      if |es| == 1 {
        assert es[1..] == [];
      }
    }
  }

  lemma TrackedPosition(cfg: Config, s: State, x: Chain, c: int)
    requires Tracks(cfg, s, x, c)
    ensures Position(cfg, s) == c
  {
  }

  lemma SettledChain(cfg: Config, s: State, x: Chain, c: int, e: Episode)
    requires Settles(cfg, s, x, c, e)
    ensures |e.chain| > 0 && Joins(cfg, x, c, e.chain)
  {
  }
}
