/**
 * Runs across a fork. The database stores blocks of chain `x` and the RPC serves chain `y`: which block
 * a call resumes after, and what every run of calls, with failures anywhere, leaves behind.
 */
module Forks {
  import opened Prelude
  import opened Records
  import opened Tables
  import opened Environment
  import opened Repository
  import opened Reorg
  import opened Pipeline
  import opened Chains
  import opened Replay
  import opened Recovery
  import opened Views
  import opened Tracking

  // --- The block to resume after ---------------------------------------------------------------------------------

  /** The highest stored row of chain `x` is off the chain that forks from it after `a`. */
  predicate Reported(cfg: Config, x: Chain, n: int, a: int)
    requires n < |x|
  {
    Top(x, cfg.startBlock, n) >= cfg.startBlock && Top(x, cfg.startBlock, n) > a
  }

  /** The lowest of the stored rows directly below the highest one. */
  function FirstInBlock(cfg: Config, x: Chain, n: int): int
    requires n < |x|
  {
    Bottom(x, cfg.startBlock, Top(x, cfg.startBlock, n))
  }

  /** How far down the walk may go from the highest row. */
  function Floor(cfg: Config, x: Chain, n: int): int
    requires n < |x|
  {
    MinBlock(Top(x, cfg.startBlock, n), cfg.maxRollbackDepth)
  }

  /** With the rows of `x` up to block `n` stored, indexing resumes after this block. */
  function Resume(cfg: Config, x: Chain, n: int, a: int): (r: int)
    requires -1 <= n < |x|
    ensures -1 <= r <= n
  {
    if Reported(cfg, x, n, a) then Rollback(FirstInBlock(cfg, x, n), Floor(cfg, x, n), a) else n
  }

  /** The resume point after `k` recoveries. */
  function ResumeAfter(cfg: Config, x: Chain, n: int, a: int, k: nat): (r: int)
    requires -1 <= n < |x|
    ensures -1 <= r <= n
    decreases k
  {
    if k == 0 then n else ResumeAfter(cfg, x, Resume(cfg, x, n, a), a, k - 1)
  }

  /** The answer of the check for the rows of `x` up to block `n`. */
  lemma CheckAnswers(
    cfg: Config, blocks: BlockTable, x: Chain, c: int, y: Chain, a: int, n: int, rpc: Rpc, faults: Faults)
    requires Fork(cfg, x, c, y, a) && Serves(rpc, y) && -1 <= n <= c
    requires CanonicalKeys(blocks, cfg.chainId) == RowsOf(cfg.chainId, x, cfg.startBlock, n)
    ensures var check := Check(blocks, cfg.chainId, cfg.maxRollbackDepth, rpc, faults);
            check.Success? ==>
              check.value == if Reported(cfg, x, n, a) then RollbackTo(Resume(cfg, x, n, a)) else NoReorg
  {
    hide GoodChain, Coherent, Check, Top, Bottom, RowsOf;
    StoredCheck(blocks, cfg.chainId, cfg.maxRollbackDepth, rpc, faults, x, y, cfg.startBlock, n, c, a);
  }

  // --- One call ------------------------------------------------------------------------------------------------------

  /** The second half of a call, from a database whose checkpoint is `p`: blocks after `p`, or nothing. */
  lemma BatchOnTop(cfg: Config, batchSize: int, w: State, p: int, y: Chain, rpc: Rpc, faults: Faults) returns (p': int)
    requires Serves(rpc, y) && -1 <= p < |y| && CheckpointOf(w, cfg.indexer, cfg.chainId) == Some(p)
    ensures var phase := NextBatch(cfg, batchSize, Some(p), rpc, faults);
            && p <= p' < |y| && Applied(cfg, w, phase) == AdvanceTo(cfg, w, y, p + 1, p')
            && CheckpointOf(AdvanceTo(cfg, w, y, p + 1, p'), cfg.indexer, cfg.chainId) == Some(p')
            && (phase.Stopped? ==> p' == p)
            && (!phase.Stopped? ==> rpc.head.Some? && batchSize > 0 && p >= 0
                                    && p' == Target(p, batchSize, rpc.head.value))
  {
    hide RecordsOf, LogsIn, BatchCommits, WithBlocks, Headers, InsertAll;
    var phase := NextBatch(cfg, batchSize, Some(p), rpc, faults);
    p' := if phase.Stopped? then p else Target(p, batchSize, rpc.head.value);
    if p >= 0 {
      hide NextBatch;
      NextBatchOnChain(cfg, batchSize, Some(p), y, rpc, faults);
    }
  }

  /** A highest row on the served chain is never reported. */
  lemma TipOnChain(blocks: BlockTable, chainId: int, depth: nat, rpc: Rpc, faults: Faults, y: Chain)
    requires Serves(rpc, y) && (Latest(blocks, chainId).Some? ==> RowOn(Latest(blocks, chainId).value, y))
    ensures Check(blocks, chainId, depth, rpc, faults) in {Success(NoReorg), Failure(ReorgError)}
  {
    hide Walk;
  }

  /** The state: the rows of `x` up to `n`, and on top of them the blocks `n + 1..p` of `y`. */
  function OnTop(cfg: Config, s: State, y: Chain, n: int, p: int): State
    requires -1 <= n && p < |y|
  {
    AdvanceTo(cfg, Rewound(cfg, s, n), y, n + 1, p)
  }

  lemma OnTopParts(cfg: Config, s: State, x: Chain, c: int, y: Chain, n: int, p: int)
    requires StoredRows(cfg, s, x, c) && ValidChain(y) && -1 <= n <= c && n <= p < |y|
    ensures var u := OnTop(cfg, s, y, n, p);
            && CheckpointOf(u, cfg.indexer, cfg.chainId) == Some(p)
            && u.blocks == AddRows(Rewound(cfg, s, n).blocks, RowsOf(cfg.chainId, y, n + 1, p))
            && StoredRows(cfg, Rewound(cfg, s, n), x, n)
  {
    hide RecordsOf, InsertAll, LogsIn, WithBlocks, Headers, RowsOf, Coherent, Linked;
    AdvancedBlocks(cfg, Rewound(cfg, s, n), y, n + 1, p);
    RewoundRows(cfg, s, x, c, n);
  }

  /** Once a fresh row of the new chain lies on top, it is the highest row. */
  lemma NewTipIsOnChain(cfg: Config, s: State, x: Chain, c: int, y: Chain, n: int, p: int)
    requires StoredRows(cfg, s, x, c) && ValidChain(y) && -1 <= n <= c && n <= p < |y|
    requires FreshRows(s.blocks, RowsOf(cfg.chainId, y, n + 1, p)) && !Quiet(y, n + 1, p)
    ensures var tip := Latest(OnTop(cfg, s, y, n, p).blocks, cfg.chainId); tip.Some? && RowOn(tip.value, y)
  {
    hide ToLower, LogsIn, Coherent, Linked, OnTop;
    OnTopParts(cfg, s, x, c, y, n, p);
    var u := OnTop(cfg, s, y, n, p);
    var h :| n + 1 <= h <= p && Logged(y, h);
    assert RowAt(cfg.chainId, y, h) in RowsOf(cfg.chainId, y, n + 1, p);
    assert RowAt(cfg.chainId, y, h) in CanonicalKeys(u.blocks, cfg.chainId);
    var tip := Latest(u.blocks, cfg.chainId).value;
    assert tip.number >= h;
    assert tip in RowsOf(cfg.chainId, y, n + 1, p);
    var g :| n + 1 <= g <= p && Logged(y, g) && tip == RowAt(cfg.chainId, y, g);
    ToLowerIdempotent(y[g].hash);
  }

  /** Without a log on top, only the checkpoint differs from the rewound state. */
  lemma QuietOnTop(cfg: Config, s: State, x: Chain, c: int, y: Chain, n: int, p: int)
    requires StoredRows(cfg, s, x, c) && ValidChain(y) && -1 <= n <= c && n <= p < |y| && Quiet(y, n + 1, p)
    ensures CanonicalKeys(OnTop(cfg, s, y, n, p).blocks, cfg.chainId) == RowsOf(cfg.chainId, x, cfg.startBlock, n)
    ensures forall r :: -1 <= r <= n ==> Rewound(cfg, OnTop(cfg, s, y, n, p), r) == Rewound(cfg, s, r)
  {
    hide RecordsOf, InsertAll, WithBlocks, Headers, Coherent, Linked, ToLower;
    OnTopParts(cfg, s, x, c, y, n, p);
    var u, w := OnTop(cfg, s, y, n, p), Rewound(cfg, s, n);
    assert RowsOf(cfg.chainId, y, n + 1, p) == {};
    assert u.blocks == w.blocks;
    QuietLogs(cfg.chainId, y, n + 1, n, p);
    NoLogsBackwards(y, n + 1, n);
    assert u.facts == w.facts by {
      NothingInserted(cfg, w.facts);
    }
    forall r | -1 <= r <= n
      ensures Rewound(cfg, u, r) == Rewound(cfg, s, r)
    {
      assert Demote(w.blocks, cfg.chainId, r + 1) == Demote(s.blocks, cfg.chainId, r + 1);
      assert Rewound(cfg, u, r).checkpoints == Rewound(cfg, s, r).checkpoints;
    }
  }

  lemma NothingInserted(cfg: Config, facts: FactTable)
    ensures InsertAll(facts, RecordsOf(cfg.decode, cfg.chainId, [])) == facts
  {
  }

  lemma OnTopComposes(cfg: Config, s: State, y: Chain, n: int, p: int, q: int)
    requires ValidChain(y) && -1 <= n <= p <= q < |y|
    ensures AdvanceTo(cfg, OnTop(cfg, s, y, n, p), y, p + 1, q) == OnTop(cfg, s, y, n, q)
  {
    hide AdvanceTo;
    AdvanceComposes(cfg, Rewound(cfg, s, n), y, n + 1, p, q);
    assert AdvanceTo(cfg, Rewound(cfg, s, n), y, n + 1, n) == Rewound(cfg, s, n) by {
      NothingToAdvance(cfg, Rewound(cfg, s, n), y, n);
    }
    NothingToAdvance(cfg, OnTop(cfg, s, y, n, p), y, p);
  }

  lemma NothingToAdvance(cfg: Config, s: State, y: Chain, p: int)
    requires -1 <= p < |y|
    ensures AdvanceTo(cfg, s, y, p + 1, p) == s
  {
  }

  /** A call whose check reports nothing indexes on top. */
  lemma QuietCallOnTop(cfg: Config, s: State, x: Chain, c: int, y: Chain, n: int, p: int, call: Call) returns (p': int)
    requires cfg.currentIndexedBlock.None? && StoredRows(cfg, s, x, c) && ValidChain(y)
    requires -1 <= n <= c && n <= p < |y| && Serves(call.rpc, y)
    requires Check(OnTop(cfg, s, y, n, p).blocks, cfg.chainId, cfg.maxRollbackDepth, call.rpc, call.faults)
             in {Success(NoReorg), Failure(ReorgError)}
    ensures var u := OnTop(cfg, s, y, n, p);
            && p <= p' < |y| && After(cfg, u, call) == OnTop(cfg, s, y, n, p')
            && (!Succeeds(cfg, u, call) ==> p' == p)
            && (Succeeds(cfg, u, call) ==> call.rpc.head.Some? && call.batchSize > 0 && p >= 0
                                           && p' == Target(p, call.batchSize, call.rpc.head.value))
  {
    hide RecordsOf, InsertAll, WithBlocks, Headers, LogsIn, Check, OnTop, NextBatch, Coherent, Linked, Execute,
      ResultOf, Indexed;
    var u := OnTop(cfg, s, y, n, p);
    OnTopParts(cfg, s, x, c, y, n, p);
    QuietCall(cfg, call.batchSize, u, call.rpc, call.faults);
    var q := BatchOnTop(cfg, call.batchSize, u, p, y, call.rpc, call.faults);
    OnTopComposes(cfg, s, y, n, p, q);
    NothingToAdvance(cfg, u, y, p);
    p' := if Succeeds(cfg, u, call) then q else p;
  }

  /** A call whose check reports the fork: it fails and changes nothing, or it rewinds, and may index on top. */
  lemma ReportedCall(cfg: Config, s: State, x: Chain, c: int, y: Chain, a: int, n: int, p: int, call: Call)
    returns (p': int)
    requires cfg.currentIndexedBlock.None? && StoredRows(cfg, s, x, c) && Fork(cfg, x, c, y, a)
    requires -1 <= n <= c && n <= p < |y| && Quiet(y, n + 1, p) && Reported(cfg, x, n, a) && Serves(call.rpc, y)
    ensures var u, r := OnTop(cfg, s, y, n, p), Resume(cfg, x, n, a);
            || (After(cfg, u, call) == u && !Succeeds(cfg, u, call))
            || (r <= p' < |y| && After(cfg, u, call) == OnTop(cfg, s, y, r, p')
                && (!Succeeds(cfg, u, call) ==> p' == r)
                && (Succeeds(cfg, u, call) ==> call.rpc.head.Some? && call.batchSize > 0 && r >= 0
                                               && p' == Target(r, call.batchSize, call.rpc.head.value)))
  {
    hide RecordsOf, InsertAll, WithBlocks, Headers, LogsIn, Check, NextBatch, ResultOf, Indexed, Resume, Reported,
      RowsOf, EventCount, UnknownCount, Top, Bottom;
    GoodChainParts(cfg, y);
    hide Fork, GoodChain, Coherent, Linked;
    var u, r := OnTop(cfg, s, y, n, p), Resume(cfg, x, n, a);
    QuietOnTop(cfg, s, x, c, y, n, p);
    CheckAnswers(cfg, u.blocks, x, c, y, a, n, call.rpc, call.faults);
    RewoundRows(cfg, s, x, c, r);
    NothingToAdvance(cfg, Rewound(cfg, s, r), y, r);
    p' := r;
    var base := Prepared(cfg, u, call.rpc, call.faults);
    if base.Success? {
      assert base.value == Ready(Rewound(cfg, s, r), Some(r), true);
      p' := BatchOnTop(cfg, call.batchSize, Rewound(cfg, s, r), r, y, call.rpc, call.faults);
    }
  }

  /**
   * One call, from the rows of `x` up to `n` with blocks `n + 1..p` of `y` on top. Unless the highest
   * row is an orphan, the call indexes further on top; if it is, the call does nothing or resumes after
   * the block that `Resume` gives.
   */
  lemma CallOnTop(cfg: Config, s: State, x: Chain, c: int, y: Chain, a: int, n: int, p: int, call: Call)
    returns (n': int, p': int)
    requires cfg.currentIndexedBlock.None? && StoredRows(cfg, s, x, c) && Fork(cfg, x, c, y, a)
    requires -1 <= n <= c && n <= p < |y| && Serves(call.rpc, y)
    requires FreshRows(s.blocks, RowsOf(cfg.chainId, y, n + 1, p))
    ensures var u := OnTop(cfg, s, y, n, p);
            && -1 <= n' <= n && n' <= p' < |y| && After(cfg, u, call) == OnTop(cfg, s, y, n', p')
            && ((n' == n && p' >= p) || (n' == Resume(cfg, x, n, a) && Quiet(y, n + 1, p) && Reported(cfg, x, n, a)))
            && (Succeeds(cfg, u, call) ==>
                  call.rpc.head.Some? && call.batchSize > 0
                  && var from := if Quiet(y, n + 1, p) && Reported(cfg, x, n, a) then n' else p;
                     from >= 0 && p' == Target(from, call.batchSize, call.rpc.head.value))
            && (!Succeeds(cfg, u, call) ==> p' in {p, n'})
  {
    hide Execute, OnTop, Reported, Resume, Check, GoodChain, Coherent, FreshRows, RowsOf, Target;
    assert ValidChain(y) by {
      GoodChainParts(cfg, y);
    }
    var u := OnTop(cfg, s, y, n, p);
    if Quiet(y, n + 1, p) && Reported(cfg, x, n, a) {
      p' := ReportedCall(cfg, s, x, c, y, a, n, p, call);
      if After(cfg, u, call) == u && !Succeeds(cfg, u, call) {
        n', p' := n, p;
      } else {
        n' := Resume(cfg, x, n, a);
      }
    } else {
      if Quiet(y, n + 1, p) {
        QuietOnTop(cfg, s, x, c, y, n, p);
        CheckAnswers(cfg, u.blocks, x, c, y, a, n, call.rpc, call.faults);
        CheckFails(cfg, u.blocks, call.rpc, call.faults);
      } else {
        NewTipIsOnChain(cfg, s, x, c, y, n, p);
        TipOnChain(u.blocks, cfg.chainId, cfg.maxRollbackDepth, call.rpc, call.faults, y);
      }
      p' := QuietCallOnTop(cfg, s, x, c, y, n, p, call);
      n' := n;
    }
  }

  lemma CheckFails(cfg: Config, blocks: BlockTable, rpc: Rpc, faults: Faults)
    ensures var check := Check(blocks, cfg.chainId, cfg.maxRollbackDepth, rpc, faults);
            check.Failure? ==> check == Failure(ReorgError)
  {
    hide Walk;
    var tip := Latest(blocks, cfg.chainId);
    if tip.Some? {
      var n := tip.value.number;
      WalkFails(blocks, cfg.chainId, rpc, faults, n, MinBlock(n, cfg.maxRollbackDepth), 0);
    }
  }

  lemma {:induction false} WalkFails(
    blocks: BlockTable, chainId: int, rpc: Rpc, faults: Faults, n: int, min: int, i: nat)
    ensures var res := Walk(blocks, chainId, rpc, faults, n, min, i); res.Failure? ==> res == Failure(ReorgError)
    decreases n - min
  {
    if n >= min {
      WalkFails(blocks, chainId, rpc, faults, n - 1, min, i + 1);
    }
  }

  // --- Whole runs ----------------------------------------------------------------------------------------------------

  /**
   * Every run on the new chain ends with the rows of `x` up to one of the resume points and the blocks
   * of `y` after it on top, however calls fail and however often the fork is met.
   */
  lemma {:induction false} RunOnTop(
    cfg: Config, s: State, x: Chain, c: int, y: Chain, a: int, n: int, p: int, calls: seq<Call>)
    returns (k: nat, q: int)
    requires cfg.currentIndexedBlock.None? && StoredRows(cfg, s, x, c) && Fork(cfg, x, c, y, a) && AllServe(calls, y)
    requires -1 <= n <= c && n <= p < |y|
    requires forall i: nat :: FreshRows(s.blocks, RowsOf(cfg.chainId, y, ResumeAfter(cfg, x, n, a, i) + 1, |y| - 1))
    ensures var r := ResumeAfter(cfg, x, n, a, k);
            r <= q < |y| && Run(cfg, OnTop(cfg, s, y, n, p), calls) == OnTop(cfg, s, y, r, q)
    decreases calls
  {
    hide Execute, OnTop, Reported, Resume, Check, GoodChain, Coherent, Fork, After, Serves;
    assert ResumeAfter(cfg, x, n, a, 0) == n;
    if calls == [] {
      k, q := 0, p;
    } else {
      assert FreshRows(s.blocks, RowsOf(cfg.chainId, y, n + 1, p)) by {
        assert RowsOf(cfg.chainId, y, n + 1, p) <= RowsOf(cfg.chainId, y, n + 1, |y| - 1);
      }
      var n', p' := CallOnTop(cfg, s, x, c, y, a, n, p, calls[0]);
      if n' == n {
        k, q := RunOnTop(cfg, s, x, c, y, a, n, p', calls[1..]);
      } else {
        forall i: nat
          ensures FreshRows(s.blocks, RowsOf(cfg.chainId, y, ResumeAfter(cfg, x, n', a, i) + 1, |y| - 1))
        {
          assert ResumeAfter(cfg, x, n, a, i + 1) == ResumeAfter(cfg, x, n', a, i);
        }
        var j;
        j, q := RunOnTop(cfg, s, x, c, y, a, n', p', calls[1..]);
        k := j + 1;
      }
    }
  }
}
