/**
 * Runs across a fork in which nothing fails. Even then the outcome depends on the batch size: as long
 * as a batch brings no row of the new chain, an orphan below it is noticed, and recovered from, once more.
 */
module SmoothRuns {
  import opened Prelude
  import opened Tables
  import opened Environment
  import opened Reorg
  import opened Pipeline
  import opened Chains
  import opened Replay
  import opened Recovery
  import opened Integrity
  import opened Views
  import opened Tracking
  import opened Forks
  import opened Convergence
  import opened Reorganizations
  import opened Limits

  /** The undisturbed call on a chain that is served in full. */
  function Smooth(y: Chain, batchSize: nat): Call {
    Call(batchSize, Answering(y), NO_FAULTS)
  }

  lemma SmoothIsUndisturbed(y: Chain, batchSize: nat)
    requires y != []
    ensures Undisturbed(Smooth(y, batchSize), y, batchSize)
  {
    AnsweringServes(y);
  }

  // --- The resume point of a whole run ----------------------------------------------------------------------------

  /**
   * After a call has resumed after block `r` and indexed one batch, the next call recovers again: the
   * highest old row is still an orphan, and the batch brought no row of the new chain.
   */
  predicate RecoversAgain(cfg: Config, x: Chain, y: Chain, a: int, r: int, batchSize: nat)
    requires -1 <= r < |x|
  {
    Reported(cfg, x, r, a) && Quiet(y, r + 1, Target(r, batchSize, |y| - 1))
  }

  /** The block after which a run of undisturbed calls resumes for good, with rows of `x` up to `n` stored. */
  function FinalResume(cfg: Config, x: Chain, y: Chain, a: int, n: int, batchSize: nat): (r: int)
    requires -1 <= n < |x|
    ensures -1 <= r <= n
    decreases n
  {
    var r := Resume(cfg, x, n, a);
    if r < n && RecoversAgain(cfg, x, y, a, r, batchSize) then FinalResume(cfg, x, y, a, r, batchSize) else r
  }

  /** How many calls recover on the way there. */
  function Recoveries(cfg: Config, x: Chain, y: Chain, a: int, n: int, batchSize: nat): nat
    requires -1 <= n < |x|
    decreases n
  {
    var r := Resume(cfg, x, n, a);
    if !Reported(cfg, x, n, a) then 0
    else if r < n && RecoversAgain(cfg, x, y, a, r, batchSize) then 1 + Recoveries(cfg, x, y, a, r, batchSize)
    else 1
  }

  /** The block that the last recovering call reaches; without a recovery, the checkpoint. */
  function Regained(cfg: Config, x: Chain, y: Chain, a: int, n: int, batchSize: nat): int
    requires -1 <= n < |x|
  {
    var f := FinalResume(cfg, x, y, a, n, batchSize);
    if Reported(cfg, x, n, a) then Target(f, batchSize, |y| - 1) else f
  }

  /** Where the run ends: at the head, or at the end of the one batch that it repeats forever. */
  function FinalBlock(cfg: Config, x: Chain, y: Chain, a: int, r: int, batchSize: nat): int
    requires -1 <= r < |x|
  {
    if RecoversAgain(cfg, x, y, a, r, batchSize) then Target(r, batchSize, |y| - 1) else |y| - 1
  }

  // --- One call ------------------------------------------------------------------------------------------------------

  lemma RowsAreOnChainHeights(cfg: Config, s: State, x: Chain, c: int, y: Chain, n: int, p: int)
    requires StoredRows(cfg, s, x, c) && ValidChain(y) && -1 <= n <= c && n <= p < |y| && c < |y|
    ensures forall k :: k in CanonicalKeys(OnTop(cfg, s, y, n, p).blocks, cfg.chainId) ==> 0 <= k.number < |y|
  {
    hide ToLower, OnTop, Coherent, Linked;
    OnTopParts(cfg, s, x, c, y, n, p);
  }

  /** An undisturbed call fails only when it would have to go on from a negative block. */
  lemma SmoothCallSucceeds(
    cfg: Config, s: State, x: Chain, c: int, y: Chain, a: int, n: int, p: int, call: Call, batchSize: nat)
    requires cfg.currentIndexedBlock.None? && StoredRows(cfg, s, x, c) && Fork(cfg, x, c, y, a)
    requires -1 <= n <= c && n <= p < |y| && Undisturbed(call, y, batchSize) && batchSize > 0
    requires FreshRows(s.blocks, RowsOf(cfg.chainId, y, n + 1, p))
    requires (if Quiet(y, n + 1, p) && Reported(cfg, x, n, a) then Resume(cfg, x, n, a) else p) >= 0
    ensures Succeeds(cfg, OnTop(cfg, s, y, n, p), call)
  {
    hide GoodChain, Coherent, Check, Top, Bottom, NextBatch, Report, Indexed, Resume, Reported, ToLower, OnTop, ForksAt,
      FreshRows, RowsOf, Answers, Serves;
    GoodChainParts(cfg, y);
    hide ValidChain, LogsMatchBlocks, LowerHashes;
    var u := OnTop(cfg, s, y, n, p);
    OnTopParts(cfg, s, x, c, y, n, p);
    RowsAreOnChainHeights(cfg, s, x, c, y, n, p);
    CheckSucceeds(u.blocks, cfg, call.rpc, call.faults, y);
    if Quiet(y, n + 1, p) {
      QuietOnTop(cfg, s, x, c, y, n, p);
      CheckAnswers(cfg, u.blocks, x, c, y, a, n, call.rpc, call.faults);
    } else {
      NewTipIsOnChain(cfg, s, x, c, y, n, p);
      TipOnChain(u.blocks, cfg.chainId, cfg.maxRollbackDepth, call.rpc, call.faults, y);
    }
    var base := Prepared(cfg, u, call.rpc, call.faults);
    assert base.Success? && base.value.current.Some? && base.value.current.value >= 0;
    NextBatchSucceeds(cfg, batchSize, base.value.current, y, call.rpc, call.faults);
    ReportFails(cfg, base.value, NextBatch(cfg, batchSize, base.value.current, call.rpc, call.faults));
  }

  /** With an orphan on top, the call resumes at the next point and indexes one batch. */
  lemma RecoveringCall(
    cfg: Config, s: State, x: Chain, c: int, y: Chain, a: int, n: int, p: int, call: Call, batchSize: nat)
    requires cfg.currentIndexedBlock.None? && StoredRows(cfg, s, x, c) && Fork(cfg, x, c, y, a)
    requires -1 <= n <= c && n <= p < |y| && Undisturbed(call, y, batchSize) && batchSize > 0
    requires Quiet(y, n + 1, p) && Reported(cfg, x, n, a) && Resume(cfg, x, n, a) >= 0
    ensures var r := Resume(cfg, x, n, a); var q := Target(r, batchSize, |y| - 1);
            r <= q < |y| && After(cfg, OnTop(cfg, s, y, n, p), call) == OnTop(cfg, s, y, r, q)
  {
    hide GoodChain, Coherent, Execute, OnTop, Resume, Reported, RowsOf, ForksAt, Answers, Serves;
    assert FreshRows(s.blocks, RowsOf(cfg.chainId, y, n + 1, p)) by {
      QuietHasNoRows(cfg, y, n + 1, p);
    }
    SmoothCallSucceeds(cfg, s, x, c, y, a, n, p, call, batchSize);
    var q := ReportedCall(cfg, s, x, c, y, a, n, p, call);
  }

  lemma QuietHasNoRows(cfg: Config, y: Chain, lo: int, hi: int)
    requires 0 <= lo && hi < |y| && Quiet(y, lo, hi)
    ensures RowsOf(cfg.chainId, y, lo, hi) == {}
  {
  }

  /** Without one, it indexes the next batch on top. */
  lemma AdvancingCall(
    cfg: Config, s: State, x: Chain, c: int, y: Chain, a: int, n: int, p: int, call: Call, batchSize: nat)
    requires cfg.currentIndexedBlock.None? && StoredRows(cfg, s, x, c) && Fork(cfg, x, c, y, a)
    requires -1 <= n <= c && n <= p < |y| && 0 <= p && Undisturbed(call, y, batchSize) && batchSize > 0
    requires FreshRows(s.blocks, RowsOf(cfg.chainId, y, n + 1, p))
    requires !(Quiet(y, n + 1, p) && Reported(cfg, x, n, a))
    ensures var q := Target(p, batchSize, |y| - 1);
            p <= q < |y| && After(cfg, OnTop(cfg, s, y, n, p), call) == OnTop(cfg, s, y, n, q)
  {
    hide GoodChain, Coherent, Execute, OnTop, Resume, Reported, RowsOf, ForksAt, Answers, Serves;
    SmoothCallSucceeds(cfg, s, x, c, y, a, n, p, call, batchSize);
    var n', q := CallOnTop(cfg, s, x, c, y, a, n, p, call);
  }

  // --- Whole runs ----------------------------------------------------------------------------------------------------

  ghost predicate AllUndisturbed(calls: seq<Call>, y: Chain, batchSize: nat) {
    forall call :: call in calls ==> Undisturbed(call, y, batchSize)
  }

  /** Once the highest row is no orphan, every call indexes one more batch. */
  lemma {:induction false} SettledRun(
    cfg: Config, s: State, x: Chain, c: int, y: Chain, a: int, n: int, p: int, calls: seq<Call>, batchSize: nat)
    requires cfg.currentIndexedBlock.None? && StoredRows(cfg, s, x, c) && Fork(cfg, x, c, y, a)
    requires -1 <= n <= c && n <= p < |y| && 0 <= p && AllUndisturbed(calls, y, batchSize) && batchSize > 0
    requires FreshRows(s.blocks, NewRows(cfg, y, n)) && !(Quiet(y, n + 1, p) && Reported(cfg, x, n, a))
    ensures Run(cfg, OnTop(cfg, s, y, n, p), calls) == OnTop(cfg, s, y, n, Min(p + |calls| * batchSize, |y| - 1))
    decreases calls
  {
    hide GoodChain, Coherent, ForksAt, Execute, OnTop, Reported, Undisturbed, After;
    if calls != [] {
      assert Undisturbed(calls[0], y, batchSize);
      assert FreshRows(s.blocks, RowsOf(cfg.chainId, y, n + 1, p)) by {
        assert RowsOf(cfg.chainId, y, n + 1, p) <= NewRows(cfg, y, n);
      }
      AdvancingCall(cfg, s, x, c, y, a, n, p, calls[0], batchSize);
      var q := Target(p, batchSize, |y| - 1);
      SettledRun(cfg, s, x, c, y, a, n, q, calls[1..], batchSize);
      OneMore(|calls[1..]|, batchSize);
    }
  }

  /** When recovery resumes where it resumed before and the batch stays quiet, the run makes no progress. */
  lemma {:induction false} IdleRun(
    cfg: Config, s: State, x: Chain, c: int, y: Chain, a: int, n: int, calls: seq<Call>, batchSize: nat)
    requires cfg.currentIndexedBlock.None? && StoredRows(cfg, s, x, c) && Fork(cfg, x, c, y, a) && 0 <= n <= c
    requires AllUndisturbed(calls, y, batchSize) && batchSize > 0
    requires Resume(cfg, x, n, a) == n && RecoversAgain(cfg, x, y, a, n, batchSize)
    ensures n <= Target(n, batchSize, |y| - 1) < |y|
    ensures var u := OnTop(cfg, s, y, n, Target(n, batchSize, |y| - 1)); Run(cfg, u, calls) == u
    decreases calls
  {
    hide GoodChain, Coherent, ForksAt, Execute, OnTop, Reported, Resume, Undisturbed, After;
    if calls != [] {
      assert Undisturbed(calls[0], y, batchSize);
      RecoveringCall(cfg, s, x, c, y, a, n, Target(n, batchSize, |y| - 1), calls[0], batchSize);
      IdleRun(cfg, s, x, c, y, a, n, calls[1..], batchSize);
    }
  }

  /** Recovery resumes where it is exactly when the orphan is at height 0 or the depth limit is 0. */
  lemma NoProgressIsExact(cfg: Config, x: Chain, n: int, a: int)
    requires -1 <= n < |x| && Reported(cfg, x, n, a)
    ensures Resume(cfg, x, n, a) == n <==> Logged(x, n) && (n == 0 || cfg.maxRollbackDepth == 0)
  {
  }

  /** From a state with an orphan on top: after the last recovery the run advances batch by batch, or not at all. */
  lemma {:induction false} RecoveringRun(
    cfg: Config, s: State, x: Chain, c: int, y: Chain, a: int, n: int, p: int, calls: seq<Call>, batchSize: nat)
    requires cfg.currentIndexedBlock.None? && StoredRows(cfg, s, x, c) && Fork(cfg, x, c, y, a)
    requires -1 <= n <= c && n <= p < |y| && AllUndisturbed(calls, y, batchSize) && batchSize > 0
    requires Quiet(y, n + 1, p) && Reported(cfg, x, n, a)
    requires |calls| >= Recoveries(cfg, x, y, a, n, batchSize)
    requires var f := FinalResume(cfg, x, y, a, n, batchSize); f >= 0 && FreshRows(s.blocks, NewRows(cfg, y, f))
    ensures var f := FinalResume(cfg, x, y, a, n, batchSize); var first := Target(f, batchSize, |y| - 1);
            var more := |calls| - Recoveries(cfg, x, y, a, n, batchSize);
            && f <= first < |y|
            && Run(cfg, OnTop(cfg, s, y, n, p), calls)
               == OnTop(cfg, s, y, f, if RecoversAgain(cfg, x, y, a, f, batchSize) then first
                                      else Min(first + more * batchSize, |y| - 1))
    decreases calls
  {
    hide GoodChain, Coherent, ForksAt, Execute, OnTop, Reported, Resume, Undisturbed, After, Quiet, FreshRows;
    var r := Resume(cfg, x, n, a);
    assert Undisturbed(calls[0], y, batchSize);
    RecoveringCall(cfg, s, x, c, y, a, n, p, calls[0], batchSize);
    var q := Target(r, batchSize, |y| - 1);
    if r < n && RecoversAgain(cfg, x, y, a, r, batchSize) {
      RecoveringRun(cfg, s, x, c, y, a, r, q, calls[1..], batchSize);
    } else if RecoversAgain(cfg, x, y, a, r, batchSize) {
      IdleRun(cfg, s, x, c, y, a, n, calls[1..], batchSize);
    } else {
      SettledRun(cfg, s, x, c, y, a, r, q, calls[1..], batchSize);
    }
  }

  /** A run that is long enough ends with the rows of `x` up to the final resume point, and the new blocks on top. */
  lemma SmoothRun(
    cfg: Config, s: State, x: Chain, c: int, y: Chain, a: int, calls: seq<Call>, batchSize: nat, batches: nat)
    requires cfg.currentIndexedBlock.None? && StoredRows(cfg, s, x, c) && Fork(cfg, x, c, y, a)
    requires AllUndisturbed(calls, y, batchSize) && batchSize > 0
    requires |calls| >= Recoveries(cfg, x, y, a, c, batchSize) + batches
    requires var f := FinalResume(cfg, x, y, a, c, batchSize);
             f >= 0 && FreshRows(s.blocks, NewRows(cfg, y, f))
    requires batches * batchSize >= |y| - 1 - Regained(cfg, x, y, a, c, batchSize)
    ensures var f := FinalResume(cfg, x, y, a, c, batchSize); var q := FinalBlock(cfg, x, y, a, f, batchSize);
            f <= q < |y| && Run(cfg, s, calls) == OnTop(cfg, s, y, f, q)
  {
    hide GoodChain, Coherent, ForksAt, Execute, OnTop, Resume, Undisturbed, FreshRows, Run, Top;
    var f, n := FinalResume(cfg, x, y, a, c, batchSize), Recoveries(cfg, x, y, a, c, batchSize);
    RewindToTipIsIdle(cfg, s, x, c, y);
    MoreBatches(batches, |calls| - n, batchSize);
    if Reported(cfg, x, c, a) {
      RecoveringRun(cfg, s, x, c, y, a, c, c, calls, batchSize);
    } else {
      QuietResume(cfg, x, c, a);
      SettledRun(cfg, s, x, c, y, a, c, c, calls, batchSize);
    }
  }

  /** If the last recovery rewinds to before block 0, the run ends there. */
  lemma {:induction false} FatalRun(
    cfg: Config, s: State, x: Chain, c: int, y: Chain, a: int, n: int, p: int, calls: seq<Call>, batchSize: nat)
    requires cfg.currentIndexedBlock.None? && StoredRows(cfg, s, x, c) && Fork(cfg, x, c, y, a)
    requires -1 <= n <= c && n <= p < |y| && AllUndisturbed(calls, y, batchSize) && batchSize > 0
    requires Quiet(y, n + 1, p) && Reported(cfg, x, n, a)
    requires |calls| >= Recoveries(cfg, x, y, a, n, batchSize) && FinalResume(cfg, x, y, a, n, batchSize) == -1
    ensures Run(cfg, OnTop(cfg, s, y, n, p), calls) == Rewound(cfg, s, -1)
    decreases calls
  {
    hide GoodChain, Coherent, ForksAt, Execute, OnTop, Resume, Undisturbed, After, Quiet, Rewound, Top, Bottom;
    var r := Resume(cfg, x, n, a);
    assert Undisturbed(calls[0], y, batchSize);
    if r < n && RecoversAgain(cfg, x, y, a, r, batchSize) {
      ReportedIsStored(cfg, x, r, a);
      RecoveringCall(cfg, s, x, c, y, a, n, p, calls[0], batchSize);
      FatalRun(cfg, s, x, c, y, a, r, Target(r, batchSize, |y| - 1), calls[1..], batchSize);
    } else {
      FatalCall(cfg, s, x, c, y, a, n, p, calls[0], batchSize);
      NegativeRewindIsFinal(cfg, s, x, c, calls[1..]);
    }
  }

  lemma ReportedIsStored(cfg: Config, x: Chain, n: int, a: int)
    requires n < |x| && Reported(cfg, x, n, a)
    ensures n >= 0
  {
  }

  lemma FatalCall(
    cfg: Config, s: State, x: Chain, c: int, y: Chain, a: int, n: int, p: int, call: Call, batchSize: nat)
    requires cfg.currentIndexedBlock.None? && StoredRows(cfg, s, x, c) && Fork(cfg, x, c, y, a)
    requires -1 <= n <= c && n <= p < |y| && Undisturbed(call, y, batchSize) && batchSize > 0
    requires Quiet(y, n + 1, p) && Reported(cfg, x, n, a) && Resume(cfg, x, n, a) == -1
    ensures After(cfg, OnTop(cfg, s, y, n, p), call) == Rewound(cfg, s, -1)
  {
    hide GoodChain, Coherent, Check, Top, Bottom, NextBatch, Report, Indexed, Resume, Reported, ToLower, OnTop, ForksAt,
      RowsOf, Answers, Serves, Rewound;
    GoodChainParts(cfg, y);
    hide ValidChain, LogsMatchBlocks, LowerHashes;
    var u := OnTop(cfg, s, y, n, p);
    RowsAreOnChainHeights(cfg, s, x, c, y, n, p);
    CheckSucceeds(u.blocks, cfg, call.rpc, call.faults, y);
    QuietOnTop(cfg, s, x, c, y, n, p);
    CheckAnswers(cfg, u.blocks, x, c, y, a, n, call.rpc, call.faults);
    NegativeStops(cfg, batchSize, -1, call.rpc, call.faults);
    assert Recovered(u, cfg.chainId, cfg.indexer, -1) == Rewound(cfg, s, -1) by {
      RewoundIsRecovered(cfg, u, -1);
    }
  }

  lemma RewoundIsRecovered(cfg: Config, s: State, r: int)
    ensures Rewound(cfg, s, r) == Recovered(s, cfg.chainId, cfg.indexer, r)
  {
  }

  lemma MoreBatches(n: nat, m: nat, batchSize: nat)
    requires n <= m
    ensures n * batchSize <= m * batchSize
  {
    assert (m - n) * batchSize >= 0;
  }

  /**
   * With fresh rows and keys above it, a long enough run in which nothing fails shows what a from-scratch
   * run shows exactly when its final resume point, which depends on the batch size, is seamless.
   */
  lemma SmoothRunConverges(
    cfg: Config, s: State, x: Chain, c: int, y: Chain, a: int, calls: seq<Call>, batchSize: nat, batches: nat)
    requires cfg.currentIndexedBlock.None? && Tracks(cfg, s, x, c) && Fork(cfg, x, c, y, a) && cfg.startBlock < |y|
    requires AllUndisturbed(calls, y, batchSize) && batchSize > 0
    requires |calls| >= Recoveries(cfg, x, y, a, c, batchSize) + batches
    requires var f := FinalResume(cfg, x, y, a, c, batchSize);
             f >= 0 && FreshAbove(cfg, s, y, f)
    requires batches * batchSize >= |y| - 1 - Regained(cfg, x, y, a, c, batchSize)
    ensures var end := Run(cfg, s, calls);
            SameBlocks(cfg, end, Reference(cfg, y)) && SameView(cfg, end, Reference(cfg, y))
            <==> Seamless(cfg, x, y, a, FinalResume(cfg, x, y, a, c, batchSize))
  {
    hide GoodChain, Coherent, ForksAt, OnTop, Resume, AllUndisturbed, FreshRows, FreshKeys, Run, Seamless, SameBlocks,
      SameView, NewRows, NewRecords, Referring, View, FactsUpTo, Reference, FinalResume, Recoveries, Reported;
    var f := FinalResume(cfg, x, y, a, c, batchSize);
    SmoothRun(cfg, s, x, c, y, a, calls, batchSize, batches);
    if RecoversAgain(cfg, x, y, a, f, batchSize) {
      OrphanKeepsBlocksApart(cfg, s, x, c, y, a, f, FinalBlock(cfg, x, y, a, f, batchSize));
    } else {
      FreshResume(cfg, s, x, c, y, a, f);
      if Seamless(cfg, x, y, a, f) {
        SeamlessResume(cfg, s, x, c, y, a, f);
      }
    }
  }

  lemma OrphanKeepsBlocksApart(cfg: Config, s: State, x: Chain, c: int, y: Chain, a: int, n: int, p: int)
    requires Tracks(cfg, s, x, c) && Fork(cfg, x, c, y, a) && -1 <= n <= c && n <= p < |y| && cfg.startBlock < |y|
    requires Reported(cfg, x, n, a)
    ensures !SameBlocks(cfg, OnTop(cfg, s, y, n, p), Reference(cfg, y)) && !Seamless(cfg, x, y, a, n)
  {
    hide View, Referring, GoodChain, Coherent, ToLower, OnTop, Reference, FactsUpTo;
    GoodChainParts(cfg, y);
    hide ValidChain, LogsMatchBlocks, LowerHashes;
    var t := Top(x, cfg.startBlock, n);
    OnTopParts(cfg, s, x, c, y, n, p);
    ReferenceView(cfg, y);
    RowsTellChains(cfg, x, c, y, a, t, cfg.startBlock, |y| - 1);
    assert RowAt(cfg.chainId, x, t) in CanonicalKeys(Rewound(cfg, s, n).blocks, cfg.chainId);
    assert RowAt(cfg.chainId, x, t) in CanonicalKeys(OnTop(cfg, s, y, n, p).blocks, cfg.chainId);
  }
}
