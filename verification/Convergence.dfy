/**
 * Reorg convergence: after the chain switches, running `execute` until it has caught up shows readers
 * what indexing the new chain from an empty database shows them - and exactly when it does not.
 */
module Convergence {
  import opened Prelude
  import opened Records
  import opened Tables
  import opened Environment
  import opened Repository
  import opened Reorg
  import opened Pipeline
  import opened Chains
  import opened Replay
  import opened Recovery
  import opened Integrity
  import opened Views
  import opened Tracking
  import opened Forks

  // --- Runs that meet no orphan ------------------------------------------------------------------------------------

  lemma RewindToTipIsIdle(cfg: Config, s: State, x: Chain, c: int, y: Chain)
    requires StoredRows(cfg, s, x, c) && c < |y|
    ensures Rewound(cfg, s, c) == s && OnTop(cfg, s, y, c, c) == s
  {
    hide ToLower, Indexed;
    assert forall k :: k in s.blocks && k.chainId == cfg.chainId && k.number >= c + 1 ==>
        k !in CanonicalKeys(s.blocks, cfg.chainId);
    assert Demote(s.blocks, cfg.chainId, c + 1) == s.blocks;
  }

  /** No row of chain `x` between the fork and block `r` is left behind. */
  predicate NoOrphans(cfg: Config, x: Chain, a: int, r: int) {
    Quiet(x, Shared(cfg, a) + 1, r)
  }

  lemma ResumedOnChain(cfg: Config, s: State, x: Chain, c: int, y: Chain, a: int, r: int)
    requires cfg.currentIndexedBlock.None? && StoredRows(cfg, s, x, c) && Fork(cfg, x, c, y, a) && 0 <= r <= c
    requires NoOrphans(cfg, x, a, r)
    ensures ValidChain(y) && OnChain(cfg, Rewound(cfg, s, r), y) && Position(cfg, Rewound(cfg, s, r)) == r
  {
    hide ToLower, Coherent, Linked, Rewound;
    RewoundRows(cfg, s, x, c, r);
    var s1 := Rewound(cfg, s, r);
    forall k | k in CanonicalKeys(s1.blocks, cfg.chainId)
      ensures RowOn(k, y)
    {
      var h :| cfg.startBlock <= h <= r && Logged(x, h) && k == RowAt(cfg.chainId, x, h);
      assert h <= a && Agree(x, y, h);
      ToLowerIdempotent(x[h].hash);
    }
  }

  /**
   * A call that meets the new chain while rows of the old one are stored: it fails and changes
   * nothing, or it commits the recovery, if one is due, and then fails or indexes the next batch on top.
   */
  lemma PendingCall(cfg: Config, s: State, x: Chain, c: int, y: Chain, a: int, call: Call) returns (p: int)
    requires cfg.currentIndexedBlock.None? && StoredRows(cfg, s, x, c) && Fork(cfg, x, c, y, a) && Serves(call.rpc, y)
    ensures var s', r := After(cfg, s, call), Resume(cfg, x, c, a);
            || (s' == s && !Succeeds(cfg, s, call))
            || (r <= p < |y| && s' == OnTop(cfg, s, y, r, p)
                && (!Succeeds(cfg, s, call) ==> p == r)
                && (Succeeds(cfg, s, call) ==>
                      call.rpc.head.Some? && call.batchSize > 0 && r >= 0
                      && p == Target(r, call.batchSize, call.rpc.head.value)))
  {
    hide Execute, OnTop, Check, GoodChain, Coherent, RowsOf, Target, Top, Bottom;
    RewindToTipIsIdle(cfg, s, x, c, y);
    if Reported(cfg, x, c, a) {
      assert OnTop(cfg, s, y, c, c) == s;
      p := ReportedCall(cfg, s, x, c, y, a, c, c, call);
    } else {
      NothingAbove(cfg, y, c);
      var n;
      n, p := CallOnTop(cfg, s, x, c, y, a, c, c, call);
    }
  }

  lemma NothingAbove(cfg: Config, y: Chain, c: int)
    requires -1 <= c < |y|
    ensures RowsOf(cfg.chainId, y, c + 1, c) == {}
  {
  }

  /**
   * A run on the new chain leaves the old state as long as no recovery has committed, and from then
   * on the state that indexing the covered blocks on top of the rewound one leaves in one piece.
   */
  lemma {:induction false} RunAcrossFork(
    cfg: Config, s: State, x: Chain, c: int, y: Chain, a: int, calls: seq<Call>, head: int)
    requires cfg.currentIndexedBlock.None? && StoredRows(cfg, s, x, c) && Fork(cfg, x, c, y, a) && AllServe(calls, y)
    requires Resume(cfg, x, c, a) >= 0 && NoOrphans(cfg, x, a, Resume(cfg, x, c, a))
    ensures var r := Resume(cfg, x, c, a); var s1, end := Rewound(cfg, s, r), Run(cfg, s, calls);
            || (r < c && end == s && Covered(cfg, s, calls, head) == 0)
            || (&& OnChain(cfg, end, y) && Advances(cfg, s1, y, Position(cfg, end), end)
                && Position(cfg, end) >= Min(r + Covered(cfg, s, calls, head), head))
    decreases calls
  {
    hide GoodChain, Coherent, Execute, AdvanceTo, RowsOf, Serves, Top, Bottom, Succeeds, Check, Indexed;
    var r := Resume(cfg, x, c, a);
    var s1 := Rewound(cfg, s, r);
    ResumedOnChain(cfg, s, x, c, y, a, r);
    if r == c {
      RewindToTipIsIdle(cfg, s, x, c, y);
      RunOnChain(cfg, s, calls, y, head);
    } else if calls != [] {
      var call, rest := calls[0], calls[1..];
      var p := PendingCall(cfg, s, x, c, y, a, call);
      var s' := After(cfg, s, call);
      if s' == s && !Succeeds(cfg, s, call) {
        RunAcrossFork(cfg, s, x, c, y, a, rest, head);
      } else {
        OnTopIsOnChain(cfg, s1, y, r, p);
        RunOnChain(cfg, s', rest, y, head);
        AdvancesComposes(cfg, s1, y, p, s', Position(cfg, Run(cfg, s', rest)), Run(cfg, s', rest));
      }
    }
  }

  lemma OnTopIsOnChain(cfg: Config, s1: State, y: Chain, r: int, p: int)
    requires ValidChain(y) && OnChain(cfg, s1, y) && Position(cfg, s1) == r && 0 <= r <= p < |y|
    ensures OnChain(cfg, AdvanceTo(cfg, s1, y, r + 1, p), y)
    ensures Advances(cfg, s1, y, p, AdvanceTo(cfg, s1, y, r + 1, p))
  {
    hide Agrees, LogsIn, WithBlocks, Headers, RecordsOf, InsertAll;
    if r < p {
      AdvanceKeepsOnChain(cfg, s1, y, r + 1, p);
    }
  }

  /** Once enough calls have succeeded the state is determined, whatever failed on the way. */
  lemma CaughtUpState(cfg: Config, s: State, x: Chain, c: int, y: Chain, a: int, calls: seq<Call>)
    requires cfg.currentIndexedBlock.None? && StoredRows(cfg, s, x, c) && Fork(cfg, x, c, y, a) && AllServe(calls, y)
    requires Resume(cfg, x, c, a) >= 0 && NoOrphans(cfg, x, a, Resume(cfg, x, c, a))
    requires Covered(cfg, s, calls, |y| - 1) >= |y| - 1 - Resume(cfg, x, c, a)
    ensures Run(cfg, s, calls) == OnTop(cfg, s, y, Resume(cfg, x, c, a), |y| - 1)
  {
    hide GoodChain, Coherent, Execute, RowsOf, Covered, Run, Indexed, LogsIn, Top, Bottom;
    var r := Resume(cfg, x, c, a);
    RunAcrossFork(cfg, s, x, c, y, a, calls, |y| - 1);
    ResumedOnChain(cfg, s, x, c, y, a, r);
    NothingToAdvance(cfg, Rewound(cfg, s, r), y, r);
  }

  // --- The final states ----------------------------------------------------------------------------------------------

  /** The rows and records of the blocks above `r`. */
  function NewRows(cfg: Config, y: Chain, r: int): set<BlockKey>
    requires -1 <= r
  {
    RowsOf(cfg.chainId, y, r + 1, |y| - 1)
  }

  function NewRecords(cfg: Config, y: Chain, r: int): seq<Record>
    requires -1 <= r
  {
    ChainRecords(cfg, y, r + 1, |y| - 1)
  }

  /**
   * Resuming after block `r` instead of after the last shared block makes no difference: neither
   * chain has a log in the blocks between, and none below the start is indexed.
   */
  predicate Seamless(cfg: Config, x: Chain, y: Chain, a: int, r: int) {
    && NoOrphans(cfg, x, a, r)
    && Quiet(y, Shared(cfg, a) + 1, r)
    && FromStart(cfg, y, r)
  }

  ghost predicate SameBlocks(cfg: Config, end: State, reference: State) {
    CanonicalKeys(end.blocks, cfg.chainId) == CanonicalKeys(reference.blocks, cfg.chainId)
  }

  predicate SameView(cfg: Config, end: State, reference: State) {
    View(end, cfg.chainId) == View(reference, cfg.chainId)
  }

  /**
   * With a seamless resume, blocks agree exactly when the rows were fresh, and then facts exactly when the
   * keys were.
   */
  lemma SeamlessResume(cfg: Config, s: State, x: Chain, c: int, y: Chain, a: int, r: int)
    requires Tracks(cfg, s, x, c) && Fork(cfg, x, c, y, a) && -1 <= r <= c && cfg.startBlock < |y|
    requires Seamless(cfg, x, y, a, r)
    ensures var end, reference := OnTop(cfg, s, y, r, |y| - 1), Reference(cfg, y);
            && (SameBlocks(cfg, end, reference) <==> FreshRows(s.blocks, NewRows(cfg, y, r)))
            && (SameBlocks(cfg, end, reference) ==>
                  (SameView(cfg, end, reference) <==> FreshKeys(s.facts, NewRecords(cfg, y, r))))
  {
    hide RowsOf, View, CanonicalKeys, FactsUpTo, ChainRecords, Referring, FreshRows, FreshKeys, GoodChain, FromStart,
      Reference, Coherent, AdvanceTo;
    GoodChainParts(cfg, y);
    ResumedTracks(cfg, s, x, c, y, a, r);
    ReferenceView(cfg, y);
    RewoundKeeps(cfg, s, r, NewRows(cfg, y, r));
    AdvancedRows(cfg, Rewound(cfg, s, r), y, r, |y| - 1);
    if FreshRows(s.blocks, NewRows(cfg, y, r)) {
      AdvancedView(cfg, Rewound(cfg, s, r), y, r, |y| - 1);
    }
  }

  lemma RewoundKeeps(cfg: Config, s: State, a: int, rows: set<BlockKey>)
    ensures Rewound(cfg, s, a).facts == s.facts
    ensures FreshRows(Rewound(cfg, s, a).blocks, rows) <==> FreshRows(s.blocks, rows)
  {
  }

  lemma RowsTellChains(cfg: Config, x: Chain, c: int, y: Chain, a: int, h: int, lo: int, hi: int)
    requires Fork(cfg, x, c, y, a) && a < h <= c && h >= 0
    ensures 0 <= lo && hi < |y| ==> RowAt(cfg.chainId, x, h) !in RowsOf(cfg.chainId, y, lo, hi)
    ensures 0 <= lo && hi < |x| ==> RowAt(cfg.chainId, y, h) !in RowsOf(cfg.chainId, x, lo, hi)
  {
    hide ToLower, GoodChain, Coherent;
    assert !Agree(x, y, h);
  }

  /** With fresh rows, blocks agree exactly when the resume is seamless. */
  lemma FreshResume(cfg: Config, s: State, x: Chain, c: int, y: Chain, a: int, r: int)
    requires Tracks(cfg, s, x, c) && Fork(cfg, x, c, y, a) && -1 <= r <= c && cfg.startBlock < |y|
    requires FreshRows(s.blocks, NewRows(cfg, y, r))
    ensures SameBlocks(cfg, OnTop(cfg, s, y, r, |y| - 1), Reference(cfg, y)) <==> Seamless(cfg, x, y, a, r)
  {
    hide View, CanonicalKeys, Referring, GoodChain, ToLower, Reference, AdvanceTo, Coherent, Tracks, Fork;
    var start: int := cfg.startBlock;
    if Seamless(cfg, x, y, a, r) {
      SeamlessResume(cfg, s, x, c, y, a, r);
    } else {
      var e := Shared(cfg, a);
      ResumedRows(cfg, s, x, c, y, a, r);
      var end := CanonicalKeys(OnTop(cfg, s, y, r, |y| - 1).blocks, cfg.chainId);
      var reference := CanonicalKeys(Reference(cfg, y).blocks, cfg.chainId);
      if h :| e + 1 <= h <= r && Logged(x, h) {
        RowsTellChains(cfg, x, c, y, a, h, start, |y| - 1);
        assert RowAt(cfg.chainId, x, h) in end && RowAt(cfg.chainId, x, h) !in reference;
      } else if h :| e + 1 <= h <= r && Logged(y, h) {
        RowsTellChains(cfg, x, c, y, a, h, start, r);
        assert RowAt(cfg.chainId, y, h) in reference && RowAt(cfg.chainId, y, h) !in end;
      } else {
        var h :| r + 1 <= h <= start - 1 && Logged(y, h);
        assert RowAt(cfg.chainId, y, h) in end && RowAt(cfg.chainId, y, h) !in reference;
      }
    }
  }

  lemma ResumedRows(cfg: Config, s: State, x: Chain, c: int, y: Chain, a: int, r: int)
    requires Tracks(cfg, s, x, c) && Fork(cfg, x, c, y, a) && -1 <= r <= c && cfg.startBlock < |y|
    requires FreshRows(s.blocks, NewRows(cfg, y, r))
    ensures CanonicalKeys(OnTop(cfg, s, y, r, |y| - 1).blocks, cfg.chainId)
            == RowsOf(cfg.chainId, x, cfg.startBlock, r) + NewRows(cfg, y, r)
    ensures CanonicalKeys(Reference(cfg, y).blocks, cfg.chainId) == RowsOf(cfg.chainId, y, cfg.startBlock, |y| - 1)
    ensures -1 <= c < |x| && c < |y|
  {
    hide View, Referring, ToLower, Coherent, Linked, AdvanceTo, KeysFixBlock, LowerHashes, CanonicalKeys;
    OnTopParts(cfg, s, x, c, y, r, |y| - 1);
    ReferenceView(cfg, y);
    AddedCanonicalRows(Rewound(cfg, s, r).blocks, cfg.chainId, NewRows(cfg, y, r));
    RewoundKeeps(cfg, s, r, NewRows(cfg, y, r));
  }

  // --- Convergence -------------------------------------------------------------------------------------------

  /**
   * Reorg convergence. The state tracks chain `x` up to block `c`; the RPC switches to chain `y`, which
   * last agrees with `x` at `a`. The next call resumes after block `r`, without leaving an orphan below.
   * Take any run on `y`, with any failures and batch sizes, whose successful calls cover the blocks above
   * `r`, and any covering run that starts from an empty database. Then both end at the head of `y`, and:
   *  - if the resume is seamless, their canonical blocks are the same exactly when no new block had been
   *    stored before, and then readers see the same facts exactly when no new record's key had been;
   *  - if no new block had been stored before, their canonical blocks are the same exactly when the resume
   *    is seamless, that is when `y` has no log in a block that is skipped or lies below the start.
   */
  lemma Convergence(
    cfg: Config, s: State, x: Chain, c: int, y: Chain, a: int, calls: seq<Call>, replay: seq<Call>)
    requires cfg.currentIndexedBlock.None? && Tracks(cfg, s, x, c) && Fork(cfg, x, c, y, a) && cfg.startBlock < |y|
    requires Resume(cfg, x, c, a) >= 0 && NoOrphans(cfg, x, a, Resume(cfg, x, c, a))
    requires AllServe(calls, y) && Covered(cfg, s, calls, |y| - 1) >= |y| - 1 - Resume(cfg, x, c, a)
    requires AllServe(replay, y) && Covered(cfg, EMPTY, replay, |y| - 1) >= |y| - cfg.startBlock
    ensures var r := Resume(cfg, x, c, a);
            var end, reference := Run(cfg, s, calls), Run(cfg, EMPTY, replay);
            && CheckpointOf(end, cfg.indexer, cfg.chainId) == Some(|y| - 1)
            && CheckpointOf(reference, cfg.indexer, cfg.chainId) == Some(|y| - 1)
            && (Seamless(cfg, x, y, a, r) ==>
                  && (SameBlocks(cfg, end, reference) <==> FreshRows(s.blocks, NewRows(cfg, y, r)))
                  && (SameBlocks(cfg, end, reference) ==>
                        (SameView(cfg, end, reference) <==> FreshKeys(s.facts, NewRecords(cfg, y, r)))))
            && (FreshRows(s.blocks, NewRows(cfg, y, r)) ==>
                  (SameBlocks(cfg, end, reference) <==> Seamless(cfg, x, y, a, r)))
  {
    hide FreshRows, FreshKeys, NewRows, NewRecords, Run, Covered, OnTop, RowsOf, FactsUpTo, AllServe, SameBlocks,
      SameView, KeysFixBlock, LowerHashes, Coherent, Linked, LogsMatchBlocks, Referring, Resume, Seamless,
      NoOrphans, View, ForksAt;
    var r := Resume(cfg, x, c, a);
    CaughtUpState(cfg, s, x, c, y, a, calls);
    ReplayInvariant(cfg, y, replay);
    OnTopParts(cfg, s, x, c, y, r, |y| - 1);
    ReferenceView(cfg, y);
    if Seamless(cfg, x, y, a, r) {
      SeamlessResume(cfg, s, x, c, y, a, r);
    }
    if FreshRows(s.blocks, NewRows(cfg, y, r)) {
      FreshResume(cfg, s, x, c, y, a, r);
    }
  }

  // --- Runs that recover several times ---------------------------------------------------------------------------

  /** No recovery resumes after a lower block, save for one without a log. */
  function Lowest(cfg: Config, c: int, a: int): (r: int)
    requires -1 <= a && -1 <= c
    ensures -1 <= r
  {
    if a >= cfg.startBlock then a else Min(c, Max(-1, cfg.startBlock - 2))
  }

  predicate AboveLowest(cfg: Config, y: Chain, c: int, a: int, n: int)
    requires -1 <= a && -1 <= c
  {
    n >= Lowest(cfg, c, a) || Quiet(y, n + 1, Lowest(cfg, c, a))
  }

  lemma ResumeIsAboveLowest(cfg: Config, x: Chain, c: int, y: Chain, a: int, n: int)
    requires Fork(cfg, x, c, y, a) && -1 <= n <= c && AboveLowest(cfg, y, c, a, n)
    ensures AboveLowest(cfg, y, c, a, Resume(cfg, x, n, a))
  {
    hide ToLower, LogsMatchBlocks, Linked, KeysFixBlock, LowerHashes;
    var r := Resume(cfg, x, n, a);
    if r < Lowest(cfg, c, a) && r != n {
      assert r == a - 1 && !Logged(x, a);
      assert Agree(x, y, a) && Commits(x, a, y, a);
    }
  }

  lemma {:induction false} ResumesAreAboveLowest(cfg: Config, x: Chain, c: int, y: Chain, a: int, n: int, k: nat)
    requires Fork(cfg, x, c, y, a) && -1 <= n <= c && AboveLowest(cfg, y, c, a, n)
    ensures AboveLowest(cfg, y, c, a, ResumeAfter(cfg, x, n, a, k))
    decreases k
  {
    hide GoodChain, Coherent, ForksAt, AboveLowest, Resume;
    if k > 0 {
      ResumeIsAboveLowest(cfg, x, c, y, a, n);
      ResumesAreAboveLowest(cfg, x, c, y, a, Resume(cfg, x, n, a), k - 1);
    }
  }

  /** The rows and keys of all blocks that a recovery may lead to are free. */
  ghost predicate FreshAbove(cfg: Config, s: State, y: Chain, r: int)
    requires -1 <= r
  {
    FreshRows(s.blocks, NewRows(cfg, y, r)) && FreshKeys(s.facts, NewRecords(cfg, y, r))
  }

  lemma FreshEverywhere(cfg: Config, s: State, y: Chain, low: int, n: int)
    requires -1 <= low < |y| && -1 <= n < |y| && FreshAbove(cfg, s, y, low) && (n >= low || Quiet(y, n + 1, low))
    ensures FreshAbove(cfg, s, y, n)
  {
    hide RecordsOf, LogsIn, ToLower;
    if n >= low {
      ChainRecordsSplit(cfg, y, low + 1, n, |y| - 1);
    } else {
      ChainRecordsSplit(cfg, y, n + 1, low, |y| - 1);
      QuietLogs(cfg.chainId, y, n + 1, n, low);
      NoRecordsBackwards(cfg, y, n + 1, n);
      assert NewRows(cfg, y, n) == NewRows(cfg, y, low);
    }
  }

  /**
   * The same for histories of any shape and runs that may have to recover several times. With fresh rows
   * and keys, every run that has caught up has resumed after one of the points `ResumeAfter` gives, and
   * shows what a from-scratch database shows exactly when that resume was seamless. Which point it is
   * depends on the failures and on the batch sizes; `SmoothRuns` computes it when nothing fails.
   */
  lemma EveryCaughtUpRun(cfg: Config, s: State, x: Chain, c: int, y: Chain, a: int, calls: seq<Call>) returns (k: nat)
    requires cfg.currentIndexedBlock.None? && Tracks(cfg, s, x, c) && Fork(cfg, x, c, y, a) && cfg.startBlock < |y|
    requires FreshAbove(cfg, s, y, Lowest(cfg, c, a)) && AllServe(calls, y)
    requires CheckpointOf(Run(cfg, s, calls), cfg.indexer, cfg.chainId) == Some(|y| - 1)
    ensures var r := ResumeAfter(cfg, x, c, a, k); var end := Run(cfg, s, calls);
            && end == OnTop(cfg, s, y, r, |y| - 1)
            && (SameBlocks(cfg, end, Reference(cfg, y)) && SameView(cfg, end, Reference(cfg, y))
                <==> Seamless(cfg, x, y, a, r))
  {
    hide NewRecords, Run, OnTop, RowsOf, AllServe, SameBlocks, SameView, GoodChain, Coherent, View, Referring, Resume,
      Seamless, FreshRows, FreshKeys;
    GoodChainParts(cfg, y);
    RewindToTipIsIdle(cfg, s, x, c, y);
    forall i: nat
      ensures FreshAbove(cfg, s, y, ResumeAfter(cfg, x, c, a, i))
    {
      ResumesAreAboveLowest(cfg, x, c, y, a, c, i);
      FreshEverywhere(cfg, s, y, Lowest(cfg, c, a), ResumeAfter(cfg, x, c, a, i));
    }
    var q;
    k, q := RunOnTop(cfg, s, x, c, y, a, c, c, calls);
    var r := ResumeAfter(cfg, x, c, a, k);
    OnTopParts(cfg, s, x, c, y, r, q);
    assert FreshAbove(cfg, s, y, r);
    FreshResume(cfg, s, x, c, y, a, r);
    if Seamless(cfg, x, y, a, r) {
      SeamlessResume(cfg, s, x, c, y, a, r);
    }
  }
}
