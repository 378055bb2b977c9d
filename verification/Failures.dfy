/** Small chains on which a reorganization goes wrong, and the runs that show it. */
module Failures {
  import opened Prelude
  import opened Records
  import opened Tables
  import opened Environment
  import opened Repository
  import opened Chains
  import opened Replay
  import opened Recovery
  import opened Views
  import opened Tracking
  import opened Forks
  import opened Convergence
  import opened Reorganizations
  import opened Limits
  import opened SmoothRuns
  import opened Example

  // --- The batch size decides ------------------------------------------------------------------------------------

  lemma GappedIsFresh()
    ensures FreshAbove(CONFIG, Reference(CONFIG, GAPPED), REPLACED, 0)
    ensures FreshAbove(CONFIG, Reference(CONFIG, GAPPED), REPLACED, 1)
  {
    hide ToLower, Fork, Tracks, Reference, FreshAbove;
    GappedFork();
    SmallIsFresh(GAPPED, ["a", "b", "w", "c"], REPLACED, ["a", "d", "z", "e"], 0);
    FreshEverywhere(CONFIG, Reference(CONFIG, GAPPED), REPLACED, 0, 1);
  }

  lemma GappedRun(calls: seq<Call>, batchSize: nat, batches: nat)
    requires forall call :: call in calls ==> call == Smooth(REPLACED, batchSize)
    requires batchSize in {1, 3} && |calls| >= Recoveries(CONFIG, GAPPED, REPLACED, 0, 3, batchSize) + batches
    requires batches * batchSize >= 3 - Regained(CONFIG, GAPPED, REPLACED, 0, 3, batchSize)
    ensures var f := FinalResume(CONFIG, GAPPED, REPLACED, 0, 3, batchSize);
            var s, end := Reference(CONFIG, GAPPED), Run(CONFIG, Reference(CONFIG, GAPPED), calls);
            && f >= 0 && end == OnTop(CONFIG, s, REPLACED, f, 3)
            && (SameBlocks(CONFIG, end, Reference(CONFIG, REPLACED)) <==> Seamless(CONFIG, GAPPED, REPLACED, 0, f))
            && (SameBlocks(CONFIG, end, Reference(CONFIG, REPLACED)) ==>
                  SameView(CONFIG, end, Reference(CONFIG, REPLACED)))
  {
    hide ToLower, Small, Fork, Reference, OnTop, Run, SameBlocks, SameView, View, Seamless, Resume, Reported,
      Undisturbed, FinalResume, Recoveries, Regained, RecoversAgain, FreshRows, FreshKeys, StoredRows, FactsUpTo,
      NewRows, NewRecords;
    GappedFork();
    BatchSizesResume();
    GappedIsFresh();
    SmoothIsUndisturbed(REPLACED, batchSize);
    var s, f := Reference(CONFIG, GAPPED), FinalResume(CONFIG, GAPPED, REPLACED, 0, 3, batchSize);
    SmoothRun(CONFIG, s, GAPPED, 3, REPLACED, 0, calls, batchSize, batches);
    FreshResume(CONFIG, s, GAPPED, 3, REPLACED, 0, f);
    if Seamless(CONFIG, GAPPED, REPLACED, 0, f) {
      SeamlessResume(CONFIG, s, GAPPED, 3, REPLACED, 0, f);
    }
  }

  /**
   * Nothing fails, and yet the batch size decides: with batches of three blocks the orphan of block 1 is
   * covered before it is noticed again; with batches of one block the empty block 2 lets the next call
   * recover once more.
   */
  lemma BatchSizeDecides()
    ensures var s, three, one := Reference(CONFIG, GAPPED), Smooth(REPLACED, 3), Smooth(REPLACED, 1);
            var small, large := Run(CONFIG, s, [one, one, one, one]), Run(CONFIG, s, [three]);
            && large == OnTop(CONFIG, s, REPLACED, 1, 3) && small == OnTop(CONFIG, s, REPLACED, 0, 3)
            && !SameBlocks(CONFIG, large, Reference(CONFIG, REPLACED))
            && SameBlocks(CONFIG, small, Reference(CONFIG, REPLACED))
            && SameView(CONFIG, small, Reference(CONFIG, REPLACED))
  {
    BatchSizesResume();
    GappedResumes();
    GappedRegains();
    hide ToLower, Reference, OnTop, Run, SameBlocks, SameView, View, Seamless, Resume, Reported, FinalResume,
      Recoveries, Regained, Smooth;
    GappedRun([Smooth(REPLACED, 3)], 3, 0);
    var one := Smooth(REPLACED, 1);
    GappedRun([one, one, one, one], 1, 2);
  }

  lemma GappedRegains()
    ensures Regained(CONFIG, GAPPED, REPLACED, 0, 3, 3) == 3 && Regained(CONFIG, GAPPED, REPLACED, 0, 3, 1) == 1
  {
    hide Resume, Reported, Fork, Tracks, Small, Reference, FinalResume;
    GappedFork();
    BatchSizesResume();
  }

  /** The final resume point is 1 for batches of three blocks and 0 for batches of one. */
  lemma BatchSizesResume()
    ensures FinalResume(CONFIG, GAPPED, REPLACED, 0, 3, 3) == 1 && Recoveries(CONFIG, GAPPED, REPLACED, 0, 3, 3) == 1
    ensures FinalResume(CONFIG, GAPPED, REPLACED, 0, 3, 1) == 0 && Recoveries(CONFIG, GAPPED, REPLACED, 0, 3, 1) == 2
    ensures !RecoversAgain(CONFIG, GAPPED, REPLACED, 0, 1, 3) && !RecoversAgain(CONFIG, GAPPED, REPLACED, 0, 0, 1)
  {
    hide Resume, Reported, Fork, Tracks, Small, Reference;
    GappedFork();
    GappedResumes();
    assert FinalResume(CONFIG, GAPPED, REPLACED, 0, 1, 1) == 0 && Recoveries(CONFIG, GAPPED, REPLACED, 0, 1, 1) == 1;
  }

  // --- The depth limit ---------------------------------------------------------------------------------------------

  const SHALLOW: Config := CONFIG.(maxRollbackDepth := 1)

  const DEEP: Chain := [Full(0, "g", "", "a"), Full(1, "h", "g", "b"), Full(2, "i", "h", "c")]

  const DEEPER: Chain := [Full(0, "g", "", "a"), Full(1, "x", "g", "d"), Full(2, "y", "x", "e")]

  /** A fork two blocks deep with a depth limit of one: the orphan of block 1 stays for good. */
  lemma DepthExample()
    ensures var s := Reference(SHALLOW, DEEP);
            && Tracks(SHALLOW, s, DEEP, 2) && Fork(SHALLOW, DEEP, 2, DEEPER, 0)
            && OrphanForGood(SHALLOW, After(SHALLOW, s, Smooth(DEEPER, 1)), DEEP, DEEPER, 1)
  {
    hide ToLower, Reference, Fork, Tracks, StoredRows, OrphanForGood, After, FreshRows, NewRows, Undisturbed, Resume,
      Reported, Floor, FirstInBlock, Small;
    DeepStart();
    DeepResumes();
    SmoothIsUndisturbed(DEEPER, 1);
    DepthExitLeavesOrphan(SHALLOW, Reference(SHALLOW, DEEP), DEEP, 2, DEEPER, 0, Smooth(DEEPER, 1), 1);
  }

  lemma DeepStart()
    ensures var s := Reference(SHALLOW, DEEP);
            && Fork(SHALLOW, DEEP, 2, DEEPER, 0) && Tracks(SHALLOW, s, DEEP, 2) && StoredRows(SHALLOW, s, DEEP, 2)
            && FreshRows(s.blocks, NewRows(SHALLOW, DEEPER, 1))
  {
    hide ToLower, Reference, Fork, Tracks, StoredRows, FreshRows, NewRows;
    SmallStart(SHALLOW, DEEP, ["a", "b", "c"], DEEPER, ["a", "d", "e"], 0);
    SmallRowsAreFresh(SHALLOW, DEEP, ["a", "b", "c"], DEEPER, ["a", "d", "e"], 1);
  }

  lemma DeepResumes()
    ensures Reported(SHALLOW, DEEP, 2, 0) && Floor(SHALLOW, DEEP, 2) == 1 >= FirstInBlock(SHALLOW, DEEP, 2)
    ensures !Quiet(DEEPER, 2, Target(1, 1, 2))
  {
    assert Logged(DEEP, 0) && Logged(DEEP, 1) && Logged(DEEP, 2) && Logged(DEEPER, 2);
    assert Top(DEEP, 0, 2) == 2;
  }

  lemma TracksStoresRows(cfg: Config, s: State, x: Chain, c: int)
    requires Tracks(cfg, s, x, c)
    ensures StoredRows(cfg, s, x, c)
  {
  }

  // --- A switch within a call --------------------------------------------------------------------------------------

  const LONGER: Chain := [Full(0, "g", "", "a"), Full(1, "y", "g", "c"), Full(2, "z", "y", "d")]

  /** The check is answered by the old chain, head and logs by the new one. */
  const SWITCHING: Call := Call(1, Rpc(Some(2), Answering(BEFORE).block, Answering(LONGER).logs), NO_FAULTS)

  /** The orphan of block 1 stays for good. */
  lemma SwitchExample()
    ensures var s := Reference(CONFIG, BEFORE);
            && Tracks(CONFIG, s, BEFORE, 1) && Fork(CONFIG, BEFORE, 1, LONGER, 0)
            && Switches(SWITCHING.rpc, BEFORE, LONGER)
            && OrphanForGood(CONFIG, After(CONFIG, s, SWITCHING), BEFORE, LONGER, 1)
  {
    hide ToLower, Reference, Fork, Tracks, StoredRows, OrphanForGood, After, FreshRows, NewRows, Succeeds, LogsIn,
      Small;
    LongerStart();
    assert Logged(BEFORE, 1) && Logged(LONGER, 2);
    SwitchingCallSucceeds(CONFIG, Reference(CONFIG, BEFORE), BEFORE, 1, LONGER, 0, SWITCHING);
    SwitchDuringCallHidesFork(CONFIG, Reference(CONFIG, BEFORE), BEFORE, 1, LONGER, 0, SWITCHING, 1);
  }

  lemma LongerStart()
    ensures var s := Reference(CONFIG, BEFORE);
            && Fork(CONFIG, BEFORE, 1, LONGER, 0) && Tracks(CONFIG, s, BEFORE, 1) && StoredRows(CONFIG, s, BEFORE, 1)
            && FreshRows(s.blocks, NewRows(CONFIG, LONGER, 1))
  {
    hide ToLower, Reference, Fork, Tracks, StoredRows, FreshRows, NewRows;
    SmallStart(CONFIG, BEFORE, ["a", "b"], LONGER, ["a", "c", "d"], 0);
    SmallRowsAreFresh(CONFIG, BEFORE, ["a", "b"], LONGER, ["a", "c", "d"], 1);
  }

  // --- Resuming before block 0 -------------------------------------------------------------------------------------

  const FIRST: Chain := [Empty("g", ""), Full(1, "x", "g", "b")]

  const OTHER: Chain := [Empty("g", ""), Full(1, "y", "g", "c")]

  /** The first block with a log is replaced: the indexer is stuck for good, whatever is served afterwards. */
  lemma NegativeExample(calls: seq<Call>)
    ensures var s := Reference(CONFIG, FIRST);
            && Tracks(CONFIG, s, FIRST, 1) && Fork(CONFIG, FIRST, 1, OTHER, 0)
            && Run(CONFIG, s, [Smooth(OTHER, 1)] + calls) == Rewound(CONFIG, s, -1)
            && CheckpointOf(Rewound(CONFIG, s, -1), "indexer", 1) == Some(-1)
  {
    hide ToLower, Reference, Fork, Tracks, StoredRows, Run, Undisturbed;
    SmallStart(CONFIG, FIRST, ["a", "b"], OTHER, ["a", "c"], 0);
    assert !Logged(FIRST, 0) && Logged(FIRST, 1);
    assert Top(FIRST, 0, 1) == 1 && Bottom(FIRST, 0, 1) == 1;
    SmoothIsUndisturbed(OTHER, 1);
    ForkBelowFirstBlockIsFatal(
      CONFIG, Reference(CONFIG, FIRST), FIRST, 1, OTHER, 0, Smooth(OTHER, 1), 1, calls);
  }

  // --- Resuming below the start ------------------------------------------------------------------------------------

  const LATE: Config := CONFIG.(startBlock := 2)

  const TAIL: Chain := [Empty("g", ""), Empty("h", "g"), Full(2, "i", "h", "c")]

  const NEW_TAIL: Chain := [Empty("g", ""), Full(1, "x", "g", "d"), Full(2, "y", "x", "e")]

  /** The first indexed block is replaced: block 1, below the configured start, becomes canonical. */
  lemma BelowStartExample()
    ensures var s := Reference(LATE, TAIL);
            && Tracks(LATE, s, TAIL, 2) && Fork(LATE, TAIL, 2, NEW_TAIL, 0)
            && RowAt(1, NEW_TAIL, 1) in CanonicalKeys(After(LATE, s, Smooth(NEW_TAIL, 1)).blocks, 1)
  {
    hide ToLower, Reference, Fork, Tracks, StoredRows, After, Undisturbed, FreshRows, NewRows, Resume, Small;
    TailStart();
    TailResumes();
    SmoothIsUndisturbed(NEW_TAIL, 1);
    var p := BlockBelowStartIsIndexed(LATE, Reference(LATE, TAIL), TAIL, 2, NEW_TAIL, 0, Smooth(NEW_TAIL, 1), 1);
  }

  lemma TailStart()
    ensures var s := Reference(LATE, TAIL);
            && Fork(LATE, TAIL, 2, NEW_TAIL, 0) && Tracks(LATE, s, TAIL, 2) && StoredRows(LATE, s, TAIL, 2)
            && FreshRows(s.blocks, NewRows(LATE, NEW_TAIL, 0))
  {
    hide ToLower, Reference, Fork, Tracks, StoredRows, FreshRows, NewRows;
    SmallStart(LATE, TAIL, ["a", "b", "c"], NEW_TAIL, ["a", "d", "e"], 0);
    SmallRowsAreFresh(LATE, TAIL, ["a", "b", "c"], NEW_TAIL, ["a", "d", "e"], 0);
  }

  lemma TailResumes()
    ensures Resume(LATE, TAIL, 2, 0) == 0 && Logged(NEW_TAIL, 1)
  {
    assert Logged(TAIL, 2) && Logged(NEW_TAIL, 1);
    assert Top(TAIL, 2, 2) == 2 && Bottom(TAIL, 2, 2) == 2;
  }

  // --- A fork and back ---------------------------------------------------------------------------------------------

  const FLIPPED: Chain := [Full(0, "g", "", "a"), Full(1, "y", "g", "c")]

  /** The chain flips to a fork for one call, which recovers and follows it. */
  lemma FlipIsFollowed()
    ensures var s := Reference(CONFIG, BEFORE); var flipped := After(CONFIG, s, Smooth(FLIPPED, 2));
            && Tracks(CONFIG, s, BEFORE, 1) && Fork(CONFIG, FLIPPED, 1, BEFORE, 0)
            && flipped == OnTop(CONFIG, s, FLIPPED, 0, 1) && Tracks(CONFIG, flipped, FLIPPED, 1)
            && Resume(CONFIG, FLIPPED, 1, 0) == 0 && Seamless(CONFIG, FLIPPED, BEFORE, 0, 0)
  {
    hide ToLower, GoodChain, View, FactsUpTo, Reference, Fork, Tracks, After, FreshRows, FreshKeys, NewRecords, NewRows,
      Undisturbed, OnTop, Small;
    ExampleFork();
    var s := Reference(CONFIG, BEFORE);
    assert Small(FLIPPED, ["a", "c"]) by {
      FlippedIsSmall();
    }
    FlippedForks();
    SmallIsFresh(BEFORE, ["a", "b"], FLIPPED, ["a", "c"], 0);
    SmoothIsUndisturbed(FLIPPED, 2);
    TracksStoresRows(CONFIG, s, BEFORE, 1);
    OneCallReachesHead(CONFIG, s, BEFORE, 1, FLIPPED, 0, Smooth(FLIPPED, 2), 2);
    OnTopTracks(CONFIG, s, BEFORE, 1, FLIPPED, 0, 0, 1);
  }

  lemma FlippedIsSmall()
    ensures Small(FLIPPED, ["a", "c"]) && Small(BEFORE, ["a", "b"])
  {
  }

  lemma FlippedForks()
    ensures Fork(CONFIG, BEFORE, 1, FLIPPED, 0) && Fork(CONFIG, FLIPPED, 1, BEFORE, 0)
    ensures Resume(CONFIG, BEFORE, 1, 0) == 0 && Resume(CONFIG, FLIPPED, 1, 0) == 0
    ensures Seamless(CONFIG, BEFORE, FLIPPED, 0, 0) && Seamless(CONFIG, FLIPPED, BEFORE, 0, 0)
  {
    hide ToLower, Fork, Small;
    FlippedIsSmall();
    SmallFork(CONFIG, BEFORE, ["a", "b"], 1, FLIPPED, ["a", "c"], 0);
    SmallFork(CONFIG, FLIPPED, ["a", "c"], 1, BEFORE, ["a", "b"], 0);
    assert Logged(BEFORE, 0) && Logged(BEFORE, 1) && Logged(FLIPPED, 0) && Logged(FLIPPED, 1);
  }

  lemma OnTopTracks(cfg: Config, s: State, x: Chain, c: int, y: Chain, a: int, r: int, p: int)
    requires Tracks(cfg, s, x, c) && Fork(cfg, x, c, y, a) && -1 <= r <= c && r <= p < |y|
    requires Seamless(cfg, x, y, a, r) && FreshAbove(cfg, s, y, r)
    ensures Tracks(cfg, OnTop(cfg, s, y, r, p), y, p)
  {
    hide View, RowsOf, FactsUpTo, GoodChain, Coherent, ForksAt, FreshRows, FreshKeys, FreshAbove, Rewound, FromStart;
    ResumedTracks(cfg, s, x, c, y, a, r);
    FreshPrefix(cfg, s, y, r, p);
    AdvancedTracks(cfg, Rewound(cfg, s, r), y, r, p);
  }

  /**
   * When the chain flips back, the block it returns to was demoted and never becomes canonical again: no
   * run on the original chain restores what a from-scratch run shows.
   */
  lemma FlipExample(calls: seq<Call>)
    requires var flipped := After(CONFIG, Reference(CONFIG, BEFORE), Smooth(FLIPPED, 2));
             AllServe(calls, BEFORE) && Covered(CONFIG, flipped, calls, 1) >= 1
    ensures var flipped := After(CONFIG, Reference(CONFIG, BEFORE), Smooth(FLIPPED, 2));
            var end := Run(CONFIG, flipped, calls);
            && CheckpointOf(end, "indexer", 1) == Some(1)
            && !SameBlocks(CONFIG, end, Reference(CONFIG, BEFORE))
            && DepositKey("b", 0, 1) in View(Reference(CONFIG, BEFORE), 1)
            && DepositKey("b", 0, 1) !in View(end, 1)
  {
    hide ToLower, GoodChain, View, FactsUpTo, Reference, Tracks, After, FreshRows, FreshKeys, NewRecords, OnTop, Run,
      Covered, Serves, Seamless, Resume, SameBlocks, SameView, Small, AllServe, ForksAt, Coherent, CanonicalKeys;
    FlipIsFollowed();
    FlippedForks();
    var s := Reference(CONFIG, BEFORE);
    var flipped := After(CONFIG, s, Smooth(FLIPPED, 2));
    TracksStoresRows(CONFIG, flipped, FLIPPED, 1);
    assert NoOrphans(CONFIG, FLIPPED, 0, 0);
    CaughtUpState(CONFIG, flipped, FLIPPED, 1, BEFORE, 0, calls);
    GoodChainParts(CONFIG, BEFORE);
    OnTopParts(CONFIG, flipped, FLIPPED, 1, BEFORE, 0, 1);
    SeamlessResume(CONFIG, flipped, FLIPPED, 1, BEFORE, 0, 0);
    DemotedRowIsStored();
    var r := ReturnedDeposit();
    ReincludedRecordIsInvisible(CONFIG, flipped, FLIPPED, 1, BEFORE, 0, 0, r);
  }

  /** The deposit of the block that returns is stored already. */
  lemma ReturnedDeposit() returns (r: Record)
    ensures r in NewRecords(CONFIG, BEFORE, 0) && KeyOf(r) == DepositKey("b", 0, 1)
    ensures KeyOf(r) in After(CONFIG, Reference(CONFIG, BEFORE), Smooth(FLIPPED, 2)).facts
  {
    hide ToLower, View, Reference, After, Small, Tracks, Fork, Seamless, OnTop, LogsIn, RecordsOf, Smooth;
    FlippedIsSmall();
    FlipIsFollowed();
    assert Logged(BEFORE, 1);
    r := DepositOf(BEFORE, ["a", "b"], 1, 1, 1);
    DepositIsShown(BEFORE, ["a", "b"], 1);
    ViewIsStored(Reference(CONFIG, BEFORE), KeyOf(r));
    OnTopKeepsFacts(CONFIG, Reference(CONFIG, BEFORE), FLIPPED, 0, 1, KeyOf(r));
  }

  lemma OnTopKeepsFacts(cfg: Config, s: State, y: Chain, n: int, p: int, k: FactKey)
    requires -1 <= n && p < |y| && k in s.facts
    ensures k in OnTop(cfg, s, y, n, p).facts
  {
    hide RecordsOf, InsertAll, LogsIn;
    if p >= n + 1 {
      InsertAllKeepsRows(s.facts, ChainRecords(cfg, y, n + 1, p));
    }
  }

  lemma DemotedRowIsStored()
    ensures var flipped := After(CONFIG, Reference(CONFIG, BEFORE), Smooth(FLIPPED, 2));
            !FreshRows(flipped.blocks, NewRows(CONFIG, BEFORE, 0))
  {
    hide ToLower, GoodChain, View, FactsUpTo, Reference, After, Fork, Seamless, Resume;
    FlipIsFollowed();
    FlippedForks();
    var s := Reference(CONFIG, BEFORE);
    TracksStoresRows(CONFIG, s, BEFORE, 1);
    assert ValidChain(FLIPPED) by {
      SmallIsGood(CONFIG, FLIPPED, ["a", "c"]);
      GoodChainParts(CONFIG, FLIPPED);
    }
    hide ValidChain, Tracks, OnTop;
    OnTopParts(CONFIG, s, BEFORE, 1, FLIPPED, 0, 1);
    assert Logged(BEFORE, 1);
    assert RowAt(1, BEFORE, 1) in NewRows(CONFIG, BEFORE, 0);
    assert RowAt(1, BEFORE, 1) in CanonicalKeys(s.blocks, 1);
  }
}
