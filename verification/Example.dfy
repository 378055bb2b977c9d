/** Concrete chains on which recovery does not show what a from-scratch run shows. */
module Example {
  import opened Prelude
  import opened Records
  import opened Tables
  import opened Environment
  import opened Repository
  import opened Reorg
  import opened Pipeline
  import opened Referential
  import opened Chains
  import opened Replay
  import opened Recovery
  import opened Views
  import opened Tracking
  import opened Forks
  import opened Convergence
  import opened Limits

  const CONFIG: Config := Config(0, 100, 1, "indexer", (l: Log) => Deposited("t", "u", 5), None)

  /** The block at height `h` with hash `hash`, including one transaction. */
  function Full(h: nat, hash: string, parent: string, tx: string): Block {
    Block(hash, parent, [Log("v", [], "", h, tx, 0, 0, hash)])
  }

  function Empty(hash: string, parent: string): Block {
    Block(hash, parent, [])
  }

  predicate IsLetter(s: string) {
    |s| == 1 && 'a' <= s[0] <= 'z'
  }

  lemma LettersAreLower(s: string, t: string)
    requires IsLetter(s) && IsLetter(t)
    ensures IsLower(s) && '_' !in s && (SameHash(s, t) <==> s == t)
  {
    assert ToLower(s)[0] == s[0] && ToLower(t)[0] == t[0];
  }

  // --- A chain of a few small blocks -----------------------------------------------------------------------------

  /** The block at each height is empty or holds the one log of its transaction. */
  predicate IsBlock(b: Block, h: nat, tx: string) {
    && IsLetter(b.hash) && IsLetter(tx)
    && (b.logs == [] || b.logs == [Log("v", [], "", h, tx, 0, 0, b.hash)])
  }

  /** Hashes and transactions are distinct letters, and each block names its parent. */
  predicate Small(c: Chain, txs: seq<string>) {
    && 0 < |c| == |txs|
    && (forall h :: 0 <= h < |c| ==> IsBlock(c[h], h, txs[h]))
    && (forall h, g :: 0 <= h < g < |c| ==> c[h].hash != c[g].hash && txs[h] != txs[g])
    && (forall h, g :: 0 <= h < |c| && g == h + 1 && g < |c| ==> c[g].parentHash == c[h].hash)
  }

  lemma SmallIsGood(cfg: Config, c: Chain, txs: seq<string>)
    requires Small(c, txs)
    ensures GoodChain(cfg, c)
  {
    hide ToLower, KeysFixBlock, SameHash;
    forall h, g | 0 <= h < |c| && 0 <= g < |c|
      ensures Commits(c, h, c, g)
    {
      LettersAreLower(c[h].hash, c[g].hash);
      assert IsBlock(c[h], h, txs[h]) && IsBlock(c[g], g, txs[g]);
      if h == g {
        SameParent(c, c, h);
      }
    }
    forall h, l | 0 <= h < |c| && l in c[h].logs
      ensures LogMatches(c, h, l) && ToLower(l.txHash) == txs[h] && '_' !in ToLower(l.txHash)
    {
      assert IsBlock(c[h], h, txs[h]);
      LettersAreLower(txs[h], txs[h]);
    }
    forall h | 0 <= h < |c|
      ensures IsLower(c[h].hash)
    {
      assert IsBlock(c[h], h, txs[h]);
      LettersAreLower(c[h].hash, c[h].hash);
    }
    forall h | 0 < h < |c|
      ensures ExtendsParent(c, h)
    {
      assert c[h].parentHash == c[h - 1].hash;
      LettersAreLower(c[h - 1].hash, c[h - 1].hash);
    }
    TransactionsMakeKeys(cfg, c);
  }

  /** Two small chains that fork after `a`, one letter telling their blocks apart. */
  lemma SmallFork(cfg: Config, x: Chain, xs: seq<string>, c: int, y: Chain, ys: seq<string>, a: int)
    requires Small(x, xs) && Small(y, ys) && 0 <= a <= c < |x| && c < |y|
    requires forall h :: 0 <= h <= a ==> x[h] == y[h]
    requires forall h, g :: 0 <= h < |x| && 0 <= g < |y| && (h > a || g > a) ==> x[h].hash != y[g].hash
    ensures Fork(cfg, x, c, y, a)
  {
    hide ToLower, KeysFixBlock, SameHash, GoodChain;
    SmallIsGood(cfg, x, xs);
    SmallIsGood(cfg, y, ys);
    forall h, g | 0 <= h < |x| && 0 <= g < |y|
      ensures (SameHash(x[h].hash, y[g].hash) <==> h == g <= a) && Commits(x, h, y, g)
    {
      assert IsBlock(x[h], h, xs[h]) && IsBlock(y[g], g, ys[g]);
      LettersAreLower(x[h].hash, y[g].hash);
      if h <= a && g <= a && h != g {
        assert x[h].hash == y[h].hash != y[g].hash;
      }
      if h == g <= a {
        SameParent(x, y, h);
      }
    }
    assert forall h :: 0 <= h <= c ==> (Agree(x, y, h) <==> h <= a);
  }

  /** Chain `x` is indexed from scratch, then it forks. */
  lemma SmallStart(cfg: Config, x: Chain, xs: seq<string>, y: Chain, ys: seq<string>, a: int)
    requires Small(x, xs) && Small(y, ys) && 0 <= a < |x| <= |y| && cfg.startBlock < |x|
    requires forall h :: 0 <= h <= a ==> x[h] == y[h]
    requires forall h, g :: 0 <= h < |x| && 0 <= g < |y| && (h > a || g > a) ==> x[h].hash != y[g].hash
    ensures var s, c := Reference(cfg, x), |x| - 1;
            Fork(cfg, x, c, y, a) && Tracks(cfg, s, x, c) && StoredRows(cfg, s, x, c)
  {
    hide ToLower, GoodChain, View, FactsUpTo, Reference, Fork, Small;
    SmallFork(cfg, x, xs, |x| - 1, y, ys, a);
    SmallIsGood(cfg, x, xs);
    ReferenceView(cfg, x);
  }

  lemma SameParent(x: Chain, y: Chain, h: int)
    requires 0 <= h < |x| && h < |y| && x[h] == y[h]
    ensures SameHash(x[h].parentHash, y[h].parentHash)
  {
  }

  /** The deposit of a full block, found in any range that covers it. */
  lemma DepositOf(c: Chain, txs: seq<string>, h: int, lo: int, hi: int) returns (r: Record)
    requires Small(c, txs) && 0 <= lo <= h <= hi < |c| && Logged(c, h)
    ensures r in ChainRecords(CONFIG, c, lo, hi) && KeyOf(r) == DepositKey(txs[h], 0, 1)
  {
    hide ToLower, RecordsOf;
    var l := c[h].logs[0];
    assert IsBlock(c[h], h, txs[h]);
    LettersAreLower(txs[h], txs[h]);
    LogsMembers(c, lo, hi, l);
    r := Normalize(1, l, CONFIG.decode(l))[0];
    RecordsMembers(CONFIG.decode, 1, LogsIn(c, lo, hi), r);
  }

  lemma DepositIsShown(c: Chain, txs: seq<string>, h: int)
    requires Small(c, txs) && 0 <= h < |c| && Logged(c, h)
    ensures DepositKey(txs[h], 0, 1) in View(Reference(CONFIG, c), 1)
  {
    hide ToLower, RecordsOf, View, Reference, LogsIn, InsertAll;
    SmallIsGood(CONFIG, c, txs);
    ReferenceView(CONFIG, c);
    var r := DepositOf(c, txs, h, 0, |c| - 1);
    InsertAllLookup(map[], ChainRecords(CONFIG, c, 0, |c| - 1), KeyOf(r));
    FirstIsMember(ChainRecords(CONFIG, c, 0, |c| - 1), KeyOf(r));
  }

  // --- The same transaction on both sides of a fork ---------------------------------------------------------------

  const BEFORE: Chain := [Full(0, "g", "", "a"), Full(1, "x", "g", "b")]

  const AFTER: Chain := [Full(0, "g", "", "a"), Full(1, "y", "g", "b")]

  lemma ExampleFork()
    ensures Small(BEFORE, ["a", "b"]) && Small(AFTER, ["a", "b"]) && Fork(CONFIG, BEFORE, 1, AFTER, 0)
    ensures Resume(CONFIG, BEFORE, 1, 0) == 0 && Seamless(CONFIG, BEFORE, AFTER, 0, 0)
    ensures NoOrphans(CONFIG, BEFORE, 0, 0) && Tracks(CONFIG, Reference(CONFIG, BEFORE), BEFORE, 1)
  {
    hide ToLower, GoodChain, View, FactsUpTo, Reference, Fork, Tracks;
    SmallFork(CONFIG, BEFORE, ["a", "b"], 1, AFTER, ["a", "b"], 0);
    SmallIsGood(CONFIG, BEFORE, ["a", "b"]);
    ReferenceView(CONFIG, BEFORE);
    assert Logged(BEFORE, 0) && Logged(BEFORE, 1);
  }

  /** The deposit of the re-included transaction has vanished for readers after the recovery. */
  lemma ReinclusionExample()
    ensures var k := DepositKey("b", 0, 1); var s := Reference(CONFIG, BEFORE);
            && Tracks(CONFIG, s, BEFORE, 1) && Fork(CONFIG, BEFORE, 1, AFTER, 0)
            && Resume(CONFIG, BEFORE, 1, 0) == 0 && Seamless(CONFIG, BEFORE, AFTER, 0, 0)
            && k in View(Reference(CONFIG, AFTER), 1)
            && k !in View(OnTop(CONFIG, s, AFTER, 0, 1), 1)
  {
    hide ToLower, GoodChain, RecordsOf, InsertAll, LogsIn, View, Reference, OnTop, Small;
    ExampleFork();
    DepositIsShown(BEFORE, ["a", "b"], 1);
    assert DepositKey("b", 0, 1) in Reference(CONFIG, BEFORE).facts by {
      ViewIsStored(Reference(CONFIG, BEFORE), DepositKey("b", 0, 1));
    }
    var r := DepositOf(AFTER, ["a", "b"], 1, 1, 1);
    ReincludedRecordIsInvisible(CONFIG, Reference(CONFIG, BEFORE), BEFORE, 1, AFTER, 0, 0, r);
  }

  lemma ViewIsStored(s: State, k: FactKey)
    requires k in View(s, 1)
    ensures k in s.facts
  {
  }

  // --- A log in a block that was empty ------------------------------------------------------------------------------

  const QUIET: Chain := [Full(0, "g", "", "a"), Empty("x", "g")]

  const BUSY: Chain := [Full(0, "g", "", "a"), Full(1, "y", "g", "b")]

  /**
   * An empty block is replaced by one with a deposit. The row below it is shared, so no call ever reports
   * a reorganization, and the replaced block is never fetched.
   */
  lemma QuietForkExample(calls: seq<Call>)
    requires AllServe(calls, BUSY)
    ensures var s := Reference(CONFIG, QUIET); var k := DepositKey("b", 0, 1);
            && Tracks(CONFIG, s, QUIET, 1) && Fork(CONFIG, QUIET, 1, BUSY, 0)
            && FreshAbove(CONFIG, s, BUSY, 1) && Resume(CONFIG, QUIET, 1, 0) == 1
            && !Seamless(CONFIG, QUIET, BUSY, 0, 1)
            && Run(CONFIG, s, calls) == s
            && k in View(Reference(CONFIG, BUSY), 1) && k !in View(Run(CONFIG, s, calls), 1)
  {
    hide ToLower, GoodChain, View, Reference, Run, Serves, Covered, RecordsOf, InsertAll, LogsIn, Small, Coherent,
      ForksAt;
    QuietFork();
    CaughtUpState(CONFIG, Reference(CONFIG, QUIET), QUIET, 1, BUSY, 0, calls);
    RewindToTipIsIdle(CONFIG, Reference(CONFIG, QUIET), QUIET, 1, BUSY);
    NothingNew();
    DepositIsShown(BUSY, ["a", "b"], 1);
    NoSecondDeposit();
  }

  lemma QuietFork()
    ensures Small(QUIET, ["a", "b"]) && Small(BUSY, ["a", "b"]) && Fork(CONFIG, QUIET, 1, BUSY, 0)
    ensures Resume(CONFIG, QUIET, 1, 0) == 1 && NoOrphans(CONFIG, QUIET, 0, 1) && !Seamless(CONFIG, QUIET, BUSY, 0, 1)
    ensures Tracks(CONFIG, Reference(CONFIG, QUIET), QUIET, 1) && Logged(BUSY, 1)
    ensures View(Reference(CONFIG, QUIET), 1) == FactsUpTo(CONFIG, QUIET, 1)
  {
    hide ToLower, GoodChain, View, FactsUpTo, Reference, Fork, Tracks;
    SmallFork(CONFIG, QUIET, ["a", "b"], 1, BUSY, ["a", "b"], 0);
    SmallIsGood(CONFIG, QUIET, ["a", "b"]);
    ReferenceView(CONFIG, QUIET);
    assert Logged(QUIET, 0) && !Logged(QUIET, 1) && Logged(BUSY, 1);
    assert Top(QUIET, 0, 1) == Top(QUIET, 0, 0) == 0;
  }

  lemma NothingNew()
    ensures FreshAbove(CONFIG, Reference(CONFIG, QUIET), BUSY, 1)
  {
    hide Reference;
    NoRecordsBackwards(CONFIG, BUSY, 2, 1);
  }

  /** Facts of the first block belong to its transaction. */
  lemma NoSecondDeposit()
    ensures DepositKey("b", 0, 1) !in FactsUpTo(CONFIG, QUIET, 1)
  {
    hide ToLower, RecordsOf, InsertAll, LogsIn;
    var rs := ChainRecords(CONFIG, QUIET, 0, 1);
    var k := DepositKey("b", 0, 1);
    LettersAreLower("a", "b");
    InsertAllLookup(map[], rs, k);
    FirstIsMember(rs, k);
    if k in FactsUpTo(CONFIG, QUIET, 1) {
      var r := First(rs, k).value;
      RecordsMembers(CONFIG.decode, 1, LogsIn(QUIET, 0, 1), r);
      var l :| l in LogsIn(QUIET, 0, 1) && r in Normalize(1, l, CONFIG.decode(l));
      LogsMembers(QUIET, 0, 1, l);
      NormalizeStamps(1, l, CONFIG.decode(l), r);
    }
  }

  // --- A gap above orphans -------------------------------------------------------------------------------------------

  const GAPPED: Chain :=
    [Full(0, "g", "", "a"), Full(1, "a", "g", "b"), Empty("b", "a"), Full(3, "c", "b", "c")]

  const REPLACED: Chain :=
    [Full(0, "g", "", "a"), Full(1, "x", "g", "d"), Empty("y", "x"), Full(3, "d", "y", "e")]

  /** The walk ends at the empty block 2, and the orphan at height 1 stays canonical. */
  lemma GapExample(rpc: Rpc, faults: Faults)
    requires Serves(rpc, REPLACED)
    requires Check(Reference(CONFIG, GAPPED).blocks, 1, 100, rpc, faults).Success?
    ensures var s := Reference(CONFIG, GAPPED); var orphan := RowAt(1, GAPPED, 1);
            && Tracks(CONFIG, s, GAPPED, 3) && Fork(CONFIG, GAPPED, 3, REPLACED, 0)
            && Check(s.blocks, 1, 100, rpc, faults) == Success(RollbackTo(1))
            && orphan in CanonicalKeys(Rewound(CONFIG, s, 1).blocks, 1) && !RowOn(orphan, REPLACED)
  {
    hide ToLower, GoodChain, View, FactsUpTo, Reference, Check, Serves, Small, Agrees, Top, Bottom;
    GappedFork();
    var s := Reference(CONFIG, GAPPED);
    CheckAnswers(CONFIG, s.blocks, GAPPED, 3, REPLACED, 0, 3, rpc, faults);
    OrphansAreSeen(CONFIG, s, GAPPED, 3, REPLACED, 0, 1);
    RewoundRows(CONFIG, s, GAPPED, 3, 1);
    RewoundRows(CONFIG, s, GAPPED, 3, 3);
    assert RowAt(1, GAPPED, 1) in RowsOf(1, GAPPED, 0, 1) && RowAt(1, GAPPED, 1) in RowsOf(1, GAPPED, 0, 3);
  }

  lemma GappedFork()
    ensures Small(GAPPED, ["a", "b", "w", "c"]) && Small(REPLACED, ["a", "d", "z", "e"])
    ensures Fork(CONFIG, GAPPED, 3, REPLACED, 0) && Tracks(CONFIG, Reference(CONFIG, GAPPED), GAPPED, 3)
    ensures Reported(CONFIG, GAPPED, 3, 0) && Resume(CONFIG, GAPPED, 3, 0) == 1 && Logged(GAPPED, 1)
  {
    hide ToLower, GoodChain, View, FactsUpTo, Reference, Fork, Tracks;
    SmallFork(CONFIG, GAPPED, ["a", "b", "w", "c"], 3, REPLACED, ["a", "d", "z", "e"], 0);
    SmallIsGood(CONFIG, GAPPED, ["a", "b", "w", "c"]);
    ReferenceView(CONFIG, GAPPED);
    assert Logged(GAPPED, 1) && !Logged(GAPPED, 2) && Logged(GAPPED, 3);
    assert Top(GAPPED, 0, 3) == 3 && Bottom(GAPPED, 0, 3) == 3;
  }

  lemma GappedResumes()
    ensures Resume(CONFIG, GAPPED, 1, 0) == 0 && Reported(CONFIG, GAPPED, 1, 0) && !Reported(CONFIG, GAPPED, 0, 0)
    ensures !Seamless(CONFIG, GAPPED, REPLACED, 0, 1) && Seamless(CONFIG, GAPPED, REPLACED, 0, 0)
    ensures Quiet(REPLACED, 2, 2) && !Quiet(REPLACED, 2, 3)
  {
    assert Logged(GAPPED, 0) && Logged(GAPPED, 1) && Logged(REPLACED, 3) && !Logged(REPLACED, 2);
    assert Top(GAPPED, 0, 1) == 1 && Bottom(GAPPED, 0, 1) == Bottom(GAPPED, 0, 0) == 0;
  }

  /** A from-scratch database holds nothing but the deposits and the rows of its chain. */
  lemma SmallFacts(x: Chain, xs: seq<string>, k: FactKey)
    requires Small(x, xs) && k in Reference(CONFIG, x).facts
    ensures exists g :: 0 <= g < |x| && k == DepositKey(xs[g], 0, 1)
  {
    hide ToLower, RecordsOf, InsertAll, LogsIn, WithBlocks, Headers;
    var rs := ChainRecords(CONFIG, x, 0, |x| - 1);
    InsertAllLookup(map[], rs, k);
    FirstIsMember(rs, k);
    var r := First(rs, k).value;
    RecordsMembers(CONFIG.decode, 1, LogsIn(x, 0, |x| - 1), r);
    var l :| l in LogsIn(x, 0, |x| - 1) && r in Normalize(1, l, CONFIG.decode(l));
    LogsMembers(x, 0, |x| - 1, l);
    var g :| 0 <= g < |x| && l in x[g].logs;
    assert IsBlock(x[g], g, xs[g]);
    LettersAreLower(xs[g], xs[g]);
    NormalizeStamps(1, l, CONFIG.decode(l), r);
  }

  lemma SmallRows(cfg: Config, x: Chain, xs: seq<string>, k: BlockKey)
    requires Small(x, xs) && cfg.startBlock < |x| && k in Reference(cfg, x).blocks
    ensures exists g :: 0 <= g < |x| && k.hash == x[g].hash
  {
    hide RecordsOf, InsertAll, LogsIn, WithBlocks, Headers, ToLower, GoodChain;
    SmallIsGood(cfg, x, xs);
    GoodChainParts(cfg, x);
    AdvancedBlocks(cfg, EMPTY, x, cfg.startBlock, |x| - 1);
    assert k in RowsOf(cfg.chainId, x, cfg.startBlock, |x| - 1);
    var g :| 0 <= g < |x| && k == RowAt(cfg.chainId, x, g);
    assert IsLower(x[g].hash);
  }

  /** Blocks with new hashes have fresh rows. */
  lemma SmallRowsAreFresh(cfg: Config, x: Chain, xs: seq<string>, y: Chain, ys: seq<string>, r: int)
    requires Small(x, xs) && Small(y, ys) && -1 <= r < |y| && cfg.startBlock < |x|
    requires forall g, h :: 0 <= g < |x| && r < h < |y| ==> x[g].hash != y[h].hash
    ensures FreshRows(Reference(cfg, x).blocks, NewRows(cfg, y, r))
  {
    hide ToLower, Small, Reference;
    forall k | k in NewRows(cfg, y, r)
      ensures k !in Reference(cfg, x).blocks
    {
      var h :| r < h < |y| && k == RowAt(cfg.chainId, y, h);
      RowHash(cfg.chainId, y, ys, h);
      if k in Reference(cfg, x).blocks {
        SmallRows(cfg, x, xs, k);
      }
    }
  }

  /** Records of new transactions have fresh keys. */
  lemma SmallIsFresh(x: Chain, xs: seq<string>, y: Chain, ys: seq<string>, r: int)
    requires Small(x, xs) && Small(y, ys) && -1 <= r < |y|
    requires forall g, h :: 0 <= g < |x| && r < h < |y| ==> x[g].hash != y[h].hash && xs[g] != ys[h]
    ensures FreshAbove(CONFIG, Reference(CONFIG, x), y, r)
  {
    assert |xs| == |x| && |ys| == |y|;
    hide RecordsOf, InsertAll, LogsIn, ToLower, Small, Reference, FreshRows, NewRecords;
    SmallRowsAreFresh(CONFIG, x, xs, y, ys, r);
    forall rec | rec in NewRecords(CONFIG, y, r)
      ensures KeyOf(rec) !in Reference(CONFIG, x).facts
    {
      SmallKeyIsFresh(x, xs, y, ys, r, rec);
    }
  }

  lemma SmallKeyIsFresh(x: Chain, xs: seq<string>, y: Chain, ys: seq<string>, r: int, rec: Record)
    requires Small(x, xs) && Small(y, ys) && -1 <= r < |y| && rec in NewRecords(CONFIG, y, r)
    requires forall g, h :: 0 <= g < |x| && r < h < |y| ==> xs[g] != ys[h]
    ensures KeyOf(rec) !in Reference(CONFIG, x).facts
  {
    assert |xs| == |x| > 0 && |ys| == |y|;
    hide RecordsOf, InsertAll, LogsIn, ToLower, Small, Reference, IsBlock;
    var h := HeightOfRecord(y, ys, r + 1, |y| - 1, rec);
    if KeyOf(rec) in Reference(CONFIG, x).facts {
      SmallFacts(x, xs, KeyOf(rec));
    }
  }

  lemma RowHash(chainId: int, y: Chain, ys: seq<string>, h: int)
    requires Small(y, ys) && 0 <= h < |y|
    ensures RowAt(chainId, y, h).hash == y[h].hash
  {
    assert IsBlock(y[h], h, ys[h]);
    LettersAreLower(y[h].hash, y[h].hash);
  }

  lemma HeightOfRecord(y: Chain, ys: seq<string>, lo: int, hi: int, rec: Record) returns (h: int)
    requires Small(y, ys) && 0 <= lo && hi < |y| && rec in ChainRecords(CONFIG, y, lo, hi)
    ensures lo <= h <= hi && KeyOf(rec) == DepositKey(ys[h], 0, 1)
  {
    hide ToLower, RecordsOf, LogsIn;
    RecordsMembers(CONFIG.decode, 1, LogsIn(y, lo, hi), rec);
    var l :| l in LogsIn(y, lo, hi) && rec in Normalize(1, l, CONFIG.decode(l));
    LogsMembers(y, lo, hi, l);
    h :| lo <= h <= hi && l in y[h].logs;
    assert IsBlock(y[h], h, ys[h]);
    LettersAreLower(ys[h], ys[h]);
    NormalizeStamps(1, l, CONFIG.decode(l), rec);
  }
}
