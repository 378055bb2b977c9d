/** Databases whose readers see exactly the facts of a chain, and how a rewind or more blocks change them. */
module Tracking {
  import opened Prelude
  import opened Records
  import opened Tables
  import opened Environment
  import opened Repository
  import opened Reorg
  import opened Pipeline
  import opened Referential
  import opened Chains
  import opened Replay
  import opened Recovery
  import opened Integrity
  import opened Views

  // --- Chains whose facts can be told apart ----------------------------------------------------------------

  ghost predicate Recorded(cfg: Config, c: Chain, r: Record) {
    exists h, l :: 0 <= h < |c| && l in c[h].logs && r in Normalize(cfg.chainId, l, cfg.decode(l))
  }

  /** Records with the same primary key stem from the same block. */
  ghost predicate KeysFixBlock(cfg: Config, c: Chain) {
    forall r, r' :: Recorded(cfg, c, r) && Recorded(cfg, c, r') && KeyOf(r) == KeyOf(r')
      ==> BlockNumberOf(r) == BlockNumberOf(r')
  }

  predicate LowerHashes(c: Chain) {
    forall h :: 0 <= h < |c| ==> IsLower(c[h].hash)
  }

  ghost predicate GoodChain(cfg: Config, c: Chain) {
    ValidChain(c) && LowerHashes(c) && KeysFixBlock(cfg, c)
  }

  function ChainRecords(cfg: Config, c: Chain, lo: int, hi: int): seq<Record>
    requires 0 <= lo && hi < |c|
  {
    RecordsOf(cfg.decode, cfg.chainId, LogsIn(c, lo, hi))
  }

  /** The facts of the chain from the start block up to `hi`. */
  function FactsUpTo(cfg: Config, c: Chain, hi: int): FactTable
    requires hi < |c|
  {
    InsertAll(map[], ChainRecords(cfg, c, cfg.startBlock, hi))
  }

  lemma RecordInRange(cfg: Config, c: Chain, lo: int, hi: int, r: Record)
    requires 0 <= lo && hi < |c| && LogsMatchBlocks(c) && r in ChainRecords(cfg, c, lo, hi)
    ensures Recorded(cfg, c, r) && lo <= BlockNumberOf(r) <= hi
    ensures r.OrderFill? ==> exists t :: t in ChainRecords(cfg, c, lo, hi) && t.Trade? && KeyOf(t) == TradeKeyOf(r)
                                         && BlockNumberOf(t) == BlockNumberOf(r) && Recorded(cfg, c, t)
  {
    hide RecordsOf, Normalize, LogsIn, ToLower;
    var logs := LogsIn(c, lo, hi);
    RecordsMembers(cfg.decode, cfg.chainId, logs, r);
    var l :| l in logs && r in Normalize(cfg.chainId, l, cfg.decode(l));
    LogsMembers(c, lo, hi, l);
    var h :| lo <= h <= hi && l in c[h].logs;
    assert LogMatches(c, h, l);
    NormalizeStamps(cfg.chainId, l, cfg.decode(l), r);
    if r.OrderFill? {
      var t :| t in Normalize(cfg.chainId, l, cfg.decode(l)) && t.Trade? && KeyOf(t) == TradeKeyOf(r);
      NormalizeStamps(cfg.chainId, l, cfg.decode(l), t);
      RecordsMembers(cfg.decode, cfg.chainId, logs, t);
    }
  }

  lemma ChainRecordsSplit(cfg: Config, c: Chain, lo: int, mid: int, hi: int)
    requires 0 <= lo <= mid + 1 && mid <= hi < |c|
    ensures ChainRecords(cfg, c, lo, hi) == ChainRecords(cfg, c, lo, mid) + ChainRecords(cfg, c, mid + 1, hi)
  {
    LogsSplit(c, lo, mid, hi);
    RecordsConcat(cfg.decode, cfg.chainId, LogsIn(c, lo, mid), LogsIn(c, mid + 1, hi));
  }

  lemma NoRecordsBackwards(cfg: Config, c: Chain, lo: int, hi: int)
    requires 0 <= lo && hi < |c|
    ensures hi < lo ==> ChainRecords(cfg, c, lo, hi) == []
  {
  }

  /** Cutting the facts of a chain at height `a` leaves the facts of the chain up to `a`. */
  lemma CutFacts(cfg: Config, c: Chain, a: int, hi: int, k: FactKey)
    requires LogsMatchBlocks(c) && -1 <= a <= hi < |c|
    ensures var all := FactsUpTo(cfg, c, hi); var low := FactsUpTo(cfg, c, a);
            && (k in low <==> k in all && BlockNumberOf(all[k]) <= a)
            && (k in low ==> low[k] == all[k])
  {
    hide RecordsOf, LogsIn, InsertAll;
    var lo := cfg.startBlock;
    var below, above := ChainRecords(cfg, c, lo, a), ChainRecords(cfg, c, a + 1, hi);
    var all := ChainRecords(cfg, c, lo, hi);
    if lo <= a + 1 {
      ChainRecordsSplit(cfg, c, lo, a, hi);
    }
    InsertAllLookup(map[], below, k);
    InsertAllLookup(map[], all, k);
    FirstIsMember(all, k);
    FirstOfConcat(below, above, k);
    FirstIsMember(below, k);
    FirstIsMember(above, k);
    if lo > a + 1 {
      NoRecordsBackwards(cfg, c, lo, a);
      if First(all, k).Some? {
        RecordInRange(cfg, c, lo, hi, First(all, k).value);
      }
    } else if First(below, k).Some? {
      RecordInRange(cfg, c, lo, a, First(below, k).value);
    } else if First(above, k).Some? {
      RecordInRange(cfg, c, a + 1, hi, First(above, k).value);
    }
  }

  // --- Tracking a chain ----------------------------------------------------------------------------------------

  /** The checkpoint is `c` and the canonical rows are those of the blocks of chain `x` from the start up to it. */
  ghost predicate StoredRows(cfg: Config, s: State, x: Chain, c: int) {
    && -1 <= c < |x|
    && CheckpointOf(s, cfg.indexer, cfg.chainId) == Some(c)
    && CanonicalKeys(s.blocks, cfg.chainId) == RowsOf(cfg.chainId, x, cfg.startBlock, c)
  }

  /** Readers see exactly the facts of chain `x` up to block `c`; orphans of any past may lie around. */
  ghost predicate Tracks(cfg: Config, s: State, x: Chain, c: int) {
    StoredRows(cfg, s, x, c) && Referring(s) && View(s, cfg.chainId) == FactsUpTo(cfg, x, c)
  }

  function Rewound(cfg: Config, s: State, a: int): State {
    Recovered(s, cfg.chainId, cfg.indexer, a)
  }

  lemma RewoundRows(cfg: Config, s: State, x: Chain, c: int, r: int)
    requires StoredRows(cfg, s, x, c) && -1 <= r <= c
    ensures StoredRows(cfg, Rewound(cfg, s, r), x, r)
  {
    hide ToLower;
    DemoteKeeps(s.blocks, cfg.chainId, r);
  }

  lemma RewoundVisibility(cfg: Config, s: State, a: int, k: FactKey)
    requires k in s.facts
    ensures Visible(Rewound(cfg, s, a), cfg.chainId, k)
            <==> Visible(s, cfg.chainId, k) && s.facts[Home(s.facts, k)].base.blockNumber <= a
  {
  }

  /** A visible fact of a chain lies in the same block as the fact that decides its visibility. */
  lemma HomeInSameBlock(cfg: Config, s: State, x: Chain, c: int, k: FactKey)
    requires Tracks(cfg, s, x, c) && GoodChain(cfg, x) && k in FactsUpTo(cfg, x, c)
    ensures k in s.facts && Visible(s, cfg.chainId, k)
            && s.facts[Home(s.facts, k)].base.blockNumber == BlockNumberOf(FactsUpTo(cfg, x, c)[k])
  {
    hide RecordsOf, LogsIn, InsertAll, ToLower, Visible, Recorded;
    var facts, rs := FactsUpTo(cfg, x, c), ChainRecords(cfg, x, cfg.startBlock, c);
    assert k in View(s, cfg.chainId);
    InsertAllLookup(map[], rs, k);
    FirstIsMember(rs, k);
    var r := facts[k];
    RecordInRange(cfg, x, cfg.startBlock, c, r);
    if r.OrderFill? {
      var home := TradeKeyOf(r);
      var t :| t in rs && t.Trade? && KeyOf(t) == home && BlockNumberOf(t) == BlockNumberOf(r) && Recorded(cfg, x, t);
      InsertAllLookup(map[], rs, home);
      FirstIsMember(rs, home);
      assert home in View(s, cfg.chainId);
      RecordInRange(cfg, x, cfg.startBlock, c, facts[home]);
    }
  }

  lemma RewoundViewAt(cfg: Config, s: State, x: Chain, c: int, a: int, k: FactKey)
    requires Tracks(cfg, s, x, c) && GoodChain(cfg, x) && -1 <= a <= c
    ensures var view' := View(Rewound(cfg, s, a), cfg.chainId); var facts := FactsUpTo(cfg, x, a);
            (k in view' <==> k in facts) && (k in view' ==> view'[k] == facts[k])
  {
    hide FactsUpTo, Visible, Recorded, ValidChain, LowerHashes, Referring, KeysFixBlock, RowsOf;
    assert LogsMatchBlocks(x) by {
      GoodChainParts(cfg, x);
    }
    CutFacts(cfg, x, a, c, k);
    assert View(s, cfg.chainId) == FactsUpTo(cfg, x, c);
    if k in FactsUpTo(cfg, x, c) {
      HomeInSameBlock(cfg, s, x, c, k);
      RewoundVisibility(cfg, s, a, k);
    } else if k in s.facts {
      RewoundVisibility(cfg, s, a, k);
    }
  }

  lemma GoodChainParts(cfg: Config, x: Chain)
    requires GoodChain(cfg, x)
    ensures LogsMatchBlocks(x) && ValidChain(x) && LowerHashes(x)
  {
  }

  /** Rewinding to block `a` leaves readers with the facts of the chain up to `a`. */
  lemma RewoundView(cfg: Config, s: State, x: Chain, c: int, a: int)
    requires Tracks(cfg, s, x, c) && GoodChain(cfg, x) && -1 <= a <= c
    ensures View(Rewound(cfg, s, a), cfg.chainId) == FactsUpTo(cfg, x, a)
  {
    hide View, FactsUpTo, Rewound, GoodChain, Referring, RowsOf;
    var view', facts := View(Rewound(cfg, s, a), cfg.chainId), FactsUpTo(cfg, x, a);
    forall k
      ensures (k in view' <==> k in facts) && (k in view' ==> view'[k] == facts[k])
    {
      RewoundViewAt(cfg, s, x, c, a, k);
    }
  }

  // --- The fork ----------------------------------------------------------------------------------------------

  /** Chain `y` replaces chain `x`, of which blocks up to `c` are indexed; they last agree at `a`. */
  ghost predicate Fork(cfg: Config, x: Chain, c: int, y: Chain, a: int) {
    && GoodChain(cfg, x) && GoodChain(cfg, y) && Coherent(x, y)
    && -1 <= c < |x| && c < |y|
    && ForksAt(x, y, c, a)
  }

  /** The last block that the chains share, or the block before the start. */
  function Shared(cfg: Config, a: int): int {
    Max(a, cfg.startBlock - 1)
  }

  lemma {:induction false} QuietLogs(chainId: int, c: Chain, lo: int, mid: int, hi: int)
    requires 0 <= lo && mid <= hi < |c| && Quiet(c, Max(mid + 1, lo), hi)
    ensures LogsIn(c, lo, hi) == LogsIn(c, lo, mid) && RowsOf(chainId, c, lo, hi) == RowsOf(chainId, c, lo, mid)
    decreases hi - mid
  {
    hide ToLower;
    if mid < hi {
      QuietLogs(chainId, c, lo, mid, hi - 1);
      assert hi >= lo ==> !Logged(c, hi);
    }
  }

  lemma SharedBelowFork(cfg: Config, x: Chain, c: int, y: Chain, a: int, h: int)
    requires Fork(cfg, x, c, y, a) && -1 <= h <= a
    ensures FactsUpTo(cfg, x, h) == FactsUpTo(cfg, y, h)
    ensures RowsOf(cfg.chainId, x, cfg.startBlock, h) == RowsOf(cfg.chainId, y, cfg.startBlock, h)
    ensures forall g :: 0 <= g <= h ==> x[g].logs == y[g].logs
  {
    hide RecordsOf, InsertAll, ToLower, LogsIn;
    forall g | 0 <= g <= h
      ensures x[g].logs == y[g].logs && SameHash(x[g].hash, y[g].hash)
    {
      assert Agree(x, y, g) && Commits(x, g, y, g);
    }
    SameBlocksSameLogs(x, y, cfg.startBlock, h);
    assert forall g :: cfg.startBlock <= g <= h ==> RowAt(cfg.chainId, x, g) == RowAt(cfg.chainId, y, g);
  }

  /** After a rewind to `r` the state tracks the new chain, if neither chain has a log between the fork and `r`. */
  lemma ResumedTracks(cfg: Config, s: State, x: Chain, c: int, y: Chain, a: int, r: int)
    requires Tracks(cfg, s, x, c) && Fork(cfg, x, c, y, a) && -1 <= r <= c
    requires Quiet(x, Shared(cfg, a) + 1, r) && Quiet(y, Shared(cfg, a) + 1, r)
    ensures Tracks(cfg, Rewound(cfg, s, r), y, r)
  {
    hide View, Referring, GoodChain, Coherent, RowsOf, RecordsOf, InsertAll, Recovered;
    RecoveredRefers(s, cfg.chainId, cfg.indexer, r);
    RewoundView(cfg, s, x, c, r);
    RewoundRows(cfg, s, x, c, r);
    var h := Min(r, a);
    SharedBelowFork(cfg, x, c, y, a, h);
    QuietLogs(cfg.chainId, x, cfg.startBlock, h, r);
    QuietLogs(cfg.chainId, y, cfg.startBlock, h, r);
    assert FactsUpTo(cfg, x, r) == FactsUpTo(cfg, x, h) && FactsUpTo(cfg, y, r) == FactsUpTo(cfg, y, h);
  }

  // --- More blocks on top ----------------------------------------------------------------------------------------

  lemma LowerLogs(c: Chain, lo: int, hi: int)
    requires LogsMatchBlocks(c) && LowerHashes(c) && 0 <= lo && hi < |c|
    ensures forall l :: l in LogsIn(c, lo, hi) ==> IsLower(l.blockHash)
  {
  }

  /** One row for each logged block: the headers of the logs are the rows of the blocks. */
  lemma LogsGiveRows(chainId: int, c: Chain, lo: int, hi: int)
    requires LogsMatchBlocks(c) && 0 <= lo && hi < |c|
    ensures RowKeys(chainId, LogsIn(c, lo, hi)) == RowsOf(chainId, c, lo, hi)
  {
    hide ToLower, LogsIn;
    var logs := LogsIn(c, lo, hi);
    forall l | l in logs
      ensures HeaderKey(chainId, l) in RowsOf(chainId, c, lo, hi)
    {
      LogsMembers(c, lo, hi, l);
      var h :| lo <= h <= hi && l in c[h].logs;
      assert LogMatches(c, h, l) && Logged(c, h) && HeaderKey(chainId, l) == RowAt(chainId, c, h);
    }
    forall h | lo <= h <= hi && Logged(c, h)
      ensures RowAt(chainId, c, h) in RowKeys(chainId, logs)
    {
      var l := c[h].logs[0];
      LogsMembers(c, lo, hi, l);
      assert LogMatches(c, h, l);
    }
  }

  /** The block before the next one, `r`, is not so far back that logs below the start are indexed. */
  predicate FromStart(cfg: Config, y: Chain, r: int) {
    Quiet(y, r + 1, cfg.startBlock - 1)
  }

  lemma SplitAtResume(cfg: Config, y: Chain, r: int, p: int)
    requires -1 <= r <= p < |y| && FromStart(cfg, y, r)
    ensures ChainRecords(cfg, y, cfg.startBlock, p)
            == ChainRecords(cfg, y, cfg.startBlock, r) + ChainRecords(cfg, y, r + 1, p)
    ensures RowsOf(cfg.chainId, y, cfg.startBlock, p)
            == RowsOf(cfg.chainId, y, cfg.startBlock, r) + RowsOf(cfg.chainId, y, r + 1, p)
  {
    hide RecordsOf, ToLower;
    var start: int := cfg.startBlock;
    assert LogsIn(y, start, p) == LogsIn(y, start, r) + LogsIn(y, r + 1, p) by {
      hide LogsIn;
      if r >= start - 1 {
        LogsSplit(y, start, r, p);
      } else {
        var mid := Min(start - 1, p);
        LogsSplit(y, r + 1, mid, p);
        QuietLogs(cfg.chainId, y, r + 1, r, mid);
        NoLogsBackwards(y, start, r);
        NoLogsBackwards(y, r + 1, r);
        NoLogsBackwards(y, start, p);
        NoLogsBackwards(y, mid + 1, p);
      }
    }
    RecordsConcat(cfg.decode, cfg.chainId, LogsIn(y, start, r), LogsIn(y, r + 1, p));
  }

  lemma NoLogsBackwards(y: Chain, lo: int, hi: int)
    requires 0 <= lo && hi < |y|
    ensures hi < lo ==> LogsIn(y, lo, hi) == []
  {
  }

  lemma AddedCanonicalRows(blocks: BlockTable, chainId: int, added: set<BlockKey>)
    requires forall k :: k in added ==> k.chainId == chainId && k !in CanonicalKeys(blocks, chainId)
    ensures CanonicalKeys(AddRows(blocks, added), chainId) == CanonicalKeys(blocks, chainId) + added
            <==> FreshRows(blocks, added)
  {
  }

  lemma AdvancedBlocks(cfg: Config, s: State, y: Chain, lo: int, p: int)
    requires ValidChain(y) && 0 <= lo && p < |y|
    ensures AdvanceTo(cfg, s, y, lo, p).blocks == AddRows(s.blocks, RowsOf(cfg.chainId, y, lo, p))
  {
    hide LogsIn, ToLower, Headers, WithBlocks, Coherent, Linked;
    if lo <= p {
      ChainHashFixesNumber(y, lo, p);
      IndexedBlocks(cfg, s, LogsIn(y, lo, p), p);
      LogsGiveRows(cfg.chainId, y, lo, p);
    } else {
      assert AddRows(s.blocks, {}) == s.blocks;
    }
  }

  /** The canonical rows end up complete exactly when no row of the new blocks was stored before. */
  lemma AdvancedRows(cfg: Config, s: State, y: Chain, r: int, p: int)
    requires StoredRows(cfg, s, y, r) && ValidChain(y) && r <= p < |y| && FromStart(cfg, y, r)
    ensures CanonicalKeys(AdvanceTo(cfg, s, y, r + 1, p).blocks, cfg.chainId)
            == RowsOf(cfg.chainId, y, cfg.startBlock, p)
            <==> FreshRows(s.blocks, RowsOf(cfg.chainId, y, r + 1, p))
  {
    hide ToLower, Coherent, Linked, LogsIn, FreshRows, CanonicalKeys, AdvanceTo, ChainRecords;
    SplitAtResume(cfg, y, r, p);
    AdvancedBlocks(cfg, s, y, r + 1, p);
    AddedCanonicalRows(s.blocks, cfg.chainId, RowsOf(cfg.chainId, y, r + 1, p));
  }

  /** Facts of blocks above `a` have other keys than facts of blocks up to `a`. */
  lemma NewKeysAreNotOld(cfg: Config, y: Chain, a: int, p: int)
    requires GoodChain(cfg, y) && -1 <= a <= p < |y|
    ensures FreshKeys(FactsUpTo(cfg, y, a), ChainRecords(cfg, y, a + 1, p))
  {
    hide RecordsOf, LogsIn, InsertAll, ToLower, Recorded;
    forall r | r in ChainRecords(cfg, y, a + 1, p)
      ensures KeyOf(r) !in FactsUpTo(cfg, y, a)
    {
      RecordInRange(cfg, y, a + 1, p, r);
      InsertAllLookup(map[], ChainRecords(cfg, y, cfg.startBlock, a), KeyOf(r));
      FirstIsMember(ChainRecords(cfg, y, cfg.startBlock, a), KeyOf(r));
      if KeyOf(r) in FactsUpTo(cfg, y, a) {
        RecordInRange(cfg, y, cfg.startBlock, a, FactsUpTo(cfg, y, a)[KeyOf(r)]);
      }
    }
  }

  /** From a state that tracks the chain up to `r`: the view ends up complete exactly when no key was taken. */
  lemma AdvancedView(cfg: Config, s: State, y: Chain, r: int, p: int)
    requires Tracks(cfg, s, y, r) && GoodChain(cfg, y) && r <= p < |y| && FromStart(cfg, y, r)
    requires FreshRows(s.blocks, RowsOf(cfg.chainId, y, r + 1, p))
    ensures View(AdvanceTo(cfg, s, y, r + 1, p), cfg.chainId) == FactsUpTo(cfg, y, p)
            <==> FreshKeys(s.facts, ChainRecords(cfg, y, r + 1, p))
  {
    hide RecordsOf, LogsIn, InsertAll, ToLower, WithBlocks, Headers, KeysFixBlock, RowsOf, Indexed, View, FromStart;
    SplitAtResume(cfg, y, r, p);
    InsertAllConcat(map[], ChainRecords(cfg, y, cfg.startBlock, r), ChainRecords(cfg, y, r + 1, p));
    if r < p {
      var logs := LogsIn(y, r + 1, p);
      ChainHashFixesNumber(y, r + 1, p);
      LowerLogs(y, r + 1, p);
      LogsGiveRows(cfg.chainId, y, r + 1, p);
      NewKeysAreNotOld(cfg, y, r, p);
      ViewAfterIndexing(cfg, s, logs, p, FactsUpTo(cfg, y, r));
    } else {
      NoRecordsBackwards(cfg, y, r + 1, p);
    }
  }

  /** Indexing blocks with fresh rows and keys on top keeps tracking the chain. */
  lemma AdvancedTracks(cfg: Config, s: State, y: Chain, r: int, p: int)
    requires Tracks(cfg, s, y, r) && GoodChain(cfg, y) && r <= p < |y| && FromStart(cfg, y, r)
    requires FreshRows(s.blocks, RowsOf(cfg.chainId, y, r + 1, p))
    requires FreshKeys(s.facts, ChainRecords(cfg, y, r + 1, p))
    ensures Tracks(cfg, AdvanceTo(cfg, s, y, r + 1, p), y, p)
  {
    hide RecordsOf, LogsIn, InsertAll, ToLower, WithBlocks, Headers, KeysFixBlock, RowsOf, View, FactsUpTo,
      ChainRecords, FreshRows, FreshKeys, FromStart, CanonicalKeys, Referring, Coherent, Linked;
    AdvancedRows(cfg, s, y, r, p);
    AdvancedView(cfg, s, y, r, p);
    if r < p {
      ChainHashFixesNumber(y, r + 1, p);
      LowerLogs(y, r + 1, p);
      IndexedKeepsReferring(cfg, s, LogsIn(y, r + 1, p), p);
    }
  }

  // --- From scratch --------------------------------------------------------------------------------------------------

  /** What indexing chain `y` from an empty database leaves. */
  function Reference(cfg: Config, y: Chain): State
    requires cfg.startBlock < |y|
  {
    AdvanceTo(cfg, EMPTY, y, cfg.startBlock, |y| - 1)
  }

  /** Indexing from scratch up to any block tracks the chain. */
  lemma FromScratch(cfg: Config, y: Chain, p: int)
    requires GoodChain(cfg, y) && cfg.startBlock <= p < |y|
    ensures Tracks(cfg, AdvanceTo(cfg, EMPTY, y, cfg.startBlock, p), y, p)
  {
    hide RecordsOf, LogsIn, InsertAll, ToLower, WithBlocks, Headers, KeysFixBlock, Coherent, Linked, View, RowsOf;
    var logs := LogsIn(y, cfg.startBlock, p);
    ChainHashFixesNumber(y, cfg.startBlock, p);
    LowerLogs(y, cfg.startBlock, p);
    LogsGiveRows(cfg.chainId, y, cfg.startBlock, p);
    EmptyView(cfg.chainId);
    ViewAfterIndexing(cfg, EMPTY, logs, p, map[]);
    IndexedBlocks(cfg, EMPTY, logs, p);
    IndexedKeepsReferring(cfg, EMPTY, logs, p);
  }

  /** Indexing from scratch shows exactly the chain's records, and tracks it. */
  lemma ReferenceView(cfg: Config, y: Chain)
    requires GoodChain(cfg, y) && cfg.startBlock < |y|
    ensures View(Reference(cfg, y), cfg.chainId) == FactsUpTo(cfg, y, |y| - 1)
    ensures CanonicalKeys(Reference(cfg, y).blocks, cfg.chainId) == RowsOf(cfg.chainId, y, cfg.startBlock, |y| - 1)
    ensures Tracks(cfg, Reference(cfg, y), y, |y| - 1)
  {
    hide GoodChain, View, RowsOf, FactsUpTo, AdvanceTo;
    FromScratch(cfg, y, |y| - 1);
  }

  lemma EmptyView(chainId: int)
    ensures View(EMPTY, chainId) == map[]
  {
  }
}
