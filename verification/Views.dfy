/** What readers see: the facts joined to canonical blocks, and how indexing and recovery change it. */
module Views {
  import opened Prelude
  import opened Records
  import opened Tables
  import opened Environment
  import opened Repository
  import opened Pipeline
  import opened Referential
  import opened Replay
  import opened Integrity

  /** The key of the fact whose block decides: a fill is read through its trade. */
  function Home(facts: FactTable, k: FactKey): FactKey
    requires k in facts
  {
    if facts[k].OrderFill? then TradeKeyOf(facts[k]) else k
  }

  /** The inner join with block_metadata on chain, number and hash keeps the fact. */
  predicate Visible(s: State, chainId: int, k: FactKey) {
    k in s.facts && Home(s.facts, k) in s.facts &&
    var r := s.facts[Home(s.facts, k)];
    !r.OrderFill? && r.base.chainId == chainId && IsCanonical(s.blocks, BlockKeyOf(r))
  }

  /** The canonical facts of a chain. */
  function View(s: State, chainId: int): FactTable {
    map k | k in s.facts && Visible(s, chainId, k) :: s.facts[k]
  }

  // --- Indexing ---------------------------------------------------------------------------------------------

  /** Indexing leaves the visibility of stored facts alone. */
  lemma OldFactsKeepVisibility(cfg: Config, s: State, logs: seq<Log>, upTo: int, k: FactKey)
    requires Referring(s) && HashFixesNumber(logs) && k in s.facts
    ensures var s' := Indexed(cfg, s, logs, upTo);
            k in s'.facts && s'.facts[k] == s.facts[k] && (Visible(s', cfg.chainId, k) <==> Visible(s, cfg.chainId, k))
  {
    hide WithBlocks, Headers, ToLower, RecordsOf, InsertAll;
    var s' := Indexed(cfg, s, logs, upTo);
    InsertAllKeepsRows(s.facts, RecordsOf(cfg.decode, cfg.chainId, logs));
    IndexedBlocks(cfg, s, logs, upTo);
    assert FactRefers(s, k);
    var home := Home(s.facts, k);
    assert home in s.facts && FactRefers(s, home);
  }

  predicate FreshRows(blocks: BlockTable, rows: set<BlockKey>) {
    rows !! blocks.Keys
  }

  /** No record's key is taken, in particular not by a fact of an orphaned block. */
  predicate FreshKeys(facts: FactTable, rs: seq<Record>) {
    forall r :: r in rs ==> KeyOf(r) !in facts
  }

  /** A newly stored fact names the block of its log, and a new fill has its trade in the same batch. */
  lemma NewFact(cfg: Config, s: State, logs: seq<Log>, k: FactKey) returns (l: Log)
    requires FreshKeys(s.facts, RecordsOf(cfg.decode, cfg.chainId, logs))
    requires First(RecordsOf(cfg.decode, cfg.chainId, logs), k).Some?
    ensures var rs := RecordsOf(cfg.decode, cfg.chainId, logs);
            var facts := InsertAll(s.facts, rs);
            && k in facts && KeyOf(facts[k]) == k && l in logs && BlockNumberOf(facts[k]) == l.blockNumber
            && (!facts[k].OrderFill? ==>
                  BlockKeyOf(facts[k]) == BlockKey(cfg.chainId, l.blockNumber, l.blockHash))
            && (facts[k].OrderFill? ==> First(rs, TradeKeyOf(facts[k])).Some?)
  {
    hide RecordsOf, InsertAll, Normalize, ToLower;
    var rs := RecordsOf(cfg.decode, cfg.chainId, logs);
    InsertAllLookup(s.facts, rs, k);
    FirstIsMember(rs, k);
    var r := First(rs, k).value;
    RecordsMembers(cfg.decode, cfg.chainId, logs, r);
    l :| l in logs && r in Normalize(cfg.chainId, l, cfg.decode(l));
    NormalizeStamps(cfg.chainId, l, cfg.decode(l), r);
    if r.OrderFill? {
      var t :| t in Normalize(cfg.chainId, l, cfg.decode(l)) && t.Trade? && KeyOf(t) == TradeKeyOf(r);
      RecordsMembers(cfg.decode, cfg.chainId, logs, t);
      FirstIsMember(rs, KeyOf(t));
    }
  }

  /** A fact stored from a log of a freshly canonical block is visible. */
  lemma NewFactsAreVisible(cfg: Config, s: State, logs: seq<Log>, upTo: int, k: FactKey)
    requires HashFixesNumber(logs) && forall l :: l in logs ==> IsLower(l.blockHash)
    requires FreshRows(s.blocks, RowKeys(cfg.chainId, logs))
    requires FreshKeys(s.facts, RecordsOf(cfg.decode, cfg.chainId, logs))
    requires First(RecordsOf(cfg.decode, cfg.chainId, logs), k).Some?
    ensures Visible(Indexed(cfg, s, logs, upTo), cfg.chainId, k)
  {
    hide WithBlocks, Headers, ToLower, RecordsOf, InsertAll;
    var s' := Indexed(cfg, s, logs, upTo);
    IndexedBlocks(cfg, s, logs, upTo);
    var l := NewFact(cfg, s, logs, k);
    var home := Home(s'.facts, k);
    if home != k {
      l := NewFact(cfg, s, logs, home);
    }
    assert BlockKeyOf(s'.facts[home]) == HeaderKey(cfg.chainId, l);
  }

  /**
   * The view after indexing is the old view plus the new facts exactly when no new record's key was
   * taken: a record re-included on the new fork under the key of an orphaned fact stays invisible.
   */
  lemma ViewAfterIndexing(cfg: Config, s: State, logs: seq<Log>, upTo: int, view: FactTable)
    requires Referring(s) && HashFixesNumber(logs) && forall l :: l in logs ==> IsLower(l.blockHash)
    requires FreshRows(s.blocks, RowKeys(cfg.chainId, logs))
    requires View(s, cfg.chainId) == view
    requires FreshKeys(view, RecordsOf(cfg.decode, cfg.chainId, logs))
    ensures var rs := RecordsOf(cfg.decode, cfg.chainId, logs);
            View(Indexed(cfg, s, logs, upTo), cfg.chainId) == InsertAll(view, rs) <==> FreshKeys(s.facts, rs)
  {
    hide WithBlocks, Headers, ToLower, RecordsOf, InsertAll, Visible;
    var s' := Indexed(cfg, s, logs, upTo);
    var rs := RecordsOf(cfg.decode, cfg.chainId, logs);
    var view' := View(s', cfg.chainId);
    if FreshKeys(s.facts, rs) {
      forall k
        ensures k in view' <==> k in InsertAll(view, rs)
        ensures k in view' ==> view'[k] == InsertAll(view, rs)[k]
      {
        InsertAllLookup(view, rs, k);
        InsertAllLookup(s.facts, rs, k);
        FirstIsMember(rs, k);
        if k in s.facts {
          OldFactsKeepVisibility(cfg, s, logs, upTo, k);
        } else if First(rs, k).Some? {
          NewFactsAreVisible(cfg, s, logs, upTo, k);
        }
      }
    } else {
      var r :| r in rs && KeyOf(r) in s.facts;
      OldFactsKeepVisibility(cfg, s, logs, upTo, KeyOf(r));
      InsertAllLookup(view, rs, KeyOf(r));
      FirstIsMember(rs, KeyOf(r));
      assert KeyOf(r) !in view' && KeyOf(r) in InsertAll(view, rs);
    }
  }
}
