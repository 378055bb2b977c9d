/** The read queries: lists and lookups of facts joined to canonical blocks. */
module Queries {
  import opened Prelude
  import opened Records
  import opened Tables
  import opened Environment
  import opened Repository
  import opened Referential
  import opened Chains
  import opened Recovery
  import opened Integrity
  import opened Views
  import opened Tracking

  /** The table and the user column of a list, or the primary key of a lookup. */
  datatype Query =
    | DepositsOf(user: string)
    | WithdrawalsOf(user: string)
    | TradesOf(user: string)
    | ByKey(key: FactKey)

  predicate Matches(q: Query, r: Record) {
    match q
    case DepositsOf(user) => r.Deposit? && r.user == user
    case WithdrawalsOf(user) => r.Withdrawal? && r.user == user
    case TradesOf(user) => r.Trade? && (r.user0 == user || r.user1 == user)
    case ByKey(key) => !r.OrderFill? && KeyOf(r) == key
  }

  /** A row of the inner join. */
  datatype Joined = Joined(record: Record, block: BlockKey)

  /** The join of the list queries: on chain, block number and block hash. */
  function Join(s: State, chainId: int, q: Query): (rows: set<Joined>)
    ensures forall row :: row in rows <==>
      && (exists k :: k in s.facts && s.facts[k] == row.record)
      && !row.record.OrderFill? && row.record.base.chainId == chainId && Matches(q, row.record)
      && IsCanonical(s.blocks, row.block) && row.block == BlockKeyOf(row.record)
  {
    set k, b | k in s.facts && !s.facts[k].OrderFill? && s.facts[k].base.chainId == chainId && Matches(q, s.facts[k])
               && b in s.blocks && s.blocks[b].canonical && b == BlockKeyOf(s.facts[k])
      :: Joined(s.facts[k], b)
  }

  /** `ORDER BY block_number DESC, transaction_index DESC, log_index DESC`. */
  predicate NotBelow(a: Record, b: Record)
    requires !a.OrderFill? && !b.OrderFill?
  {
    var x, y := a.base, b.base;
    x.blockNumber > y.blockNumber
    || (x.blockNumber == y.blockNumber
        && (x.txIndex > y.txIndex || (x.txIndex == y.txIndex && x.logIndex >= y.logIndex)))
  }

  predicate Above(a: Record, b: Record)
    requires !a.OrderFill? && !b.OrderFill?
  {
    !NotBelow(b, a)
  }

  predicate NoFills(rows: seq<Record>) {
    forall r :: r in rows ==> !r.OrderFill?
  }

  predicate StrictlyNewestFirst(rows: seq<Record>)
    requires NoFills(rows)
  {
    forall i, j :: 0 <= i < j < |rows| ==> Above(rows[i], rows[j])
  }

  function RecordsOfRows(rows: seq<Joined>): (rs: seq<Record>)
    ensures |rs| == |rows| && forall i :: 0 <= i < |rows| ==> rs[i] == rows[i].record
  {
    seq(|rows|, i requires 0 <= i < |rows| => rows[i].record)
  }

  /** `rows` is an answer to the list query: every joined row once, newest first. */
  ghost predicate IsAnswer(s: State, chainId: int, q: Query, rows: seq<Joined>) {
    && (forall row :: row in rows <==> row in Join(s, chainId, q))
    && (forall i, j :: 0 <= i < j < |rows| ==> rows[i] != rows[j])
    && (forall i, j :: 0 <= i < j < |rows| ==>
          !rows[i].record.OrderFill? && !rows[j].record.OrderFill? && NotBelow(rows[i].record, rows[j].record))
  }

  // --- There is an answer -----------------------------------------------------------------------------------------

  predicate Facts(rows: set<Joined>) {
    forall row :: row in rows ==> !row.record.OrderFill?
  }

  predicate IsTop(rows: set<Joined>, top: Joined)
    requires Facts(rows)
  {
    top in rows && forall row :: row in rows ==> NotBelow(top.record, row.record)
  }

  lemma {:induction false} TopExists(rows: set<Joined>)
    requires Facts(rows) && rows != {}
    ensures exists top :: IsTop(rows, top)
  {
    var row :| row in rows;
    var rest := rows - {row};
    if rest == {} {
      assert rows == {row};
      assert IsTop(rows, row);
    } else {
      TopExists(rest);
      var top :| IsTop(rest, top);
      assert forall other :: other in rows ==> other == row || other in rest;
      assert IsTop(rows, if NotBelow(top.record, row.record) then top else row);
    }
  }

  /** Some order of the rows that the database may choose. */
  ghost function Listing(rows: set<Joined>): seq<Joined>
    requires Facts(rows)
  {
    if rows == {} then []
    else
      TopExists(rows);
      var top :| IsTop(rows, top);
      [top] + Listing(rows - {top})
  }

  lemma {:induction false} ListingIsOrdered(rows: set<Joined>)
    requires Facts(rows)
    ensures var list := Listing(rows);
            && (forall row :: row in list <==> row in rows)
            && (forall i, j :: 0 <= i < j < |list| ==>
                  list[i] in rows && list[j] in rows && list[i] != list[j] && NotBelow(list[i].record, list[j].record))
    decreases rows
  {
    if rows != {} {
      TopExists(rows);
      var top :| IsTop(rows, top) && Listing(rows) == [top] + Listing(rows - {top});
      var list, rest := Listing(rows), Listing(rows - {top});
      ListingIsOrdered(rows - {top});
      assert list[1..] == rest;
      forall i, j | 0 <= i < j < |list|
        ensures list[i] in rows && list[j] in rows && list[i] != list[j] && NotBelow(list[i].record, list[j].record)
      {
        assert list[j] == rest[j - 1] && rest[j - 1] in rest;
        assert i > 0 ==> list[i] == rest[i - 1];
      }
    }
  }

  lemma AnswerExists(s: State, chainId: int, q: Query)
    ensures IsAnswer(s, chainId, q, Listing(Join(s, chainId, q)))
  {
    ListingIsOrdered(Join(s, chainId, q));
  }

  // --- Contents -------------------------------------------------------------------------------------------------

  /** The facts in the view that the query asks for. */
  predicate Wanted(view: FactTable, q: Query, r: Record) {
    KeyOf(r) in view && view[KeyOf(r)] == r && Matches(q, r)
  }

  lemma JoinedIsWanted(s: State, chainId: int, q: Query, row: Joined)
    requires Referring(s) && row in Join(s, chainId, q)
    ensures Wanted(View(s, chainId), q, row.record)
  {
  }

  lemma WantedIsJoined(s: State, chainId: int, q: Query, r: Record) returns (row: Joined)
    requires Wanted(View(s, chainId), q, r)
    ensures row in Join(s, chainId, q) && row.record == r
  {
    row := Joined(r, BlockKeyOf(r));
  }

  /** A list holds exactly the user's facts in canonical blocks, each once. */
  lemma ListIsExact(s: State, chainId: int, q: Query, rows: seq<Joined>)
    requires Referring(s) && IsAnswer(s, chainId, q, rows)
    ensures forall r :: r in RecordsOfRows(rows) <==> Wanted(View(s, chainId), q, r)
    ensures forall i, j :: 0 <= i < j < |rows| ==> RecordsOfRows(rows)[i] != RecordsOfRows(rows)[j]
  {
    hide View, Join, Matches, Visible;
    var rs := RecordsOfRows(rows);
    forall r | r in rs
      ensures Wanted(View(s, chainId), q, r)
    {
      var i :| 0 <= i < |rs| && rs[i] == r;
      assert rows[i] in rows;
      JoinedIsWanted(s, chainId, q, rows[i]);
    }
    forall r | Wanted(View(s, chainId), q, r)
      ensures r in rs
    {
      var row := WantedIsJoined(s, chainId, q, r);
      var i :| 0 <= i < |rows| && rows[i] == row;
      assert rs[i] == r;
    }
    forall i, j | 0 <= i < j < |rows|
      ensures rs[i] != rs[j]
    {
      assert rows[i] in Join(s, chainId, q) && rows[j] in Join(s, chainId, q);
    }
  }

  /** A lookup by primary key has one possible answer: the fact in the view. */
  lemma LookupIsExact(s: State, chainId: int, key: FactKey, rows: seq<Joined>)
    requires Referring(s) && IsAnswer(s, chainId, ByKey(key), rows) && !key.FillKey?
    ensures rows == [] <==> key !in View(s, chainId)
    ensures rows != [] ==> |rows| == 1 && rows[0].record == View(s, chainId)[key]
  {
    ListIsExact(s, chainId, ByKey(key), rows);
    var rs := RecordsOfRows(rows);
    if key in View(s, chainId) {
      assert FactRefers(s, key);
      assert Wanted(View(s, chainId), ByKey(key), View(s, chainId)[key]);
    }
    if rows != [] {
      forall i | 0 <= i < |rs|
        ensures Wanted(View(s, chainId), ByKey(key), rs[i])
      {
        assert rs[i] in rs;
      }
      assert Wanted(View(s, chainId), ByKey(key), rs[0]) && (|rs| == 1 || Wanted(View(s, chainId), ByKey(key), rs[1]));
    }
  }

  // --- Order ------------------------------------------------------------------------------------------------------

  /** Visible facts of one block with the same transaction index stem from one transaction. */
  predicate IndexFixesTransaction(view: FactTable) {
    forall k, k' :: k in view && k' in view && !view[k].OrderFill? && !view[k'].OrderFill?
                    && view[k].base.blockNumber == view[k'].base.blockNumber
                    && view[k].base.txIndex == view[k'].base.txIndex
                    && view[k].base.blockHash == view[k'].base.blockHash
      ==> view[k].base.txHash == view[k'].base.txHash
  }

  predicate SameTable(q: Query) {
    !q.ByKey?
  }

  /** One canonical block per height, and an index that fixes the transaction, leave no ties. */
  lemma ListIsStrict(s: State, chainId: int, q: Query, rows: seq<Joined>)
    requires Referring(s) && OnePerHeight(s.blocks, chainId) && IndexFixesTransaction(View(s, chainId))
    requires IsAnswer(s, chainId, q, rows) && SameTable(q)
    ensures NoFills(RecordsOfRows(rows)) && StrictlyNewestFirst(RecordsOfRows(rows))
  {
    ListIsExact(s, chainId, q, rows);
    var rs := RecordsOfRows(rows);
    forall r | r in rs
      ensures !r.OrderFill?
    {
      assert Wanted(View(s, chainId), q, r);
    }
    forall i, j | 0 <= i < j < |rs|
      ensures Above(rs[i], rs[j])
    {
      var a, b := rs[i], rs[j];
      assert a in rs && b in rs && rows[i] in rows && rows[j] in rows;
      if NotBelow(b, a) {
        NoTies(s, chainId, q, a, b);
        assert false;
      }
    }
  }

  lemma NoTies(s: State, chainId: int, q: Query, a: Record, b: Record)
    requires Referring(s) && OnePerHeight(s.blocks, chainId) && IndexFixesTransaction(View(s, chainId)) && SameTable(q)
    requires Wanted(View(s, chainId), q, a) && Wanted(View(s, chainId), q, b)
    requires a.base.blockNumber == b.base.blockNumber && a.base.txIndex == b.base.txIndex
             && a.base.logIndex == b.base.logIndex
    ensures a == b
  {
  }

  lemma HeadIsAlone(rs: seq<Record>)
    requires rs != [] && NoFills(rs) && StrictlyNewestFirst(rs)
    ensures forall r :: r in rs[1..] <==> r in rs && r != rs[0]
  {
  }

  /** A strictly decreasing list is determined by its members. */
  lemma {:induction false} StrictListsAgree(a: seq<Record>, b: seq<Record>)
    requires NoFills(a) && NoFills(b) && StrictlyNewestFirst(a) && StrictlyNewestFirst(b)
    requires forall r :: r in a <==> r in b
    ensures a == b
    decreases |a|
  {
    if a == [] {
      assert forall i :: 0 <= i < |b| ==> b[i] in b;
    } else {
      assert a[0] in a && a[0] in b;
      assert b[0] in b && b[0] in a;
      assert a[0] == b[0];
      HeadIsAlone(a);
      HeadIsAlone(b);
      StrictListsAgree(a[1..], b[1..]);
      assert a == [a[0]] + a[1..] && b == [b[0]] + b[1..];
    }
  }

  /** Two databases with the same view answer every list alike, whatever orphans either of them holds. */
  lemma ViewDecidesLists(s: State, s': State, chainId: int, q: Query, rows: seq<Joined>, rows': seq<Joined>)
    requires Referring(s) && OnePerHeight(s.blocks, chainId) && Referring(s') && OnePerHeight(s'.blocks, chainId)
    requires View(s, chainId) == View(s', chainId) && IndexFixesTransaction(View(s, chainId)) && SameTable(q)
    requires IsAnswer(s, chainId, q, rows) && IsAnswer(s', chainId, q, rows')
    ensures RecordsOfRows(rows) == RecordsOfRows(rows')
  {
    hide IsAnswer, View, Wanted, Referring, OnePerHeight, IndexFixesTransaction;
    ListIsExact(s, chainId, q, rows);
    ListIsExact(s', chainId, q, rows');
    ListIsStrict(s, chainId, q, rows);
    ListIsStrict(s', chainId, q, rows');
    StrictListsAgree(RecordsOfRows(rows), RecordsOfRows(rows'));
  }

  /** Within each block of the chain, a transaction index belongs to one transaction. */
  predicate ChainIndexesTransactions(c: Chain) {
    forall h, l, l' :: 0 <= h < |c| && l in c[h].logs && l' in c[h].logs && l.txIndex == l'.txIndex
      ==> ToLower(l.txHash) == ToLower(l'.txHash)
  }

  /**
   * So every list read from a database that tracks a chain shows the user's facts of that chain, strictly
   * newest first.
   */
  lemma ListsOfTrackedChain(cfg: Config, s: State, x: Chain, c: int, q: Query, rows: seq<Joined>)
    requires Tracks(cfg, s, x, c) && LogsMatchBlocks(x) && ChainIndexesTransactions(x)
    requires IsAnswer(s, cfg.chainId, q, rows) && SameTable(q)
    ensures NoFills(RecordsOfRows(rows)) && StrictlyNewestFirst(RecordsOfRows(rows))
    ensures forall r :: r in RecordsOfRows(rows) <==> Wanted(FactsUpTo(cfg, x, c), q, r)
  {
    hide IsAnswer, View, FactsUpTo, Matches, RowsOf, KeyOf, ToLower;
    var view := FactsUpTo(cfg, x, c);
    forall k, k' | k in view && k' in view && !view[k].OrderFill? && !view[k'].OrderFill?
                   && view[k].base.blockNumber == view[k'].base.blockNumber
                   && view[k].base.txIndex == view[k'].base.txIndex
      ensures view[k].base.txHash == view[k'].base.txHash
    {
      var h, l := LogOfFact(cfg, x, c, k);
      var h', l' := LogOfFact(cfg, x, c, k');
    }
    TrackedIsOnePerHeight(cfg, s, x, c);
    ListIsExact(s, cfg.chainId, q, rows);
    ListIsStrict(s, cfg.chainId, q, rows);
  }

  lemma LogOfFact(cfg: Config, x: Chain, c: int, k: FactKey) returns (h: int, l: Log)
    requires -1 <= c < |x| && LogsMatchBlocks(x) && k in FactsUpTo(cfg, x, c)
    requires !FactsUpTo(cfg, x, c)[k].OrderFill?
    ensures 0 <= h < |x| && l in x[h].logs
    ensures var b := FactsUpTo(cfg, x, c)[k].base;
            b.blockNumber == h && b.txIndex == l.txIndex && b.txHash == ToLower(l.txHash)
  {
    hide RecordsOf, LogsIn, InsertAll, ToLower, Normalize;
    var rs := ChainRecords(cfg, x, cfg.startBlock, c);
    InsertAllLookup(map[], rs, k);
    FirstIsMember(rs, k);
    var r := FactsUpTo(cfg, x, c)[k];
    RecordInRange(cfg, x, cfg.startBlock, c, r);
    h, l :| 0 <= h < |x| && l in x[h].logs && r in Normalize(cfg.chainId, l, cfg.decode(l));
    assert LogMatches(x, h, l);
    NormalizeStamps(cfg.chainId, l, cfg.decode(l), r);
  }

  lemma TrackedIsOnePerHeight(cfg: Config, s: State, x: Chain, c: int)
    requires StoredRows(cfg, s, x, c)
    ensures OnePerHeight(s.blocks, cfg.chainId)
  {
  }

  // --- withCanonical ------------------------------------------------------------------------------------------------

  /** The rows that `withCanonical` joins to a fact of block `k`: it compares chain and hash only. */
  function TwoColumnMatches(blocks: BlockTable, k: BlockKey): set<BlockKey> {
    set b | b in blocks && blocks[b].canonical && b.chainId == k.chainId && b.hash == k.hash
  }

  function ThreeColumnMatches(blocks: BlockTable, k: BlockKey): set<BlockKey> {
    set b | b in blocks && blocks[b].canonical && b == k
  }

  predicate HashFixesHeight(blocks: BlockTable) {
    forall k, b :: k in blocks && b in blocks && blocks[b].canonical && b.chainId == k.chainId && b.hash == k.hash
      ==> b.number == k.number
  }

  /** The helper selects what the list queries select, for every stored block, exactly when hashes fix heights. */
  lemma TwoColumnsSuffice(blocks: BlockTable)
    ensures (forall k :: k in blocks ==> TwoColumnMatches(blocks, k) == ThreeColumnMatches(blocks, k))
            <==> HashFixesHeight(blocks)
  {
    if forall k :: k in blocks ==> TwoColumnMatches(blocks, k) == ThreeColumnMatches(blocks, k) {
      forall k, b | k in blocks && IsCanonical(blocks, b) && b.chainId == k.chainId && b.hash == k.hash
        ensures b.number == k.number
      {
        assert b in TwoColumnMatches(blocks, k);
        assert b in ThreeColumnMatches(blocks, k);
      }
    }
  }
}
