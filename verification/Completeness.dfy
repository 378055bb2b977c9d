/** No record is lost: when every record of a batch gets a row of its own, and what the lists of a chain then show. */
module Completeness {
  import opened Prelude
  import opened Records
  import opened Tables
  import opened Environment
  import opened Repository
  import opened Referential
  import opened Normalization
  import opened Chains
  import opened Recovery
  import opened Integrity
  import opened Views
  import opened Tracking
  import opened Queries

  // --- One batch --------------------------------------------------------------------------------------------------

  /** No record is stopped by one before it. */
  predicate DistinctKeys(rs: seq<Record>) {
    forall i, j :: 0 <= i < j < |rs| ==> KeyOf(rs[i]) != KeyOf(rs[j])
  }

  /** `facts` holds the row of `r`. */
  predicate Holds(facts: FactTable, r: Record) {
    KeyOf(r) in facts && facts[KeyOf(r)] == r
  }

  /** A list of records adds a row each exactly when the keys are new and differ. */
  lemma {:induction false} EachAddsARow(facts: FactTable, rs: seq<Record>)
    ensures |InsertAll(facts, rs)| <= |facts| + |rs|
    ensures |InsertAll(facts, rs)| == |facts| + |rs| <==> DistinctKeys(rs) && FreshKeys(facts, rs)
    decreases rs
  {
    hide KeyOf;
    if rs != [] {
      var next := Insert(facts, rs[0]);
      EachAddsARow(next, rs[1..]);
      assert rs == [rs[0]] + rs[1..];
      if DistinctKeys(rs) && FreshKeys(facts, rs) {
        forall r | r in rs[1..]
          ensures KeyOf(r) !in next
        {
          var j :| 0 < j < |rs| && rs[j] == r;
          assert KeyOf(rs[0]) != KeyOf(rs[j]);
        }
        assert DistinctKeys(rs[1..]);
      }
      if KeyOf(rs[0]) !in facts && DistinctKeys(rs[1..]) && FreshKeys(next, rs[1..]) {
        forall i, j | 0 <= i < j < |rs|
          ensures KeyOf(rs[i]) != KeyOf(rs[j])
        {
          assert rs[j] in rs[1..];
        }
      }
    }
  }

  /** Then every record is stored as it is, and `saveRecords` skips none of them. */
  lemma NothingIsSkipped(facts: FactTable, rs: seq<Record>)
    requires ForeignKeysHold(facts, rs)
    ensures ResultOf(facts, rs).skipped == [] <==> DistinctKeys(rs) && FreshKeys(facts, rs)
    ensures ResultOf(facts, rs).skipped == [] ==> forall r :: r in rs ==> Holds(InsertAll(facts, rs), r)
  {
    hide KeyOf, DistinctKeys, ForeignKeysHold;
    EachAddsARow(facts, rs);
    SaveAccounting(facts, rs);
    if ResultOf(facts, rs).skipped == [] {
      forall r | r in rs
        ensures Holds(InsertAll(facts, rs), r)
      {
        DistinctRecordsAreFirst(rs, r);
        InsertAllLookup(facts, rs, KeyOf(r));
      }
    }
  }

  lemma {:induction false} DistinctRecordsAreFirst(rs: seq<Record>, r: Record)
    requires DistinctKeys(rs) && r in rs
    ensures First(rs, KeyOf(r)) == Some(r)
  {
    hide KeyOf;
    if r != rs[0] {
      var j :| 0 < j < |rs| && rs[j] == r;
      assert KeyOf(rs[0]) != KeyOf(rs[j]);
      DistinctRecordsAreFirst(rs[1..], r);
    }
  }

  // --- Which logs compete for a row ---------------------------------------------------------------------------------

  predicate IsWithdrawalEvent(e: EventArgs) {
    e.Withdrawn? || e.InstantWithdraw? || e.WithdrawRequested? || e.Withdraw?
  }

  /** Both events fill the same table. */
  predicate SameTableEvents(e: EventArgs, e': EventArgs) {
    || (e.Deposited? && e'.Deposited?)
    || (IsWithdrawalEvent(e) && IsWithdrawalEvent(e'))
    || (e.OrderMatched? && e'.OrderMatched?)
  }

  /**
   * Two logs of one transaction compete: they fill the same table from the same log index, or announce the
   * same intent.
   */
  predicate Compete(decode: Decoder, l: Log, l': Log) {
    var e, e' := decode(l), decode(l');
    && ToLower(l.txHash) == ToLower(l'.txHash)
    && ((SameTableEvents(e, e') && l.logIndex == l'.logIndex)
        || (e.IntentMatched? && e'.IntentMatched? && ToLower(e.intentHash) == ToLower(e'.intentHash)))
  }

  /** The two orders of a match agree in the ten characters that tell their fills apart. */
  predicate Ambiguous(e: EventArgs) {
    e.OrderMatched? && Prefix(ToLower(e.orderHash0), 10) == Prefix(ToLower(e.orderHash1), 10)
  }

  predicate Apart(decode: Decoder, logs: seq<Log>) {
    && (forall i, j :: 0 <= i < j < |logs| ==> !Compete(decode, logs[i], logs[j]))
    && (forall l :: l in logs ==> !Ambiguous(decode(l)))
  }

  predicate PlainHashes(logs: seq<Log>) {
    forall l :: l in logs ==> '_' !in ToLower(l.txHash)
  }

  ghost predicate ShareKey(rs: seq<Record>, rs': seq<Record>) {
    exists r, r' :: r in rs && r' in rs' && KeyOf(r) == KeyOf(r')
  }

  /** Logs compete exactly when two of their records share a key. */
  lemma CompetingLogsShareKey(decode: Decoder, chainId: int, l: Log, l': Log)
    requires '_' !in ToLower(l.txHash) && '_' !in ToLower(l'.txHash)
    ensures ShareKey(Normalize(chainId, l, decode(l)), Normalize(chainId, l', decode(l'))) <==> Compete(decode, l, l')
  {
    hide ToLower, Normalize, KeyOf, KindOf, SameTableEvents, Prefix;
    var e, e' := decode(l), decode(l');
    var rs, rs' := Normalize(chainId, l, e), Normalize(chainId, l', e');
    if r, r' :| r in rs && r' in rs' && KeyOf(r) == KeyOf(r') {
      KeysTellRecords(chainId, l, e, r, l', e', r');
      SameKindSameTable(chainId, l, e, r, l', e', r');
    }
    if Compete(decode, l, l') {
      var r, r' := RecordsInSameTable(chainId, l, e, l', e');
      KeysTellRecords(chainId, l, e, r, l', e', r');
    }
  }

  lemma SameKindSameTable(chainId: int, l: Log, e: EventArgs, r: Record, l': Log, e': EventArgs, r': Record)
    requires r in Normalize(chainId, l, e) && r' in Normalize(chainId, l', e') && KindOf(r) == KindOf(r')
    ensures !r.Swap? ==> SameTableEvents(e, e')
    ensures r.Swap? ==>
              && e.IntentMatched? && e'.IntentMatched? && r'.Swap?
              && r.intentHash == ToLower(e.intentHash) && r'.intentHash == ToLower(e'.intentHash)
  {
    hide ToLower, FillIdOf, Decimal;
  }

  lemma RecordsInSameTable(chainId: int, l: Log, e: EventArgs, l': Log, e': EventArgs) returns (r: Record, r': Record)
    requires SameTableEvents(e, e') || (e.IntentMatched? && e'.IntentMatched?)
    ensures r in Normalize(chainId, l, e) && r' in Normalize(chainId, l', e') && KindOf(r) == KindOf(r')
    ensures !r.OrderFill? && (r.Swap? <==> e.IntentMatched?) && (r.Swap? ==> !SameTableEvents(e, e'))
    ensures r.Swap? ==>
              r'.Swap? && r.intentHash == ToLower(e.intentHash) && r'.intentHash == ToLower(e'.intentHash)
  {
    hide ToLower, FillIdOf, Decimal;
    var rs, rs' := Normalize(chainId, l, e), Normalize(chainId, l', e');
    r, r' := rs[0], rs'[0];
  }

  /** The records of one log differ in their keys unless its two fills do not. */
  lemma KeysOfOneLog(chainId: int, l: Log, e: EventArgs)
    requires '_' !in ToLower(l.txHash)
    ensures DistinctKeys(Normalize(chainId, l, e)) <==> !Ambiguous(e)
  {
    hide ToLower, FillIdOf, Decimal, Prefix;
    if e.OrderMatched? {
      var rs := Normalize(chainId, l, e);
      KeysTellRecords(chainId, l, e, rs[1], l, e, rs[2]);
    }
  }

  lemma DistinctConcat(a: seq<Record>, b: seq<Record>)
    ensures DistinctKeys(a + b) <==> DistinctKeys(a) && DistinctKeys(b) && !ShareKey(a, b)
  {
    hide KeyOf;
    var ab := a + b;
    if DistinctKeys(ab) {
      forall i, j | 0 <= i < j < |b|
        ensures KeyOf(b[i]) != KeyOf(b[j])
      {
        assert ab[|a| + i] == b[i] && ab[|a| + j] == b[j];
      }
      forall i, j | 0 <= i < j < |a|
        ensures KeyOf(a[i]) != KeyOf(a[j])
      {
        assert ab[i] == a[i] && ab[j] == a[j];
      }
      forall r, r' | r in a && r' in b
        ensures KeyOf(r) != KeyOf(r')
      {
        var i :| 0 <= i < |a| && a[i] == r;
        var j :| 0 <= j < |b| && b[j] == r';
        assert ab[i] == r && ab[|a| + j] == r';
      }
    }
    if DistinctKeys(a) && DistinctKeys(b) && !ShareKey(a, b) {
      forall i, j | 0 <= i < j < |ab|
        ensures KeyOf(ab[i]) != KeyOf(ab[j])
      {
        if i < |a| <= j {
          assert ab[i] in a && ab[j] in b;
        }
      }
    }
  }

  /** The records of a batch have different keys exactly when none of its logs compete and no match is ambiguous. */
  lemma {:induction false} DistinctIffApart(decode: Decoder, chainId: int, logs: seq<Log>)
    requires PlainHashes(logs)
    ensures DistinctKeys(RecordsOf(decode, chainId, logs)) <==> Apart(decode, logs)
  {
    hide ToLower, Normalize, DistinctKeys, Ambiguous, Compete, ShareKey;
    if logs == [] {
      assert DistinctKeys([]) by {
        NoKeys();
      }
    } else {
      var head, rest := logs[0], logs[1..];
      var first, more := Normalize(chainId, head, decode(head)), RecordsOf(decode, chainId, rest);
      assert logs == [head] + rest;
      assert head in logs;
      DistinctIffApart(decode, chainId, rest);
      KeysOfOneLog(chainId, head, decode(head));
      DistinctConcat(first, more);
      HeadCompetes(decode, chainId, head, rest);
      ApartCons(decode, head, rest);
    }
  }

  lemma NoKeys()
    ensures DistinctKeys([])
  {
  }

  lemma ApartCons(decode: Decoder, head: Log, rest: seq<Log>)
    ensures Apart(decode, [head] + rest)
            <==> Apart(decode, rest) && !Ambiguous(decode(head)) && forall l :: l in rest ==> !Compete(decode, head, l)
  {
    hide Compete, Ambiguous;
    var logs := [head] + rest;
    assert logs[0] == head && logs[1..] == rest;
    if Apart(decode, logs) {
      forall l | l in rest
        ensures !Compete(decode, head, l)
      {
        var j :| 0 <= j < |rest| && rest[j] == l;
        assert logs[j + 1] == l;
      }
      forall i, j | 0 <= i < j < |rest|
        ensures !Compete(decode, rest[i], rest[j])
      {
        assert logs[i + 1] == rest[i] && logs[j + 1] == rest[j];
      }
    }
    if Apart(decode, rest) && !Ambiguous(decode(head)) && forall l :: l in rest ==> !Compete(decode, head, l) {
      forall i, j | 0 <= i < j < |logs|
        ensures !Compete(decode, logs[i], logs[j])
      {
        assert logs[j] == rest[j - 1] && (i > 0 ==> logs[i] == rest[i - 1]);
      }
    }
  }

  /** A log shares a key with the logs after it exactly when it competes with one of them. */
  lemma HeadCompetes(decode: Decoder, chainId: int, head: Log, rest: seq<Log>)
    requires '_' !in ToLower(head.txHash) && PlainHashes(rest)
    ensures ShareKey(Normalize(chainId, head, decode(head)), RecordsOf(decode, chainId, rest))
            <==> exists l :: l in rest && Compete(decode, head, l)
  {
    hide ToLower, Normalize, Compete, RecordsOf, KeyOf;
    var first, more := Normalize(chainId, head, decode(head)), RecordsOf(decode, chainId, rest);
    if r, r' :| r in first && r' in more && KeyOf(r) == KeyOf(r') {
      RecordsMembers(decode, chainId, rest, r');
      var l :| l in rest && r' in Normalize(chainId, l, decode(l));
      CompetingLogsShareKey(decode, chainId, head, l);
    }
    if l :| l in rest && Compete(decode, head, l) {
      CompetingLogsShareKey(decode, chainId, head, l);
      var r, r' :| r in first && r' in Normalize(chainId, l, decode(l)) && KeyOf(r) == KeyOf(r');
      RecordsMembers(decode, chainId, rest, r');
    }
  }

  /**
   * Saving a batch of logs stores each of its records, and skips none, exactly when no two of its logs
   * compete for a row, no match is ambiguous, and no key was taken before.
   */
  lemma NothingIsLost(facts: FactTable, decode: Decoder, chainId: int, logs: seq<Log>)
    requires PlainHashes(logs)
    ensures var rs := RecordsOf(decode, chainId, logs); var after := InsertAll(facts, rs);
            && (|after| == |facts| + |rs| <==> Apart(decode, logs) && FreshKeys(facts, rs))
            && (ResultOf(facts, rs).skipped == [] <==> Apart(decode, logs) && FreshKeys(facts, rs))
            && (|after| == |facts| + |rs| ==>
                  forall l, r :: l in logs && r in Normalize(chainId, l, decode(l)) ==> Holds(after, r))
  {
    hide RecordsOf, InsertAll, DistinctKeys, Apart, ResultOf, ForeignKeysHold, Normalize, FreshKeys, Holds, ToLower;
    var rs := RecordsOf(decode, chainId, logs);
    DistinctIffApart(decode, chainId, logs);
    NormalizedForeignKeys(facts, decode, chainId, logs);
    EachAddsARow(facts, rs);
    NothingIsSkipped(facts, rs);
    forall l, r | l in logs && r in Normalize(chainId, l, decode(l))
      ensures r in rs
    {
      RecordsMembers(decode, chainId, logs, r);
    }
  }

  // --- A tracked chain ------------------------------------------------------------------------------------------

  /** Log `l` is in one of the indexed blocks of the chain. */
  predicate IsIndexed(cfg: Config, x: Chain, c: int, h: int, l: Log) {
    cfg.startBlock <= h <= c && h < |x| && l in x[h].logs
  }

  /** No record of the indexed blocks stops another. */
  predicate KeepsAll(cfg: Config, x: Chain, c: int)
    requires c < |x|
  {
    var logs := LogsIn(x, cfg.startBlock, c);
    PlainHashes(logs) && Apart(cfg.decode, logs)
  }

  /** Readers of a database that tracks such a chain see each record of each of its logs, and nothing else. */
  lemma TrackedViewIsComplete(cfg: Config, s: State, x: Chain, c: int, r: Record)
    requires Tracks(cfg, s, x, c) && KeepsAll(cfg, x, c)
    ensures Holds(View(s, cfg.chainId), r)
            <==> exists h, l :: IsIndexed(cfg, x, c, h, l) && r in Normalize(cfg.chainId, l, cfg.decode(l))
  {
    hide RecordsOf, InsertAll, Apart, ResultOf, Normalize, ToLower, View, LogsIn, KeyOf;
    var logs := LogsIn(x, cfg.startBlock, c);
    var rs := RecordsOf(cfg.decode, cfg.chainId, logs);
    NothingIsLost(map[], cfg.decode, cfg.chainId, logs);
    if Holds(View(s, cfg.chainId), r) {
      InsertAllLookup(map[], rs, KeyOf(r));
      FirstIsMember(rs, KeyOf(r));
      RecordsMembers(cfg.decode, cfg.chainId, logs, r);
      var l :| l in logs && r in Normalize(cfg.chainId, l, cfg.decode(l));
      LogsMembers(x, cfg.startBlock, c, l);
      var h :| cfg.startBlock <= h <= c && l in x[h].logs;
      assert IsIndexed(cfg, x, c, h, l);
    }
    if h, l :| IsIndexed(cfg, x, c, h, l) && r in Normalize(cfg.chainId, l, cfg.decode(l)) {
      LogsMembers(x, cfg.startBlock, c, l);
    }
  }

  // --- The lists ------------------------------------------------------------------------------------------------

  /** The event concerns the user that the list is about, on either side of a match. */
  predicate Asks(q: Query, e: EventArgs) {
    match q
    case DepositsOf(user) => e.Deposited? && ToLower(e.user) == user
    case WithdrawalsOf(user) =>
      ((e.Withdrawn? || e.InstantWithdraw? || e.WithdrawRequested?) && ToLower(e.user) == user)
      || (e.Withdraw? && ToLower(e.to) == user)
    case TradesOf(user) => e.OrderMatched? && (ToLower(e.user0) == user || ToLower(e.user1) == user)
    case ByKey(_) => false
  }

  lemma EventsMatch(chainId: int, q: Query, l: Log, e: EventArgs)
    requires SameTable(q)
    ensures Asks(q, e) <==> exists r :: r in Normalize(chainId, l, e) && Matches(q, r)
  {
    hide ToLower, FillIdOf, Decimal;
    var rs := Normalize(chainId, l, e);
    if Asks(q, e) {
      assert rs[0] in rs;
    }
  }

  /** The row is the record of log `l` at height `h`. */
  predicate Shows(cfg: Config, r: Record, h: int, l: Log) {
    && r in Normalize(cfg.chainId, l, cfg.decode(l)) && !r.OrderFill?
    && r.base.blockNumber == h && r.base.txIndex == l.txIndex && r.base.logIndex == l.logIndex
    && r.base.txHash == ToLower(l.txHash)
  }

  /** Later in the chain: by block, then by transaction index, then by log index. */
  predicate Later(b: nat, t: nat, i: nat, b': nat, t': nat, i': nat) {
    b > b' || (b == b' && t > t') || (b == b' && t == t' && i > i')
  }

  ghost predicate RowOfEvent(cfg: Config, x: Chain, c: int, q: Query, r: Record) {
    exists h, l :: IsIndexed(cfg, x, c, h, l) && Asks(q, cfg.decode(l)) && Shows(cfg, r, h, l)
  }

  ghost predicate EventHasRow(cfg: Config, rows: seq<Joined>, h: int, l: Log) {
    exists i :: 0 <= i < |rows| && Shows(cfg, rows[i].record, h, l)
  }

  /**
   * The list of a user shows exactly the events of the chain that concern the user, each in one row, newest
   * first by block, transaction and log index.
   */
  lemma ListShowsEvents(cfg: Config, s: State, x: Chain, c: int, q: Query, rows: seq<Joined>)
    requires Tracks(cfg, s, x, c) && LogsMatchBlocks(x) && ChainIndexesTransactions(x) && KeepsAll(cfg, x, c)
    requires IsAnswer(s, cfg.chainId, q, rows) && SameTable(q)
    ensures forall i :: 0 <= i < |rows| ==> RowOfEvent(cfg, x, c, q, rows[i].record)
    ensures forall h, l :: IsIndexed(cfg, x, c, h, l) && Asks(q, cfg.decode(l)) ==> EventHasRow(cfg, rows, h, l)
    ensures forall i, j :: 0 <= i < j < |rows| ==>
              !rows[i].record.OrderFill? && !rows[j].record.OrderFill?
              && var a, b := rows[i].record.base, rows[j].record.base;
                 Later(a.blockNumber, a.txIndex, a.logIndex, b.blockNumber, b.txIndex, b.logIndex)
  {
    hide IsAnswer, View, FactsUpTo, Matches, RowsOf, KeyOf, ToLower, Normalize, Asks, KeepsAll, StoredRows, Referring,
      Tracks, IsIndexed, Shows, Wanted, Later;
    var rs := RecordsOfRows(rows);
    ListsOfTrackedChain(cfg, s, x, c, q, rows);
    forall i | 0 <= i < |rows|
      ensures RowOfEvent(cfg, x, c, q, rows[i].record)
    {
      assert rs[i] in rs;
      WantedIsLogged(cfg, s, x, c, q, rs[i]);
    }
    forall h, l | IsIndexed(cfg, x, c, h, l) && Asks(q, cfg.decode(l))
      ensures EventHasRow(cfg, rows, h, l)
    {
      var r := LoggedIsWanted(cfg, s, x, c, q, h, l);
      assert r in rs;
      var i :| 0 <= i < |rs| && rs[i] == r;
      assert rows[i].record == r;
    }
    forall i, j | 0 <= i < j < |rows|
      ensures !rows[i].record.OrderFill? && !rows[j].record.OrderFill?
      ensures var a, b := rows[i].record.base, rows[j].record.base;
              Later(a.blockNumber, a.txIndex, a.logIndex, b.blockNumber, b.txIndex, b.logIndex)
    {
      assert rs[i] in rs && rs[j] in rs && Above(rs[i], rs[j]);
      AboveIsLater(rs[i], rs[j]);
    }
  }

  lemma AboveIsLater(r: Record, r': Record)
    requires !r.OrderFill? && !r'.OrderFill?
    ensures var a, b := r.base, r'.base;
            Above(r, r') <==> Later(a.blockNumber, a.txIndex, a.logIndex, b.blockNumber, b.txIndex, b.logIndex)
  {
  }

  lemma WantedIsLogged(cfg: Config, s: State, x: Chain, c: int, q: Query, r: Record)
    requires Tracks(cfg, s, x, c) && LogsMatchBlocks(x) && KeepsAll(cfg, x, c) && SameTable(q)
    requires Wanted(FactsUpTo(cfg, x, c), q, r) && !r.OrderFill?
    ensures RowOfEvent(cfg, x, c, q, r)
  {
    hide View, FactsUpTo, Matches, RowsOf, KeyOf, ToLower, Normalize, Asks, KeepsAll, StoredRows, Referring;
    TrackedViewIsComplete(cfg, s, x, c, r);
    var h, l :| IsIndexed(cfg, x, c, h, l) && r in Normalize(cfg.chainId, l, cfg.decode(l));
    EventsMatch(cfg.chainId, q, l, cfg.decode(l));
    NormalizeStamps(cfg.chainId, l, cfg.decode(l), r);
    assert LogMatches(x, h, l);
    assert Shows(cfg, r, h, l);
  }

  lemma LoggedIsWanted(cfg: Config, s: State, x: Chain, c: int, q: Query, h: int, l: Log) returns (r: Record)
    requires Tracks(cfg, s, x, c) && LogsMatchBlocks(x) && KeepsAll(cfg, x, c) && SameTable(q)
    requires IsIndexed(cfg, x, c, h, l) && Asks(q, cfg.decode(l))
    ensures Wanted(FactsUpTo(cfg, x, c), q, r) && Shows(cfg, r, h, l)
  {
    hide View, FactsUpTo, RowsOf, KeyOf, ToLower, Normalize, Asks, KeepsAll, StoredRows, Referring;
    EventsMatch(cfg.chainId, q, l, cfg.decode(l));
    r :| r in Normalize(cfg.chainId, l, cfg.decode(l)) && Matches(q, r);
    TrackedViewIsComplete(cfg, s, x, c, r);
    NormalizeStamps(cfg.chainId, l, cfg.decode(l), r);
    assert LogMatches(x, h, l);
  }

  /** The key of a lookup names this log: its transaction and index, and a table that its event fills. */
  predicate Names(cfg: Config, key: FactKey, l: Log) {
    var e := cfg.decode(l);
    match key
    case DepositKey(tx, i, n) => e.Deposited? && tx == ToLower(l.txHash) && i == l.logIndex && n == cfg.chainId
    case WithdrawalKey(tx, i, n) =>
      IsWithdrawalEvent(e) && tx == ToLower(l.txHash) && i == l.logIndex && n == cfg.chainId
    case TradeKey(tx, i, n) => e.OrderMatched? && tx == ToLower(l.txHash) && i == l.logIndex && n == cfg.chainId
    case SwapKey(intent, tx, n) =>
      e.IntentMatched? && intent == ToLower(e.intentHash) && tx == ToLower(l.txHash) && n == cfg.chainId
    case FillKey(_) => false
  }

  lemma NamedRecord(cfg: Config, key: FactKey, l: Log)
    requires !key.FillKey?
    ensures Names(cfg, key, l) <==> exists r :: r in Normalize(cfg.chainId, l, cfg.decode(l)) && KeyOf(r) == key
  {
    hide ToLower, FillIdOf, Decimal;
    if Names(cfg, key, l) {
      var rs := Normalize(cfg.chainId, l, cfg.decode(l));
      assert rs[0] in rs;
    }
  }

  /** A lookup finds a row exactly when an indexed log of the chain has that place, and shows that log's record. */
  lemma LookupShowsEvent(cfg: Config, s: State, x: Chain, c: int, key: FactKey, rows: seq<Joined>)
    requires Tracks(cfg, s, x, c) && LogsMatchBlocks(x) && KeepsAll(cfg, x, c)
    requires IsAnswer(s, cfg.chainId, ByKey(key), rows) && !key.FillKey?
    ensures rows != [] <==> exists h, l :: IsIndexed(cfg, x, c, h, l) && Names(cfg, key, l)
    ensures rows != [] ==> |rows| == 1 && exists h, l ::
              IsIndexed(cfg, x, c, h, l) && Names(cfg, key, l) && Shows(cfg, rows[0].record, h, l)
  {
    hide IsAnswer, View, FactsUpTo, RowsOf, KeyOf, ToLower, Normalize, KeepsAll, StoredRows, Names, FactRefers;
    LookupIsExact(s, cfg.chainId, key, rows);
    if rows != [] {
      var r := rows[0].record;
      ViewedFact(s, cfg.chainId, key);
      TrackedViewIsComplete(cfg, s, x, c, r);
      var h, l :| IsIndexed(cfg, x, c, h, l) && r in Normalize(cfg.chainId, l, cfg.decode(l));
      NamedRecord(cfg, key, l);
      NormalizeStamps(cfg.chainId, l, cfg.decode(l), r);
      assert LogMatches(x, h, l);
      assert Shows(cfg, r, h, l);
    }
    if h, l :| IsIndexed(cfg, x, c, h, l) && Names(cfg, key, l) {
      NamedRecord(cfg, key, l);
      var r :| r in Normalize(cfg.chainId, l, cfg.decode(l)) && KeyOf(r) == key;
      TrackedViewIsComplete(cfg, s, x, c, r);
    }
  }

  lemma ViewedFact(s: State, chainId: int, key: FactKey)
    requires Referring(s) && key in View(s, chainId) && !key.FillKey?
    ensures Holds(View(s, chainId), View(s, chainId)[key]) && KeyOf(View(s, chainId)[key]) == key
    ensures !View(s, chainId)[key].OrderFill?
  {
    assert FactRefers(s, key);
  }
}
