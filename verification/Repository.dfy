/** `KyselyRecordRepository.saveRecords`: five grouped, conflict-ignoring insert passes. */
module Repository {
  import opened Prelude
  import opened Records
  import opened Tables

  datatype Kind = DepositKind | WithdrawalKind | TradeKind | FillKind | SwapKind

  function KindOf(r: Record): Kind {
    match r
    case Deposit(_, _, _, _) => DepositKind
    case Withdrawal(_, _, _, _, _, _) => WithdrawalKind
    case Trade(_, _, _, _, _, _, _, _, _, _, _, _) => TradeKind
    case OrderFill(_, _, _, _, _, _, _, _) => FillKind
    case Swap(_, _, _, _) => SwapKind
  }

  function KindOfKey(k: FactKey): Kind {
    match k
    case DepositKey(_, _, _) => DepositKind
    case WithdrawalKey(_, _, _) => WithdrawalKind
    case TradeKey(_, _, _) => TradeKind
    case FillKey(_) => FillKind
    case SwapKey(_, _, _) => SwapKind
  }

  function OfKind(kind: Kind, rs: seq<Record>): seq<Record> {
    if rs == [] then []
    else if KindOf(rs[0]) == kind then [rs[0]] + OfKind(kind, rs[1..])
    else OfKind(kind, rs[1..])
  }

  /** The order in which `saveRecords` inserts. */
  function Grouped(rs: seq<Record>): seq<Record> {
    OfKind(DepositKind, rs) + OfKind(WithdrawalKind, rs) + OfKind(TradeKind, rs)
      + OfKind(FillKind, rs) + OfKind(SwapKind, rs)
  }

  // --- One in-order, first-wins pass ---------------------------------------------------------------

  function InsertAll(facts: FactTable, rs: seq<Record>): FactTable
    decreases rs
  {
    if rs == [] then facts else InsertAll(Insert(facts, rs[0]), rs[1..])
  }

  /** The first record of `rs` with key `k`. */
  function First(rs: seq<Record>, k: FactKey): Option<Record> {
    if rs == [] then None
    else if KeyOf(rs[0]) == k then Some(rs[0])
    else First(rs[1..], k)
  }

  /** What a table holding `facts` answers for `k` once `rs` has been inserted. */
  function Lookup(facts: FactTable, rs: seq<Record>, k: FactKey): Option<Record> {
    if k in facts then Some(facts[k]) else First(rs, k)
  }

  lemma {:induction false} InsertAllLookup(facts: FactTable, rs: seq<Record>, k: FactKey)
    ensures k in InsertAll(facts, rs) <==> Lookup(facts, rs, k).Some?
    ensures k in InsertAll(facts, rs) ==> InsertAll(facts, rs)[k] == Lookup(facts, rs, k).value
    decreases rs
  {
    if rs != [] {
      InsertAllLookup(Insert(facts, rs[0]), rs[1..], k);
    }
  }

  /** Two insert runs with the same answers leave the same table. */
  lemma SameLookups(f: FactTable, a: seq<Record>, g: FactTable, b: seq<Record>)
    requires forall k :: Lookup(f, a, k) == Lookup(g, b, k)
    ensures InsertAll(f, a) == InsertAll(g, b)
  {
    forall k
      ensures k in InsertAll(f, a) <==> k in InsertAll(g, b)
      ensures k in InsertAll(f, a) ==> InsertAll(f, a)[k] == InsertAll(g, b)[k]
    {
      InsertAllLookup(f, a, k);
      InsertAllLookup(g, b, k);
      assert Lookup(f, a, k) == Lookup(g, b, k);
    }
  }

  lemma {:induction false} FirstOfConcat(a: seq<Record>, b: seq<Record>, k: FactKey)
    ensures First(a + b, k) == if First(a, k).Some? then First(a, k) else First(b, k)
  {
    if a == [] {
      assert a + b == b;
    } else {
      assert (a + b)[1..] == a[1..] + b;
      FirstOfConcat(a[1..], b, k);
    }
  }

  lemma {:induction false} FirstIsMember(rs: seq<Record>, k: FactKey)
    ensures First(rs, k).Some? ==> First(rs, k).value in rs && KeyOf(First(rs, k).value) == k
    ensures First(rs, k).None? ==> forall r :: r in rs ==> KeyOf(r) != k
  {
    if rs != [] {
      FirstIsMember(rs[1..], k);
    }
  }

  lemma {:induction false} FirstOfKind(kind: Kind, rs: seq<Record>, k: FactKey)
    ensures First(OfKind(kind, rs), k) == if KindOfKey(k) == kind then First(rs, k) else None
  {
    if rs != [] {
      FirstOfKind(kind, rs[1..], k);
      assert ([rs[0]] + OfKind(kind, rs[1..]))[1..] == OfKind(kind, rs[1..]);
      assert KindOfKey(KeyOf(rs[0])) == KindOf(rs[0]);
    }
  }

  /** Saving `a ++ b` is saving `a` and then `b`. */
  lemma {:induction false} InsertAllConcat(facts: FactTable, a: seq<Record>, b: seq<Record>)
    ensures InsertAll(facts, a + b) == InsertAll(InsertAll(facts, a), b)
    decreases a
  {
    if a == [] {
      assert a + b == b;
    } else {
      assert (a + b)[1..] == a[1..] + b;
      InsertAllConcat(Insert(facts, a[0]), a[1..], b);
    }
  }

  /** Stored rows are never changed or removed. */
  lemma InsertAllKeepsRows(facts: FactTable, rs: seq<Record>)
    ensures forall k :: k in facts ==> k in InsertAll(facts, rs) && InsertAll(facts, rs)[k] == facts[k]
  {
    forall k | k in facts
      ensures k in InsertAll(facts, rs) && InsertAll(facts, rs)[k] == facts[k]
    {
      InsertAllLookup(facts, rs, k);
    }
  }

  /** The five grouped passes leave the same tables as one pass in record order. */
  lemma GroupingIsInvisible(facts: FactTable, rs: seq<Record>)
    ensures InsertAll(facts, Grouped(rs)) == InsertAll(facts, rs)
  {
    forall k
      ensures Lookup(facts, Grouped(rs), k) == Lookup(facts, rs, k)
    {
      var d, w, t := OfKind(DepositKind, rs), OfKind(WithdrawalKind, rs), OfKind(TradeKind, rs);
      var f, s := OfKind(FillKind, rs), OfKind(SwapKind, rs);
      FirstOfConcat(d + w + t + f, s, k);
      FirstOfConcat(d + w + t, f, k);
      FirstOfConcat(d + w, t, k);
      FirstOfConcat(d, w, k);
      FirstOfKind(DepositKind, rs, k);
      FirstOfKind(WithdrawalKind, rs, k);
      FirstOfKind(TradeKind, rs, k);
      FirstOfKind(FillKind, rs, k);
      FirstOfKind(SwapKind, rs, k);
    }
    SameLookups(facts, Grouped(rs), facts, rs);
  }

  /** Saving again what is already stored changes nothing. */
  lemma {:induction false} ResaveIsIdle(facts: FactTable, rs: seq<Record>)
    requires forall r :: r in rs ==> KeyOf(r) in facts
    ensures InsertAll(facts, rs) == facts
  {
    if rs != [] {
      assert rs[0] in rs;
      assert Insert(facts, rs[0]) == facts;
      ResaveIsIdle(facts, rs[1..]);
    }
  }

  // --- The statements of saveRecords ---------------------------------------------------------------

  /** Where a run of inserts stands: the table, the two result lists, and whether it is still alive. */
  datatype Tally = Tally(facts: FactTable, inserted: seq<Record>, skipped: seq<Record>, fuse: Fuse, ok: bool)

  function SaveOne(t: Tally, r: Record): Tally {
    var burnt := t.(fuse := Burn(t.fuse, 1));
    if Blown(t.fuse, 1) || !ForeignKeyHolds(t.facts, r) then burnt.(ok := false)
    else if KeyOf(r) in t.facts then burnt.(skipped := t.skipped + [r])
    else burnt.(facts := t.facts[KeyOf(r) := r], inserted := t.inserted + [r])
  }

  function Save(t: Tally, rs: seq<Record>): Tally
    decreases rs
  {
    if rs == [] || !t.ok then t else Save(SaveOne(t, rs[0]), rs[1..])
  }

  datatype PersistenceResult = PersistenceResult(
    inserted: seq<Record>, updated: seq<Record>, skipped: seq<Record>,
    insertedCount: nat, updatedCount: nat, skippedCount: nat)

  /** One of the five loops: inserts a group and files each record under inserted or skipped. */
  method InsertGroup(db: Database, group: seq<Record>, start: PersistenceResult)
    returns (res: Result<PersistenceResult, Error>)
    requires start.insertedCount == |start.inserted| && start.skippedCount == |start.skipped|
    modifies db`facts, db`fuse
    ensures var t := Save(Tally(old(db.facts), start.inserted, start.skipped, old(db.fuse), true), group);
            && db.facts == t.facts && db.fuse == t.fuse
            && (res.Success? <==> t.ok)
            && (res.Success? ==> res.value == start.(inserted := t.inserted, skipped := t.skipped,
                  insertedCount := |t.inserted|, skippedCount := |t.skipped|))
            && (res.Failure? ==> res.error == PersistenceError)
  {
    var acc := start;
    ghost var goal := Save(Tally(db.facts, start.inserted, start.skipped, db.fuse, true), group);
    for i := 0 to |group|
      invariant goal == Save(Tally(db.facts, acc.inserted, acc.skipped, db.fuse, true), group[i..])
      invariant acc == start.(inserted := acc.inserted, skipped := acc.skipped,
                  insertedCount := |acc.inserted|, skippedCount := |acc.skipped|)
    {
      assert group[i..][1..] == group[i + 1..];
      var row := db.InsertFact(group[i]);
      if row.Failure? {
        return Failure(row.error);
      }
      if row.value {
        acc := acc.(inserted := acc.inserted + [group[i]], insertedCount := acc.insertedCount + 1);
      } else {
        acc := acc.(skipped := acc.skipped + [group[i]], skippedCount := acc.skippedCount + 1);
      }
    }
    assert group[|group|..] == [];
    res := Success(acc);
  }

  lemma {:induction false} SaveConcat(t: Tally, a: seq<Record>, b: seq<Record>)
    ensures Save(t, a + b) == Save(Save(t, a), b)
    decreases a
  {
    if a == [] {
      assert a + b == b;
    } else if t.ok {
      assert (a + b)[1..] == a[1..] + b;
      SaveConcat(SaveOne(t, a[0]), a[1..], b);
    }
  }

  method SaveRecords(db: Database, records: seq<Record>) returns (res: Result<PersistenceResult, Error>)
    modifies db`facts, db`fuse
    ensures res.Success? <==> !Blown(old(db.fuse), |records|) && ForeignKeysHold(old(db.facts), records)
    ensures res.Failure? ==> res.error == PersistenceError
    ensures res.Success? ==> db.facts == InsertAll(old(db.facts), records)
                             && db.fuse == Burn(old(db.fuse), |records|)
                             && res.value == ResultOf(old(db.facts), records)
  {
    ghost var start := Tally(db.facts, [], [], db.fuse, true);
    SaveOutcome(db.facts, db.fuse, records);
    if records == [] {
      return Success(PersistenceResult([], [], [], 0, 0, 0));
    }
    var deposits := OfKind(DepositKind, records);
    var withdrawals := OfKind(WithdrawalKind, records);
    var trades := OfKind(TradeKind, records);
    var fills := OfKind(FillKind, records);
    var swaps := OfKind(SwapKind, records);
    SaveConcat(start, deposits + withdrawals + trades + fills, swaps);
    SaveConcat(start, deposits + withdrawals + trades, fills);
    SaveConcat(start, deposits + withdrawals, trades);
    SaveConcat(start, deposits, withdrawals);
    var r1 :- InsertGroup(db, deposits, PersistenceResult([], [], [], 0, 0, 0));
    var r2 :- InsertGroup(db, withdrawals, r1);
    var r3 :- InsertGroup(db, trades, r2);
    var r4 :- InsertGroup(db, fills, r3);
    var r5 :- InsertGroup(db, swaps, r4);
    res := Success(r5);
  }

  // --- What saveRecords means ----------------------------------------------------------------------

  /** Inserting `rs` in order meets no foreign key violation. */
  predicate RunsClean(facts: FactTable, rs: seq<Record>)
    decreases rs
  {
    rs == [] || (ForeignKeyHolds(facts, rs[0]) && RunsClean(Insert(facts, rs[0]), rs[1..]))
  }

  /** Every fill that is going to be inserted finds its trade, stored before or arriving in the same batch. */
  ghost predicate ForeignKeysHold(facts: FactTable, rs: seq<Record>) {
    forall r :: r in rs && r.OrderFill? && KeyOf(r) !in facts && First(rs, KeyOf(r)) == Some(r)
      ==> TradeKeyOf(r) in InsertAll(facts, rs)
  }

  ghost function ResultOf(facts: FactTable, rs: seq<Record>): PersistenceResult {
    var t := Save(Tally(facts, [], [], None, true), Grouped(rs));
    PersistenceResult(t.inserted, [], t.skipped, |t.inserted|, 0, |t.skipped|)
  }

  lemma {:induction false} SaveMeaning(t: Tally, rs: seq<Record>)
    requires t.ok
    ensures var s := Save(t, rs);
            && (s.ok <==> !Blown(t.fuse, |rs|) && RunsClean(t.facts, rs))
            && (s.ok ==> s.facts == InsertAll(t.facts, rs) && s.fuse == Burn(t.fuse, |rs|)
                         && |s.inserted| - |t.inserted| == |s.facts| - |t.facts|
                         && multiset(s.inserted) + multiset(s.skipped)
                            == multiset(t.inserted) + multiset(t.skipped) + multiset(rs))
    decreases rs
  {
    hide KeyOf, TradeKeyOf;
    if rs != [] {
      assert rs == [rs[0]] + rs[1..];
      if SaveOne(t, rs[0]).ok {
        SaveMeaning(SaveOne(t, rs[0]), rs[1..]);
      }
    }
  }

  lemma {:induction false} InsertedRowsAreNew(t: Tally, rs: seq<Record>)
    requires t.ok && Save(t, rs).ok
    ensures var s := Save(t, rs);
            && (forall k :: k in t.facts ==> k in s.facts && s.facts[k] == t.facts[k])
            && (forall r :: r in s.inserted ==>
                  r in t.inserted || (KeyOf(r) !in t.facts && KeyOf(r) in s.facts && s.facts[KeyOf(r)] == r))
            && (forall r :: r in s.skipped ==> r in t.skipped || KeyOf(r) in s.facts)
    decreases rs
  {
    if rs != [] {
      InsertedRowsAreNew(SaveOne(t, rs[0]), rs[1..]);
    }
  }

  lemma {:induction false} SaveIgnoresFuse(t: Tally, rs: seq<Record>)
    requires t.ok && Save(t, rs).ok
    ensures Save(t.(fuse := None), rs) == Save(t, rs).(fuse := None)
    decreases rs
  {
    if rs != [] {
      assert SaveOne(t, rs[0]).ok;
      SaveIgnoresFuse(SaveOne(t, rs[0]), rs[1..]);
    }
  }

  lemma {:induction false} KindsPartition(rs: seq<Record>)
    ensures multiset(Grouped(rs)) == multiset(rs)
    ensures |Grouped(rs)| == |rs|
  {
    if rs != [] {
      KindsPartition(rs[1..]);
      assert rs == [rs[0]] + rs[1..];
      assert multiset(Grouped(rs)) == multiset{rs[0]} + multiset(Grouped(rs[1..]));
      assert |multiset(Grouped(rs))| == |Grouped(rs)|;
    }
  }

  lemma {:induction false} OfKindMembers(kind: Kind, rs: seq<Record>)
    ensures forall r :: r in OfKind(kind, rs) <==> r in rs && KindOf(r) == kind
  {
    if rs != [] {
      OfKindMembers(kind, rs[1..]);
    }
  }

  lemma {:induction false} RunsCleanConcat(facts: FactTable, a: seq<Record>, b: seq<Record>)
    ensures RunsClean(facts, a + b) <==> RunsClean(facts, a) && RunsClean(InsertAll(facts, a), b)
    decreases a
  {
    if a == [] {
      assert a + b == b;
    } else {
      assert (a + b)[1..] == a[1..] + b;
      RunsCleanConcat(Insert(facts, a[0]), a[1..], b);
    }
  }

  lemma {:induction false} NoFillsRunClean(facts: FactTable, rs: seq<Record>)
    requires forall r :: r in rs ==> !r.OrderFill?
    ensures RunsClean(facts, rs)
    decreases rs
  {
    if rs != [] {
      NoFillsRunClean(Insert(facts, rs[0]), rs[1..]);
    }
  }

  /** Fills add no trades, so each inserted fill is checked against the trades stored beforehand. */
  lemma {:induction false} FillsRunClean(facts: FactTable, fills: seq<Record>)
    requires forall r :: r in fills ==> r.OrderFill?
    ensures RunsClean(facts, fills) <==>
              forall r :: r in fills && KeyOf(r) !in facts && First(fills, KeyOf(r)) == Some(r) ==>
                TradeKeyOf(r) in facts
    decreases fills
  {
    if fills != [] {
      var head, rest, next := fills[0], fills[1..], Insert(facts, fills[0]);
      FillsRunClean(next, rest);
      assert fills == [head] + rest;
      assert First(fills, KeyOf(head)) == Some(head);
      if RunsClean(facts, fills) {
        forall r | r in fills && KeyOf(r) !in facts && First(fills, KeyOf(r)) == Some(r)
          ensures TradeKeyOf(r) in facts
        {
          if KeyOf(r) != KeyOf(head) {
            assert r in rest && First(rest, KeyOf(r)) == Some(r);
          }
        }
      } else if ForeignKeyHolds(facts, head) {
        var r :| r in rest && KeyOf(r) !in next && First(rest, KeyOf(r)) == Some(r) && TradeKeyOf(r) !in next;
        assert r in fills && KeyOf(r) !in facts && First(fills, KeyOf(r)) == Some(r);
      }
    }
  }

  /** The grouped run is clean exactly when every newly inserted fill has its trade. */
  lemma GroupedRunsClean(facts: FactTable, rs: seq<Record>)
    ensures RunsClean(facts, Grouped(rs)) <==> ForeignKeysHold(facts, rs)
  {
    var d, w, t := OfKind(DepositKind, rs), OfKind(WithdrawalKind, rs), OfKind(TradeKind, rs);
    var fills, swaps := OfKind(FillKind, rs), OfKind(SwapKind, rs);
    var before := d + w + t;
    OfKindMembers(DepositKind, rs);
    OfKindMembers(WithdrawalKind, rs);
    OfKindMembers(TradeKind, rs);
    OfKindMembers(FillKind, rs);
    OfKindMembers(SwapKind, rs);
    RunsCleanConcat(facts, before + fills, swaps);
    RunsCleanConcat(facts, before, fills);
    NoFillsRunClean(facts, before);
    NoFillsRunClean(InsertAll(facts, before + fills), swaps);
    var g := InsertAll(facts, before);
    FillsRunClean(g, fills);
    forall k: FactKey | k.FillKey? || k.TradeKey?
      ensures k.FillKey? ==> (k in g <==> k in facts) && First(fills, k) == First(rs, k)
      ensures k.TradeKey? ==> (k in g <==> k in InsertAll(facts, rs))
    {
      InsertAllLookup(facts, before, k);
      InsertAllLookup(facts, rs, k);
      FirstOfConcat(d + w, t, k);
      FirstOfConcat(d, w, k);
      FirstOfKind(DepositKind, rs, k);
      FirstOfKind(WithdrawalKind, rs, k);
      FirstOfKind(TradeKind, rs, k);
      FirstOfKind(FillKind, rs, k);
    }
    assert forall r :: r in rs && r.OrderFill? ==> r in fills && KeyOf(r).FillKey? && TradeKeyOf(r).TradeKey?;
  }

  /** When `saveRecords` succeeds, and what it then did. */
  lemma SaveOutcome(facts: FactTable, fuse: Fuse, rs: seq<Record>)
    ensures var s := Save(Tally(facts, [], [], fuse, true), Grouped(rs));
            && (s.ok <==> !Blown(fuse, |rs|) && ForeignKeysHold(facts, rs))
            && (s.ok ==> s.facts == InsertAll(facts, rs) && s.fuse == Burn(fuse, |rs|)
                         && ResultOf(facts, rs).inserted == s.inserted && ResultOf(facts, rs).skipped == s.skipped)
  {
    var t := Tally(facts, [], [], fuse, true);
    KindsPartition(rs);
    SaveMeaning(t, Grouped(rs));
    GroupedRunsClean(facts, rs);
    GroupingIsInvisible(facts, rs);
    if Save(t, Grouped(rs)).ok {
      SaveIgnoresFuse(t, Grouped(rs));
    }
  }

  /** Inserted and skipped partition the input, agree with the statistics and count the new rows. */
  lemma SaveAccounting(facts: FactTable, rs: seq<Record>)
    requires ForeignKeysHold(facts, rs)
    ensures var res := ResultOf(facts, rs); var after := InsertAll(facts, rs);
            && multiset(res.inserted) + multiset(res.skipped) == multiset(rs)
            && res.insertedCount + res.skippedCount == |rs| && res.updatedCount == 0 && res.updated == []
            && res.insertedCount == |after| - |facts|
            && (forall r :: r in res.inserted ==> KeyOf(r) !in facts && KeyOf(r) in after && after[KeyOf(r)] == r)
  {
    var t := Tally(facts, [], [], None, true);
    SaveOutcome(facts, None, rs);
    KindsPartition(rs);
    SaveMeaning(t, Grouped(rs));
    InsertedRowsAreNew(t, Grouped(rs));
    var res := ResultOf(facts, rs);
    assert |multiset(res.inserted) + multiset(res.skipped)| == |res.inserted| + |res.skipped|;
  }

  /** Re-saving a stored batch inserts nothing. */
  lemma ResavingInsertsNothing(facts: FactTable, rs: seq<Record>)
    requires ForeignKeysHold(facts, rs)
    ensures var after := InsertAll(facts, rs);
            InsertAll(after, rs) == after && ForeignKeysHold(after, rs)
            && ResultOf(after, rs).inserted == [] && ResultOf(after, rs).skippedCount == |rs|
  {
    var after := InsertAll(facts, rs);
    forall r | r in rs
      ensures KeyOf(r) in after
    {
      InsertAllLookup(facts, rs, KeyOf(r));
      FirstIsMember(rs, KeyOf(r));
    }
    ResaveIsIdle(after, rs);
    SaveAccounting(after, rs);
  }
}
