/** Where normalized records come from, and the references between the rows they become. */
module Referential {
  import opened Prelude
  import opened Records
  import opened Tables
  import opened Repository

  /** Every record stems from one of the logs. */
  lemma {:induction false} RecordsMembers(decode: Decoder, chainId: int, logs: seq<Log>, r: Record)
    ensures r in RecordsOf(decode, chainId, logs)
            <==> exists l :: l in logs && r in Normalize(chainId, l, decode(l))
  {
    if logs != [] {
      RecordsMembers(decode, chainId, logs[1..], r);
      assert logs == [logs[0]] + logs[1..];
      assert forall l :: l in logs <==> l == logs[0] || l in logs[1..];
    }
  }

  /** A record carries the coordinates of its log, and a fill travels together with its trade. */
  lemma NormalizeStamps(chainId: int, l: Log, event: EventArgs, r: Record)
    requires r in Normalize(chainId, l, event)
    ensures TxHashOf(r) == ToLower(l.txHash) && BlockNumberOf(r) == l.blockNumber
    ensures !r.OrderFill? ==> r.base.chainId == chainId && r.base.blockHash == l.blockHash
                              && r.base.txIndex == l.txIndex && r.base.logIndex == l.logIndex
                              && r.base.topics == l.topics && r.base.data == l.data
    ensures r.OrderFill? ==> r.fillLog == l.logIndex && r.fillChain == chainId
    ensures r.OrderFill? ==>
              exists t :: t in Normalize(chainId, l, event) && t.Trade? && KeyOf(t) == TradeKeyOf(r)
  {
    if r.OrderFill? {
      var rs := Normalize(chainId, l, event);
      assert event.OrderMatched?;
      assert rs[0] in rs && rs[0].Trade? && KeyOf(rs[0]) == TradeKeyOf(r);
    }
  }

  /** The records of whole logs never violate the foreign key of the fills. */
  lemma NormalizedForeignKeys(facts: FactTable, decode: Decoder, chainId: int, logs: seq<Log>)
    ensures ForeignKeysHold(facts, RecordsOf(decode, chainId, logs))
  {
    var rs := RecordsOf(decode, chainId, logs);
    forall r | r in rs && r.OrderFill?
      ensures TradeKeyOf(r) in InsertAll(facts, rs)
    {
      RecordsMembers(decode, chainId, logs, r);
      var l :| l in logs && r in Normalize(chainId, l, decode(l));
      NormalizeStamps(chainId, l, decode(l), r);
      var t :| t in Normalize(chainId, l, decode(l)) && t.Trade? && KeyOf(t) == TradeKeyOf(r);
      RecordsMembers(decode, chainId, logs, t);
      InsertAllLookup(facts, rs, KeyOf(t));
      FirstIsMember(rs, KeyOf(t));
    }
  }
}
