/** What an event becomes, column by column, and which records share a primary key. */
module Normalization {
  import opened Prelude
  import opened Records
  import opened Repository
  import opened Referential

  // --- Columns ----------------------------------------------------------------------------------------------------

  /** An event of the vault becomes one record of the user it names, with its token and amount. */
  lemma VaultEventIsRecorded(chainId: int, l: Log, e: EventArgs)
    ensures e.Deposited? ==>
              exists r :: Normalize(chainId, l, e) == [r] && r.Deposit? && Concerns(r, e.user, e.token, e.amount)
    ensures e.Withdrawn? ==>
              exists r :: Normalize(chainId, l, e) == [r] && IsWithdrawal(r, "standard", None)
                          && Concerns(r, e.user, e.token, e.amount)
    ensures e.InstantWithdraw? ==>
              exists r :: Normalize(chainId, l, e) == [r] && IsWithdrawal(r, "instant", None)
                          && Concerns(r, e.user, e.token, e.amount)
    ensures e.WithdrawRequested? ==>
              exists r :: Normalize(chainId, l, e) == [r] && IsWithdrawal(r, "emergency", Some(e.requestBlock))
                          && Concerns(r, e.user, e.token, e.amount)
    ensures e.Withdraw? ==>
              exists r :: Normalize(chainId, l, e) == [r] && IsWithdrawal(r, "emergency", None)
                          && Concerns(r, e.to, e.token, e.amount)
  {
    if e.Deposited? || e.Withdrawn? || e.InstantWithdraw? || e.WithdrawRequested? || e.Withdraw? {
      var r := Normalize(chainId, l, e)[0];
      assert Normalize(chainId, l, e) == [r];
    }
  }

  predicate Concerns(r: Record, user: string, token: string, amount: nat) {
    (r.Deposit? || r.Withdrawal?) && r.user == ToLower(user) && r.token == ToLower(token) && r.amount == amount
  }

  predicate IsWithdrawal(r: Record, kind: string, requestBlock: Option<nat>) {
    r.Withdrawal? && r.kind == kind && r.requestBlock == requestBlock
  }

  /** A routed swap becomes one record; diagnostic and unknown events become none. */
  lemma IntentIsRecorded(chainId: int, l: Log, e: EventArgs)
    ensures e.IntentMatched? ==>
              exists r :: Normalize(chainId, l, e) == [r] && r.Swap? && r.intentHash == ToLower(e.intentHash)
                          && r.taker == ToLower(e.taker) && r.legCount == e.legCount
    ensures Normalize(chainId, l, e) == [] <==> e.Diagnostic? || e.UnknownEvent?
  {
    if e.IntentMatched? {
      var r := Normalize(chainId, l, e)[0];
      assert Normalize(chainId, l, e) == [r];
    }
  }

  /** One side of a match: its order, the user, what the user gives, and what the protocol takes of it. */
  datatype Side = Side(orderHash: string, user: string, token: string, amount: nat, protocolTake: nat)

  function LowerSide(orderHash: string, user: string, token: string, amount: nat, protocolTake: nat): Side {
    Side(ToLower(orderHash), ToLower(user), ToLower(token), amount, protocolTake)
  }

  function SidesOf(t: Record): (Side, Side)
    requires t.Trade?
  {
    (Side(t.orderHash0, t.user0, t.token0, t.amount0, t.protocolTake0),
     Side(t.orderHash1, t.user1, t.token1, t.amount1, t.protocolTake1))
  }

  /** The fill of an order: all of one side, as a part of the trade at this log. */
  predicate Fills(f: Record, side: Side, t: Record)
    requires t.Trade?
  {
    && f.OrderFill? && f.orderHash == side.orderHash && f.amountFilled == side.amount && TradeKeyOf(f) == KeyOf(t)
    && f.tradeId == t.base.txHash + "_" + Decimal(t.base.logIndex)
    && f.fillId == f.tradeId + "_" + Prefix(f.orderHash, 10)
    && f.fillBlock == t.base.blockNumber
  }

  /**
   * A match becomes one trade, which keeps the two sides of the event apart, and for each side the fill of
   * its order. The price is the whole quotient of what the sides give; for an empty first side it is 0.
   */
  lemma MatchIsRecorded(chainId: int, l: Log, e: EventArgs) returns (t: Record, fill0: Record, fill1: Record)
    requires e.OrderMatched?
    ensures Normalize(chainId, l, e) == [t, fill0, fill1] && t.Trade?
    ensures SidesOf(t) == (LowerSide(e.orderHash0, e.user0, e.token0, e.amount0, e.protocolTake0),
                           LowerSide(e.orderHash1, e.user1, e.token1, e.amount1, e.protocolTake1))
    ensures Fills(fill0, SidesOf(t).0, t) && Fills(fill1, SidesOf(t).1, t)
    ensures e.amount0 > 0 ==> t.price0to1 * e.amount0 <= e.amount1 < (t.price0to1 + 1) * e.amount0
    ensures e.amount0 == 0 ==> t.price0to1 == 0
  {
    hide ToLower, Decimal;
    var rs := Normalize(chainId, l, e);
    t, fill0, fill1 := rs[0], rs[1], rs[2];
    if e.amount0 > 0 {
      QuotientBounds(e.amount1, e.amount0);
    }
  }

  lemma QuotientBounds(n: nat, d: nat)
    requires d > 0
    ensures n / d * d <= n < (n / d + 1) * d
  {
    assert n == n / d * d + n % d;
  }

  // --- Keys -------------------------------------------------------------------------------------------------------

  /** The text of a number has no separator and determines the number. */
  lemma DecimalTellsNumbers(a: nat, b: nat)
    ensures '_' !in Decimal(a) && (Decimal(a) == Decimal(b) <==> a == b)
  {
    DecimalIsReadBack(a);
    DecimalIsReadBack(b);
  }

  lemma FillsTellOrders(tx: string, i: nat, h: string, tx': string, i': nat, h': string)
    requires '_' !in tx && '_' !in tx'
    ensures FillIdOf(tx, i, h) == FillIdOf(tx', i', h') <==> tx == tx' && i == i' && Prefix(h, 10) == Prefix(h', 10)
  {
    hide Decimal, Prefix;
    var d, d', p, p' := Decimal(i), Decimal(i'), Prefix(h, 10), Prefix(h', 10);
    DecimalTellsNumbers(i, i');
    DecimalTellsNumbers(i', i);
    SeparatorSplits(d, p, d', p');
    SeparatorSplits(tx, d + "_" + p, tx', d' + "_" + p');
    assert FillIdOf(tx, i, h) == tx + "_" + (d + "_" + p);
    assert FillIdOf(tx', i', h') == tx' + "_" + (d' + "_" + p');
  }

  /**
   * Two records share a primary key exactly when they belong to one table and one transaction, and were
   * logged at one index, or for swaps carry one intent; fills, besides, agree in ten characters of the order.
   */
  lemma KeysTellRecords(chainId: int, l: Log, e: EventArgs, r: Record, l': Log, e': EventArgs, r': Record)
    requires r in Normalize(chainId, l, e) && r' in Normalize(chainId, l', e')
    requires '_' !in ToLower(l.txHash) && '_' !in ToLower(l'.txHash)
    ensures KeyOf(r) == KeyOf(r') <==>
              && KindOf(r) == KindOf(r') && ToLower(l.txHash) == ToLower(l'.txHash)
              && (if r.Swap? then r'.Swap? && r.intentHash == r'.intentHash else l.logIndex == l'.logIndex)
              && (r.OrderFill? ==> r'.OrderFill? && Prefix(r.orderHash, 10) == Prefix(r'.orderHash, 10))
  {
    hide ToLower, Decimal, FillIdOf, Prefix;
    NormalizeStamps(chainId, l, e, r);
    NormalizeStamps(chainId, l', e', r');
    if r.OrderFill? && r'.OrderFill? {
      FillIdOfRecord(chainId, l, e, r);
      FillIdOfRecord(chainId, l', e', r');
      FillsTellOrders(r.fillTx, l.logIndex, r.orderHash, r'.fillTx, l'.logIndex, r'.orderHash);
    }
  }

  lemma FillIdOfRecord(chainId: int, l: Log, e: EventArgs, r: Record)
    requires r in Normalize(chainId, l, e) && r.OrderFill?
    ensures r.fillId == FillIdOf(r.fillTx, l.logIndex, r.orderHash)
  {
    hide ToLower, Decimal, FillIdOf, Prefix;
  }
}
