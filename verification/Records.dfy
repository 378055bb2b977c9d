/**
 * Raw logs, the events they decode to, and the relational records an event is normalized into
 * (packages/contracts/src/reader.ts, decoder.ts, normalizer.ts and handlers/).
 */
module Records {
  import opened Prelude

  /** A log as the RPC reader returns it. */
  datatype Log = Log(
    address: string, topics: seq<string>, data: string,
    blockNumber: nat, txHash: string, txIndex: nat, logIndex: nat, blockHash: string)

  /** What the decoder makes of a log's topics and data; the block coordinates come from the log itself. */
  datatype EventArgs =
    | Deposited(token: string, user: string, amount: nat)
    | Withdrawn(token: string, user: string, amount: nat)
    | OrderMatched(
        orderHash0: string, user0: string, token0: string, amount0: nat, protocolTake0: nat,
        orderHash1: string, user1: string, token1: string, amount1: nat, protocolTake1: nat)
    | InstantWithdraw(user: string, token: string, amount: nat)
    | WithdrawRequested(user: string, token: string, amount: nat, requestBlock: nat)
    | Withdraw(token: string, to: string, amount: nat)
    | IntentMatched(intentHash: string, taker: string, legCount: nat)
    | Diagnostic  // IntentLegMatched, MatchFailed, IntentFailed and the unregistered batch events
    | UnknownEvent

  type Decoder = Log -> EventArgs

  /** The coordinates that the normalizer stamps on every record. */
  datatype Base = Base(
    txHash: string, blockNumber: nat, logIndex: nat, chainId: int,
    blockHash: string, txIndex: nat, topics: seq<string>, data: string)

  /** A normalized record, reduced to the columns its table stores: fills keep no block hash. */
  datatype Record =
    | Deposit(base: Base, user: string, token: string, amount: nat)
    | Withdrawal(base: Base, user: string, token: string, amount: nat, kind: string, requestBlock: Option<nat>)
    | Trade(
        base: Base, orderHash0: string, orderHash1: string, user0: string, user1: string,
        token0: string, token1: string, amount0: nat, amount1: nat,
        protocolTake0: nat, protocolTake1: nat, price0to1: nat)
    | OrderFill(
        fillId: string, fillTx: string, fillLog: nat, fillChain: int, fillBlock: nat,
        orderHash: string, tradeId: string, amountFilled: nat)
    | Swap(base: Base, intentHash: string, taker: string, legCount: nat)

  /** The primary key of a fact; its constructor names the table. */
  datatype FactKey =
    | DepositKey(txHash: string, logIndex: nat, chainId: int)
    | WithdrawalKey(txHash: string, logIndex: nat, chainId: int)
    | TradeKey(txHash: string, logIndex: nat, chainId: int)
    | FillKey(fillId: string)
    | SwapKey(intentHash: string, txHash: string, chainId: int)

  function KeyOf(r: Record): FactKey {
    match r
    case Deposit(b, _, _, _) => DepositKey(b.txHash, b.logIndex, b.chainId)
    case Withdrawal(b, _, _, _, _, _) => WithdrawalKey(b.txHash, b.logIndex, b.chainId)
    case Trade(b, _, _, _, _, _, _, _, _, _, _, _) => TradeKey(b.txHash, b.logIndex, b.chainId)
    case OrderFill(id, _, _, _, _, _, _, _) => FillKey(id)
    case Swap(b, intent, _, _) => SwapKey(intent, b.txHash, b.chainId)
  }

  /** The trade a fill's foreign key points at. */
  function TradeKeyOf(fill: Record): FactKey
    requires fill.OrderFill?
  {
    TradeKey(fill.fillTx, fill.fillLog, fill.fillChain)
  }

  function TxHashOf(r: Record): string {
    if r.OrderFill? then r.fillTx else r.base.txHash
  }

  function BlockNumberOf(r: Record): nat {
    if r.OrderFill? then r.fillBlock else r.base.blockNumber
  }

  function TradeIdOf(txHash: string, logIndex: nat): string {
    txHash + "_" + Decimal(logIndex)
  }

  function FillIdOf(txHash: string, logIndex: nat, orderHash: string): string {
    TradeIdOf(txHash, logIndex) + "_" + Prefix(orderHash, 10)
  }

  function Prefix(s: string, n: nat): (p: string)
    ensures p <= s && |p| == Min(n, |s|)
  {
    if |s| <= n then s else s[..n]
  }

  /** `DefaultEventNormalizer.normalize` over the registered handlers. */
  function Normalize(chainId: int, log: Log, event: EventArgs): seq<Record> {
    var tx := ToLower(log.txHash);
    var base := Base(tx, log.blockNumber, log.logIndex, chainId, log.blockHash, log.txIndex, log.topics, log.data);
    match event
    case Deposited(token, user, amount) =>
      [Deposit(base, ToLower(user), ToLower(token), amount)]
    case Withdrawn(token, user, amount) =>
      [Withdrawal(base, ToLower(user), ToLower(token), amount, "standard", None)]
    case InstantWithdraw(user, token, amount) =>
      [Withdrawal(base, ToLower(user), ToLower(token), amount, "instant", None)]
    case WithdrawRequested(user, token, amount, requestBlock) =>
      [Withdrawal(base, ToLower(user), ToLower(token), amount, "emergency", Some(requestBlock))]
    case Withdraw(token, to, amount) =>
      [Withdrawal(base, ToLower(to), ToLower(token), amount, "emergency", None)]
    case OrderMatched(oh0, u0, t0, a0, p0, oh1, u1, t1, a1, p1) =>
      MatchRecords(base, ToLower(oh0), ToLower(oh1), ToLower(u0), ToLower(u1), ToLower(t0), ToLower(t1), a0, a1, p0, p1)
    case IntentMatched(intentHash, taker, legCount) =>
      [Swap(base, ToLower(intentHash), ToLower(taker), legCount)]
    case Diagnostic => []
    case UnknownEvent => []
  }

  /** `OrderMatchedHandler.handle`: the trade first, then one fill for each side. */
  function MatchRecords(
    base: Base, orderHash0: string, orderHash1: string, user0: string, user1: string,
    token0: string, token1: string, amount0: nat, amount1: nat,
    protocolTake0: nat, protocolTake1: nat): seq<Record>
  {
    var tradeId := TradeIdOf(base.txHash, base.logIndex);
    var price := if amount0 == 0 then 0 else amount1 / amount0;
    [ Trade(base, orderHash0, orderHash1, user0, user1, token0, token1,
            amount0, amount1, protocolTake0, protocolTake1, price),
      OrderFill(FillIdOf(base.txHash, base.logIndex, orderHash0), base.txHash, base.logIndex, base.chainId,
                base.blockNumber, orderHash0, tradeId, amount0),
      OrderFill(FillIdOf(base.txHash, base.logIndex, orderHash1), base.txHash, base.logIndex, base.chainId,
                base.blockNumber, orderHash1, tradeId, amount1) ]
  }

  /** The records of a list of logs, in log order. */
  function RecordsOf(decode: Decoder, chainId: int, logs: seq<Log>): seq<Record> {
    if logs == [] then []
    else Normalize(chainId, logs[0], decode(logs[0])) + RecordsOf(decode, chainId, logs[1..])
  }
}
