/**
 * The database: the checkpoint, block header and fact tables, keyed by their primary keys, the
 * effect of each SQL statement on them, and an object that executes those statements one by one.
 */
module Tables {
  import opened Prelude
  import opened Records

  datatype Checkpoint = Checkpoint(chainId: int, block: int)

  datatype BlockKey = BlockKey(chainId: int, number: int, hash: string)

  datatype BlockRow = BlockRow(parentHash: string, canonical: bool)

  type BlockTable = map<BlockKey, BlockRow>

  type FactTable = map<FactKey, Record>

  /** A committed state of the database. `checkpoints` is keyed by the indexer name alone. */
  datatype State = State(checkpoints: map<string, Checkpoint>, blocks: BlockTable, facts: FactTable)

  const EMPTY: State := State(map[], map[], map[])

  // --- Queries on block_metadata -----------------------------------------------------------------

  predicate IsCanonical(blocks: BlockTable, k: BlockKey) {
    k in blocks && blocks[k].canonical
  }

  function CanonicalKeys(blocks: BlockTable, chainId: int): (ks: set<BlockKey>)
    ensures forall k :: k in ks <==> IsCanonical(blocks, k) && k.chainId == chainId
  {
    set k | k in blocks && blocks[k].canonical && k.chainId == chainId
  }

  function KeysAt(ks: set<BlockKey>, number: int): (r: set<BlockKey>)
    ensures forall k :: k in r <==> k in ks && k.number == number
  {
    set k | k in ks && k.number == number
  }

  /** `k` is a row that `ORDER BY block_number DESC LIMIT 1` may return. */
  predicate IsHighest(ks: set<BlockKey>, k: BlockKey) {
    k in ks && forall other :: other in ks ==> other.number <= k.number
  }

  lemma {:induction false} HighestExists(ks: set<BlockKey>)
    requires ks != {}
    ensures exists k :: IsHighest(ks, k)
  {
    var k :| k in ks;
    var rest := ks - {k};
    assert forall other :: other in ks ==> other == k || other in rest;
    if rest == {} {
      assert IsHighest(ks, k);
    } else {
      HighestExists(rest);
      var m :| IsHighest(rest, m);
      assert IsHighest(ks, if m.number < k.number then k else m);
    }
  }

  /** At most one canonical row at each height of the chain. */
  predicate OnePerHeight(blocks: BlockTable, chainId: int) {
    forall k, k' :: k in CanonicalKeys(blocks, chainId) && k' in CanonicalKeys(blocks, chainId) && k.number == k'.number
      ==> k == k'
  }

  /** The answer of `getLatestCanonicalBlock`. */
  ghost function Latest(blocks: BlockTable, chainId: int): (r: Option<BlockKey>)
    ensures r.None? <==> CanonicalKeys(blocks, chainId) == {}
    ensures r.Some? ==> IsHighest(CanonicalKeys(blocks, chainId), r.value)
  {
    var ks := CanonicalKeys(blocks, chainId);
    if ks == {} then None
    else
      HighestExists(ks);
      var k :| IsHighest(ks, k);
      Some(k)
  }

  /** The answer of `getBlockByNumber`. */
  ghost function At(blocks: BlockTable, chainId: int, number: int): (r: Option<BlockKey>)
    ensures r.None? <==> KeysAt(CanonicalKeys(blocks, chainId), number) == {}
    ensures r.Some? ==> r.value in KeysAt(CanonicalKeys(blocks, chainId), number)
  {
    var ks := KeysAt(CanonicalKeys(blocks, chainId), number);
    if ks == {} then None else var k :| k in ks; Some(k)
  }

  // --- Statements ---------------------------------------------------------------------------------

  function WithBlock(blocks: BlockTable, k: BlockKey): BlockTable {
    if k in blocks then blocks else blocks[k := BlockRow("", true)]
  }

  /** `UPDATE ... SET is_canonical = false` from a height upwards. */
  function Demote(blocks: BlockTable, chainId: int, from: int): (r: BlockTable)
    ensures r.Keys == blocks.Keys
  {
    map k | k in blocks ::
      if k.chainId == chainId && k.number >= from then blocks[k].(canonical := false) else blocks[k]
  }

  /** First writer wins: a conflicting insert does nothing. */
  function Insert(facts: FactTable, r: Record): FactTable {
    if KeyOf(r) in facts then facts else facts[KeyOf(r) := r]
  }

  /** The foreign key of raw_order_fills is checked when a fill is really inserted. */
  predicate ForeignKeyHolds(facts: FactTable, r: Record) {
    r.OrderFill? && KeyOf(r) !in facts ==> TradeKeyOf(r) in facts
  }

  // --- Failures -----------------------------------------------------------------------------------

  datatype Error = CheckpointError | ReorgError | RpcError | ValidationError | PersistenceError

  /** How many more statements a transaction executes before it fails; `None` when it never does. */
  type Fuse = Option<nat>

  predicate Blown(fuse: Fuse, statements: nat) {
    fuse.Some? && fuse.value < statements
  }

  function Burn(fuse: Fuse, statements: nat): Fuse {
    if fuse.None? then None
    else if fuse.value < statements then Some(0)
    else Some(fuse.value - statements)
  }

  /** The connection an indexer works on; a transaction works in place and is undone by `Rollback`. */
  class Database {
    var checkpoints: map<string, Checkpoint>
    var blocks: BlockTable
    var facts: FactTable
    var fuse: Fuse

    constructor ()
      ensures View() == EMPTY && fuse == None
    {
      checkpoints, blocks, facts, fuse := map[], map[], map[], None;
    }

    function View(): State
      reads this
    {
      State(checkpoints, blocks, facts)
    }

    method Begin(newFuse: Fuse)
      modifies this`fuse
      ensures fuse == newFuse
    {
      fuse := newFuse;
    }

    method Rollback(saved: State)
      modifies this
      ensures View() == saved
    {
      checkpoints, blocks, facts, fuse := saved.checkpoints, saved.blocks, saved.facts, None;
    }

    /** Executes one statement, or fails; once failed, every later statement of the transaction fails. */
    method Spend() returns (ok: bool)
      modifies this`fuse
      ensures ok <==> !Blown(old(fuse), 1)
      ensures fuse == Burn(old(fuse), 1)
    {
      ok := fuse.None? || fuse.value > 0;
      if fuse.Some? && fuse.value > 0 {
        fuse := Some(fuse.value - 1);
      }
    }

    /** One `INSERT ... ON CONFLICT DO NOTHING RETURNING *`: true when a row came back. */
    method InsertFact(r: Record) returns (res: Result<bool, Error>)
      modifies this`facts, this`fuse
      ensures fuse == Burn(old(fuse), 1)
      ensures res.Success? <==> !Blown(old(fuse), 1) && ForeignKeyHolds(old(facts), r)
      ensures res.Success? ==> res.value == (KeyOf(r) !in old(facts)) && facts == Insert(old(facts), r)
      ensures res.Failure? ==> res.error == PersistenceError && facts == old(facts)
    {
      var ok := Spend();
      if !ok || !ForeignKeyHolds(facts, r) {
        return Failure(PersistenceError);
      }
      res := Success(KeyOf(r) !in facts);
      facts := Insert(facts, r);
    }

    method SaveBlock(k: BlockKey) returns (ok: bool)
      modifies this`blocks, this`fuse
      ensures fuse == Burn(old(fuse), 1)
      ensures ok <==> !Blown(old(fuse), 1)
      ensures blocks == if ok then WithBlock(old(blocks), k) else old(blocks)
    {
      ok := Spend();
      if ok && k !in blocks {
        blocks := blocks[k := BlockRow("", true)];
      }
    }

    method MarkNonCanonical(chainId: int, from: int) returns (ok: bool)
      modifies this`blocks, this`fuse
      ensures fuse == Burn(old(fuse), 1)
      ensures ok <==> !Blown(old(fuse), 1)
      ensures blocks == if ok then Demote(old(blocks), chainId, from) else old(blocks)
    {
      ok := Spend();
      if ok {
        blocks := map k | k in blocks ::
          if k.chainId == chainId && k.number >= from && blocks[k].canonical
          then blocks[k].(canonical := false) else blocks[k];
      }
    }

    /** Upsert on the indexer name: the chain of an existing row is overwritten too. */
    method SaveCheckpoint(indexer: string, chainId: int, block: int) returns (ok: bool)
      modifies this`checkpoints, this`fuse
      ensures fuse == Burn(old(fuse), 1)
      ensures ok <==> !Blown(old(fuse), 1)
      ensures checkpoints == if ok then old(checkpoints)[indexer := Checkpoint(chainId, block)] else old(checkpoints)
    {
      ok := Spend();
      if ok {
        checkpoints := checkpoints[indexer := Checkpoint(chainId, block)];
      }
    }

    method GetLatestCanonicalBlock(chainId: int) returns (r: Option<BlockKey>)
      ensures r.None? <==> CanonicalKeys(blocks, chainId) == {}
      ensures r.Some? ==> IsHighest(CanonicalKeys(blocks, chainId), r.value)
    {
      var ks := CanonicalKeys(blocks, chainId);
      if ks == {} {
        return None;
      }
      HighestExists(ks);
      var k :| k in ks && IsHighest(ks, k);
      r := Some(k);
    }

    method GetBlockByNumber(chainId: int, number: int) returns (r: Option<BlockKey>)
      ensures r.None? <==> KeysAt(CanonicalKeys(blocks, chainId), number) == {}
      ensures r.Some? ==> r.value in KeysAt(CanonicalKeys(blocks, chainId), number)
    {
      var ks := KeysAt(CanonicalKeys(blocks, chainId), number);
      if ks == {} {
        return None;
      }
      var k :| k in ks;
      r := Some(k);
    }

    method GetCheckpoint(indexer: string, chainId: int) returns (r: Option<int>)
      ensures r == CheckpointOf(View(), indexer, chainId)
    {
      r := if indexer in checkpoints && checkpoints[indexer].chainId == chainId
           then Some(checkpoints[indexer].block) else None;
    }
  }

  /** A read sees the last write under the same name, and only if that was for the same chain. */
  lemma CheckpointReadsLastWrite(s: State, writer: string, chainId: int, block: int, reader: string, readChain: int)
    ensures var s' := s.(checkpoints := s.checkpoints[writer := Checkpoint(chainId, block)]);
            CheckpointOf(s', reader, readChain)
            == if reader != writer then CheckpointOf(s, reader, readChain)
               else if readChain == chainId then Some(block) else None
  {
  }

  function CheckpointOf(s: State, indexer: string, chainId: int): Option<int> {
    if indexer in s.checkpoints && s.checkpoints[indexer].chainId == chainId
    then Some(s.checkpoints[indexer].block) else None
  }
}
