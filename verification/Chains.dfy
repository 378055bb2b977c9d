/** Hash-linked chains, and what it means for the RPC to serve one. */
module Chains {
  import opened Prelude
  import opened Records
  import opened Tables
  import opened Environment
  import opened Reorg

  datatype Block = Block(hash: string, parentHash: string, logs: seq<Log>)

  /** The block at height `h` is element `h`. The logs are those the indexer's filter selects. */
  type Chain = seq<Block>

  predicate LogMatches(c: Chain, h: int, l: Log)
    requires 0 <= h < |c|
  {
    l.blockNumber == h && l.blockHash == c[h].hash
  }

  predicate LogsMatchBlocks(c: Chain) {
    forall h, l :: 0 <= h < |c| && l in c[h].logs ==> LogMatches(c, h, l)
  }

  predicate ExtendsParent(c: Chain, h: int)
    requires 0 < h < |c|
  {
    SameHash(c[h].parentHash, c[h - 1].hash)
  }

  predicate Linked(c: Chain) {
    forall h :: 0 < h < |c| ==> ExtendsParent(c, h)
  }

  /** A hash commits to its block: equal hashes mean equal height, parent and logs. */
  predicate Commits(x: Chain, i: int, y: Chain, j: int)
    requires 0 <= i < |x| && 0 <= j < |y|
  {
    SameHash(x[i].hash, y[j].hash) ==>
      i == j && x[i].logs == y[j].logs && SameHash(x[i].parentHash, y[j].parentHash)
  }

  predicate Coherent(x: Chain, y: Chain) {
    forall i, j :: 0 <= i < |x| && 0 <= j < |y| ==> Commits(x, i, y, j)
  }

  predicate ValidChain(c: Chain) {
    |c| > 0 && LogsMatchBlocks(c) && Linked(c) && Coherent(c, c)
  }

  predicate Agree(x: Chain, y: Chain, h: int) {
    0 <= h < |x| && h < |y| && SameHash(x[h].hash, y[h].hash)
  }

  /** Two linked chains that share a block share everything below it. */
  lemma {:induction false} AgreeBelow(x: Chain, y: Chain, h: int, g: int)
    requires Linked(x) && Linked(y) && Coherent(x, y)
    requires Agree(x, y, h) && 0 <= g <= h
    ensures Agree(x, y, g) && x[g].logs == y[g].logs
    decreases h - g
  {
    assert Commits(x, h, y, h);
    if g < h {
      assert ExtendsParent(x, h) && ExtendsParent(y, h);
      assert Agree(x, y, h - 1);
      AgreeBelow(x, y, h - 1, g);
    }
  }

  /** Up to height `c` the chains agree exactly on the blocks up to `a`. */
  predicate ForksAt(x: Chain, y: Chain, c: int, a: int) {
    -1 <= a <= c && forall h :: 0 <= h <= c ==> (Agree(x, y, h) <==> h <= a)
  }

  lemma {:induction false} ForkPointExists(x: Chain, y: Chain, c: int)
    requires Linked(x) && Linked(y) && Coherent(x, y) && -1 <= c < |x| && c < |y|
    ensures exists a :: ForksAt(x, y, c, a)
    decreases c
  {
    if c == -1 {
      assert ForksAt(x, y, -1, -1);
    } else if Agree(x, y, c) {
      forall h | 0 <= h <= c
        ensures Agree(x, y, h)
      {
        AgreeBelow(x, y, c, h);
      }
      assert ForksAt(x, y, c, c);
    } else {
      ForkPointExists(x, y, c - 1);
      var a :| ForksAt(x, y, c - 1, a);
      assert ForksAt(x, y, c, a);
    }
  }

  /** The logs of the blocks `lo..hi`, both included, in chain order. */
  function LogsIn(c: Chain, lo: int, hi: int): seq<Log>
    requires 0 <= lo && hi < |c|
    decreases hi - lo
  {
    if hi < lo then [] else LogsIn(c, lo, hi - 1) + c[hi].logs
  }

  lemma {:induction false} LogsSplit(c: Chain, lo: int, mid: int, hi: int)
    requires 0 <= lo <= mid + 1 && mid <= hi < |c|
    ensures LogsIn(c, lo, hi) == LogsIn(c, lo, mid) + LogsIn(c, mid + 1, hi)
    decreases hi
  {
    if mid < hi {
      LogsSplit(c, lo, mid, hi - 1);
    }
  }

  lemma {:induction false} LogsMembers(c: Chain, lo: int, hi: int, l: Log)
    requires 0 <= lo && hi < |c|
    ensures l in LogsIn(c, lo, hi) <==> exists h :: lo <= h <= hi && l in c[h].logs
    decreases hi - lo
  {
    if lo <= hi {
      LogsMembers(c, lo, hi - 1, l);
    }
  }

  lemma {:induction false} SameBlocksSameLogs(x: Chain, y: Chain, lo: int, hi: int)
    requires 0 <= lo && hi < |x| && hi < |y|
    requires forall h :: lo <= h <= hi ==> x[h].logs == y[h].logs
    ensures LogsIn(x, lo, hi) == LogsIn(y, lo, hi)
    decreases hi - lo
  {
    if lo <= hi {
      SameBlocksSameLogs(x, y, lo, hi - 1);
    }
  }

  /**
   * Every answer the RPC gives is the one chain `c` determines, seen at any point of the chain's
   * growth; any request may still fail.
   */
  ghost predicate Serves(rpc: Rpc, c: Chain) {
    && (rpc.head.Some? ==> 0 <= rpc.head.value < |c|)
    && (forall i, h :: rpc.block(i, h).Some? ==> 0 <= h < |c| && SameHash(rpc.block(i, h).value, c[h].hash))
    && (forall f, t :: 0 <= f && t < |c| && rpc.logs(f, t).Some? ==> rpc.logs(f, t).value == LogsIn(c, f, t))
  }

  /** No request that concerns a block of `c` fails. */
  ghost predicate Answers(rpc: Rpc, c: Chain) {
    && rpc.head.Some?
    && (forall i, h :: 0 <= h < |c| ==> rpc.block(i, h).Some?)
    && (forall f, t :: 0 <= f && t < |c| ==> rpc.logs(f, t).Some?)
  }

  /** The RPC that serves the whole chain and never fails. */
  function Answering(c: Chain): Rpc {
    Rpc(if c == [] then None else Some(|c| - 1),
        (i, h) => if 0 <= h < |c| then Some(c[h].hash) else None,
        (f, t) => if 0 <= f && t < |c| then Some(LogsIn(c, f, t)) else None)
  }

  lemma AnsweringServes(c: Chain)
    ensures Serves(Answering(c), c) && (c != [] ==> Answers(Answering(c), c))
  {
  }

  /** Every canonical row is a block of `c`. */
  ghost predicate Agrees(blocks: BlockTable, chainId: int, c: Chain) {
    forall k :: k in CanonicalKeys(blocks, chainId) ==> RowOn(k, c)
  }

  predicate RowOn(k: BlockKey, c: Chain) {
    0 <= k.number < |c| && SameHash(k.hash, c[k.number].hash)
  }
}
