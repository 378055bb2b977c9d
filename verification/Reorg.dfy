/** `ReorgDetector` and `ReorgManager` (apps/indexer/src/reorg.ts). */
module Reorg {
  import opened Prelude
  import opened Tables
  import opened Environment

  datatype ReorgCheck = NoReorg | RollbackTo(block: int)

  predicate SameHash(a: string, b: string) {
    ToLower(a) == ToLower(b)
  }

  /** Hashes are compared letter by letter, regardless of case. */
  lemma HashesMatchRegardlessOfCase(a: string, b: string)
    ensures SameHash(a, b) <==> |a| == |b| && forall i :: 0 <= i < |a| ==> SameLetter(a[i], b[i])
  {
    CaseIsForgotten(a, b);
  }

  /** The lowest height the ancestor walk visits. */
  function MinBlock(tip: int, maxRollbackDepth: nat): int {
    Max(0, tip - maxRollbackDepth)
  }

  /** The rest of the ancestor walk from height `n` down to `min`; `i` heights are behind it. */
  ghost function Walk(blocks: BlockTable, chainId: int, rpc: Rpc, faults: Faults, n: int, min: int, i: nat)
    : Result<ReorgCheck, Error>
    decreases n - min
  {
    if n < min then Success(RollbackTo(min))
    else if faults.failedRead == Some(2 + i) then Failure(ReorgError)
    else
      var stored := At(blocks, chainId, n);
      if stored.None? then Success(RollbackTo(n - 1))
      else
        var answer := rpc.block(1 + i, n);
        if answer.None? then Failure(ReorgError)
        else if SameHash(answer.value, stored.value.hash) then Success(RollbackTo(n))
        else Walk(blocks, chainId, rpc, faults, n - 1, min, i + 1)
  }

  ghost function Check(blocks: BlockTable, chainId: int, maxRollbackDepth: nat, rpc: Rpc, faults: Faults)
    : Result<ReorgCheck, Error>
  {
    if faults.failedRead == Some(1) then Failure(ReorgError)
    else
      var tip := Latest(blocks, chainId);
      if tip.None? then Success(NoReorg)
      else
        var answer := rpc.block(0, tip.value.number);
        if answer.None? then Failure(ReorgError)
        else if SameHash(answer.value, tip.value.hash) then Success(NoReorg)
        else Walk(blocks, chainId, rpc, faults, tip.value.number, MinBlock(tip.value.number, maxRollbackDepth), 0)
  }

  /** The database after `ReorgManager.markNonCanonical`. */
  function Recovered(s: State, chainId: int, indexer: string, rollbackTo: int): State {
    s.(blocks := Demote(s.blocks, chainId, rollbackTo + 1),
       checkpoints := s.checkpoints[indexer := Checkpoint(chainId, rollbackTo)])
  }

  method FindCommonAncestor(
    db: Database, chainId: int, maxRollbackDepth: nat, rpc: Rpc, faults: Faults, diverged: int)
    returns (res: Result<ReorgCheck, Error>)
    requires OnePerHeight(db.blocks, chainId)
    ensures res == Walk(db.blocks, chainId, rpc, faults, diverged, MinBlock(diverged, maxRollbackDepth), 0)
  {
    var minBlock := Max(0, diverged - maxRollbackDepth);
    var blockNum, i := diverged, 0;
    while blockNum >= minBlock
      invariant i >= 0
      invariant Walk(db.blocks, chainId, rpc, faults, blockNum, minBlock, i)
             == Walk(db.blocks, chainId, rpc, faults, diverged, minBlock, 0)
      decreases blockNum - minBlock
    {
      if faults.failedRead == Some(2 + i) {
        return Failure(ReorgError);
      }
      var stored := db.GetBlockByNumber(chainId, blockNum);
      if stored.None? {
        return Success(RollbackTo(blockNum - 1));
      }
      assert At(db.blocks, chainId, blockNum) == stored;
      var answer := rpc.block(1 + i, blockNum);
      if answer.None? {
        return Failure(ReorgError);
      }
      if SameHash(answer.value, stored.value.hash) {
        return Success(RollbackTo(blockNum));
      }
      blockNum, i := blockNum - 1, i + 1;
    }
    res := Success(RollbackTo(minBlock));
  }

  method CheckReorg(db: Database, chainId: int, maxRollbackDepth: nat, rpc: Rpc, faults: Faults)
    returns (res: Result<ReorgCheck, Error>)
    requires OnePerHeight(db.blocks, chainId)
    ensures res == Check(db.blocks, chainId, maxRollbackDepth, rpc, faults)
  {
    if faults.failedRead == Some(1) {
      return Failure(ReorgError);
    }
    var latest := db.GetLatestCanonicalBlock(chainId);
    if latest.None? {
      return Success(NoReorg);
    }
    assert Latest(db.blocks, chainId) == latest;
    var answer := rpc.block(0, latest.value.number);
    if answer.None? {
      return Failure(ReorgError);
    }
    if SameHash(answer.value, latest.value.hash) {
      return Success(NoReorg);
    }
    res := FindCommonAncestor(db, chainId, maxRollbackDepth, rpc, faults, latest.value.number);
  }

  /** The two recovery statements; runs inside a transaction that the caller rolls back on failure. */
  method MarkNonCanonical(db: Database, chainId: int, indexer: string, rollbackTo: int) returns (ok: bool)
    modifies db
    ensures db.fuse == Burn(old(db.fuse), 2)
    ensures ok <==> !Blown(old(db.fuse), 2)
    ensures ok ==> db.View() == Recovered(old(db.View()), chainId, indexer, rollbackTo)
  {
    ok := db.MarkNonCanonical(chainId, rollbackTo + 1);
    if ok {
      ok := db.SaveCheckpoint(indexer, chainId, rollbackTo);
    }
  }
}
