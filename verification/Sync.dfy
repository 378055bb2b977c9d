/** `calculateSyncRange` (packages/shared/src/sync.ts): which block range the next batch covers. */
module Sync {
  import opened Prelude
  import opened Tables

  datatype SyncOutput = SyncOutput(nextFromBlock: int, nextToBlock: int, isCaughtUp: bool, remainingBlocks: int)

  function CalculateSyncRange(startBlock: int, latestBlock: int, current: Option<int>, batchSize: int)
    : Result<SyncOutput, Error>
  {
    if startBlock < 0 || latestBlock < 0 || (current.Some? && current.value < 0) || batchSize <= 0 then
      Failure(ValidationError)
    else
      var fromBlock := if current.None? then startBlock else current.value + 1;
      if latestBlock < fromBlock then
        Success(SyncOutput(fromBlock, fromBlock - 1, true, 0))
      else
        var toBlock := Min(fromBlock + batchSize - 1, latestBlock);
        Success(SyncOutput(fromBlock, toBlock, toBlock >= latestBlock, latestBlock - toBlock))
  }

  /** The first block that has not been indexed yet. */
  function Next(startBlock: nat, current: Option<nat>): nat {
    if current.None? then startBlock else current.value + 1
  }

  /** The ranges that successive batches cover while the head stands still. */
  function Plan(startBlock: nat, current: Option<nat>, head: nat, batchSize: nat): seq<SyncOutput>
    requires batchSize > 0
    decreases head - Next(startBlock, current)
  {
    var range := CalculateSyncRange(startBlock, head, current, batchSize).value;
    if range.nextToBlock < range.nextFromBlock then []
    else [range] + Plan(startBlock, Some(range.nextToBlock), head, batchSize)
  }

  /**
   * The planned ranges lie end to end from the first missing block to the head, so each block is in
   * exactly one of them; only the last is reported as caught up; and there are n of them with
   * (n - 1) * batchSize < missing blocks <= n * batchSize, the rounded-up quotient.
   */
  lemma {:induction false} RangesTile(startBlock: nat, current: Option<nat>, head: nat, batchSize: nat)
    requires batchSize > 0
    ensures var p, next := Plan(startBlock, current, head, batchSize), Next(startBlock, current);
            && (p == [] <==> head < next)
            && (p != [] ==> p[0].nextFromBlock == next && p[|p| - 1].nextToBlock == head)
            && (forall i :: 0 <= i < |p| ==> p[i].nextFromBlock <= p[i].nextToBlock < p[i].nextFromBlock + batchSize)
            && (forall i :: 0 <= i < |p| - 1 ==> p[i].nextToBlock + 1 == p[i + 1].nextFromBlock)
            && (forall i :: 0 <= i < |p| ==> p[i].isCaughtUp == (i == |p| - 1)
                                             && p[i].remainingBlocks == head - p[i].nextToBlock)
            && (p != [] ==> (|p| - 1) * batchSize < head + 1 - next <= |p| * batchSize)
    decreases head - Next(startBlock, current)
  {
    var next := Next(startBlock, current);
    if next <= head {
      var range := CalculateSyncRange(startBlock, head, current, batchSize).value;
      var rest := Plan(startBlock, Some(range.nextToBlock), head, batchSize);
      RangesTile(startBlock, Some(range.nextToBlock), head, batchSize);
      assert Plan(startBlock, current, head, batchSize) == [range] + rest;
      assert (|rest| + 1) * batchSize == |rest| * batchSize + batchSize;
      if rest != [] {
        assert (|rest| - 1) * batchSize == |rest| * batchSize - batchSize;
      }
    }
  }
}
