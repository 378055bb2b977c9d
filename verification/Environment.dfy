/** What one `execute` call meets outside the process: the RPC answers and the failures. */
module Environment {
  import opened Prelude
  import opened Records
  import opened Tables

  /**
   * The RPC during one call. `None` is a failed request. `block` is told the number of the request,
   * so that the same height may be answered differently within one call.
   */
  datatype Rpc = Rpc(
    head: Option<int>,
    block: (nat, int) -> Option<string>,
    logs: (int, int) -> Option<seq<Log>>)

  /**
   * The database failures of one call: the first read that fails (0 the checkpoint, 1 the tip, then
   * the ancestor walk), and how many statements each of the two transactions executes.
   */
  datatype Faults = Faults(failedRead: Option<nat>, recovery: Fuse, batch: Fuse)

  const NO_FAULTS: Faults := Faults(None, None, None)

  datatype Config = Config(
    startBlock: nat, maxRollbackDepth: nat, chainId: int, indexer: string,
    decode: Decoder, currentIndexedBlock: Option<Option<int>>)
}
