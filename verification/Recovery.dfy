/** What reorg detection and recovery do to the canonical rows, whichever way the ancestor walk ends. */
module Recovery {
  import opened Prelude
  import opened Tables
  import opened Environment
  import opened Reorg
  import opened Chains

  // --- Any stored history, dense or sparse --------------------------------------------------------------

  /** Everything above the block the walk settles on was seen to be missing or off the chain. */
  lemma {:induction false} WalkSound(
    blocks: BlockTable, chainId: int, rpc: Rpc, faults: Faults, c: Chain, n: int, min: int, i: nat)
    requires Serves(rpc, c) && OnePerHeight(blocks, chainId)
    requires forall k :: k in CanonicalKeys(blocks, chainId) && k.number > n ==> !RowOn(k, c)
    ensures var res := Walk(blocks, chainId, rpc, faults, n, min, i);
            res.Success? ==> (
              && res.value.RollbackTo? && min - 1 <= res.value.block <= Max(n, min)
              && forall k :: k in CanonicalKeys(blocks, chainId) && k.number > res.value.block
                   ==> !RowOn(k, c))
    decreases n - min
  {
    if n >= min && faults.failedRead != Some(2 + i) {
      var stored := At(blocks, chainId, n);
      if stored.Some? && rpc.block(1 + i, n).Some? {
        if !SameHash(rpc.block(1 + i, n).value, stored.value.hash) {
          WalkSound(blocks, chainId, rpc, faults, c, n - 1, min, i + 1);
        }
      }
    }
  }

  function KeysUpTo(ks: set<BlockKey>, height: int): set<BlockKey> {
    set k | k in ks && k.number <= height
  }

  lemma DemoteKeeps(blocks: BlockTable, chainId: int, rollbackTo: int)
    ensures CanonicalKeys(Demote(blocks, chainId, rollbackTo + 1), chainId)
            == KeysUpTo(CanonicalKeys(blocks, chainId), rollbackTo)
    ensures forall other :: other != chainId ==>
              CanonicalKeys(Demote(blocks, chainId, rollbackTo + 1), other) == CanonicalKeys(blocks, other)
  {
  }

  /**
   * Recovery under stable RPC answers, whichever exit the walk takes: exactly the canonical rows
   * above the rollback height are demoted, each of them an orphan, and other chains are untouched.
   */
  lemma RecoveryDemotesOnlyOrphans(
    s: State, chainId: int, indexer: string, depth: nat, rpc: Rpc, faults: Faults, c: Chain)
    requires Serves(rpc, c) && OnePerHeight(s.blocks, chainId)
    requires var check := Check(s.blocks, chainId, depth, rpc, faults); check.Success? && check.value.RollbackTo?
    ensures var r := Check(s.blocks, chainId, depth, rpc, faults).value.block;
            var before := CanonicalKeys(s.blocks, chainId);
            var after := CanonicalKeys(Recovered(s, chainId, indexer, r).blocks, chainId);
            && after == KeysUpTo(before, r)
            && (forall k :: k in before - after ==> !RowOn(k, c))
            && Latest(s.blocks, chainId).Some? && r <= Latest(s.blocks, chainId).value.number
            && (forall other :: other != chainId ==>
                  CanonicalKeys(Recovered(s, chainId, indexer, r).blocks, other) == CanonicalKeys(s.blocks, other))
  {
    var tip := Latest(s.blocks, chainId).value;
    WalkSound(s.blocks, chainId, rpc, faults, c, tip.number, MinBlock(tip.number, depth), 0);
    DemoteKeeps(s.blocks, chainId, Check(s.blocks, chainId, depth, rpc, faults).value.block);
  }

  /** The rollback height lies below the tip exactly when the depth and the tip height are positive. */
  lemma RecoveryProgress(s: State, chainId: int, depth: nat, rpc: Rpc, faults: Faults, c: Chain)
    requires Serves(rpc, c) && OnePerHeight(s.blocks, chainId)
    requires forall k :: k in CanonicalKeys(s.blocks, chainId) ==> k.number >= 0
    requires var check := Check(s.blocks, chainId, depth, rpc, faults); check.Success? && check.value.RollbackTo?
    ensures var r := Check(s.blocks, chainId, depth, rpc, faults).value.block;
            var tip := Latest(s.blocks, chainId).value.number;
            var before := CanonicalKeys(s.blocks, chainId);
            && (r < tip <==> depth >= 1 && tip >= 1)
            && (|KeysUpTo(before, r)| < |before| <==> depth >= 1 && tip >= 1)
  {
    var tip := Latest(s.blocks, chainId).value;
    var r := Check(s.blocks, chainId, depth, rpc, faults).value.block;
    var before := CanonicalKeys(s.blocks, chainId);
    var min := MinBlock(tip.number, depth);
    assert tip in KeysAt(before, tip.number);
    assert At(s.blocks, chainId, tip.number).value == tip;
    assert !RowOn(tip, c);
    assert Walk(s.blocks, chainId, rpc, faults, tip.number, min, 0)
        == Walk(s.blocks, chainId, rpc, faults, tip.number - 1, min, 1);
    WalkBounds(s.blocks, chainId, rpc, faults, tip.number - 1, min, 1);
    if r < tip.number {
      assert tip !in KeysUpTo(before, r) && KeysUpTo(before, r) <= before - {tip};
      Smaller(KeysUpTo(before, r), before, tip);
    } else {
      assert KeysUpTo(before, r) == before;
    }
  }

  lemma {:induction false} WalkBounds(
    blocks: BlockTable, chainId: int, rpc: Rpc, faults: Faults, n: int, min: int, i: nat)
    ensures var res := Walk(blocks, chainId, rpc, faults, n, min, i);
            res.Success? ==> res.value.RollbackTo? && min - 1 <= res.value.block <= Max(n, min)
    decreases n - min
  {
    if n >= min {
      WalkBounds(blocks, chainId, rpc, faults, n - 1, min, i + 1);
    }
  }

  lemma Smaller(a: set<BlockKey>, b: set<BlockKey>, k: BlockKey)
    requires k in b && a <= b - {k}
    ensures |a| < |b|
  {
    SubsetSize(a, b - {k});
  }

  lemma {:induction false} SubsetSize(a: set<BlockKey>, b: set<BlockKey>)
    requires a <= b
    ensures |a| <= |b|
  {
    assert |b| == |a| + |b - a| by {
      assert b == a + (b - a);
    }
  }

  // --- Checking only the tip -----------------------------------------------------------------------------

  /**
   * When all canonical rows lie on one linked chain, the tip speaks for all of them: the check
   * reports no reorganization exactly when every canonical row is on the chain the RPC serves.
   */
  lemma TipSpeaksForAll(
    blocks: BlockTable, chainId: int, depth: nat, rpc: Rpc, faults: Faults, x: Chain, y: Chain)
    requires Linked(x) && Linked(y) && Coherent(x, y) && Serves(rpc, y) && Agrees(blocks, chainId, x)
    requires Check(blocks, chainId, depth, rpc, faults).Success?
    ensures Check(blocks, chainId, depth, rpc, faults) == Success(NoReorg) <==> Agrees(blocks, chainId, y)
  {
    var tip := Latest(blocks, chainId);
    if tip.Some? {
      assert RowOn(tip.value, x);
      var answer := rpc.block(0, tip.value.number);
      if SameHash(answer.value, tip.value.hash) {
        forall k | k in CanonicalKeys(blocks, chainId)
          ensures RowOn(k, y)
        {
          assert RowOn(k, x);
          AgreeBelow(x, y, tip.value.number, k.number);
        }
      } else {
        WalkBounds(blocks, chainId, rpc, faults, tip.value.number, MinBlock(tip.value.number, depth), 0);
        assert !RowOn(tip.value, y);
      }
    }
  }

  // --- Stored history -----------------------------------------------------------------------------------

  /** Only a block with a log has a row. */
  predicate Logged(c: Chain, h: int) {
    0 <= h < |c| && c[h].logs != []
  }

  predicate Quiet(c: Chain, lo: int, hi: int) {
    forall h :: lo <= h <= hi ==> !Logged(c, h)
  }

  function RowAt(chainId: int, c: Chain, h: int): BlockKey
    requires 0 <= h < |c|
  {
    BlockKey(chainId, h, ToLower(c[h].hash))
  }

  /** The rows of the blocks `lo..hi`. */
  function RowsOf(chainId: int, c: Chain, lo: int, hi: int): set<BlockKey>
    requires 0 <= lo && hi < |c|
  {
    set h | lo <= h <= hi && Logged(c, h) :: RowAt(chainId, c, h)
  }

  /** The highest logged height in `lo..hi`, or `lo - 1`. */
  function Top(c: Chain, lo: int, hi: int): (t: int)
    requires lo >= 0 && hi < |c|
    ensures t == lo - 1 || (lo <= t <= hi && Logged(c, t))
    ensures forall h :: t < h <= hi && lo <= h ==> !Logged(c, h)
    decreases hi - lo
  {
    if hi < lo then lo - 1 else if Logged(c, hi) then hi else Top(c, lo, hi - 1)
  }

  /** The lowest height from which all blocks up to `t` are logged, not below `lo`. */
  function Bottom(c: Chain, lo: int, t: int): (b: int)
    requires lo >= 0
    ensures b <= t + 1 && (t >= lo - 1 ==> b >= lo)
    ensures forall h :: b <= h <= t ==> h >= lo && Logged(c, h)
    ensures b - 1 < lo || !Logged(c, b - 1)
    decreases t - lo
  {
    if t < lo || !Logged(c, t) then t + 1 else Bottom(c, lo, t - 1)
  }

  /** Where the walk ends when the rows above it begin at height `b` and the chains fork after `a`. */
  function Rollback(b: int, min: int, a: int): int {
    if a >= Max(b, min) then a
    else if min >= b then min
    else b - 2
  }

  lemma {:induction false} StoredWalk(
    blocks: BlockTable, chainId: int, rpc: Rpc, faults: Faults,
    x: Chain, y: Chain, lo: int, top: int, c: int, a: int, n: int, min: int, i: nat)
    requires 0 <= lo && top <= c < |x| && c < |y| && Serves(rpc, y)
    requires CanonicalKeys(blocks, chainId) == RowsOf(chainId, x, lo, top)
    requires ForksAt(x, y, c, a) && a <= n <= top && min >= 0 && n >= min - 1
    ensures var res := Walk(blocks, chainId, rpc, faults, n, min, i);
            res.Success? ==> res.value == RollbackTo(Rollback(Bottom(x, lo, n), min, a))
    decreases n - min
  {
    hide ToLower;
    if n >= min && faults.failedRead != Some(2 + i) {
      if n >= lo && Logged(x, n) {
        assert RowAt(chainId, x, n) in KeysAt(CanonicalKeys(blocks, chainId), n);
        assert At(blocks, chainId, n).value == RowAt(chainId, x, n);
        if rpc.block(1 + i, n).Some? {
          ToLowerIdempotent(x[n].hash);
          assert SameHash(rpc.block(1 + i, n).value, RowAt(chainId, x, n).hash) <==> Agree(x, y, n);
          if n > a {
            StoredWalk(blocks, chainId, rpc, faults, x, y, lo, top, c, a, n - 1, min, i + 1);
          }
        }
      } else {
        assert KeysAt(CanonicalKeys(blocks, chainId), n) == {};
      }
    }
  }

  /**
   * The complete answer of the check for the rows of blocks `lo..top` of a chain that forks from the
   * served one after block `a`: none if the highest row is shared, else one of the three exits of the walk.
   */
  lemma StoredCheck(
    blocks: BlockTable, chainId: int, depth: nat, rpc: Rpc, faults: Faults,
    x: Chain, y: Chain, lo: int, top: int, c: int, a: int)
    requires 0 <= lo && top <= c < |x| && c < |y| && Serves(rpc, y) && ForksAt(x, y, c, a)
    requires CanonicalKeys(blocks, chainId) == RowsOf(chainId, x, lo, top)
    ensures var check := Check(blocks, chainId, depth, rpc, faults);
            var t := Top(x, lo, top);
            check.Success? ==>
              check.value == if t < lo || t <= a then NoReorg
                             else RollbackTo(Rollback(Bottom(x, lo, t), MinBlock(t, depth), a))
  {
    hide ToLower, Walk;
    var t := Top(x, lo, top);
    if t < lo {
      assert CanonicalKeys(blocks, chainId) == {};
    } else {
      assert RowAt(chainId, x, t) in CanonicalKeys(blocks, chainId);
      var tip := Latest(blocks, chainId).value;
      assert tip == RowAt(chainId, x, t);
      ToLowerIdempotent(x[t].hash);
      assert Agree(x, y, t) <==> t <= a;
      if t > a {
        StoredWalk(blocks, chainId, rpc, faults, x, y, lo, top, c, a, t, MinBlock(t, depth), 0);
      }
    }
  }

  lemma {:induction false} WalkAnswers(
    blocks: BlockTable, chainId: int, rpc: Rpc, faults: Faults, y: Chain, n: int, min: int, i: nat)
    requires Answers(rpc, y) && faults.failedRead.None? && n < |y| && min >= 0
    ensures Walk(blocks, chainId, rpc, faults, n, min, i).Success?
    decreases n - min
  {
    if n >= min {
      WalkAnswers(blocks, chainId, rpc, faults, y, n - 1, min, i + 1);
    }
  }
}
