/** The metadata_queue and token_metadata tables, the statements on them, and an object that executes them. */
module TokenTables {
  import opened Prelude
  import opened Discovery

  datatype RawKey = RawKey(chainId: int, address: string)

  /** The primary key of both tables: every statement lower-cases the address. */
  type TokenKey = k: RawKey | IsLower(k.address) witness RawKey(0, "")

  function KeyFor(chainId: int, address: string): TokenKey {
    ToLowerIdempotent(address);
    RawKey(chainId, ToLower(address))
  }

  datatype Status = Pending | Failed | Dead

  datatype Item = Item(
    enrichmentType: string, status: Status, attempts: nat, runAt: int, lastError: Option<string>, observed: nat)

  datatype Metadata = Metadata(
    name: Option<string>, symbol: Option<string>, decimals: Option<nat>, source: string, observed: nat)

  type Queue = map<TokenKey, Item>

  type Repository = map<TokenKey, Metadata>

  datatype Store = Store(queue: Queue, repository: Repository)

  /** A row to insert, and a row read back. */
  datatype Job = Job(key: TokenKey, item: Item)

  const MAX_ATTEMPTS: nat := 5

  // --- Statements ---------------------------------------------------------------------------------------------

  /** `INSERT ... ON CONFLICT DO NOTHING`, row by row. */
  function InsertJobs(queue: Queue, jobs: seq<Job>): Queue {
    if jobs == [] then queue
    else
      var before := InsertJobs(queue, jobs[..|jobs| - 1]);
      var last := jobs[|jobs| - 1];
      if last.key in before then before else before[last.key := last.item]
  }

  function FailedOnce(item: Item, error: string, runAt: int): Item {
    item.(attempts := item.attempts + 1, lastError := Some(error), runAt := runAt,
          status := if item.attempts + 1 >= MAX_ATTEMPTS then Dead else Failed)
  }

  function WithFailure(queue: Queue, k: TokenKey, error: string, runAt: int): Queue {
    if k in queue then queue[k := FailedOnce(queue[k], error, runAt)] else queue
  }

  // --- nextPending ----------------------------------------------------------------------------------------------

  function Eligible(queue: Queue, now: int): set<TokenKey> {
    set k | k in queue && queue[k].status != Dead && queue[k].runAt <= now
  }

  /** `ORDER BY block_number_observed, token_address`: a tie is possible between two chains. */
  predicate RowAtMost(queue: Queue, a: TokenKey, b: TokenKey)
    requires a in queue && b in queue
  {
    queue[a].observed < queue[b].observed
    || (queue[a].observed == queue[b].observed && CompareText(a.address, b.address) <= 0)
  }

  predicate Distinct(jobs: seq<Job>) {
    forall i, j :: 0 <= i < j < |jobs| ==> jobs[i].key != jobs[j].key
  }

  /** The jobs from `i` on are rows of the queue. */
  predicate Reads(queue: Queue, jobs: seq<Job>, i: nat) {
    forall j :: i <= j < |jobs| ==> jobs[j].key in queue && queue[jobs[j].key] == jobs[j].item
  }

  function KeysOf(jobs: seq<Job>): set<TokenKey> {
    set j | j in jobs :: j.key
  }

  /** `jobs` is an answer to `nextPending`: the `limit` first eligible rows, in order. */
  ghost predicate IsNextPending(queue: Queue, now: int, limit: nat, jobs: seq<Job>) {
    && Distinct(jobs) && Reads(queue, jobs, 0) && KeysOf(jobs) <= Eligible(queue, now)
    && |jobs| == Min(limit, |Eligible(queue, now)|)
    && (forall i, j :: 0 <= i < j < |jobs| ==> RowAtMost(queue, jobs[i].key, jobs[j].key))
    && (forall i, k :: 0 <= i < |jobs| && k in Eligible(queue, now) - KeysOf(jobs) ==> RowAtMost(queue, jobs[i].key, k))
  }

  /** A job that has not been given up and whose time has come. */
  predicate IsDue(item: Item, now: int) {
    (item.status == Pending || item.status == Failed) && item.runAt <= now
  }

  function Due(queue: Queue, now: int): set<TokenKey> {
    set k | k in queue && IsDue(queue[k], now)
  }

  /** Jobs are taken in the order in which their tokens were observed, then in the order of the addresses' text. */
  ghost predicate InTurn(a: TokenKey, i: Item, b: TokenKey, j: Item) {
    i.observed < j.observed || (i.observed == j.observed && !TextBefore(b.address, a.address))
  }

  /**
   * An answer takes due jobs only, pending ones and failed ones whose time has come again: all of them if the
   * limit allows, and otherwise as many as it allows, those whose turn comes first, in turn.
   */
  lemma DueJobsAreTaken(queue: Queue, now: int, limit: nat, jobs: seq<Job>)
    requires IsNextPending(queue, now, limit, jobs)
    ensures forall j :: j in jobs ==> j.key in Due(queue, now) && j.item == queue[j.key]
    ensures limit >= |Due(queue, now)| ==> KeysOf(jobs) == Due(queue, now)
    ensures limit <= |Due(queue, now)| ==> |jobs| == limit
    ensures limit >= 1 && Due(queue, now) != {} ==> jobs != []
    ensures forall j, k :: j in jobs && k in Due(queue, now) - KeysOf(jobs) ==> InTurn(j.key, j.item, k, queue[k])
    ensures forall i, j :: 0 <= i < j < |jobs| ==> InTurn(jobs[i].key, jobs[i].item, jobs[j].key, jobs[j].item)
  {
    hide CompareText, TextBefore;
    assert Eligible(queue, now) == Due(queue, now);
    forall a: TokenKey, b: TokenKey
      ensures CompareText(a.address, b.address) <= 0 <==> !TextBefore(b.address, a.address)
    {
      TextOrder(a.address, b.address, a.address);
      CompareTextMeans(b.address, a.address);
    }
    forall j | j in jobs
      ensures j.key in Due(queue, now) && j.item == queue[j.key]
    {
      assert j.key in KeysOf(jobs);
    }
    KeysAreAsMany(jobs);
    SubsetIsAll(KeysOf(jobs), Due(queue, now));
  }

  lemma {:induction false} KeysAreAsMany(jobs: seq<Job>)
    requires Distinct(jobs)
    ensures |KeysOf(jobs)| == |jobs|
  {
    if jobs != [] {
      var before, last := jobs[..|jobs| - 1], jobs[|jobs| - 1];
      KeysAreAsMany(before);
      assert jobs == before + [last];
      assert KeysOf(jobs) == KeysOf(before) + {last.key};
    }
  }

  lemma {:induction false} SubsetIsAll(some: set<TokenKey>, all: set<TokenKey>)
    requires some <= all
    ensures |some| <= |all| && (|some| == |all| ==> some == all)
  {
    assert all == some + (all - some);
  }

  predicate IsFirst(queue: Queue, ks: set<TokenKey>, k: TokenKey) {
    k in ks && forall other :: other in ks && other in queue && k in queue ==> RowAtMost(queue, k, other)
  }

  lemma {:induction false} FirstExists(queue: Queue, ks: set<TokenKey>)
    requires ks != {} && ks <= queue.Keys
    ensures exists k :: IsFirst(queue, ks, k)
  {
    var k :| k in ks;
    var rest := ks - {k};
    TextOrder(k.address, k.address, k.address);
    if rest == {} {
      assert ks == {k};
      assert IsFirst(queue, ks, k);
    } else {
      FirstExists(queue, rest);
      var m: TokenKey :| IsFirst(queue, rest, m);
      var w: TokenKey := if RowAtMost(queue, k, m) then k else m;
      forall other | other in ks
        ensures RowAtMost(queue, w, other)
      {
        TextOrder(k.address, m.address, other.address);
        TextOrder(m.address, k.address, other.address);
        assert other == k || other in rest;
      }
      assert IsFirst(queue, ks, w);
    }
  }

  /** `jobs` lists, in order, the rows that come before all of `rest`. */
  predicate Picked(queue: Queue, eligible: set<TokenKey>, rest: set<TokenKey>, jobs: seq<Job>) {
    && rest <= eligible <= queue.Keys && KeysOf(jobs) == eligible - rest
    && Distinct(jobs) && Reads(queue, jobs, 0)
    && (forall i, j :: 0 <= i < j < |jobs| ==> RowAtMost(queue, jobs[i].key, jobs[j].key))
    && (forall i, k :: 0 <= i < |jobs| && k in rest ==> RowAtMost(queue, jobs[i].key, k))
  }

  lemma PickNext(queue: Queue, eligible: set<TokenKey>, rest: set<TokenKey>, jobs: seq<Job>, k: TokenKey)
    requires Picked(queue, eligible, rest, jobs) && IsFirst(queue, rest, k)
    ensures Picked(queue, eligible, rest - {k}, jobs + [Job(k, queue[k])])
  {
    hide RowAtMost;
    var more := jobs + [Job(k, queue[k])];
    forall i | 0 <= i < |jobs|
      ensures jobs[i].key != k
    {
      assert jobs[i].key in KeysOf(jobs);
    }
    forall key
      ensures key in KeysOf(more) <==> key in KeysOf(jobs) || key == k
    {
      if key in KeysOf(jobs) {
        var j :| j in jobs && j.key == key;
        assert j in more;
      }
      if key == k {
        assert more[|jobs|].key == key;
      }
    }
  }

  /** The two tables, as the metadata stages use them; `fails` is the failure of the statement itself. */
  class TokenDatabase {
    var queue: Queue
    var repository: Repository

    constructor ()
      ensures View() == Store(map[], map[])
    {
      queue, repository := map[], map[];
    }

    function View(): Store
      reads this
    {
      Store(queue, repository)
    }

    method Enqueue(jobs: seq<Job>, fails: bool) returns (ok: bool)
      modifies this`queue
      ensures ok == !fails
      ensures queue == if fails then old(queue) else InsertJobs(old(queue), jobs)
    {
      if fails {
        return false;
      }
      ok := true;
      for i := 0 to |jobs|
        invariant queue == InsertJobs(old(queue), jobs[..i])
      {
        assert jobs[..i + 1][..i] == jobs[..i];
        if jobs[i].key !in queue {
          queue := queue[jobs[i].key := jobs[i].item];
        }
      }
      assert jobs[..|jobs|] == jobs;
    }

    method NextPending(now: int, limit: nat) returns (jobs: seq<Job>)
      ensures IsNextPending(queue, now, limit, jobs)
    {
      hide RowAtMost;
      var eligible := Eligible(queue, now);
      var rest := eligible;
      jobs := [];
      while |jobs| < limit && rest != {}
        invariant |jobs| <= limit && |jobs| + |rest| == |eligible|
        invariant Picked(queue, eligible, rest, jobs)
        decreases rest
      {
        FirstExists(queue, rest);
        var k :| k in rest && IsFirst(queue, rest, k);
        PickNext(queue, eligible, rest, jobs, k);
        jobs := jobs + [Job(k, queue[k])];
        rest := rest - {k};
      }
      assert eligible - KeysOf(jobs) == rest;
    }

    method MarkCompleted(chainId: int, address: string, fails: bool) returns (ok: bool)
      modifies this`queue
      ensures ok == !fails
      ensures queue == if fails then old(queue) else old(queue) - {KeyFor(chainId, address)}
    {
      ok := !fails;
      if ok {
        queue := queue - {KeyFor(chainId, address)};
      }
    }

    method MarkFailed(chainId: int, address: string, error: string, runAt: int, fails: bool) returns (ok: bool)
      modifies this`queue
      ensures ok == !fails
      ensures queue == if fails then old(queue) else WithFailure(old(queue), KeyFor(chainId, address), error, runAt)
    {
      ok := !fails;
      var k := KeyFor(chainId, address);
      if ok && k in queue {
        var item := queue[k];
        queue := queue[k := item.(attempts := item.attempts + 1,
                                  status := if item.attempts + 1 >= 5 then Dead else Failed,
                                  lastError := Some(error), runAt := runAt)];
      }
    }

    method Upsert(chainId: int, address: string, metadata: Metadata, fails: bool) returns (ok: bool)
      modifies this`repository
      ensures ok == !fails
      ensures repository == if fails then old(repository) else old(repository)[KeyFor(chainId, address) := metadata]
    {
      ok := !fails;
      if ok {
        repository := repository[KeyFor(chainId, address) := metadata];
      }
    }

    method ExistsInQueue(chainId: int, address: string) returns (found: bool)
      ensures found <==> KeyFor(chainId, address) in queue
    {
      found := KeyFor(chainId, address) in queue;
    }

    method ExistsInRepository(chainId: int, address: string) returns (found: bool)
      ensures found <==> KeyFor(chainId, address) in repository
    {
      found := KeyFor(chainId, address) in repository;
    }
  }
}
