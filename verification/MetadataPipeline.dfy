/** `DefaultMetadataPipeline`: tokens enter the queue once and leave it with metadata, or dead after five failures. */
module MetadataPipeline {
  import opened Prelude
  import opened Backoff
  import opened Discovery
  import opened TokenTables

  // --- enqueueBatch -----------------------------------------------------------------------------------------------

  function KeyOfToken(token: Sighting): TokenKey {
    KeyFor(token.chainId, token.tokenAddress)
  }

  function NewJob(token: Sighting): Job {
    Job(KeyOfToken(token), Item("ERC20", Pending, 0, 0, None, token.blockNumber))
  }

  predicate Known(s: Store, k: TokenKey) {
    k in s.queue || k in s.repository
  }

  /** The jobs for the tokens that are in neither table; a token listed twice yields two jobs. */
  function NewJobs(s: Store, tokens: seq<Sighting>): seq<Job> {
    if tokens == [] then []
    else
      var last := tokens[|tokens| - 1];
      NewJobs(s, tokens[..|tokens| - 1]) + (if Known(s, KeyOfToken(last)) then [] else [NewJob(last)])
  }

  function Enqueued(s: Store, tokens: seq<Sighting>, fails: bool): Store {
    if fails then s else s.(queue := InsertJobs(s.queue, NewJobs(s, tokens)))
  }

  method EnqueueBatch(db: TokenDatabase, batch: Batch, fails: bool) returns (ok: bool)
    modifies db`queue
    ensures db.View() == Enqueued(old(db.View()), batch.tokens, fails)
    ensures ok <==> !fails || NewJobs(old(db.View()), batch.tokens) == []
  {
    var newItems: seq<Job> := [];
    var tokens := batch.tokens;
    for i := 0 to |tokens|
      invariant db.View() == old(db.View())
      invariant newItems == NewJobs(db.View(), tokens[..i])
    {
      assert tokens[..i + 1][..i] == tokens[..i];
      var inRepository := db.ExistsInRepository(tokens[i].chainId, tokens[i].tokenAddress);
      if inRepository {
        continue;
      }
      var inQueue := db.ExistsInQueue(tokens[i].chainId, tokens[i].tokenAddress);
      if inQueue {
        continue;
      }
      newItems := newItems + [NewJob(tokens[i])];
    }
    assert tokens[..|tokens|] == tokens;
    ok := true;
    if |newItems| > 0 {
      ok := db.Enqueue(newItems, fails);
    }
    assert InsertJobs(old(db.queue), []) == old(db.queue);
  }

  // --- processQueue -----------------------------------------------------------------------------------------------

  /** What the processor does, and what becomes of the two statements that store its metadata. */
  datatype Reply =
    | NoProcessor
    | Thrown(error: string)
    | Fetched(
        chainId: int, address: string, metadata: Metadata,
        upsertError: Option<string>, completeError: Option<string>)

  /** `clock` is the time at which the next run is computed. */
  datatype Attempt = Attempt(reply: Reply, clock: int, markFails: bool)

  /** The attempt at the `i`-th job of a call. */
  type Script = nat -> Attempt

  predicate Stores(a: Attempt) {
    a.reply.Fetched? && a.reply.upsertError.None?
  }

  predicate Completes(a: Attempt) {
    Stores(a) && a.reply.completeError.None?
  }

  /** The metadata is stored but the job is not removed. */
  predicate HalfDone(a: Attempt) {
    Stores(a) && a.reply.completeError.Some?
  }

  /** The outcome reaches the queue; otherwise the call rejects. */
  predicate Recorded(a: Attempt) {
    Completes(a) || !a.markFails
  }

  function ErrorText(job: Job, a: Attempt): string
    requires !Completes(a)
  {
    match a.reply
    case NoProcessor => "No processor registered for capability: " + job.item.enrichmentType
    case Thrown(error) => error
    case Fetched(_, _, _, upsertError, completeError) =>
      if upsertError.Some? then upsertError.value else completeError.value
  }

  function Stored(repository: Repository, job: Job, a: Attempt): Repository {
    if Stores(a)
    then repository[KeyFor(a.reply.chainId, a.reply.address) := a.reply.metadata.(observed := job.item.observed)]
    else repository
  }

  /** The tables after one job has been handled. */
  function Settled(s: Store, job: Job, a: Attempt): Store {
    Store(
      if Completes(a) then s.queue - {job.key}
      else if a.markFails then s.queue
      else WithFailure(s.queue, job.key, ErrorText(job, a), a.clock + RetryDelay(job.item.attempts)),
      Stored(s.repository, job, a))
  }

  /** The tables after the jobs from `i` on: the loop ends early when a failure cannot be recorded. */
  function Processed(s: Store, jobs: seq<Job>, script: Script, i: nat): Store
    decreases |jobs| - i
  {
    if i >= |jobs| then s
    else
      var s' := Settled(s, jobs[i], script(i));
      if Recorded(script(i)) then Processed(s', jobs, script, i + 1) else s'
  }

  /** How many jobs from `i` on have an outcome that was recorded. */
  function Handled(jobs: seq<Job>, script: Script, i: nat): nat
    decreases |jobs| - i
  {
    if i >= |jobs| || !Recorded(script(i)) then 0 else 1 + Handled(jobs, script, i + 1)
  }

  method ProcessQueue(db: TokenDatabase, now: int, maxItems: nat, script: Script) returns (jobs: seq<Job>, ok: bool)
    modifies db
    ensures IsNextPending(old(db.queue), now, maxItems, jobs)
    ensures db.View() == Processed(old(db.View()), jobs, script, 0)
    ensures ok <==> Handled(jobs, script, 0) == |jobs|
  {
    hide IsNextPending;
    jobs := db.NextPending(now, maxItems);
    for i := 0 to |jobs|
      invariant Processed(db.View(), jobs, script, i) == Processed(old(db.View()), jobs, script, 0)
      invariant Handled(jobs, script, 0) == i + Handled(jobs, script, i)
    {
      ghost var before := db.View();
      var marked := HandleJob(db, jobs[i], script(i));
      if !marked {
        HandledAtMost(jobs, script, i);
        return jobs, false;
      }
    }
    ok := true;
  }

  lemma {:induction false} HandledAtMost(jobs: seq<Job>, script: Script, i: nat)
    requires i <= |jobs|
    ensures Handled(jobs, script, i) <= |jobs| - i
    decreases |jobs| - i
  {
    if i < |jobs| {
      HandledAtMost(jobs, script, i + 1);
    }
  }

  /** One turn of the loop; false when `markFailed` itself throws. */
  method HandleJob(db: TokenDatabase, job: Job, a: Attempt) returns (ok: bool)
    modifies db
    ensures db.View() == Settled(old(db.View()), job, a)
    ensures ok <==> Recorded(a)
  {
    var k := job.key;
    assert KeyFor(k.chainId, k.address) == k;
    var nextRunAt := a.clock + RetryDelay(job.item.attempts);
    if a.reply.NoProcessor? {
      ok := db.MarkFailed(k.chainId, k.address,
                          "No processor registered for capability: " + job.item.enrichmentType, nextRunAt, a.markFails);
      return;
    }
    var error: string;
    if a.reply.Thrown? {
      error := a.reply.error;
    } else {
      var enriched := a.reply.metadata.(observed := job.item.observed);
      var stored := db.Upsert(a.reply.chainId, a.reply.address, enriched, a.reply.upsertError.Some?);
      if stored {
        var completed := db.MarkCompleted(k.chainId, k.address, a.reply.completeError.Some?);
        if completed {
          return true;
        }
        error := a.reply.completeError.value;
      } else {
        error := a.reply.upsertError.value;
      }
    }
    ok := db.MarkFailed(k.chainId, k.address, error, nextRunAt, a.markFails);
  }

  // --- What handling one job preserves ---------------------------------------------------------------------------

  /** The block at which each known token was first observed. */
  function Observed(s: Store): map<TokenKey, nat> {
    map k | k in s.queue.Keys + s.repository.Keys ::
      if k in s.queue then s.queue[k].observed else s.repository[k].observed
  }

  predicate Consistent(s: Store) {
    forall k :: k in s.queue && k in s.repository ==> s.queue[k].observed == s.repository[k].observed
  }

  predicate Exclusive(s: Store) {
    s.queue.Keys !! s.repository.Keys
  }

  /** The processor describes the token it was asked about. */
  predicate Honest(job: Job, a: Attempt) {
    a.reply.Fetched? ==> KeyFor(a.reply.chainId, a.reply.address) == job.key
  }

  predicate IsRow(s: Store, job: Job) {
    job.key in s.queue && s.queue[job.key] == job.item
  }

  /** What one key shows before and after a job is handled. */
  lemma SettledAt(s: Store, job: Job, a: Attempt, k: TokenKey)
    requires IsRow(s, job) && Honest(job, a) && Consistent(s)
    ensures var s' := Settled(s, job, a);
            && (Known(s', k) <==> Known(s, k))
            && (k in s'.queue ==> k in s.queue && s'.queue[k].observed == s.queue[k].observed)
            && (k in s'.repository ==>
                  (k in s.repository && s'.repository[k].observed == s.repository[k].observed)
                  || (k == job.key && s'.repository[k].observed == job.item.observed))
  {
    hide RetryDelay, KeyFor, ErrorText, Consistent;
  }

  /** Handling a job moves the token or keeps it, with the block at which it was observed. */
  lemma SettledKeepsObserved(s: Store, job: Job, a: Attempt)
    requires IsRow(s, job) && Honest(job, a) && Consistent(s)
    ensures Observed(Settled(s, job, a)) == Observed(s) && Consistent(Settled(s, job, a))
  {
    hide Settled, Honest;
    var s' := Settled(s, job, a);
    forall k
      ensures k in Observed(s') <==> k in Observed(s)
      ensures k in Observed(s') ==> Observed(s')[k] == Observed(s)[k]
      ensures k in s'.queue && k in s'.repository ==> s'.queue[k].observed == s'.repository[k].observed
    {
      SettledAt(s, job, a, k);
    }
  }

  /** A token stays in exactly one table unless its metadata was stored and the job could not be removed. */
  lemma ExclusiveUnlessHalfDone(s: Store, job: Job, a: Attempt)
    requires IsRow(s, job) && Honest(job, a) && Exclusive(s)
    ensures Exclusive(Settled(s, job, a)) <==> !HalfDone(a)
  {
    hide RetryDelay, KeyFor, ErrorText;
    var s' := Settled(s, job, a);
    if HalfDone(a) {
      assert job.key in s'.queue.Keys && job.key in s'.repository.Keys;
    } else {
      assert forall k :: k in s'.queue ==> k in s.queue;
      assert forall k :: k in s'.repository ==> k in s.repository || k == job.key;
    }
  }

  /** A processor that answers for another token makes the pipeline forget this one. */
  lemma MisidentifiedTokenIsLost(s: Store, job: Job, a: Attempt)
    requires IsRow(s, job) && Exclusive(s)
    ensures Known(Settled(s, job, a), job.key)
            <==> !Completes(a) || KeyFor(a.reply.chainId, a.reply.address) == job.key
  {
  }

  lemma SettledFrame(s: Store, jobs: seq<Job>, i: nat, a: Attempt)
    requires Distinct(jobs) && i < |jobs| && Reads(s.queue, jobs, i)
    ensures Reads(Settled(s, jobs[i], a).queue, jobs, i + 1)
  {
  }

  // --- Attempts and status ----------------------------------------------------------------------------------------

  /** Pending iff never tried, Failed iff tried one to four times, Dead iff tried five times. */
  predicate StatusFits(item: Item) {
    && item.attempts <= MAX_ATTEMPTS
    && (item.status == Pending <==> item.attempts == 0)
    && (item.status == Failed <==> 1 <= item.attempts < MAX_ATTEMPTS)
    && (item.status == Dead <==> item.attempts == MAX_ATTEMPTS)
  }

  predicate StatusesFit(q: Queue) {
    forall k :: k in q ==> StatusFits(q[k])
  }

  function Left(item: Item): nat {
    if item.attempts <= MAX_ATTEMPTS then MAX_ATTEMPTS - item.attempts else 0
  }

  /** The attempts that the queue can still cause. */
  ghost function Potential(q: Queue): nat {
    if q == map[] then 0 else var k :| k in q; Left(q[k]) + Potential(q - {k})
  }

  lemma {:induction false} PotentialWithout(q: Queue, k: TokenKey)
    requires k in q
    ensures Potential(q) == Left(q[k]) + Potential(q - {k})
    decreases |q|
  {
    var c :| c in q && Potential(q) == Left(q[c]) + Potential(q - {c});
    if c != k {
      PotentialWithout(q - {c}, k);
      PotentialWithout(q - {k}, c);
      assert q - {c} - {k} == q - {k} - {c};
    }
  }

  /** Every recorded outcome uses up potential. */
  lemma SettledSpends(s: Store, job: Job, a: Attempt)
    requires IsRow(s, job) && StatusesFit(s.queue) && job.item.status != Dead
    ensures var q := Settled(s, job, a).queue;
            StatusesFit(q) && Potential(q) + (if Recorded(a) then 1 else 0) <= Potential(s.queue)
  {
    hide RetryDelay, KeyFor, ErrorText, Potential;
    var q := Settled(s, job, a).queue;
    PotentialWithout(s.queue, job.key);
    if Recorded(a) && !Completes(a) {
      PotentialWithout(q, job.key);
      assert q - {job.key} == s.queue - {job.key};
    }
  }

  lemma {:induction false} ProcessedSpends(s: Store, jobs: seq<Job>, script: Script, i: nat)
    requires Distinct(jobs) && Reads(s.queue, jobs, i) && StatusesFit(s.queue)
    requires forall j :: i <= j < |jobs| ==> jobs[j].item.status != Dead
    ensures var q := Processed(s, jobs, script, i).queue;
            StatusesFit(q) && Potential(q) + Handled(jobs, script, i) <= Potential(s.queue)
    decreases |jobs| - i
  {
    hide Settled, Potential;
    if i < |jobs| {
      SettledSpends(s, jobs[i], script(i));
      SettledFrame(s, jobs, i, script(i));
      if Recorded(script(i)) {
        ProcessedSpends(Settled(s, jobs[i], script(i)), jobs, script, i + 1);
      }
    }
  }

  lemma {:induction false} ProcessedKeepsObserved(s: Store, jobs: seq<Job>, script: Script, i: nat)
    requires Distinct(jobs) && Reads(s.queue, jobs, i) && Consistent(s)
    requires forall j :: i <= j < |jobs| ==> Honest(jobs[j], script(j))
    ensures Observed(Processed(s, jobs, script, i)) == Observed(s) && Consistent(Processed(s, jobs, script, i))
    decreases |jobs| - i
  {
    hide Settled, Observed, Consistent, Honest;
    if i < |jobs| {
      SettledKeepsObserved(s, jobs[i], script(i));
      SettledFrame(s, jobs, i, script(i));
      if Recorded(script(i)) {
        ProcessedKeepsObserved(Settled(s, jobs[i], script(i)), jobs, script, i + 1);
      }
    }
  }

  lemma {:induction false} ProcessedStaysExclusive(s: Store, jobs: seq<Job>, script: Script, i: nat)
    requires Distinct(jobs) && Reads(s.queue, jobs, i) && Exclusive(s)
    requires forall j :: i <= j < |jobs| ==> Honest(jobs[j], script(j)) && !HalfDone(script(j))
    ensures Exclusive(Processed(s, jobs, script, i))
    decreases |jobs| - i
  {
    hide Settled, Exclusive, Honest, HalfDone;
    if i < |jobs| {
      ExclusiveUnlessHalfDone(s, jobs[i], script(i));
      SettledFrame(s, jobs, i, script(i));
      if Recorded(script(i)) {
        ProcessedStaysExclusive(Settled(s, jobs[i], script(i)), jobs, script, i + 1);
      }
    }
  }

  /** A row that is not among the jobs is left alone. */
  lemma {:induction false} ProcessedLeavesOthers(s: Store, jobs: seq<Job>, script: Script, i: nat, k: TokenKey)
    requires k in s.queue && forall j :: i <= j < |jobs| ==> jobs[j].key != k
    ensures var q := Processed(s, jobs, script, i).queue; k in q && q[k] == s.queue[k]
    decreases |jobs| - i
  {
    hide ErrorText, RetryDelay;
    if i < |jobs| && Recorded(script(i)) {
      ProcessedLeavesOthers(Settled(s, jobs[i], script(i)), jobs, script, i + 1, k);
    }
  }

  /**
   * A call that does not reject settles every job it took: a completed one is gone, any other has one more
   * failed attempt, computed from the row it had.
   */
  lemma {:induction false} EveryJobIsSettled(s: Store, jobs: seq<Job>, script: Script, i: nat, n: nat)
    requires Distinct(jobs) && Reads(s.queue, jobs, i) && i <= n < |jobs|
    requires Handled(jobs, script, i) == |jobs| - i
    ensures var q, a := Processed(s, jobs, script, i).queue, script(n);
            && (Completes(a) ==> jobs[n].key !in q)
            && (!Completes(a) ==>
                  jobs[n].key in q
                  && q[jobs[n].key] == FailedOnce(jobs[n].item, ErrorText(jobs[n], a),
                                                  a.clock + RetryDelay(jobs[n].item.attempts)))
    decreases |jobs| - i
  {
    hide ErrorText, RetryDelay, FailedOnce;
    HandledAtMost(jobs, script, i + 1);
    var s' := Settled(s, jobs[i], script(i));
    SettledFrame(s, jobs, i, script(i));
    if i < n {
      EveryJobIsSettled(s', jobs, script, i + 1, n);
    } else {
      if Completes(script(n)) {
        ProcessedAddsNothing(s', jobs, script, i + 1, jobs[n].key);
      } else {
        ProcessedLeavesOthers(s', jobs, script, i + 1, jobs[n].key);
      }
    }
  }

  lemma {:induction false} ProcessedAddsNothing(s: Store, jobs: seq<Job>, script: Script, i: nat, k: TokenKey)
    requires k !in s.queue
    ensures k !in Processed(s, jobs, script, i).queue
    decreases |jobs| - i
  {
    hide ErrorText, RetryDelay;
    if i < |jobs| && Recorded(script(i)) {
      ProcessedAddsNothing(Settled(s, jobs[i], script(i)), jobs, script, i + 1, k);
    }
  }

  // --- Enqueueing ----------------------------------------------------------------------------------------------------

  /** A ledger in which the first sighting of a token wins. */
  function AddFirsts(ledger: map<TokenKey, nat>, tokens: seq<Sighting>): map<TokenKey, nat> {
    if tokens == [] then ledger
    else
      var before := AddFirsts(ledger, tokens[..|tokens| - 1]);
      var last := tokens[|tokens| - 1];
      if KeyOfToken(last) in before then before else before[KeyOfToken(last) := last.blockNumber]
  }

  lemma {:induction false} AddFirstsConcat(ledger: map<TokenKey, nat>, a: seq<Sighting>, b: seq<Sighting>)
    ensures AddFirsts(ledger, a + b) == AddFirsts(AddFirsts(ledger, a), b)
    decreases b
  {
    if b == [] {
      assert a + b == a;
    } else {
      assert (a + b)[..|a + b| - 1] == a + b[..|b| - 1];
      AddFirstsConcat(ledger, a, b[..|b| - 1]);
    }
  }

  lemma AddingJob(s: Store, k: TokenKey, item: Item)
    requires Consistent(s) && !Known(s, k)
    ensures var s' := s.(queue := s.queue[k := item]);
            Observed(s') == Observed(s)[k := item.observed] && Consistent(s') && (Exclusive(s) ==> Exclusive(s'))
  {
  }

  /** Queued jobs are left alone. */
  lemma {:induction false} InsertKeepsJobs(queue: Queue, jobs: seq<Job>, k: TokenKey)
    requires k in queue
    ensures k in InsertJobs(queue, jobs) && InsertJobs(queue, jobs)[k] == queue[k]
  {
    if jobs != [] {
      InsertKeepsJobs(queue, jobs[..|jobs| - 1], k);
    }
  }

  /** Checking both tables, then inserting in one statement, is entering each first sighting in the ledger. */
  lemma {:induction false} EnqueuedIsLedger(s: Store, tokens: seq<Sighting>)
    requires Consistent(s)
    ensures var s' := Enqueued(s, tokens, false);
            Observed(s') == AddFirsts(Observed(s), tokens) && Consistent(s') && (Exclusive(s) ==> Exclusive(s'))
    decreases tokens
  {
    hide KeyFor, Exclusive, Consistent;
    if tokens == [] {
      assert Enqueued(s, tokens, false) == s;
    } else {
      var last := tokens[|tokens| - 1];
      var k := KeyOfToken(last);
      var before := tokens[..|tokens| - 1];
      EnqueuedIsLedger(s, before);
      var s1, jobs := Enqueued(s, before, false), NewJobs(s, before);
      if k in s.queue {
        InsertKeepsJobs(s.queue, jobs, k);
      }
      if Known(s, k) {
        assert NewJobs(s, tokens) == jobs;
        assert Enqueued(s, tokens, false) == s1;
      } else {
        assert NewJobs(s, tokens)[..|jobs|] == jobs;
        if k in s1.queue {
          assert Enqueued(s, tokens, false) == s1;
        } else {
          assert Enqueued(s, tokens, false) == s1.(queue := s1.queue[k := NewJob(last).item]);
          AddingJob(s1, k, NewJob(last).item);
        }
      }
    }
  }

  lemma AddingPotential(q: Queue, k: TokenKey, item: Item)
    requires k !in q
    ensures Potential(q[k := item]) == Left(item) + Potential(q)
  {
    PotentialWithout(q[k := item], k);
    assert q[k := item] - {k} == q;
  }

  /** Each new job starts pending, with five attempts left. */
  lemma {:induction false} EnqueuedStatuses(queue: Queue, s: Store, tokens: seq<Sighting>)
    requires StatusesFit(queue)
    ensures var q := InsertJobs(queue, NewJobs(s, tokens));
            StatusesFit(q) && Potential(q) <= Potential(queue) + MAX_ATTEMPTS * |tokens|
    decreases tokens
  {
    hide KeyOfToken, Potential;
    if tokens != [] {
      var last := tokens[|tokens| - 1];
      EnqueuedStatuses(queue, s, tokens[..|tokens| - 1]);
      var before := NewJobs(s, tokens[..|tokens| - 1]);
      var q := InsertJobs(queue, before);
      if Known(s, KeyOfToken(last)) {
        assert NewJobs(s, tokens) == before;
      } else {
        assert NewJobs(s, tokens)[..|before|] == before;
        if KeyOfToken(last) !in q {
          AddingPotential(q, KeyOfToken(last), NewJob(last).item);
        }
      }
    }
  }
}
