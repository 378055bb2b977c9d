/** Whole runs of the metadata stages: no token is lost, every token is settled, and first sightings are kept. */
module MetadataRuns {
  import opened Prelude
  import opened Backoff
  import opened Discovery
  import opened TokenTables
  import opened MetadataPipeline

  datatype Event =
    | Enqueue(tokens: seq<Sighting>, fails: bool)
    | Process(now: int, limit: nat, jobs: seq<Job>, script: Script)

  const NO_TOKENS: Store := Store(map[], map[])

  function Step(s: Store, e: Event): Store {
    match e
    case Enqueue(tokens, fails) => Enqueued(s, tokens, fails)
    case Process(_, _, jobs, script) => Processed(s, jobs, script, 0)
  }

  function Run(s: Store, events: seq<Event>): Store
    decreases events
  {
    if events == [] then s else Run(Step(s, events[0]), events[1..])
  }

  /** Each call of `processQueue` works on an answer to its query. */
  ghost predicate Answered(s: Store, e: Event) {
    e.Process? ==> IsNextPending(s.queue, e.now, e.limit, e.jobs)
  }

  ghost predicate Possible(s: Store, events: seq<Event>)
    decreases events
  {
    events == [] || (Answered(s, events[0]) && Possible(Step(s, events[0]), events[1..]))
  }

  ghost predicate HonestEvent(e: Event) {
    e.Process? ==> forall i :: 0 <= i < |e.jobs| ==> Honest(e.jobs[i], e.script(i))
  }

  ghost predicate AllHonest(events: seq<Event>) {
    forall e :: e in events ==> HonestEvent(e)
  }

  /** No metadata is stored without its job being removed. */
  ghost predicate WholeEvent(e: Event) {
    e.Process? ==> forall i :: 0 <= i < |e.jobs| ==> !HalfDone(e.script(i))
  }

  ghost predicate AllWhole(events: seq<Event>) {
    forall e :: e in events ==> WholeEvent(e)
  }

  /** The tokens whose enqueueing was committed, in order. */
  function TokensOf(events: seq<Event>): seq<Sighting>
    decreases events
  {
    if events == [] then []
    else (if events[0].Enqueue? && !events[0].fails then events[0].tokens else []) + TokensOf(events[1..])
  }

  // --- Conservation ------------------------------------------------------------------------------------------------

  lemma StepKeepsLedger(s: Store, e: Event)
    requires Consistent(s) && Answered(s, e) && HonestEvent(e)
    ensures var s' := Step(s, e);
            && Consistent(s')
            && Observed(s') == AddFirsts(Observed(s), if e.Enqueue? && !e.fails then e.tokens else [])
  {
    hide Consistent, Observed, Honest;
    match e
    case Enqueue(tokens, fails) =>
      EnqueuedIsLedger(s, tokens);
    case Process(_, _, jobs, script) =>
      ProcessedKeepsObserved(s, jobs, script, 0);
  }

  /**
   * With processors that answer for the token they were given, the tables hold exactly the tokens that
   * were ever enqueued, each with the block of its first appearance, whatever storage does in between.
   */
  lemma {:induction false} TokensAreConserved(s: Store, events: seq<Event>)
    requires Consistent(s) && Possible(s, events) && AllHonest(events)
    ensures Observed(Run(s, events)) == AddFirsts(Observed(s), TokensOf(events)) && Consistent(Run(s, events))
    decreases events
  {
    hide Consistent, Observed, Answered, HonestEvent;
    if events != [] {
      StepKeepsLedger(s, events[0]);
      TokensAreConserved(Step(s, events[0]), events[1..]);
      var first := if events[0].Enqueue? && !events[0].fails then events[0].tokens else [];
      AddFirstsConcat(Observed(s), first, TokensOf(events[1..]));
    }
  }

  lemma {:induction false} RunStaysExclusive(s: Store, events: seq<Event>)
    requires Consistent(s) && Exclusive(s) && Possible(s, events) && AllHonest(events) && AllWhole(events)
    ensures Exclusive(Run(s, events))
    decreases events
  {
    hide Consistent, Exclusive, Honest, HalfDone;
    if events != [] {
      var e := events[0];
      assert HonestEvent(e) && WholeEvent(e);
      StepKeepsLedger(s, e);
      match e {
        case Enqueue(tokens, fails) => EnqueuedIsLedger(s, tokens);
        case Process(_, _, jobs, script) => ProcessedStaysExclusive(s, jobs, script, 0);
      }
      RunStaysExclusive(Step(s, e), events[1..]);
    }
  }

  /** The rows of the queue that are dead, or not. */
  function WithStatus(queue: Queue, dead: bool): set<TokenKey> {
    set k | k in queue && (queue[k].status == Dead <==> dead)
  }

  /** Every enqueued token is in exactly one of repository, live queue and dead queue; nothing else is. */
  lemma TokensArePartitioned(events: seq<Event>)
    requires Possible(NO_TOKENS, events) && AllHonest(events) && AllWhole(events)
    ensures var s := Run(NO_TOKENS, events);
            var live, dead := WithStatus(s.queue, false), WithStatus(s.queue, true);
            && live !! dead && live !! s.repository.Keys && dead !! s.repository.Keys
            && live + dead + s.repository.Keys == AddFirsts(map[], TokensOf(events)).Keys
  {
    hide AddFirsts, Run, Possible;
    var s := Run(NO_TOKENS, events);
    TokensAreConserved(NO_TOKENS, events);
    RunStaysExclusive(NO_TOKENS, events);
    assert Observed(NO_TOKENS) == map[];
    assert WithStatus(s.queue, false) + WithStatus(s.queue, true) == s.queue.Keys;
    assert Observed(s).Keys == s.queue.Keys + s.repository.Keys;
  }

  // --- Status and termination ---------------------------------------------------------------------------------------

  lemma JobsAreLive(s: Store, e: Event)
    requires e.Process? && Answered(s, e)
    ensures forall j :: 0 <= j < |e.jobs| ==> e.jobs[j].item.status != Dead
  {
    forall j | 0 <= j < |e.jobs|
      ensures e.jobs[j].item.status != Dead
    {
      assert e.jobs[j].key in KeysOf(e.jobs);
    }
  }

  /** How many outcomes the run records. */
  function Work(events: seq<Event>): nat
    decreases events
  {
    if events == [] then 0
    else (if events[0].Process? then Handled(events[0].jobs, events[0].script, 0) else 0) + Work(events[1..])
  }

  /**
   * In every reachable state Pending, Failed and Dead mean no, one to four and five attempts; and
   * n tokens cause at most 5n outcomes, however often the queue is processed.
   */
  lemma {:induction false} AttemptsAreBounded(s: Store, events: seq<Event>)
    requires StatusesFit(s.queue) && Possible(s, events)
    ensures StatusesFit(Run(s, events).queue)
    ensures Potential(Run(s, events).queue) + Work(events)
            <= Potential(s.queue) + MAX_ATTEMPTS * |TokensOf(events)|
    decreases events
  {
    hide Potential, StatusesFit, IsNextPending, Enqueued;
    if events != [] {
      var e := events[0];
      StepSpends(s, e);
      AttemptsAreBounded(Step(s, e), events[1..]);
    }
  }

  lemma StepSpends(s: Store, e: Event)
    requires StatusesFit(s.queue) && Answered(s, e)
    ensures StatusesFit(Step(s, e).queue)
    ensures Potential(Step(s, e).queue) + (if e.Process? then Handled(e.jobs, e.script, 0) else 0)
            <= Potential(s.queue) + (if e.Enqueue? && !e.fails then MAX_ATTEMPTS * |e.tokens| else 0)
  {
    hide Potential, StatusesFit;
    match e
    case Enqueue(tokens, fails) =>
      EnqueuedStatuses(s.queue, s, tokens);
    case Process(_, _, jobs, script) =>
      JobsAreLive(s, e);
      ProcessedSpends(s, jobs, script, 0);
  }

  /** Every job that has not been given up is due at the latest at time `t`. */
  predicate AllDueBy(queue: Queue, t: int) {
    forall k :: k in queue && queue[k].status != Dead ==> queue[k].runAt <= t
  }

  /** A call that may take a job, comes when every live job is due, and records its first outcome. */
  ghost predicate Productive(s: Store, e: Event) {
    e.Process? && e.limit >= 1 && AllDueBy(s.queue, e.now) && (e.jobs != [] ==> Recorded(e.script(0)))
  }

  ghost predicate AllProductive(s: Store, events: seq<Event>)
    decreases events
  {
    events == [] || (Productive(s, events[0]) && AllProductive(Step(s, events[0]), events[1..]))
  }

  /** As many productive calls as the queue has attempts left settle every token: it has metadata or is dead. */
  lemma {:induction false} QueueDrains(s: Store, events: seq<Event>)
    requires StatusesFit(s.queue) && Possible(s, events) && AllProductive(s, events)
    requires |events| >= Potential(s.queue)
    ensures WithStatus(Run(s, events).queue, false) == {}
    decreases events
  {
    hide Potential, IsNextPending, Processed;
    if events == [] {
      NoPotentialNoJobs(s.queue);
    } else {
      var e := events[0];
      StepSpends(s, e);
      if WithStatus(s.queue, false) != {} {
        SomeJobIsTaken(s, e);
        QueueDrains(Step(s, e), events[1..]);
      } else {
        NothingToDo(s, e);
        StaysDrained(s, events);
      }
    }
  }

  lemma NoPotentialNoJobs(queue: Queue)
    requires StatusesFit(queue) && Potential(queue) == 0
    ensures WithStatus(queue, false) == {}
  {
  }

  lemma SomeJobIsTaken(s: Store, e: Event)
    requires StatusesFit(s.queue) && Productive(s, e) && Answered(s, e) && WithStatus(s.queue, false) != {}
    ensures Handled(e.jobs, e.script, 0) >= 1
  {
    hide IsNextPending;
    DueJobsAreTaken(s.queue, e.now, e.limit, e.jobs);
    var k :| k in WithStatus(s.queue, false);
    assert k in Due(s.queue, e.now);
  }

  lemma NothingToDo(s: Store, e: Event)
    requires e.Process? && Answered(s, e) && WithStatus(s.queue, false) == {}
    ensures Step(s, e) == s
  {
    assert Eligible(s.queue, e.now) <= WithStatus(s.queue, false);
  }

  lemma {:induction false} StaysDrained(s: Store, events: seq<Event>)
    requires Possible(s, events) && AllProductive(s, events) && WithStatus(s.queue, false) == {}
    ensures Run(s, events) == s
    decreases events
  {
    hide IsNextPending, Processed;
    if events != [] {
      NothingToDo(s, events[0]);
      StaysDrained(s, events[1..]);
    }
  }

  /** The call and its retries are computed by time `end`. */
  predicate EndsBy(e: Event, end: int)
    requires e.Process?
  {
    e.now <= end && forall i :: 0 <= i < |e.jobs| ==> e.script(i).clock <= end
  }

  /** Calls that each take a job if there is one, the first at time `t` or later, every other a day after the last. */
  ghost predicate Daily(events: seq<Event>, t: int)
    decreases events
  {
    events == [] || var e := events[0];
    && e.Process? && e.limit >= 1 && e.now >= t && (e.jobs != [] ==> Recorded(e.script(0)))
    && exists end :: EndsBy(e, end) && Daily(events[1..], end + RETRY_MAX_MS)
  }

  lemma {:induction false} ProcessedIsDueBy(s: Store, jobs: seq<Job>, script: Script, i: nat, t: int)
    requires AllDueBy(s.queue, t) && forall j :: i <= j < |jobs| ==> script(j).clock + RETRY_MAX_MS <= t
    ensures AllDueBy(Processed(s, jobs, script, i).queue, t)
    decreases |jobs| - i
  {
    hide ErrorText, RetryDelay;
    if i < |jobs| {
      RetryDelayIsDoubling(jobs[i].item.attempts);
      if Recorded(script(i)) {
        ProcessedIsDueBy(Settled(s, jobs[i], script(i)), jobs, script, i + 1, t);
      }
    }
  }

  /** No retry is more than a day away, so a day after the last call every live job is due. */
  lemma {:induction false} DailyCallsAreProductive(s: Store, events: seq<Event>, t: int)
    requires AllDueBy(s.queue, t) && Daily(events, t)
    ensures AllProductive(s, events)
    decreases events
  {
    hide Processed;
    if events != [] {
      var e := events[0];
      var end :| EndsBy(e, end) && Daily(events[1..], end + RETRY_MAX_MS);
      ProcessedIsDueBy(s, e.jobs, e.script, 0, end + RETRY_MAX_MS);
      DailyCallsAreProductive(Step(s, e), events[1..], end + RETRY_MAX_MS);
    }
  }

  /** So calls a day apart, as many as attempts are left, settle every token, whatever the processors do. */
  lemma DailyCallsDrain(s: Store, events: seq<Event>, t: int)
    requires StatusesFit(s.queue) && Possible(s, events) && AllDueBy(s.queue, t) && Daily(events, t)
    requires |events| >= Potential(s.queue)
    ensures WithStatus(Run(s, events).queue, false) == {}
  {
    DailyCallsAreProductive(s, events, t);
    QueueDrains(s, events);
  }

  // --- What is stored ------------------------------------------------------------------------------------------------

  /** The row is what the processor answered for the token, but for the block, which the queue knows. */
  predicate AnswerIs(a: Attempt, k: TokenKey, row: Metadata) {
    && a.reply.Fetched? && KeyFor(a.reply.chainId, a.reply.address) == k
    && var m := a.reply.metadata;
       row.name == m.name && row.symbol == m.symbol && row.decimals == m.decimals && row.source == m.source
  }

  ghost predicate AnsweredIn(e: Event, k: TokenKey, row: Metadata) {
    e.Process? && exists i :: 0 <= i < |e.jobs| && AnswerIs(e.script(i), k, row)
  }

  lemma {:induction false} ProcessedStoresAnswers(s: Store, e: Event, i: nat, k: TokenKey)
    requires e.Process? && i <= |e.jobs|
    ensures var s' := Processed(s, e.jobs, e.script, i);
            (k in s.repository ==> k in s'.repository)
            && (k in s'.repository ==>
                  (k in s.repository && s'.repository[k] == s.repository[k]) || AnsweredIn(e, k, s'.repository[k]))
    decreases |e.jobs| - i
  {
    hide ErrorText, RetryDelay, KeyFor;
    if i < |e.jobs| {
      var s' := Settled(s, e.jobs[i], e.script(i));
      assert k in s'.repository && !(k in s.repository && s'.repository[k] == s.repository[k]) ==>
          AnswerIs(e.script(i), k, s'.repository[k]);
      if Recorded(e.script(i)) {
        ProcessedStoresAnswers(s', e, i + 1, k);
      }
    }
  }

  /** Every stored row is what some processor answered for its token, and rows never disappear. */
  lemma {:induction false} NothingIsInvented(s: Store, events: seq<Event>, k: TokenKey)
    ensures k in s.repository ==> k in Run(s, events).repository
    ensures k in Run(s, events).repository ==>
              (k in s.repository && Run(s, events).repository[k] == s.repository[k])
              || exists e :: e in events && AnsweredIn(e, k, Run(s, events).repository[k])
    decreases events
  {
    hide Processed, AnsweredIn;
    if events != [] {
      var e := events[0];
      if e.Process? {
        ProcessedStoresAnswers(s, e, 0, k);
      }
      NothingIsInvented(Step(s, e), events[1..], k);
      assert e in events && forall other :: other in events[1..] ==> other in events;
      var end, after := Run(s, events), Step(s, e);
      assert end == Run(after, events[1..]);
      if k in end.repository && k in after.repository && end.repository[k] == after.repository[k] {
        assert (k in s.repository && s.repository[k] == end.repository[k]) || AnsweredIn(e, k, end.repository[k]);
      }
    }
  }

  /** A completed job is gone, and its token has the processor's answer and the block of the job. */
  lemma CompletedJobIsStored(s: Store, job: Job, a: Attempt)
    requires IsRow(s, job) && Completes(a) && Honest(job, a)
    ensures var s' := Settled(s, job, a);
            && job.key !in s'.queue && job.key in s'.repository && AnswerIs(a, job.key, s'.repository[job.key])
            && s'.repository[job.key].observed == s.queue[job.key].observed
            && (forall k :: k != job.key ==> (k in s'.queue <==> k in s.queue)
                                             && (k in s.queue ==> s'.queue[k] == s.queue[k]))
            && (forall k :: k != job.key ==> (k in s'.repository <==> k in s.repository)
                                             && (k in s.repository ==> s'.repository[k] == s.repository[k]))
  {
  }

  // --- A new token -------------------------------------------------------------------------------------------------

  /** One of the listed jobs is stored for each key that is not there yet. */
  lemma {:induction false} InsertedJob(queue: Queue, jobs: seq<Job>, k: TokenKey)
    ensures var q := InsertJobs(queue, jobs);
            (k in q <==> k in queue || exists j :: j in jobs && j.key == k)
            && (k in q && k !in queue ==> exists j :: j in jobs && j.key == k && q[k] == j.item)
  {
    if jobs != [] {
      var before, last := jobs[..|jobs| - 1], jobs[|jobs| - 1];
      InsertedJob(queue, before, k);
      assert jobs == before + [last];
    }
  }

  lemma {:induction false} NewJobsMembers(s: Store, tokens: seq<Sighting>, j: Job)
    ensures j in NewJobs(s, tokens)
            <==> exists t :: t in tokens && !Known(s, KeyOfToken(t)) && j == NewJob(t)
  {
    hide KeyFor, Known;
    if tokens != [] {
      var before, last := tokens[..|tokens| - 1], tokens[|tokens| - 1];
      NewJobsMembers(s, before, j);
      assert tokens == before + [last];
    }
  }

  /** A token that was in neither table is due from the start of time: the next call that has room takes it. */
  lemma NewTokenIsTaken(s: Store, tokens: seq<Sighting>, t: Sighting, now: int, limit: nat, jobs: seq<Job>)
    requires t in tokens && !Known(s, KeyOfToken(t)) && now >= 0
    requires var q := Enqueued(s, tokens, false).queue; IsNextPending(q, now, limit, jobs) && limit >= |Due(q, now)|
    ensures exists j, u :: j in jobs && j.key == KeyOfToken(t) && u in tokens && KeyOfToken(u) == KeyOfToken(t)
                           && j.item == Item("ERC20", Pending, 0, 0, None, u.blockNumber)
  {
    hide IsNextPending, KeyFor;
    var k := KeyOfToken(t);
    var q := Enqueued(s, tokens, false).queue;
    NewJobsMembers(s, tokens, NewJob(t));
    InsertedJob(s.queue, NewJobs(s, tokens), k);
    var added :| added in NewJobs(s, tokens) && added.key == k && q[k] == added.item;
    NewJobsMembers(s, tokens, added);
    DueJobsAreTaken(q, now, limit, jobs);
    assert k in Due(q, now);
    var j :| j in jobs && j.key == k;
  }

  /** Until its new `run_at`, a failed job is in no answer, and its row stays as it is. */
  lemma {:induction false} FailedJobWaits(s: Store, events: seq<Event>, k: TokenKey)
    requires Possible(s, events) && k in s.queue
    requires forall e :: e in events && e.Process? ==> e.now < s.queue[k].runAt
    ensures k in Run(s, events).queue && Run(s, events).queue[k] == s.queue[k]
    ensures forall e :: e in events && e.Process? ==> k !in KeysOf(e.jobs)
    decreases events
  {
    if events != [] {
      var e := events[0];
      match e {
        case Enqueue(tokens, fails) =>
          InsertKeepsJobs(s.queue, NewJobs(s, tokens), k);
        case Process(now, _, jobs, script) =>
          assert k !in Eligible(s.queue, now);
          assert forall j :: 0 <= j < |jobs| ==> jobs[j].key in KeysOf(jobs);
          ProcessedLeavesOthers(s, jobs, script, 0, k);
      }
      FailedJobWaits(Step(s, e), events[1..], k);
    }
  }

  /** The wait after a failure is a minute, doubled with every earlier attempt, at most a day. */
  lemma FailureSchedulesRetry(s: Store, job: Job, a: Attempt)
    requires IsRow(s, job) && Recorded(a) && !Completes(a)
    ensures var q := Settled(s, job, a).queue;
            && job.key in q && q[job.key].attempts == job.item.attempts + 1
            && q[job.key].runAt == a.clock + Doubled(60_000, 86_400_000, job.item.attempts)
            && (q[job.key].status == Dead <==> job.item.attempts + 1 >= 5)
            && (q[job.key].status == Failed <==> job.item.attempts + 1 < 5)
            && (a.reply.Thrown? ==> q[job.key].lastError == Some(a.reply.error))
            && (a.reply.NoProcessor? ==>
                  q[job.key].lastError == Some("No processor registered for capability: " + job.item.enrichmentType))
            && (HalfDone(a) ==> q[job.key].lastError == a.reply.completeError)
            && (a.reply.Fetched? && !Stores(a) ==> q[job.key].lastError == a.reply.upsertError)
  {
    hide KeyFor, Doubled, RetryDelay;
    RetryDelayIsDoubling(job.item.attempts);
  }

  // --- First sightings --------------------------------------------------------------------------------------------

  /** The tokens that discovery announces for each batch of candidates in turn. */
  function Announced(batches: seq<seq<Sighting>>): seq<Sighting> {
    if batches == [] then []
    else Announced(batches[..|batches| - 1]) + Discovered(batches[|batches| - 1])
  }

  function Flatten(batches: seq<seq<Sighting>>): seq<Sighting> {
    if batches == [] then [] else Flatten(batches[..|batches| - 1]) + batches[|batches| - 1]
  }

  /** `discoverTokens` hands on the candidates of one chain only. */
  predicate OneChain(cs: seq<Sighting>) {
    forall c, d :: c in cs && d in cs ==> c.chainId == d.chainId
  }

  lemma EngineSelectsOneChain(registry: Registry, records: seq<RawRecord>, chainId: int)
    ensures OneChain(OnChain(Candidates(registry, records), chainId))
    ensures Discover(registry, records, chainId) == Announced([OnChain(Candidates(registry, records), chainId)])
  {
    hide Candidates, OnChain, Discovered;
    var cs := OnChain(Candidates(registry, records), chainId);
    OnChainMembers(Candidates(registry, records), chainId);
    assert [cs][..0] == [] && Announced([cs]) == Announced([]) + Discovered(cs);
  }

  predicate Mentions(cs: seq<Sighting>, k: TokenKey) {
    exists c :: c in cs && KeyOfToken(c) == k
  }

  /** `n` is the least block at which the candidates mention the token. */
  predicate IsLeast(cs: seq<Sighting>, k: TokenKey, n: nat) {
    && (exists c :: c in cs && KeyOfToken(c) == k && c.blockNumber == n)
    && (forall c :: c in cs && KeyOfToken(c) == k ==> n <= c.blockNumber)
  }

  /** The ledger holds, for exactly the tokens ever mentioned, the least block. */
  predicate IsMinimum(ledger: map<TokenKey, nat>, cs: seq<Sighting>) {
    && (forall k :: k in ledger ==> IsLeast(cs, k, ledger[k]))
    && (forall c :: c in cs ==> KeyOfToken(c) in ledger)
  }

  predicate ByBlock(tokens: seq<Sighting>) {
    forall i, j :: 0 <= i < j < |tokens| ==> tokens[i].blockNumber <= tokens[j].blockNumber
  }

  lemma MoreMentions(tokens: seq<Sighting>, t: Sighting, k: TokenKey)
    ensures Mentions(tokens + [t], k) <==> Mentions(tokens, k) || KeyOfToken(t) == k
    ensures forall n: nat :: IsLeast(tokens, k, n) && n <= t.blockNumber ==> IsLeast(tokens + [t], k, n)
    ensures !Mentions(tokens, k) && KeyOfToken(t) == k ==> IsLeast(tokens + [t], k, t.blockNumber)
  {
  }

  /** Entering tokens in block order adds the least block of each new one. */
  lemma {:induction false} AddFirstsInOrder(ledger: map<TokenKey, nat>, tokens: seq<Sighting>, k: TokenKey)
    requires ByBlock(tokens)
    ensures var after := AddFirsts(ledger, tokens);
            && (k in after <==> k in ledger || Mentions(tokens, k))
            && (k in ledger ==> after[k] == ledger[k])
            && (k in after && k !in ledger ==> IsLeast(tokens, k, after[k]))
    decreases tokens
  {
    hide KeyOfToken, Mentions, IsLeast;
    if tokens == [] {
      assert !Mentions([], k) by {
        NothingMentioned(k);
      }
    } else {
      var before, last := tokens[..|tokens| - 1], tokens[|tokens| - 1];
      AddFirstsInOrder(ledger, before, k);
      assert tokens == before + [last];
      MoreMentions(before, last, k);
      if k in AddFirsts(ledger, before) && k !in ledger {
        LeastIsThere(before, k, AddFirsts(ledger, before)[k]);
      }
    }
  }

  lemma NothingMentioned(k: TokenKey)
    ensures !Mentions([], k)
  {
  }

  lemma LeastIsThere(tokens: seq<Sighting>, k: TokenKey, n: nat)
    requires IsLeast(tokens, k, n)
    ensures exists c :: c in tokens && c.blockNumber == n
  {
  }

  lemma DiscoveryIsByBlock(cs: seq<Sighting>)
    ensures ByBlock(Discovered(cs))
  {
    hide Discovered, CompareText;
    DiscoveryIsMinimum(cs);
    var tokens := Discovered(cs);
    forall i, j | 0 <= i < j < |tokens|
      ensures tokens[i].blockNumber <= tokens[j].blockNumber
    {
      assert Compare(tokens[i], tokens[j]) <= 0;
    }
  }

  /** Each candidate is represented by a token that is no later. */
  lemma Representative(cs: seq<Sighting>, c: Sighting) returns (t: Sighting)
    requires OneChain(cs) && c in cs
    ensures t in Discovered(cs) && KeyOfToken(t) == KeyOfToken(c) && t.blockNumber <= c.blockNumber
  {
    hide KeyFor, Discovered, CompareText;
    DiscoveryIsMinimum(cs);
    t :| t in Discovered(cs) && t.tokenAddress == c.tokenAddress;
    assert IsEarliest(cs, t);
  }

  lemma TokensAreCandidates(cs: seq<Sighting>)
    ensures forall t :: t in Discovered(cs) ==> t in cs
  {
    hide Discovered, Compare;
    DiscoveryIsMinimum(cs);
  }

  /** Discovered tokens mention the same tokens as their candidates. */
  lemma DiscoveryKeepsMentions(cs: seq<Sighting>, k: TokenKey)
    requires OneChain(cs)
    ensures Mentions(Discovered(cs), k) <==> Mentions(cs, k)
  {
    hide KeyOfToken, Discovered, OneChain;
    TokensAreCandidates(cs);
    if c :| c in cs && KeyOfToken(c) == k {
      var t := Representative(cs, c);
    }
  }

  /** With the same least blocks. */
  lemma DiscoveryKeepsLeast(cs: seq<Sighting>, k: TokenKey, n: nat)
    requires OneChain(cs) && IsLeast(Discovered(cs), k, n)
    ensures IsLeast(cs, k, n)
  {
    hide KeyOfToken, Discovered, OneChain;
    TokensAreCandidates(cs);
    forall c | c in cs && KeyOfToken(c) == k
      ensures n <= c.blockNumber
    {
      var t := Representative(cs, c);
    }
  }

  /** So a batch of discovered tokens adds the least block of each new token among its candidates. */
  lemma DiscoveryAddsLeast(ledger: map<TokenKey, nat>, cs: seq<Sighting>, k: TokenKey)
    requires OneChain(cs)
    ensures var after := AddFirsts(ledger, Discovered(cs));
            && (k in after <==> k in ledger || Mentions(cs, k))
            && (k in ledger ==> after[k] == ledger[k])
            && (k in after && k !in ledger ==> IsLeast(cs, k, after[k]))
  {
    hide KeyOfToken, Discovered, AddFirsts, Mentions, IsLeast, OneChain;
    DiscoveryIsByBlock(cs);
    DiscoveryKeepsMentions(cs, k);
    AddFirstsInOrder(ledger, Discovered(cs), k);
    if k in AddFirsts(ledger, Discovered(cs)) && k !in ledger {
      DiscoveryKeepsLeast(cs, k, AddFirsts(ledger, Discovered(cs))[k]);
    }
  }

  /** Batches arrive in non-decreasing block ranges. */
  predicate InOrder(batches: seq<seq<Sighting>>) {
    forall i, j, a, b :: 0 <= i < j < |batches| && a in batches[i] && b in batches[j] ==> a.blockNumber <= b.blockNumber
  }

  predicate OneChainEach(batches: seq<seq<Sighting>>) {
    forall i :: 0 <= i < |batches| ==> OneChain(batches[i])
  }

  lemma {:induction false} FlattenMembers(batches: seq<seq<Sighting>>)
    ensures forall c :: c in Flatten(batches) <==> exists i :: 0 <= i < |batches| && c in batches[i]
  {
    if batches != [] {
      var before := batches[..|batches| - 1];
      FlattenMembers(before);
      forall c
        ensures c in Flatten(batches) <==> exists i :: 0 <= i < |batches| && c in batches[i]
      {
        if c in Flatten(before) {
          var i :| 0 <= i < |before| && c in before[i];
          assert c in batches[i];
        }
        if i :| 0 <= i < |batches| && c in batches[i] {
          assert i < |before| ==> c in before[i];
        }
      }
    }
  }

  /** The first batch that mentions the token. */
  predicate FirstMention(batches: seq<seq<Sighting>>, i: int, k: TokenKey) {
    0 <= i < |batches| && Mentions(batches[i], k) && forall j :: 0 <= j < i ==> !Mentions(batches[j], k)
  }

  /** The ledger keeps the least block of the first batch that mentions a token, in whatever order batches arrive. */
  lemma {:induction false} LedgerKeepsFirstBatch(batches: seq<seq<Sighting>>, k: TokenKey)
    requires OneChainEach(batches)
    ensures var ledger := AddFirsts(map[], Announced(batches));
            k in ledger ==> exists i :: FirstMention(batches, i, k) && IsLeast(batches[i], k, ledger[k])
    ensures k !in AddFirsts(map[], Announced(batches)) ==> forall i :: 0 <= i < |batches| ==> !Mentions(batches[i], k)
  {
    hide Discovered, Mentions, IsLeast, KeyFor, OneChain;
    if batches != [] {
      var n := |batches| - 1;
      var before := batches[..n];
      LedgerKeepsFirstBatch(before, k);
      var ledger := AddFirsts(map[], Announced(before));
      AddFirstsConcat(map[], Announced(before), Discovered(batches[n]));
      DiscoveryAddsLeast(ledger, batches[n], k);
      if k in ledger {
        var i :| FirstMention(before, i, k) && IsLeast(before[i], k, ledger[k]);
        assert FirstMention(batches, i, k);
      } else if Mentions(batches[n], k) {
        assert FirstMention(batches, n, k);
      }
    }
  }

  /** The first batch that mentions a token already has its least block. */
  ghost predicate FirstBatchIsEarliest(batches: seq<seq<Sighting>>) {
    forall i, k, c :: FirstMention(batches, i, k) && c in Flatten(batches) && KeyOfToken(c) == k
      ==> exists a :: a in batches[i] && KeyOfToken(a) == k && a.blockNumber <= c.blockNumber
  }

  lemma LedgerMentions(batches: seq<seq<Sighting>>, k: TokenKey)
    requires OneChainEach(batches)
    ensures k in AddFirsts(map[], Announced(batches)) <==> Mentions(Flatten(batches), k)
  {
    hide AddFirsts, Announced, Flatten, KeyFor;
    LedgerKeepsFirstBatch(batches, k);
    FlattenMembers(batches);
    if k in AddFirsts(map[], Announced(batches)) {
      var i :| FirstMention(batches, i, k);
      var c :| c in batches[i] && KeyOfToken(c) == k;
      assert c in Flatten(batches);
    }
  }

  lemma OnlyOneFirstMention(batches: seq<seq<Sighting>>, i: int, j: int, k: TokenKey)
    requires FirstMention(batches, i, k) && FirstMention(batches, j, k)
    ensures i == j
  {
  }

  lemma FirstMentionInside(batches: seq<seq<Sighting>>, i: int, k: TokenKey)
    requires FirstMention(batches, i, k)
    ensures 0 <= i < |batches| && forall a :: a in batches[i] ==> a in Flatten(batches)
  {
  }

  lemma EarliestGivesMinimum(batches: seq<seq<Sighting>>, k: TokenKey)
    requires OneChainEach(batches) && FirstBatchIsEarliest(batches) && k in AddFirsts(map[], Announced(batches))
    ensures IsLeast(Flatten(batches), k, AddFirsts(map[], Announced(batches))[k])
  {
    hide AddFirsts, Announced, Flatten, KeyOfToken, OneChainEach, Mentions;
    LedgerKeepsFirstBatch(batches, k);
    var n := AddFirsts(map[], Announced(batches))[k];
    var i :| FirstMention(batches, i, k) && IsLeast(batches[i], k, n);
    forall c | c in Flatten(batches) && KeyOfToken(c) == k
      ensures n <= c.blockNumber
    {
      var a :| a in batches[i] && KeyOfToken(a) == k && a.blockNumber <= c.blockNumber;
    }
    var least :| least in batches[i] && KeyOfToken(least) == k && least.blockNumber == n;
    assert least in Flatten(batches) by {
      FirstMentionInside(batches, i, k);
    }
  }

  lemma MinimumGivesEarliest(batches: seq<seq<Sighting>>, i: int, k: TokenKey, c: Sighting)
    requires OneChainEach(batches) && IsMinimum(AddFirsts(map[], Announced(batches)), Flatten(batches))
    requires FirstMention(batches, i, k) && c in Flatten(batches) && KeyOfToken(c) == k
    ensures exists a :: a in batches[i] && KeyOfToken(a) == k && a.blockNumber <= c.blockNumber
  {
    hide AddFirsts, Announced, Flatten, KeyOfToken, OneChainEach, Mentions;
    var ledger := AddFirsts(map[], Announced(batches));
    assert k in ledger && IsLeast(Flatten(batches), k, ledger[k]);
    LedgerKeepsFirstBatch(batches, k);
    var j :| FirstMention(batches, j, k) && IsLeast(batches[j], k, ledger[k]);
    OnlyOneFirstMention(batches, i, j, k);
    var a :| a in batches[i] && KeyOfToken(a) == k && a.blockNumber == ledger[k];
  }

  lemma IsMentioned(cs: seq<Sighting>, c: Sighting)
    requires c in cs
    ensures Mentions(cs, KeyOfToken(c))
  {
  }

  /** The recorded block is the true first sighting of every token exactly when no later batch reaches further back. */
  lemma FirstSightingIsExact(batches: seq<seq<Sighting>>)
    requires OneChainEach(batches)
    ensures IsMinimum(AddFirsts(map[], Announced(batches)), Flatten(batches)) <==> FirstBatchIsEarliest(batches)
  {
    hide AddFirsts, Announced, Flatten, KeyOfToken, OneChainEach, Mentions, IsLeast;
    var ledger := AddFirsts(map[], Announced(batches));
    if FirstBatchIsEarliest(batches) {
      forall k | k in ledger
        ensures IsLeast(Flatten(batches), k, ledger[k])
      {
        EarliestGivesMinimum(batches, k);
      }
      forall c | c in Flatten(batches)
        ensures KeyOfToken(c) in ledger
      {
        IsMentioned(Flatten(batches), c);
        LedgerMentions(batches, KeyOfToken(c));
      }
    }
    if IsMinimum(ledger, Flatten(batches)) {
      forall i, k, c | FirstMention(batches, i, k) && c in Flatten(batches) && KeyOfToken(c) == k
        ensures exists a :: a in batches[i] && KeyOfToken(a) == k && a.blockNumber <= c.blockNumber
      {
        MinimumGivesEarliest(batches, i, k, c);
      }
    }
  }

  lemma InOrderIsEarliest(batches: seq<seq<Sighting>>)
    requires InOrder(batches)
    ensures FirstBatchIsEarliest(batches)
  {
    hide Flatten, KeyFor;
    FlattenMembers(batches);
    forall i, k, c | FirstMention(batches, i, k) && c in Flatten(batches) && KeyOfToken(c) == k
      ensures exists a :: a in batches[i] && KeyOfToken(a) == k && a.blockNumber <= c.blockNumber
    {
      var j :| 0 <= j < |batches| && c in batches[j];
      assert Mentions(batches[j], k) && j >= i;
      var a :| a in batches[i] && KeyOfToken(a) == k;
      assert j > i ==> a.blockNumber <= c.blockNumber;
    }
  }

  /**
   * First seen: when batches arrive in non-decreasing block ranges, the stored or queued block of every
   * token is the least block at which it was ever seen, however the candidates were split into batches
   * and whatever `processQueue` did in between.
   */
  lemma FirstSeen(events: seq<Event>, batches: seq<seq<Sighting>>)
    requires Possible(NO_TOKENS, events) && AllHonest(events)
    requires TokensOf(events) == Announced(batches) && OneChainEach(batches) && InOrder(batches)
    ensures IsMinimum(Observed(Run(NO_TOKENS, events)), Flatten(batches))
  {
    hide Run, Possible, TokensOf, Announced, Flatten, AddFirsts, IsMinimum, InOrder, FirstBatchIsEarliest;
    TokensAreConserved(NO_TOKENS, events);
    assert Observed(NO_TOKENS) == map[];
    InOrderIsEarliest(batches);
    FirstSightingIsExact(batches);
  }

  /** Out of order, a token first seen at block 9 and then at block 5 keeps block 9. */
  lemma LateSightingIsIgnored()
    ensures var early := Sighting(1, "0xa", 5, "Deposit", Source("r", "0xt", 0));
            var late := early.(blockNumber := 9);
            AddFirsts(map[], Announced([[late], [early]])) == map[KeyOfToken(late) := 9]
  {
    hide KeyFor;
    var early := Sighting(1, "0xa", 5, "Deposit", Source("r", "0xt", 0));
    var late := early.(blockNumber := 9);
    forall t | t == early || t == late
      ensures Discovered([t]) == [t]
    {
      DiscoveryIsMinimum([t]);
      assert [t][..0] == [] && Addresses([t]) == [t.tokenAddress];
      assert |Discovered([t])| == 1;
    }
    assert [[late], [early]][..1] == [[late]] && [[late]][..0] == [];
    assert Announced([[late]]) == Announced([]) + Discovered([late]) == [late];
    assert Announced([[late], [early]]) == Announced([[late]]) + Discovered([early]) == [late, early];
    assert KeyOfToken(early) == KeyOfToken(late);
    var none: map<TokenKey, nat> := map[];
    assert [late, early][..1] == [late] && [late][..0] == [];
    assert AddFirsts(none, [late]) == none[KeyOfToken(late) := 9];
    assert AddFirsts(none, [late, early]) == AddFirsts(none, [late]);
  }
}
