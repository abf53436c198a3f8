/**
 The recompute service over its two stores and its job channel. Trigger and processJob are
 methods on objects, specified by functions on the stored state; Conformance shows that
 each is a run of the protocol machine, so what Runs proves of all runs holds of them.
 */
module Recompute {
  import opened Common
  import opened Time
  import opened Snapshots
  import opened Keys
  import opened Protocol
  import Reports
  import Calls
  import Postgres
  import Redis

  /** A request as the handler passes it on. */
  datatype RawRequest = RawRequest(slug: Slug, window: string, dateFrom: int, dateTo: int)

  /** How the outside world answers the calls of one Trigger; lookup is the error of the definition query. */
  datatype TriggerReplies = TriggerReplies(lookup: Option<Error>, acquire: Reply, create: Reply, audit: Reply,
                                           fail: Reply, release: Reply)

  /** How it answers the calls of one processJob. */
  datatype JobReplies = JobReplies(running: Reply, fault: Postgres.TxFault, mark: Reply, bump: Reply, audit: Reply,
                                   release: Reply)

  /** Everything that the service reads and writes. */
  datatype State = State(queue: seq<Job>, locks: map<string, Lock>, versions: map<string, nat>, now: nat,
                         runs: map<RunId, Run>, audits: seq<AuditEntry>, table: Table, sources: Sources,
                         events: seq<Event>)

  datatype Limits = Limits(maxRangeDays: int, lockTTL: nat, capacity: nat)

  /** The checks of a recompute request, in the order in which the service makes them. */
  function Accept(raw: RawRequest, maxRangeDays: int): Result<Request> {
    match Reports.ParseWindow(raw.window)
    case None => Failure(Invalid)
    case Some(w) =>
      if raw.dateFrom > raw.dateTo then Failure(Invalid)
      else if (raw.dateTo - raw.dateFrom) / DAY + 1 > maxRangeDays then Failure(Invalid)
      else Success(Request(raw.slug, w, raw.dateFrom, raw.dateTo))
  }

  /** The checks of a recompute request, on what was sent. */
  predicate Acceptable(raw: RawRequest, maxRangeDays: int) {
    (raw.window == "day" || raw.window == "week") && raw.dateFrom <= raw.dateTo < raw.dateFrom + maxRangeDays * DAY
  }

  /** The request that runs is the one that was sent. */
  predicate SentAs(raw: RawRequest, q: Request) {
    && q.slug == raw.slug && q.dateFrom == raw.dateFrom && q.dateTo == raw.dateTo
    && ((raw.window == "day" && q.window == Day) || (raw.window == "week" && q.window == Week))
  }

  /** Exactly the acceptable requests are accepted, and nothing in them changes. */
  lemma AcceptExact(raw: RawRequest, maxRangeDays: int)
    ensures Accept(raw, maxRangeDays).Success? <==> Acceptable(raw, maxRangeDays)
    ensures Acceptable(raw, maxRangeDays) ==> SentAs(raw, Accept(raw, maxRangeDays).value)
    ensures !Acceptable(raw, maxRangeDays) ==> Accept(raw, maxRangeDays) == Failure(Invalid)
  {
    Reports.DaysWithin(raw.dateFrom, raw.dateTo, maxRangeDays);
  }

  predicate DatedRaw(raw: RawRequest) {
    KnownSlug(raw.slug) && FourDigitYear(raw.dateFrom) && FourDigitYear(raw.dateTo)
  }

  // ----- what the methods do to the state -----

  function Released(st: State, claim: Claim, reply: Reply): State
    requires Dated(claim.request)
  {
    if reply.Applied() then st.(locks := CompareDelete(st.locks, LockKey(claim.request), claim.token)) else st
  }

  /** Log the run, then queue it, or fail it and give the lock back. */
  function Submitted(st: State, capacity: nat, id: RunId, claim: Claim, replies: TriggerReplies): (State, Result<RunId>)
    requires Dated(claim.request)
  {
    var logged := st.(audits := Log(st.audits, id, TriggeredEntry, replies.audit));
    if |st.queue| < capacity then (logged.(queue := st.queue + [Job(id, claim)]), Success(id))
    else (Released(logged.(runs := Mark(st.runs, id, Failed, replies.fail)), claim, replies.release),
          Failure(Unavailable))
  }

  /** Insert the pending run, then submit it, or give the lock back. */
  function Entered(st: State, capacity: nat, id: RunId, claim: Claim, replies: TriggerReplies): (State, Result<RunId>)
    requires Dated(claim.request)
  {
    var created :=
      if replies.create.Applied() then st.(runs := st.runs[id := Run(claim.request, [Pending], None)]) else st;
    if replies.create.Ok? then Submitted(created, capacity, id, claim, replies)
    else (Released(created, claim, replies.release), Failure(Internal))
  }

  /** Take the scope lock, then insert and submit the run; a taken lock is a conflict. */
  function Acquired(st: State, limits: Limits, q: Request, replies: TriggerReplies, id: RunId, token: Token)
    : (State, Result<RunId>)
    requires Dated(q)
  {
    var claim := Claim(q, token, st.now, st.now + limits.lockTTL);
    if LockKey(q) in st.locks then (st, Failure(if replies.acquire.Ok? then Conflict else Internal))
    else
      var locked :=
        if replies.acquire.Applied() then st.(locks := st.locks[LockKey(q) := Lock(token, claim.expires)]) else st;
      if replies.acquire.Ok? then Entered(locked, limits.capacity, id, claim, replies) else (locked, Failure(Internal))
  }

  function Triggered(st: State, limits: Limits, raw: RawRequest, replies: TriggerReplies, id: RunId, token: Token)
    : (State, Result<RunId>)
    requires DatedRaw(raw)
  {
    match Accept(raw, limits.maxRangeDays)
    case Failure(error) => (st, Failure(error))
    case Success(q) =>
      if replies.lookup.Some? then (st, Failure(replies.lookup.value)) else Acquired(st, limits, q, replies, id, token)
  }

  /** Bump the version key of the report. */
  function Bumped(versions: map<string, nat>, slug: Slug, reply: Reply): map<string, nat> {
    var key := VersionKey(SlugName(slug));
    if reply.Applied() then versions[key := Redis.Next(versions, key)] else versions
  }

  /** Complete, bump, log and release after a committed rebuild. */
  function Finished(st: State, job: Job, summary: Summary, replies: JobReplies): State
    requires Dated(job.claim.request)
  {
    Released(st.(runs := MarkDone(st.runs, job.run, summary, replies.mark),
                 versions := Bumped(st.versions, job.claim.request.slug, replies.bump),
                 audits := Log(st.audits, job.run, CompletedEntry(summary), replies.audit)),
             job.claim, replies.release)
  }

  /** Fail, log and release after a rolled-back rebuild. */
  function Abandoned(st: State, job: Job, replies: JobReplies): State
    requires Dated(job.claim.request)
  {
    Released(st.(runs := Mark(st.runs, job.run, Failed, replies.mark),
                 audits := Log(st.audits, job.run, FailedEntry, replies.audit)),
             job.claim, replies.release)
  }

  predicate Commits(job: Job, replies: JobReplies) {
    Supported(job.claim.request.slug) && replies.fault == Postgres.NoFault
  }

  function Processed(st: State, job: Job, replies: JobReplies): State
    requires Dated(job.claim.request)
  {
    var running := st.(runs := Mark(st.runs, job.run, Running, replies.running));
    var q := job.claim.request;
    var facts := Facts(q.slug, st.sources, st.events);
    if !replies.running.Ok? then Released(running, job.claim, replies.release)
    else if Commits(job, replies) then
      Finished(running.(table := Rebuilt(st.table, q, facts, job.run)), job, SummaryOf(st.table, q, facts, job.run),
               replies)
    else Abandoned(running, job, replies)
  }

  /** A worker handles the queue in order, one job for each element of replies, until none is left. */
  function Drained(st: State, replies: seq<JobReplies>): State
    requires forall i :: 0 <= i < |st.queue| ==> Dated(st.queue[i].claim.request)
    decreases |replies|
  {
    if st.queue == [] || replies == [] then st
    else Drained(Processed(st.(queue := st.queue[1..]), st.queue[0], replies[0]), replies[1..])
  }

  // ----- how rows end -----

  /** The update that ends a row was applied, after the update to running was acknowledged. */
  predicate Finalized(replies: JobReplies) {
    replies.running.Ok? && replies.mark.Applied()
  }

  /**
   How processJob leaves a pending row, exactly, whatever is lost: only a committed rebuild
   completes it, only a rebuild that failed fails it, and a lost final update leaves it
   running.
   */
  lemma RowOutcome(st: State, job: Job, replies: JobReplies)
    requires Dated(job.claim.request) && job.run in st.runs && st.runs[job.run].history == [Pending]
    ensures job.run in Processed(st, job, replies).runs
    ensures
      var h, commits := Processed(st, job, replies).runs[job.run].history, Commits(job, replies);
      && (h == [Pending, Running, Completed] <==> commits && Finalized(replies))
      && (h == [Pending, Running, Failed] <==> !commits && Finalized(replies))
      && (h == [Pending, Running] <==> replies.running.Applied() && !Finalized(replies))
      && (h == [Pending] <==> !replies.running.Applied())
  {
    RowAfter(st, job, replies);
    var h := Processed(st, job, replies).runs[job.run].history;
    assert Finalized(replies) ==>
        |h| == 3 && h[1] == Running && h[2] == if Commits(job, replies) then Completed else Failed;
    assert !Finalized(replies) ==> |h| == if replies.running.Applied() then 2 else 1;
  }

  lemma RowAfter(st: State, job: Job, replies: JobReplies)
    requires Dated(job.claim.request) && job.run in st.runs
    ensures job.run in Processed(st, job, replies).runs
    ensures Processed(st, job, replies).runs[job.run].history
            == st.runs[job.run].history + (if replies.running.Applied() then [Running] else [])
               + (if !Finalized(replies) then [] else if Commits(job, replies) then [Completed] else [Failed])
  {
    ProcessedStores(st, job, replies);
    FinalUpdate(Mark(st.runs, job.run, Running, replies.running), job, SummaryOfJob(st, job), replies);
  }

  function SummaryOfJob(st: State, job: Job): Summary {
    SummaryOf(st.table, job.claim.request, Facts(job.claim.request.slug, st.sources, st.events), job.run)
  }

  /** The run rows after the update to running. */
  function RunsAfter(marked: map<RunId, Run>, job: Job, summary: Summary, replies: JobReplies): map<RunId, Run> {
    if !replies.running.Ok? then marked
    else if Commits(job, replies) then MarkDone(marked, job.run, summary, replies.mark)
    else Mark(marked, job.run, Failed, replies.mark)
  }

  /** Only the locks differ after a release. */
  function AfterRelease(st: State, claim: Claim, reply: Reply): map<string, Lock>
    requires Dated(claim.request)
  {
    if reply.Applied() then CompareDelete(st.locks, LockKey(claim.request), claim.token) else st.locks
  }

  lemma ReleasedStores(st: State, claim: Claim, reply: Reply)
    requires Dated(claim.request)
    ensures Released(st, claim, reply) == st.(locks := AfterRelease(st, claim, reply))
  {}

  lemma FinishedStores(st: State, job: Job, summary: Summary, replies: JobReplies)
    requires Dated(job.claim.request)
    ensures Finished(st, job, summary, replies)
            == st.(runs := MarkDone(st.runs, job.run, summary, replies.mark),
                   versions := Bumped(st.versions, job.claim.request.slug, replies.bump),
                   audits := Log(st.audits, job.run, CompletedEntry(summary), replies.audit),
                   locks := AfterRelease(st, job.claim, replies.release))
  {}

  lemma AbandonedStores(st: State, job: Job, replies: JobReplies)
    requires Dated(job.claim.request)
    ensures Abandoned(st, job, replies)
            == st.(runs := Mark(st.runs, job.run, Failed, replies.mark),
                   audits := Log(st.audits, job.run, FailedEntry, replies.audit),
                   locks := AfterRelease(st, job.claim, replies.release))
  {}

  /** Every store after processJob, one by one. */
  lemma ProcessedStores(st: State, job: Job, replies: JobReplies)
    requires Dated(job.claim.request)
    ensures
      var st', q, done := Processed(st, job, replies), job.claim.request, replies.running.Ok? && Commits(job, replies);
      && st'.runs == RunsAfter(Mark(st.runs, job.run, Running, replies.running), job, SummaryOfJob(st, job), replies)
      && st'.table == (if done then Rebuilt(st.table, q, Facts(q.slug, st.sources, st.events), job.run) else st.table)
      && st'.audits == (if replies.running.Ok? then Log(st.audits, job.run, OutcomeOf(st, job, replies), replies.audit)
                        else st.audits)
      && st'.versions == (if done then Bumped(st.versions, q.slug, replies.bump) else st.versions)
      && st'.locks == AfterRelease(st, job.claim, replies.release)
      && st'.queue == st.queue && st'.now == st.now && st'.sources == st.sources && st'.events == st.events
  {
    var q, running := job.claim.request, st.(runs := Mark(st.runs, job.run, Running, replies.running));
    var rebuilt := running.(table := Rebuilt(st.table, q, Facts(q.slug, st.sources, st.events), job.run));
    ReleasedStores(running, job.claim, replies.release);
    FinishedStores(rebuilt, job, SummaryOfJob(st, job), replies);
    AbandonedStores(running, job, replies);
  }

  lemma FinalUpdate(marked: map<RunId, Run>, job: Job, summary: Summary, replies: JobReplies)
    requires job.run in marked
    ensures job.run in RunsAfter(marked, job, summary, replies)
    ensures RunsAfter(marked, job, summary, replies)[job.run].history
            == marked[job.run].history
               + if !Finalized(replies) then [] else if Commits(job, replies) then [Completed] else [Failed]
  {}

  /** The table and the outcome entry do not depend on the final update of the row. */
  lemma RebuildOutcome(st: State, job: Job, replies: JobReplies)
    requires Dated(job.claim.request)
    ensures
      var st', q, done := Processed(st, job, replies), job.claim.request, replies.running.Ok? && Commits(job, replies);
      && st'.table == (if done then Rebuilt(st.table, q, Facts(q.slug, st.sources, st.events), job.run) else st.table)
      && st'.audits == (if replies.running.Ok? then Log(st.audits, job.run, OutcomeOf(st, job, replies), replies.audit)
                        else st.audits)
  {
    ProcessedStores(st, job, replies);
  }

  /** The audit entry of a rebuild that committed, or of one that did not. */
  function OutcomeOf(st: State, job: Job, replies: JobReplies): Action {
    if Commits(job, replies) then CompletedEntry(SummaryOfJob(st, job)) else FailedEntry
  }

  /** Every call succeeds but the final update. */
  const FINAL_UPDATE_FAILS: JobReplies := JobReplies(Ok, Postgres.NoFault, Lost(false), Ok, Ok, Ok)

  /** A failed finalization is recorded neither in the row, which stays running, nor in the audit log. */
  lemma FinalizationWitness(st: State, job: Job)
    requires Dated(job.claim.request) && Supported(job.claim.request.slug)
    requires job.run in st.runs && st.runs[job.run].history == [Pending]
    ensures
      var st' := Processed(st, job, FINAL_UPDATE_FAILS);
      && job.run in st'.runs && st'.runs[job.run].history == [Pending, Running]
      && |st'.audits| == |st.audits| + 1
      && st'.audits[|st.audits|].run == job.run && st'.audits[|st.audits|].action.CompletedEntry?
  {
    RowOutcome(st, job, FINAL_UPDATE_FAILS);
    RebuildOutcome(st, job, FINAL_UPDATE_FAILS);
  }

  /** Trigger comes as far as the channel with its new row. */
  predicate Offers(st: State, limits: Limits, raw: RawRequest, replies: TriggerReplies)
    requires DatedRaw(raw)
  {
    && Accept(raw, limits.maxRangeDays).Success? && replies.lookup.None?
    && LockKey(Accept(raw, limits.maxRangeDays).value) !in st.locks
    && replies.acquire.Ok? && replies.create.Ok?
  }

  /**
   Exactly when a Trigger call takes a new row from pending to failed: a job that it offers
   meets a full queue and the update is applied; if the update is lost, the row stays pending.
   */
  lemma QueueFullOutcome(st: State, limits: Limits, raw: RawRequest, replies: TriggerReplies, id: RunId, token: Token)
    requires DatedRaw(raw) && id !in st.runs
    ensures
      var (st', r) := Triggered(st, limits, raw, replies, id, token);
      var full := Offers(st, limits, raw, replies) && |st.queue| >= limits.capacity;
      && (r == Failure(Unavailable) && replies.lookup.None? <==> full)
      && (id in st'.runs && st'.runs[id].history == [Pending, Failed] <==> full && replies.fail.Applied())
      && (full && !replies.fail.Applied() ==> id in st'.runs && st'.runs[id].history == [Pending])
      && (full ==> st'.queue == st.queue && st'.audits == Log(st.audits, id, TriggeredEntry, replies.audit))
  {
    if Accept(raw, limits.maxRangeDays).Success? && replies.lookup.None? {
      AcquiredOutcome(st, limits, Accept(raw, limits.maxRangeDays).value, replies, id, token);
    }
  }

  lemma AcquiredOutcome(st: State, limits: Limits, q: Request, replies: TriggerReplies, id: RunId, token: Token)
    requires Dated(q) && id !in st.runs
    ensures
      var (st', r) := Acquired(st, limits, q, replies, id, token);
      var full := LockKey(q) !in st.locks && replies.acquire.Ok? && replies.create.Ok? && |st.queue| >= limits.capacity;
      && (r == Failure(Unavailable) <==> full)
      && (id in st'.runs && st'.runs[id].history == [Pending, Failed] <==> full && replies.fail.Applied())
      && (full && !replies.fail.Applied() ==> id in st'.runs && st'.runs[id].history == [Pending])
      && (full ==> st'.queue == st.queue && st'.audits == Log(st.audits, id, TriggeredEntry, replies.audit))
  {}

  // ----- what the methods call -----

  function SubmitCalls(full: bool, id: RunId, claim: Claim, replies: TriggerReplies): seq<Calls.Remote>
    requires Dated(claim.request)
  {
    [Calls.InsertAudit(id, TriggeredEntry, replies.audit)]
    + if full then [Calls.UpdateRun(id, Failed, replies.fail), FreeCall(claim, replies.release)] else []
  }

  function FreeCall(claim: Claim, reply: Reply): Calls.Remote
    requires Dated(claim.request)
  {
    Calls.FreeLock(LockKey(claim.request), claim.token, reply)
  }

  function LockedCalls(full: bool, id: RunId, claim: Claim, replies: TriggerReplies): seq<Calls.Remote>
    requires Dated(claim.request)
  {
    [Calls.InsertRun(id, Pending, replies.create)]
    + if replies.create.Ok? then SubmitCalls(full, id, claim, replies) else [FreeCall(claim, replies.release)]
  }

  function AcquiredCalls(st: State, limits: Limits, q: Request, replies: TriggerReplies, id: RunId, token: Token)
    : seq<Calls.Remote>
    requires Dated(q)
  {
    var claim := Claim(q, token, st.now, st.now + limits.lockTTL);
    [Calls.SetLock(LockKey(q), token, replies.acquire)]
    + if LockKey(q) !in st.locks && replies.acquire.Ok?
      then LockedCalls(|st.queue| >= limits.capacity, id, claim, replies) else []
  }

  /** The remote calls of Trigger, in order. */
  function TriggerCalls(st: State, limits: Limits, raw: RawRequest, replies: TriggerReplies, id: RunId, token: Token)
    : seq<Calls.Remote>
    requires DatedRaw(raw)
  {
    match Accept(raw, limits.maxRangeDays)
    case Failure(_) => []
    case Success(q) =>
      if replies.lookup.Some? then [] else AcquiredCalls(st, limits, q, replies, id, token)
  }

  /** The remote calls of processJob, in order; the bump comes after the commit and before the release. */
  function JobCalls(st: State, job: Job, replies: JobReplies): seq<Calls.Remote>
    requires Dated(job.claim.request)
  {
    [Calls.UpdateRun(job.run, Running, replies.running)]
    + if !replies.running.Ok? then [FreeCall(job.claim, replies.release)]
      else if Commits(job, replies) then
        [Calls.Rebuild(job.claim.request, job.run, true)] + FinishCalls(job, SummaryOfJob(st, job), replies)
      else [Calls.Rebuild(job.claim.request, job.run, false)] + AbandonCalls(job, replies)
  }

  function FinishCalls(job: Job, summary: Summary, replies: JobReplies): seq<Calls.Remote>
    requires Dated(job.claim.request)
  {
    [Calls.UpdateRun(job.run, Completed, replies.mark),
     Calls.RaiseVersion(SlugName(job.claim.request.slug), replies.bump),
     Calls.InsertAudit(job.run, CompletedEntry(summary), replies.audit), FreeCall(job.claim, replies.release)]
  }

  function AbandonCalls(job: Job, replies: JobReplies): seq<Calls.Remote>
    requires Dated(job.claim.request)
  {
    [Calls.UpdateRun(job.run, Failed, replies.mark), Calls.InsertAudit(job.run, FailedEntry, replies.audit),
     FreeCall(job.claim, replies.release)]
  }

  /** The remote calls of a worker. */
  function WorkerCalls(st: State, replies: seq<JobReplies>): seq<Calls.Remote>
    requires forall i :: 0 <= i < |st.queue| ==> Dated(st.queue[i].claim.request)
    decreases |replies|
  {
    if st.queue == [] || replies == [] then []
    else
      var taken := st.(queue := st.queue[1..]);
      JobCalls(taken, st.queue[0], replies[0]) + WorkerCalls(Processed(taken, st.queue[0], replies[0]), replies[1..])
  }

  /** What a worker leaves: the stores and the calls. */
  ghost function WorkerLeaves(st: State, replies: seq<JobReplies>, calls: seq<Calls.Remote>): (State, seq<Calls.Remote>)
    requires forall i :: 0 <= i < |st.queue| ==> Dated(st.queue[i].claim.request)
  {
    (Drained(st, replies), calls + WorkerCalls(st, replies))
  }

  /** One round of the worker's loop. */
  lemma WorkerNext(st: State, replies: seq<JobReplies>, calls: seq<Calls.Remote>)
    requires st.queue != [] && replies != [] && forall i :: 0 <= i < |st.queue| ==> Dated(st.queue[i].claim.request)
    ensures
      var taken := st.(queue := st.queue[1..]);
      var next := Processed(taken, st.queue[0], replies[0]);
      && next.queue == st.queue[1..]
      && WorkerLeaves(st, replies, calls)
         == WorkerLeaves(next, replies[1..], calls + JobCalls(taken, st.queue[0], replies[0]))
  {
    var taken := st.(queue := st.queue[1..]);
    var next := Processed(taken, st.queue[0], replies[0]);
    ProcessedKeepsQueue(taken, st.queue[0], replies[0]);
    assert Drained(st, replies) == Drained(next, replies[1..]);
    assert WorkerCalls(st, replies) == JobCalls(taken, st.queue[0], replies[0]) + WorkerCalls(next, replies[1..]);
    Calls.Chain(calls, JobCalls(taken, st.queue[0], replies[0]), WorkerCalls(next, replies[1..]));
  }

  lemma ProcessedKeepsQueue(st: State, job: Job, replies: JobReplies)
    requires Dated(job.claim.request)
    ensures Processed(st, job, replies).queue == st.queue
  {
    ProcessedStores(st, job, replies);
  }

  // ----- the methods -----

  class RecomputeService {
    const store: Postgres.Store
    const redis: Redis.Store
    const limits: Limits
    var queue: seq<Job>

    constructor (store: Postgres.Store, redis: Redis.Store, limits: Limits)
      ensures this.store == store && this.redis == redis && this.limits == limits && queue == []
    {
      this.store, this.redis, this.limits, queue := store, redis, limits, [];
    }

    function Contents(): State
      reads this, store, redis
    {
      State(queue, redis.locks, redis.versions, redis.now,
            store.runs, store.audits, store.snapshots, store.sources, store.events)
    }

    /** Both stores record their calls in one trace. */
    predicate Traced() {
      store.trace == redis.trace
    }

    /**
     Validate, look up the report, take the scope lock, insert a pending run, log it and
     queue it; a full queue fails the run and gives the lock back.
     */
    method Trigger(raw: RawRequest, replies: TriggerReplies, id: RunId, token: Token) returns (r: Result<RunId>)
      requires DatedRaw(raw) && id !in store.runs && Traced()
      modifies this`queue, redis`locks, store`runs, store`audits, store.trace
      ensures store.trace.calls
              == old(store.trace.calls) + TriggerCalls(old(Contents()), limits, raw, replies, id, token)
      ensures (Contents(), r) == Triggered(old(Contents()), limits, raw, replies, id, token)
    {
      var accepted := Accept(raw, limits.maxRangeDays);
      if accepted.Failure? { return Failure(accepted.error); }
      if replies.lookup.Some? { return Failure(replies.lookup.value); }
      r := Acquire(accepted.value, replies, id, token);
    }

    /** Take the scope lock, then insert and submit the run. */
    method Acquire(q: Request, replies: TriggerReplies, id: RunId, token: Token) returns (r: Result<RunId>)
      requires Dated(q) && id !in store.runs && Traced()
      modifies this`queue, redis`locks, store`runs, store`audits, store.trace
      ensures store.trace.calls
              == old(store.trace.calls) + AcquiredCalls(old(Contents()), limits, q, replies, id, token)
      ensures (Contents(), r) == Acquired(old(Contents()), limits, q, replies, id, token)
    {
      var key := LockKey(q);
      var acquired := redis.TryAcquire(key, token, limits.lockTTL, replies.acquire);
      if acquired.Failure? { return Failure(Internal); }
      if !acquired.value { return Failure(Conflict); }
      var claim := Claim(q, token, redis.now, redis.now + limits.lockTTL);
      r := Enter(claim, replies, id);
      Calls.Chain(old(store.trace.calls), [Calls.SetLock(key, token, replies.acquire)],
                  LockedCalls(|old(queue)| >= limits.capacity, id, claim, replies));
    }

    /** The part of Trigger under the scope lock: insert the run and submit it, or release. */
    method Enter(claim: Claim, replies: TriggerReplies, id: RunId) returns (r: Result<RunId>)
      requires Dated(claim.request) && id !in store.runs && Traced()
      modifies this`queue, redis`locks, store`runs, store`audits, store.trace
      ensures store.trace.calls
              == old(store.trace.calls) + LockedCalls(|old(queue)| >= limits.capacity, id, claim, replies)
      ensures (Contents(), r) == Entered(old(Contents()), limits.capacity, id, claim, replies)
    {
      var run := store.CreateRun(claim.request, Pending, id, replies.create);
      if run.Failure? {
        var _ := redis.Release(LockKey(claim.request), claim.token, replies.release);
        return Failure(Internal);
      }
      r := Submit(run.value, claim, replies);
      Calls.Chain(old(store.trace.calls), [Calls.InsertRun(id, Pending, replies.create)],
                  SubmitCalls(|old(queue)| >= limits.capacity, id, claim, replies));
    }

    /** The last part of Trigger, once the run row exists: log the run and queue it, or fail it and release. */
    method Submit(id: RunId, claim: Claim, replies: TriggerReplies) returns (r: Result<RunId>)
      requires Dated(claim.request) && Traced()
      modifies this`queue, redis`locks, store`runs, store`audits, store.trace
      ensures store.trace.calls
              == old(store.trace.calls) + SubmitCalls(|old(queue)| >= limits.capacity, id, claim, replies)
      ensures (Contents(), r) == Submitted(old(Contents()), limits.capacity, id, claim, replies)
    {
      var _ := store.CreateEntry(id, TriggeredEntry, replies.audit);
      if |queue| < limits.capacity {
        queue := queue + [Job(id, claim)];
        return Success(id);
      }
      var _ := store.MarkRunFailed(id, replies.fail);
      var _ := redis.Release(LockKey(claim.request), claim.token, replies.release);
      return Failure(Unavailable);
    }

    /** Mark running, rebuild, mark the outcome, bump the version after a commit, log, release. */
    method ProcessJob(job: Job, replies: JobReplies)
      requires Dated(job.claim.request) && Traced()
      modifies redis`locks, redis`versions, store`runs, store`audits, store`snapshots, store.trace
      ensures store.trace.calls == old(store.trace.calls) + JobCalls(old(Contents()), job, replies)
      ensures Contents() == Processed(old(Contents()), job, replies)
    {
      var q, key := job.claim.request, LockKey(job.claim.request);
      var running := store.MarkRunRunning(job.run, replies.running);
      if !running {
        var _ := redis.Release(key, job.claim.token, replies.release);
        return;
      }
      var summary := store.RecomputeReport(q, job.run, replies.fault);
      ghost var update := Calls.UpdateRun(job.run, Running, replies.running);
      ghost var rebuild := Calls.Rebuild(q, job.run, summary.Success?);
      if summary.Failure? {
        Abandon(job, replies);
        Calls.Follow(old(store.trace.calls), update, rebuild, AbandonCalls(job, replies));
      } else {
        Finish(job, summary.value, replies);
        Calls.Follow(old(store.trace.calls), update, rebuild, FinishCalls(job, summary.value, replies));
      }
    }

    /** The part of processJob after a rebuild that failed. */
    method Abandon(job: Job, replies: JobReplies)
      requires Dated(job.claim.request) && Traced()
      modifies redis`locks, store`runs, store`audits, store.trace
      ensures store.trace.calls == old(store.trace.calls) + AbandonCalls(job, replies)
      ensures Contents() == Abandoned(old(Contents()), job, replies)
    {
      var _ := store.MarkRunFailed(job.run, replies.mark);
      var _ := store.CreateEntry(job.run, FailedEntry, replies.audit);
      var _ := redis.Release(LockKey(job.claim.request), job.claim.token, replies.release);
    }

    /** The part of processJob after a rebuild that committed. */
    method Finish(job: Job, summary: Summary, replies: JobReplies)
      requires Dated(job.claim.request) && Traced()
      modifies redis`locks, redis`versions, store`runs, store`audits, store.trace
      ensures store.trace.calls == old(store.trace.calls) + FinishCalls(job, summary, replies)
      ensures Contents() == Finished(old(Contents()), job, summary, replies)
    {
      var _ := store.MarkRunCompleted(job.run, summary, replies.mark);
      var _ := redis.BumpVersion(SlugName(job.claim.request.slug), replies.bump);
      var _ := store.CreateEntry(job.run, CompletedEntry(summary), replies.audit);
      var _ := redis.Release(LockKey(job.claim.request), job.claim.token, replies.release);
    }

    /** The receive loop of one worker. */
    method Worker(replies: seq<JobReplies>)
      requires Traced() && forall i :: 0 <= i < |queue| ==> Dated(queue[i].claim.request)
      modifies this`queue, redis`locks, redis`versions, store`runs, store`audits, store`snapshots, store.trace
      ensures store.trace.calls == old(store.trace.calls) + WorkerCalls(old(Contents()), replies)
      ensures Contents() == Drained(old(Contents()), replies)
      ensures queue == old(queue)[if |replies| < |old(queue)| then |replies| else |old(queue)|..]
    {
      var i := 0;
      assert replies[0..] == replies;
      while i < |replies| && queue != []
        invariant 0 <= i <= |replies| && i <= |old(queue)|
        invariant queue == old(queue)[i..]
        invariant WorkerLeaves(Contents(), replies[i..], store.trace.calls)
                  == WorkerLeaves(old(Contents()), replies, old(store.trace.calls))
      {
        var job := queue[0];
        ghost var before := Contents();
        queue := queue[1..];
        ghost var calls := store.trace.calls;
        ProcessJob(job, replies[i]);
        WorkerNext(before, replies[i..], calls);
        assert replies[i..][1..] == replies[i + 1..];
        i := i + 1;
      }
    }
  }
}
