/**
 What Trigger and processJob leave behind, store by store, for every combination of replies:
 the whole new state and the answer, from the request as it was sent. Nothing here goes
 through the functions that specify the methods in Recompute.
 */
module RecomputeEffects {
  import opened Common
  import opened Snapshots
  import opened Keys
  import opened Protocol
  import opened Recompute
  import Postgres

  // ----- Trigger -----

  /** The lock that a Trigger call asks for is free, and it gets it. */
  predicate GetsLock(st: State, q: Request, replies: TriggerReplies)
    requires Dated(q)
  {
    LockKey(q) !in st.locks && replies.acquire.Ok?
  }

  /** Nothing changes when the request is not acceptable or its report is not found. */
  lemma TriggerRefused(st: State, limits: Limits, raw: RawRequest, replies: TriggerReplies, id: RunId, token: Token)
    requires DatedRaw(raw) && (!Acceptable(raw, limits.maxRangeDays) || replies.lookup.Some?)
    ensures Triggered(st, limits, raw, replies, id, token)
            == (st, Failure(if !Acceptable(raw, limits.maxRangeDays) then Invalid else replies.lookup.value))
  {
    AcceptExact(raw, limits.maxRangeDays);
  }

  /** Without the lock, at most the lock itself is left behind: when SET NX took effect and its answer was lost. */
  lemma TriggerWithoutLock(st: State, limits: Limits, raw: RawRequest, q: Request, replies: TriggerReplies, id: RunId,
                           token: Token)
    requires DatedRaw(raw) && Acceptable(raw, limits.maxRangeDays) && replies.lookup.None? && SentAs(raw, q)
    requires !GetsLock(st, q, replies)
    ensures
      var (st', r) := Triggered(st, limits, raw, replies, id, token);
      && r == Failure(if replies.acquire.Ok? then Conflict else Internal)
      && st' == st.(locks := st'.locks)
      && st'.locks == if LockKey(q) !in st.locks && replies.acquire == Lost(true)
                      then st.locks[LockKey(q) := Lock(token, st.now + limits.lockTTL)] else st.locks
  {
    AcceptExact(raw, limits.maxRangeDays);
  }

  /**
   What a Trigger call leaves of a state in which it holds its lock. A lost insert gives the
   lock back; else the new row is logged and queued, or, at a full queue, failed and the lock
   given back. Nothing else changes.
   */
  ghost predicate Leaves(st: State, capacity: nat, id: RunId, claim: Claim, replies: TriggerReplies, st': State,
                         r: Result<RunId>)
    requires Dated(claim.request)
  {
    var unlocked := if replies.release.Applied() then st.locks - {LockKey(claim.request)} else st.locks;
    var logged := if replies.audit.Applied() then st.audits + [AuditEntry(id, TriggeredEntry)] else st.audits;
    var pending, failed := Run(claim.request, [Pending], None), Run(claim.request, [Pending, Failed], None);
    if !replies.create.Ok? then
      && r == Failure(Internal)
      && st' == st.(runs := if replies.create == Lost(true) then st.runs[id := pending] else st.runs, locks := unlocked)
    else if |st.queue| < capacity then
      && r == Success(id)
      && st' == st.(runs := st.runs[id := pending], audits := logged, queue := st.queue + [Job(id, claim)])
    else
      && r == Failure(Unavailable)
      && st' == st.(runs := st.runs[id := if replies.fail.Applied() then failed else pending], audits := logged,
                    locks := unlocked)
  }

  /**
   The whole effect of a Trigger call that gets its lock, for the request that was sent: the
   lock is set for the configured time, and the rest is as above.
   */
  lemma TriggerWithLock(st: State, limits: Limits, raw: RawRequest, q: Request, replies: TriggerReplies, id: RunId,
                        token: Token)
    requires DatedRaw(raw) && Acceptable(raw, limits.maxRangeDays) && replies.lookup.None? && SentAs(raw, q)
    requires GetsLock(st, q, replies) && id !in st.runs
    ensures
      var (st', r) := Triggered(st, limits, raw, replies, id, token);
      var claim := Claim(q, token, st.now, st.now + limits.lockTTL);
      var locked := st.(locks := st.locks[LockKey(q) := Lock(token, claim.expires)]);
      Leaves(locked, limits.capacity, id, claim, replies, st', r)
  {
    AcceptExact(raw, limits.maxRangeDays);
    var claim := Claim(q, token, st.now, st.now + limits.lockTTL);
    var locked := st.(locks := st.locks[LockKey(q) := Lock(token, claim.expires)]);
    AcquiredIsCreated(st, limits, q, replies, id, token);
    CreatedLeaves(locked, limits.capacity, id, claim, replies);
  }

  lemma AcquiredIsCreated(st: State, limits: Limits, q: Request, replies: TriggerReplies, id: RunId, token: Token)
    requires Dated(q) && GetsLock(st, q, replies)
    ensures
      var claim := Claim(q, token, st.now, st.now + limits.lockTTL);
      var locked := st.(locks := st.locks[LockKey(q) := Lock(token, claim.expires)]);
      Acquired(st, limits, q, replies, id, token) == Recompute.Entered(locked, limits.capacity, id, claim, replies)
  {}

  lemma CreatedLeaves(st: State, capacity: nat, id: RunId, claim: Claim, replies: TriggerReplies)
    requires Dated(claim.request) && id !in st.runs
    requires LockKey(claim.request) in st.locks && st.locks[LockKey(claim.request)].token == claim.token
    ensures
      var (st', r) := Recompute.Entered(st, capacity, id, claim, replies);
      Leaves(st, capacity, id, claim, replies, st', r)
  {
    if replies.create.Ok? {
      SubmittedLeaves(st, capacity, id, claim, replies);
    }
  }

  lemma SubmittedLeaves(st: State, capacity: nat, id: RunId, claim: Claim, replies: TriggerReplies)
    requires Dated(claim.request) && id !in st.runs && replies.create.Ok?
    requires LockKey(claim.request) in st.locks && st.locks[LockKey(claim.request)].token == claim.token
    ensures
      var created := st.(runs := st.runs[id := Run(claim.request, [Pending], None)]);
      var (st', r) := Submitted(created, capacity, id, claim, replies);
      Leaves(st, capacity, id, claim, replies, st', r)
  {
    var pending, failed := Run(claim.request, [Pending], None), Run(claim.request, [Pending, Failed], None);
    assert [Pending] + [Failed] == [Pending, Failed];
    assert st.runs[id := pending][id := failed] == st.runs[id := failed];
  }

  /** A call succeeds exactly when it gets the lock, its row is inserted and the queue has room. */
  lemma TriggerSucceeds(st: State, limits: Limits, raw: RawRequest, q: Request, replies: TriggerReplies, id: RunId,
                        token: Token)
    requires DatedRaw(raw) && SentAs(raw, q) && id !in st.runs
    ensures
      var (st', r) := Triggered(st, limits, raw, replies, id, token);
      && (r.Success? <==> Acceptable(raw, limits.maxRangeDays) && replies.lookup.None? && GetsLock(st, q, replies)
                          && replies.create.Ok? && |st.queue| < limits.capacity)
      && (r.Success? ==>
            && r.value == id && st'.queue == st.queue + [Job(id, Claim(q, token, st.now, st.now + limits.lockTTL))]
            && st'.runs == st.runs[id := Run(q, [Pending], None)])
  {
    if !Acceptable(raw, limits.maxRangeDays) || replies.lookup.Some? {
      TriggerRefused(st, limits, raw, replies, id, token);
    } else if GetsLock(st, q, replies) {
      TriggerWithLock(st, limits, raw, q, replies, id, token);
    } else {
      TriggerWithoutLock(st, limits, raw, q, replies, id, token);
    }
  }

  // ----- processJob -----

  /** The rebuild of the job commits. */
  predicate Rebuilds(job: Job, replies: JobReplies) {
    replies.running.Ok? && replies.fault == Postgres.NoFault
    && (job.claim.request.slug == VolumeByPeriod || job.claim.request.slug == StatusCounts
        || job.claim.request.slug == TopEntities)
  }

  /**
   The cache versions: the version of the job's report grows by one, from zero if it was
   absent, exactly when its rebuild commits and the increment takes effect; no other version
   changes.
   */
  lemma VersionsAfterJob(st: State, job: Job, replies: JobReplies, slug: string)
    requires Dated(job.claim.request)
    ensures
      var before, after, key := st.versions, Processed(st, job, replies).versions, VersionKey(slug);
      if slug == SlugName(job.claim.request.slug) && Rebuilds(job, replies) && replies.bump.Applied() then
        key in after && after[key] == (if key in before then before[key] else 0) + 1
      else (key in after <==> key in before) && (key in before ==> after[key] == before[key])
  {
    ProcessedStores(st, job, replies);
    var mine := SlugName(job.claim.request.slug);
    if VersionKey(slug) == VersionKey(mine) {
      PrefixEqual("report:version:", slug, mine);
    }
  }

  /** Keys that are not of this form do not change either. */
  lemma OtherVersionsStay(st: State, job: Job, replies: JobReplies, key: string)
    requires Dated(job.claim.request) && key != VersionKey(SlugName(job.claim.request.slug))
    ensures key in Processed(st, job, replies).versions <==> key in st.versions
    ensures key in st.versions ==> Processed(st, job, replies).versions[key] == st.versions[key]
  {
    ProcessedStores(st, job, replies);
  }

  /** The locks: the job's own lock goes exactly when the release takes effect; every other lock stays. */
  lemma LocksAfterJob(st: State, job: Job, replies: JobReplies, key: string)
    requires Dated(job.claim.request)
    ensures
      var before, after := st.locks, Processed(st, job, replies).locks;
      if key == LockKey(job.claim.request) && key in before && before[key].token == job.claim.token
         && replies.release.Applied()
      then key !in after
      else (key in after <==> key in before) && (key in before ==> after[key] == before[key])
  {
    ProcessedStores(st, job, replies);
  }

  /** Which updates of the row take effect. */
  function Updates(job: Job, replies: JobReplies): seq<Status> {
    (if replies.running.Applied() then [Running] else [])
    + (if !replies.running.Ok? || !replies.mark.Applied() then []
       else if Rebuilds(job, replies) then [Completed] else [Failed])
  }

  /** The run rows: only the job's own row changes, by the updates that take effect; a completed row has its counts. */
  lemma RowsAfterJob(st: State, job: Job, replies: JobReplies, run: RunId)
    requires Dated(job.claim.request)
    ensures run in Processed(st, job, replies).runs <==> run in st.runs
    ensures run in st.runs ==>
              var before, after := st.runs[run], Processed(st, job, replies).runs[run];
              if run != job.run then after == before
              else
                && after.request == before.request && after.history == before.history + Updates(job, replies)
                && after.summary == (if Rebuilds(job, replies) && replies.mark.Applied()
                                     then Some(SummaryOfJob(st, job)) else before.summary)
  {
    ProcessedStores(st, job, replies);
    var marked := Mark(st.runs, job.run, Running, replies.running);
    RowsOfJob(marked, job, SummaryOfJob(st, job), replies, run);
    if run in st.runs && run == job.run {
      RowAfter(st, job, replies);
    }
  }

  lemma RowsOfJob(marked: map<RunId, Run>, job: Job, summary: Summary, replies: JobReplies, run: RunId)
    ensures
      var runs := RunsAfter(marked, job, summary, replies);
      && (run in runs <==> run in marked)
      && (run in marked ==> runs[run].request == marked[run].request)
      && (run in marked && run != job.run ==> runs[run] == marked[run])
      && (run in marked && run == job.run ==>
            runs[run].summary == if Rebuilds(job, replies) && replies.mark.Applied() then Some(summary)
                                 else marked[run].summary)
  {}

  /** The audit log: one entry, for the outcome of the rebuild, if there was one and the insert takes effect. */
  lemma AuditAfterJob(st: State, job: Job, replies: JobReplies)
    requires Dated(job.claim.request)
    ensures
      var outcome := if Rebuilds(job, replies) then CompletedEntry(SummaryOfJob(st, job)) else FailedEntry;
      Processed(st, job, replies).audits
      == if replies.running.Ok? && replies.audit.Applied() then st.audits + [AuditEntry(job.run, outcome)]
         else st.audits
  {
    ProcessedStores(st, job, replies);
  }

  /** The snapshot table is rebuilt or not; queue, clock, sources and events stay. */
  lemma TableAfterJob(st: State, job: Job, replies: JobReplies)
    requires Dated(job.claim.request)
    ensures
      var st', q := Processed(st, job, replies), job.claim.request;
      && st'.table == (if Rebuilds(job, replies)
                       then Rebuilt(st.table, q, Facts(q.slug, st.sources, st.events), job.run) else st.table)
      && st'.queue == st.queue && st'.now == st.now && st'.sources == st.sources && st'.events == st.events
  {
    ProcessedStores(st, job, replies);
  }

  // ----- the worker -----

  /** One reply more handles one job more, the next of the queue. */
  lemma {:induction false} WorkerTakesNext(st: State, replies: seq<JobReplies>, last: JobReplies)
    requires forall i :: 0 <= i < |st.queue| ==> Dated(st.queue[i].claim.request)
    decreases |replies|
    ensures
      var before := Drained(st, replies);
      && before.queue == st.queue[if |replies| < |st.queue| then |replies| else |st.queue|..]
      && Drained(st, replies + [last])
         == if before.queue == [] then before
            else Processed(before.(queue := before.queue[1..]), before.queue[0], last)
  {
    var all := replies + [last];
    if st.queue != [] && replies != [] {
      var next := Processed(st.(queue := st.queue[1..]), st.queue[0], replies[0]);
      TableAfterJob(st.(queue := st.queue[1..]), st.queue[0], replies[0]);
      assert all[1..] == replies[1..] + [last];
      WorkerTakesNext(next, replies[1..], last);
    } else if st.queue != [] {
      assert all[1..] == [];
    }
  }
}
