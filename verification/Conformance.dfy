/**
 Trigger and processJob are runs of the protocol machine: from any machine state that shows
 the objects, the machine can take the steps of the method and shows the objects afterwards.
 */
module Conformance {
  import opened Common
  import opened Snapshots
  import opened Keys
  import opened Protocol
  import opened Runs
  import opened Recompute
  import R = ReadConformance
  import Coherence

  /** The machine state s shows the stored state st; used are the tokens drawn so far. */
  ghost predicate Shows(s: Sys, st: State, limits: Limits, used: set<Token>) {
    && s.cfg.capacity == limits.capacity && s.cfg.lockTTL == limits.lockTTL && s.ts.queue == st.queue
    && s.now == st.now && s.locks == st.locks && R.SameVersions(st.versions, s.cache.time.versions)
    && s.runs == st.runs && s.audits == st.audits && s.cache.time.table == st.table
    && s.sources == st.sources && s.events == st.events && s.used == used
  }

  lemma Take(s: Sys, before: seq<Step>, m: Sys, step: Step) returns (steps: seq<Step>, m': Sys)
    requires Reaches(s, before, m) && Enabled(m, step)
    ensures Reaches(s, steps, m') && m' == Apply(m, step) && steps == before + [step]
  {
    Extend(s, before, step);
    steps, m' := before + [step], Apply(m, step);
  }

  lemma StepsChain(before: seq<Step>, some: seq<Step>, more: seq<Step>)
    ensures before + some + more == before + (some + more)
  {}

  // ----- Trigger -----

  lemma ReleaseShows(m: Sys, st: State, limits: Limits, used: set<Token>, ts: Tasks, claim: Claim, reply: Reply)
    requires Shows(m, st, limits, used) && ts.queue == st.queue && Dated(claim.request)
    ensures
      var e := Unlock(m.(ts := ts), claim, reply);
      Shows(e, Released(st, claim, reply), limits, used) && e.ts == ts
  {
    UnlockFrame(m, ts, claim, reply);
    UnlockKeepsTasks(m.(ts := ts), claim, reply);
  }

  /** The release that ends a trigger. */
  lemma TriggerReleases(s: Sys, before: seq<Step>, m: Sys, st: State, limits: Limits, used: set<Token>, t: nat,
                        reply: Reply)
    returns (steps: seq<Step>, e: Sys)
    requires Reaches(s, before, m) && Shows(m, st, limits, used)
    requires TriggerIs(m, t, Aborting) || TriggerIs(m, t, Rejecting)
    requires Dated(m.ts.triggers[t].claim.request)
    ensures Reaches(s, steps, e) && Shows(e, Released(st, m.ts.triggers[t].claim, reply), limits, used)
    ensures e.ts == EndTrigger(m.ts, t) && steps == before + [ReleaseTrigger(t, reply)]
  {
    steps, e := Take(s, before, m, ReleaseTrigger(t, reply));
    ReleaseShows(m, st, limits, used, EndTrigger(m.ts, t), m.ts.triggers[t].claim, reply);
  }

  lemma TriggerRejects(s: Sys, before: seq<Step>, m: Sys, st: State, limits: Limits, used: set<Token>, t: nat,
                       fail: Reply, release: Reply)
    returns (steps: seq<Step>, e: Sys)
    requires Reaches(s, before, m) && Shows(m, st, limits, used) && TriggerIs(m, t, Full)
    requires Dated(m.ts.triggers[t].claim.request)
    ensures
      var task := m.ts.triggers[t];
      && Reaches(s, steps, e)
      && Shows(e, Released(st.(runs := Mark(st.runs, task.run, Failed, fail)), task.claim, release), limits, used)
      && e.ts == EndTrigger(m.ts, t) && steps == before + [RejectRun(t, fail), ReleaseTrigger(t, release)]
  {
    var task, m' := m.ts.triggers[t], m;
    steps, m' := Take(s, before, m, RejectRun(t, fail));
    steps, e := TriggerReleases(s, steps, m', st.(runs := Mark(st.runs, task.run, Failed, fail)), limits, used, t,
                                release);
    assert e.ts.triggers == EndTrigger(m.ts, t).triggers;
  }

  lemma AuditTaken(s: Sys, before: seq<Step>, m: Sys, st: State, limits: Limits, used: set<Token>, t: nat, reply: Reply)
    returns (steps: seq<Step>, e: Sys)
    requires Reaches(s, before, m) && Shows(m, st, limits, used) && TriggerIs(m, t, Created)
    ensures
      var task := m.ts.triggers[t];
      && Reaches(s, steps, e)
      && Shows(e, st.(audits := Log(st.audits, task.run, TriggeredEntry, reply)), limits, used)
      && e.ts == SetTrigger(m.ts, t, task.(stage := Audited)) && steps == before + [AuditTriggered(t, reply)]
  {
    steps, e := Take(s, before, m, AuditTriggered(t, reply));
  }

  lemma EnqueueTaken(s: Sys, before: seq<Step>, m: Sys, st: State, limits: Limits, used: set<Token>, t: nat)
    returns (steps: seq<Step>, e: Sys)
    requires Reaches(s, before, m) && Shows(m, st, limits, used) && TriggerIs(m, t, Audited)
    ensures steps == before + [Enqueue(t)]
    ensures
      var task := m.ts.triggers[t];
      && Reaches(s, steps, e)
      && if |st.queue| < limits.capacity then
           && Shows(e, st.(queue := st.queue + [Job(task.run, task.claim)]), limits, used)
           && e.ts.triggers == m.ts.triggers - {t} && e.ts.workers == m.ts.workers
         else Shows(e, st, limits, used) && e.ts == SetTrigger(m.ts, t, task.(stage := Full))
  {
    steps, e := Take(s, before, m, Enqueue(t));
  }

  /** The steps of Submit, with the replies of the call. */
  function SubmitSteps(full: bool, t: nat, replies: TriggerReplies): seq<Step> {
    [AuditTriggered(t, replies.audit), Enqueue(t)]
    + if full then [RejectRun(t, replies.fail), ReleaseTrigger(t, replies.release)] else []
  }

  /** And of Trigger from its lock on. */
  function CreateSteps(full: bool, t: nat, id: RunId, replies: TriggerReplies): seq<Step> {
    [CreateRun(t, id, replies.create)]
    + if replies.create.Ok? then SubmitSteps(full, t, replies) else [ReleaseTrigger(t, replies.release)]
  }

  lemma SubmitIsRun(s: Sys, before: seq<Step>, m: Sys, st: State, limits: Limits, used: set<Token>, t: nat,
                    replies: TriggerReplies)
    returns (steps: seq<Step>, e: Sys)
    requires Reaches(s, before, m) && Shows(m, st, limits, used) && TriggerIs(m, t, Created)
    requires Dated(m.ts.triggers[t].claim.request)
    ensures
      var task := m.ts.triggers[t];
      && Reaches(s, steps, e)
      && Shows(e, Submitted(st, limits.capacity, task.run, task.claim, replies).0, limits, used)
      && e.ts.triggers == m.ts.triggers - {t} && e.ts.workers == m.ts.workers
      && steps == before + SubmitSteps(|st.queue| >= limits.capacity, t, replies)
  {
    var task, m1 := m.ts.triggers[t], m;
    steps, m1 := AuditTaken(s, before, m, st, limits, used, t, replies.audit);
    var logged := st.(audits := Log(st.audits, task.run, TriggeredEntry, replies.audit));
    var m2;
    steps, m2 := EnqueueTaken(s, steps, m1, logged, limits, used, t);
    assert m1.ts.triggers - {t} == m.ts.triggers - {t};
    if |st.queue| < limits.capacity {
      e := m2;
    } else {
      assert m2.ts.triggers - {t} == m.ts.triggers - {t};
      steps, e := TriggerRejects(s, steps, m2, logged, limits, used, t, replies.fail, replies.release);
    }
  }

  lemma CreateTaken(s: Sys, before: seq<Step>, m: Sys, st: State, limits: Limits, used: set<Token>, t: nat,
                    claim: Claim,
                    id: RunId, reply: Reply) returns (steps: seq<Step>, e: Sys)
    requires Reaches(s, before, m) && Shows(m, st, limits, used) && id !in m.runs
    requires t in m.ts.triggers && m.ts.triggers[t] == Task(Holding, 0, claim)
    ensures
      var created := if reply.Applied() then st.(runs := st.runs[id := Run(claim.request, [Pending], None)]) else st;
      && Reaches(s, steps, e) && Shows(e, created, limits, used)
      && e.ts == SetTrigger(m.ts, t, if reply.Ok? then Task(Stage.Created, id, claim) else Task(Aborting, 0, claim))
      && steps == before + [CreateRun(t, id, reply)]
  {
    steps, e := Take(s, before, m, CreateRun(t, id, reply));
  }

  lemma CreateIsRun(s: Sys, before: seq<Step>, m: Sys, st: State, limits: Limits, used: set<Token>, t: nat,
                    claim: Claim, id: RunId,
                    replies: TriggerReplies) returns (steps: seq<Step>, e: Sys)
    requires Reaches(s, before, m) && Shows(m, st, limits, used) && id !in m.runs
    requires t in m.ts.triggers && m.ts.triggers[t] == Task(Holding, 0, claim) && Dated(claim.request)
    ensures Reaches(s, steps, e)
    ensures Shows(e, Recompute.Entered(st, limits.capacity, id, claim, replies).0, limits, used)
    ensures e.ts.triggers == m.ts.triggers - {t} && e.ts.workers == m.ts.workers
    ensures steps == before + CreateSteps(|st.queue| >= limits.capacity, t, id, replies)
  {
    var m1;
    steps, m1 := CreateTaken(s, before, m, st, limits, used, t, claim, id, replies.create);
    var created :=
      if replies.create.Applied() then st.(runs := st.runs[id := Run(claim.request, [Pending], None)]) else st;
    assert m1.ts.triggers - {t} == m.ts.triggers - {t};
    var next := steps;
    if replies.create.Ok? {
      steps, e := SubmitIsRun(s, next, m1, created, limits, used, t, replies);
    } else {
      steps, e := TriggerReleases(s, next, m1, created, limits, used, t, replies.release);
    }
    StepsChain(before, [CreateRun(t, id, replies.create)], steps[|next|..]);
  }

  /** The stored state after SET NX for a claim. */
  function AfterAcquire(st: State, claim: Claim, reply: Reply): State
    requires Dated(claim.request)
  {
    var key := LockKey(claim.request);
    if key !in st.locks && reply.Applied() then st.(locks := st.locks[key := Lock(claim.token, claim.expires)]) else st
  }

  lemma AcquireTaken(s: Sys, st: State, limits: Limits, used: set<Token>, q: Request, token: Token, t: nat,
                     reply: Reply)
    returns (steps: seq<Step>, e: Sys)
    requires Shows(s, st, limits, used) && Dated(q) && t !in s.ts.triggers && token !in used
    ensures
      var claim := Claim(q, token, st.now, st.now + limits.lockTTL);
      && Reaches(s, steps, e) && e.runs == s.runs && e.ts.workers == s.ts.workers
      && Shows(e, AfterAcquire(st, claim, reply), limits, used + {token})
      && e.ts.triggers
         == if LockKey(q) !in st.locks && reply.Ok? then s.ts.triggers[t := Task(Holding, 0, claim)] else s.ts.triggers
    ensures steps == [Acquire(t, q, token, reply)]
  {
    steps, e := Take(s, [], s, Acquire(t, q, token, reply));
    AcquireShows(s, st, limits, used, q, token, t, reply);
  }

  lemma AcquireShows(s: Sys, st: State, limits: Limits, used: set<Token>, q: Request, token: Token, t: nat,
                     reply: Reply)
    requires Shows(s, st, limits, used) && Dated(q) && t !in s.ts.triggers && token !in used
    ensures
      var e, claim := DoAcquire(s, t, q, token, reply), Claim(q, token, st.now, st.now + limits.lockTTL);
      && e.runs == s.runs && e.ts.workers == s.ts.workers
      && Shows(e, AfterAcquire(st, claim, reply), limits, used + {token})
      && e.ts.triggers
         == if LockKey(q) !in st.locks && reply.Ok? then s.ts.triggers[t := Task(Holding, 0, claim)] else s.ts.triggers
  {}

  /** The part of Trigger after validation, when the lock is free and taken. */
  lemma ClaimIsRun(s: Sys, st: State, locked: State, limits: Limits, used: set<Token>, claim: Claim,
                   replies: TriggerReplies, id: RunId, t: nat)
    returns (steps: seq<Step>, e: Sys)
    requires Shows(s, st, limits, used) && Dated(claim.request) && t !in s.ts.triggers && claim.token !in used
    requires id !in s.runs
    requires LockKey(claim.request) !in st.locks && replies.acquire.Ok?
    requires claim == Claim(claim.request, claim.token, st.now, st.now + limits.lockTTL)
    requires locked == st.(locks := st.locks[LockKey(claim.request) := Lock(claim.token, claim.expires)])
    ensures Reaches(s, steps, e)
    ensures Shows(e, Recompute.Entered(locked, limits.capacity, id, claim, replies).0, limits, used + {claim.token})
    ensures e.ts.triggers == s.ts.triggers && e.ts.workers == s.ts.workers
    ensures steps == [Acquire(t, claim.request, claim.token, replies.acquire)]
                     + CreateSteps(|st.queue| >= limits.capacity, t, id, replies)
  {
    var m;
    steps, m := AcquireTaken(s, st, limits, used, claim.request, claim.token, t, replies.acquire);
    AddedAndRemoved(s.ts.triggers, t, Task(Holding, 0, claim));
    steps, e := CreateIsRun(s, steps, m, locked, limits, used + {claim.token}, t, claim, id, replies);
  }

  lemma AddedAndRemoved(triggers: map<nat, Task>, t: nat, task: Task)
    requires t !in triggers
    ensures triggers[t := task] - {t} == triggers
  {}

  lemma AcquiredFree(st: State, limits: Limits, q: Request, replies: TriggerReplies, id: RunId, token: Token,
                     locked: State, claim: Claim)
    requires Dated(q) && LockKey(q) !in st.locks && replies.acquire.Ok?
    requires claim == Claim(q, token, st.now, st.now + limits.lockTTL)
    requires locked == st.(locks := st.locks[LockKey(q) := Lock(token, claim.expires)])
    ensures Recompute.Acquired(st, limits, q, replies, id, token)
            == Recompute.Entered(locked, limits.capacity, id, claim, replies)
  {}

  lemma AcquiredNot(st: State, limits: Limits, q: Request, replies: TriggerReplies, id: RunId, token: Token)
    requires Dated(q) && (LockKey(q) in st.locks || !replies.acquire.Ok?)
    ensures
      var claim := Claim(q, token, st.now, st.now + limits.lockTTL);
      Recompute.Acquired(st, limits, q, replies, id, token).0 == AfterAcquire(st, claim, replies.acquire)
  {}

  lemma FreeIsRun(s: Sys, st: State, limits: Limits, used: set<Token>, q: Request, replies: TriggerReplies,
                  id: RunId, token: Token, t: nat)
    returns (steps: seq<Step>, e: Sys)
    requires Shows(s, st, limits, used) && Dated(q) && t !in s.ts.triggers && token !in used && id !in s.runs
    requires LockKey(q) !in st.locks && replies.acquire.Ok?
    ensures Reaches(s, steps, e)
    ensures Shows(e, Recompute.Acquired(st, limits, q, replies, id, token).0, limits, used + {token})
    ensures e.ts.triggers == s.ts.triggers && e.ts.workers == s.ts.workers
    ensures steps == [Acquire(t, q, token, replies.acquire)]
                     + CreateSteps(|st.queue| >= limits.capacity, t, id, replies)
  {
    var claim := Claim(q, token, st.now, st.now + limits.lockTTL);
    var locked := st.(locks := st.locks[LockKey(q) := Lock(token, claim.expires)]);
    AcquiredFree(st, limits, q, replies, id, token, locked, claim);
    steps, e := ClaimIsRun(s, st, locked, limits, used, claim, replies, id, t);
  }

  lemma RefusedIsRun(s: Sys, st: State, limits: Limits, used: set<Token>, q: Request, replies: TriggerReplies,
                     id: RunId, token: Token, t: nat)
    returns (steps: seq<Step>, e: Sys)
    requires Shows(s, st, limits, used) && Dated(q) && t !in s.ts.triggers && token !in used
    requires LockKey(q) in st.locks || !replies.acquire.Ok?
    ensures Reaches(s, steps, e)
    ensures Shows(e, Recompute.Acquired(st, limits, q, replies, id, token).0, limits, used + {token})
    ensures e.ts.triggers == s.ts.triggers && e.ts.workers == s.ts.workers
    ensures steps == [Acquire(t, q, token, replies.acquire)]
  {
    AcquiredNot(st, limits, q, replies, id, token);
    steps, e := AcquireTaken(s, st, limits, used, q, token, t, replies.acquire);
  }

  function AcquireSteps(st: State, limits: Limits, q: Request, replies: TriggerReplies, id: RunId, token: Token,
                        t: nat): seq<Step>
    requires Dated(q)
  {
    [Acquire(t, q, token, replies.acquire)]
    + if LockKey(q) !in st.locks && replies.acquire.Ok? then CreateSteps(|st.queue| >= limits.capacity, t, id, replies)
      else []
  }

  lemma AcquiredIsRun(s: Sys, st: State, limits: Limits, used: set<Token>, q: Request, replies: TriggerReplies,
                      id: RunId, token: Token, t: nat)
    returns (steps: seq<Step>, e: Sys)
    requires Shows(s, st, limits, used) && Dated(q) && t !in s.ts.triggers && token !in used && id !in s.runs
    ensures Reaches(s, steps, e)
    ensures Shows(e, Recompute.Acquired(st, limits, q, replies, id, token).0, limits, used + {token})
    ensures e.ts.triggers == s.ts.triggers && e.ts.workers == s.ts.workers
    ensures steps == AcquireSteps(st, limits, q, replies, id, token, t)
  {
    if LockKey(q) !in st.locks && replies.acquire.Ok? {
      steps, e := FreeIsRun(s, st, limits, used, q, replies, id, token, t);
    } else {
      steps, e := RefusedIsRun(s, st, limits, used, q, replies, id, token, t);
    }
  }

  /** The steps of a Trigger call, one for each remote call that it makes, with the reply that it got. */
  function TriggerSteps(st: State, limits: Limits, raw: RawRequest, replies: TriggerReplies, id: RunId, token: Token,
                        t: nat): seq<Step>
    requires DatedRaw(raw)
  {
    match Accept(raw, limits.maxRangeDays)
    case Failure(_) => []
    case Success(q) =>
      if replies.lookup.Some? then [] else AcquireSteps(st, limits, q, replies, id, token, t)
  }

  /** The tokens drawn once a Trigger call has passed its checks. */
  function Drawn(used: set<Token>, limits: Limits, raw: RawRequest, replies: TriggerReplies, token: Token): set<Token> {
    if Accept(raw, limits.maxRangeDays).Success? && replies.lookup.None? then used + {token} else used
  }

  /**
   Every Trigger call, whatever the replies, is the run of the machine with these steps; it
   ends with no trigger of its own.
   */
  lemma TriggerIsRun(s: Sys, st: State, limits: Limits, used: set<Token>, raw: RawRequest, replies: TriggerReplies,
                     id: RunId, token: Token,
                     t: nat) returns (steps: seq<Step>, e: Sys)
    requires Shows(s, st, limits, used) && DatedRaw(raw)
    requires t !in s.ts.triggers && token !in used && id !in s.runs
    ensures Reaches(s, steps, e)
    ensures Shows(e, Triggered(st, limits, raw, replies, id, token).0, limits, Drawn(used, limits, raw, replies, token))
    ensures e.ts.triggers == s.ts.triggers && e.ts.workers == s.ts.workers
    ensures steps == TriggerSteps(st, limits, raw, replies, id, token, t)
  {
    var accepted := Accept(raw, limits.maxRangeDays);
    if accepted.Failure? || replies.lookup.Some? {
      steps, e := [], s;
    } else {
      steps, e := AcquiredIsRun(s, st, limits, used, accepted.value, replies, id, token, t);
    }
  }

  // ----- processJob -----

  lemma WorkerReleases(s: Sys, before: seq<Step>, m: Sys, st: State, limits: Limits, used: set<Token>, w: nat,
                       reply: Reply)
    returns (steps: seq<Step>, e: Sys)
    requires Reaches(s, before, m) && Shows(m, st, limits, used) && WorkerIs(m, w, Releasing)
    requires Dated(m.ts.workers[w].task.value.claim.request)
    ensures Reaches(s, steps, e) && Shows(e, Released(st, m.ts.workers[w].task.value.claim, reply), limits, used)
    ensures e.ts == EndWorker(m.ts, w) && steps == before + [ReleaseWorker(w, reply)]
  {
    steps, e := Take(s, before, m, ReleaseWorker(w, reply));
    ReleaseShows(m, st, limits, used, EndWorker(m.ts, w), m.ts.workers[w].task.value.claim, reply);
  }

  /** The worker w of m has this job at this stage, and the other workers are those of s. */
  ghost predicate OnJob(m: Sys, ws: seq<Slot>, w: nat, job: Job, stage: Stage) {
    && w < |m.ts.workers| == |ws| && m.ts.workers[w].task == Some(Task(stage, job.run, job.claim))
    && (forall v :: 0 <= v < |ws| && v != w ==> m.ts.workers[v] == ws[v])
  }

  lemma ReleaseEnds(s: Sys, before: seq<Step>, m: Sys, st: State, limits: Limits, used: set<Token>, ws: seq<Slot>,
                    w: nat, job: Job,
                    reply: Reply) returns (steps: seq<Step>, e: Sys)
    requires Reaches(s, before, m) && Shows(m, st, limits, used) && OnJob(m, ws, w, job, Releasing)
    requires Dated(job.claim.request)
    ensures Reaches(s, steps, e) && Shows(e, Released(st, job.claim, reply), limits, used)
    ensures Idled(e, m.ts.triggers, ws, w) && steps == before + [ReleaseWorker(w, reply)]
  {
    steps, e := WorkerReleases(s, before, m, st, limits, used, w, reply);
  }

  ghost predicate Idled(e: Sys, triggers: map<nat, Task>, ws: seq<Slot>, w: nat) {
    && w < |e.ts.workers| == |ws| && e.ts.workers[w].task.None? && e.ts.triggers == triggers
    && (forall v :: 0 <= v < |ws| && v != w ==> e.ts.workers[v] == ws[v])
  }

  /** One step of the worker on its job; the triggers stay as they are. */
  lemma WorkTaken(s: Sys, before: seq<Step>, m: Sys, ws: seq<Slot>, w: nat, job: Job, stage: Stage, step: Step)
    returns (steps: seq<Step>, e: Sys)
    requires Reaches(s, before, m) && OnJob(m, ws, w, job, stage)
    requires IsWorkerStep(step) && step.w == w && Enabled(m, step)
    ensures Reaches(s, steps, e) && e == Apply(m, step) && e.ts.triggers == m.ts.triggers
    ensures OnJob(e, ws, w, job, MoveOf(m, step).task.stage) && steps == before + [step]
  {
    steps, e := Take(s, before, m, step);
    assert e.ts == SetWorker(m.ts, w, MoveOf(m, step).task.stage);
  }

  lemma JobTaken(s: Sys, st: State, limits: Limits, used: set<Token>, w: nat) returns (steps: seq<Step>, e: Sys)
    requires Shows(s, st, limits, used) && w < |s.ts.workers| && s.ts.workers[w].task.None? && st.queue != []
    ensures Reaches(s, steps, e) && Shows(e, st.(queue := st.queue[1..]), limits, used)
    ensures OnJob(e, s.ts.workers, w, st.queue[0], Taken) && e.ts.triggers == s.ts.triggers && steps == [TakeJob(w)]
  {
    steps, e := Take(s, [], s, TakeJob(w));
  }

  lemma RunningTaken(s: Sys, before: seq<Step>, m: Sys, st: State, limits: Limits, used: set<Token>, ws: seq<Slot>,
                     w: nat, job: Job,
                     reply: Reply) returns (steps: seq<Step>, e: Sys)
    requires Reaches(s, before, m) && Shows(m, st, limits, used) && OnJob(m, ws, w, job, Taken)
    ensures Reaches(s, steps, e) && Shows(e, st.(runs := Mark(st.runs, job.run, Running, reply)), limits, used)
    ensures OnJob(e, ws, w, job, if reply.Ok? then Rebuilding else Releasing) && e.ts.triggers == m.ts.triggers
    ensures steps == before + [MarkRunning(w, reply)]
  {
    steps, e := WorkTaken(s, before, m, ws, w, job, Taken, MarkRunning(w, reply));
  }

  lemma RebuildTaken(s: Sys, before: seq<Step>, m: Sys, st: State, limits: Limits, used: set<Token>, ws: seq<Slot>,
                     w: nat, job: Job)
    returns (steps: seq<Step>, e: Sys)
    requires Reaches(s, before, m) && Shows(m, st, limits, used) && OnJob(m, ws, w, job, Rebuilding)
    requires Supported(job.claim.request.slug)
    ensures
      var q := job.claim.request;
      var facts := Facts(q.slug, st.sources, st.events);
      && Reaches(s, steps, e) && Shows(e, st.(table := Rebuilt(st.table, q, facts, job.run)), limits, used)
      && OnJob(e, ws, w, job, Committed(SummaryOf(st.table, q, facts, job.run))) && e.ts.triggers == m.ts.triggers
      && steps == before + [Recompute(w, true)]
  {
    steps, e := WorkTaken(s, before, m, ws, w, job, Rebuilding, Recompute(w, true));
  }

  lemma RollbackTaken(s: Sys, before: seq<Step>, m: Sys, st: State, limits: Limits, used: set<Token>, ws: seq<Slot>,
                      w: nat, job: Job)
    returns (steps: seq<Step>, e: Sys)
    requires Reaches(s, before, m) && Shows(m, st, limits, used) && OnJob(m, ws, w, job, Rebuilding)
    ensures Reaches(s, steps, e) && Shows(e, st, limits, used) && OnJob(e, ws, w, job, Failing)
    ensures e.ts.triggers == m.ts.triggers && steps == before + [Recompute(w, false)]
  {
    steps, e := WorkTaken(s, before, m, ws, w, job, Rebuilding, Recompute(w, false));
  }

  function AbandonSteps(w: nat, replies: JobReplies): seq<Step> {
    [MarkFailed(w, replies.mark), AuditFailed(w, replies.audit), ReleaseWorker(w, replies.release)]
  }

  lemma AbandonIsRun(s: Sys, before: seq<Step>, m: Sys, st: State, limits: Limits, used: set<Token>, ws: seq<Slot>,
                     w: nat, job: Job,
                     replies: JobReplies) returns (steps: seq<Step>, e: Sys)
    requires Reaches(s, before, m) && Shows(m, st, limits, used) && OnJob(m, ws, w, job, Failing)
    requires Dated(job.claim.request)
    ensures Reaches(s, steps, e) && Shows(e, Abandoned(st, job, replies), limits, used)
    ensures Idled(e, m.ts.triggers, ws, w)
    ensures steps == before + AbandonSteps(w, replies)
  {
    steps, e := WorkTaken(s, before, m, ws, w, job, Failing, MarkFailed(w, replies.mark));
    var marked := st.(runs := Mark(st.runs, job.run, Failed, replies.mark));
    assert Shows(e, marked, limits, used);
    steps, e := FailureLogged(s, steps, e, marked, limits, used, ws, w, job, replies);
  }

  lemma FailureLogged(s: Sys, before: seq<Step>, m: Sys, st: State, limits: Limits, used: set<Token>, ws: seq<Slot>,
                      w: nat, job: Job,
                      replies: JobReplies) returns (steps: seq<Step>, e: Sys)
    requires Reaches(s, before, m) && Shows(m, st, limits, used) && OnJob(m, ws, w, job, FailAudit)
    requires Dated(job.claim.request)
    ensures Reaches(s, steps, e) && Idled(e, m.ts.triggers, ws, w)
    ensures steps == before + [AuditFailed(w, replies.audit), ReleaseWorker(w, replies.release)]
    ensures
      var logged := st.(audits := Log(st.audits, job.run, FailedEntry, replies.audit));
      Shows(e, Released(logged, job.claim, replies.release), limits, used)
  {
    steps, e := WorkTaken(s, before, m, ws, w, job, FailAudit, AuditFailed(w, replies.audit));
    var logged := st.(audits := Log(st.audits, job.run, FailedEntry, replies.audit));
    steps, e := ReleaseEnds(s, steps, e, logged, limits, used, ws, w, job, replies.release);
  }

  lemma CompletedTaken(s: Sys, before: seq<Step>, m: Sys, st: State, limits: Limits, used: set<Token>, ws: seq<Slot>,
                       w: nat, job: Job,
                       summary: Summary, reply: Reply) returns (steps: seq<Step>, e: Sys)
    requires Reaches(s, before, m) && Shows(m, st, limits, used) && OnJob(m, ws, w, job, Committed(summary))
    ensures Reaches(s, steps, e) && Shows(e, st.(runs := MarkDone(st.runs, job.run, summary, reply)), limits, used)
    ensures OnJob(e, ws, w, job, Bumping(summary)) && e.ts.triggers == m.ts.triggers
    ensures steps == before + [MarkCompleted(w, reply)]
  {
    steps, e := WorkTaken(s, before, m, ws, w, job, Committed(summary), MarkCompleted(w, reply));
  }

  lemma BumpTaken(s: Sys, before: seq<Step>, m: Sys, st: State, limits: Limits, used: set<Token>, ws: seq<Slot>,
                  w: nat, job: Job,
                  summary: Summary, reply: Reply) returns (steps: seq<Step>, e: Sys)
    requires Reaches(s, before, m) && Shows(m, st, limits, used) && OnJob(m, ws, w, job, Bumping(summary))
    requires Supported(job.claim.request.slug)
    ensures Reaches(s, steps, e)
    ensures Shows(e, st.(versions := Bumped(st.versions, job.claim.request.slug, reply)), limits, used)
    ensures OnJob(e, ws, w, job, DoneAudit(summary)) && e.ts.triggers == m.ts.triggers
    ensures steps == before + [BumpVersion(w, reply)]
  {
    var slug, versions := job.claim.request.slug, m.cache.time.versions;
    steps, e := WorkTaken(s, before, m, ws, w, job, Bumping(summary), BumpVersion(w, reply));
    R.SetKeepsVersions(st.versions, versions, slug, Coherence.At(versions, slug) + 1);
  }

  function FinishSteps(w: nat, replies: JobReplies): seq<Step> {
    [MarkCompleted(w, replies.mark), BumpVersion(w, replies.bump), AuditCompleted(w, replies.audit),
     ReleaseWorker(w, replies.release)]
  }

  lemma FinishIsRun(s: Sys, before: seq<Step>, m: Sys, st: State, limits: Limits, used: set<Token>, ws: seq<Slot>,
                    w: nat, job: Job,
                    summary: Summary, replies: JobReplies) returns (steps: seq<Step>, e: Sys)
    requires Reaches(s, before, m) && Shows(m, st, limits, used) && OnJob(m, ws, w, job, Committed(summary))
    requires Dated(job.claim.request) && Supported(job.claim.request.slug)
    ensures Reaches(s, steps, e) && Shows(e, Finished(st, job, summary, replies), limits, used)
    ensures Idled(e, m.ts.triggers, ws, w)
    ensures steps == before + FinishSteps(w, replies)
  {
    steps, e := CompletedTaken(s, before, m, st, limits, used, ws, w, job, summary, replies.mark);
    var marked := st.(runs := MarkDone(st.runs, job.run, summary, replies.mark));
    steps, e := BumpTaken(s, steps, e, marked, limits, used, ws, w, job, summary, replies.bump);
    var bumped := marked.(versions := Bumped(st.versions, job.claim.request.slug, replies.bump));
    steps, e := SuccessLogged(s, steps, e, bumped, limits, used, ws, w, job, summary, replies);
  }

  lemma SuccessLogged(s: Sys, before: seq<Step>, m: Sys, st: State, limits: Limits, used: set<Token>, ws: seq<Slot>,
                      w: nat, job: Job,
                      summary: Summary, replies: JobReplies) returns (steps: seq<Step>, e: Sys)
    requires Reaches(s, before, m) && Shows(m, st, limits, used) && OnJob(m, ws, w, job, DoneAudit(summary))
    requires Dated(job.claim.request)
    ensures Reaches(s, steps, e) && Idled(e, m.ts.triggers, ws, w)
    ensures steps == before + [AuditCompleted(w, replies.audit), ReleaseWorker(w, replies.release)]
    ensures Shows(e, Released(st.(audits := Log(st.audits, job.run, CompletedEntry(summary), replies.audit)), job.claim,
                              replies.release), limits, used)
  {
    steps, e := WorkTaken(s, before, m, ws, w, job, DoneAudit(summary), AuditCompleted(w, replies.audit));
    var logged := st.(audits := Log(st.audits, job.run, CompletedEntry(summary), replies.audit));
    steps, e := ReleaseEnds(s, steps, e, logged, limits, used, ws, w, job, replies.release);
  }

  /** The steps of one job, one for each remote call that processJob makes, with the reply that it got. */
  function ProcessSteps(job: Job, replies: JobReplies, w: nat): seq<Step> {
    [TakeJob(w), MarkRunning(w, replies.running)]
    + if !replies.running.Ok? then [ReleaseWorker(w, replies.release)] else RebuildSteps(job, replies, w)
  }

  function RebuildSteps(job: Job, replies: JobReplies, w: nat): seq<Step> {
    if Commits(job, replies) then [Recompute(w, true)] + FinishSteps(w, replies)
    else [Recompute(w, false)] + AbandonSteps(w, replies)
  }

  /**
   Receiving and processing a job, whatever the replies, is the run of the machine with these
   steps; it leaves the worker idle.
   */
  lemma ProcessIsRun(s: Sys, st: State, limits: Limits, used: set<Token>, replies: JobReplies, w: nat)
    returns (steps: seq<Step>, e: Sys)
    requires Shows(s, st, limits, used) && w < |s.ts.workers| && s.ts.workers[w].task.None?
    requires st.queue != [] && Dated(st.queue[0].claim.request)
    ensures Reaches(s, steps, e) && Shows(e, Processed(st.(queue := st.queue[1..]), st.queue[0], replies), limits, used)
    ensures Idled(e, s.ts.triggers, s.ts.workers, w) && steps == ProcessSteps(st.queue[0], replies, w)
  {
    var job, ws := st.queue[0], s.ts.workers;
    var taken := st.(queue := st.queue[1..]);
    steps, e := JobTaken(s, st, limits, used, w);
    steps, e := RunningTaken(s, steps, e, taken, limits, used, ws, w, job, replies.running);
    var running := taken.(runs := Mark(st.runs, job.run, Running, replies.running));
    if !replies.running.Ok? {
      steps, e := ReleaseEnds(s, steps, e, running, limits, used, ws, w, job, replies.release);
    } else {
      steps, e := RebuildIsRun(s, steps, e, taken, running, limits, used, ws, w, job, replies);
    }
  }

  /** From the rebuild on. */
  lemma RebuildIsRun(s: Sys, before: seq<Step>, m: Sys, taken: State, running: State, limits: Limits, used: set<Token>,
                     ws: seq<Slot>, w: nat, job: Job, replies: JobReplies)
    returns (steps: seq<Step>, e: Sys)
    requires Reaches(s, before, m) && Shows(m, running, limits, used) && OnJob(m, ws, w, job, Rebuilding)
    requires Dated(job.claim.request) && replies.running.Ok?
    requires running == taken.(runs := Mark(taken.runs, job.run, Running, replies.running))
    ensures Reaches(s, steps, e) && Shows(e, Processed(taken, job, replies), limits, used)
    ensures Idled(e, m.ts.triggers, ws, w)
    ensures steps == before + RebuildSteps(job, replies, w)
  {
    if Commits(job, replies) {
      var q := job.claim.request;
      var facts := Facts(q.slug, taken.sources, taken.events);
      steps, e := RebuildTaken(s, before, m, running, limits, used, ws, w, job);
      var rebuilt := running.(table := Rebuilt(taken.table, q, facts, job.run));
      steps, e := FinishIsRun(s, steps, e, rebuilt, limits, used, ws, w, job, SummaryOf(taken.table, q, facts, job.run),
                              replies);
    } else {
      steps, e := RollbackTaken(s, before, m, running, limits, used, ws, w, job);
      steps, e := AbandonIsRun(s, steps, e, running, limits, used, ws, w, job, replies);
    }
  }
}
