/**
 The recompute protocol as a state machine. Every call on Redis, PostgreSQL or the
 in-process queue that Trigger, processJob and RunReport make is one step, so all
 interleavings of any number of triggers, workers and readers are runs of the machine.
 A remote write may fail before or after it took effect; a recompute transaction commits
 or leaves the table unchanged.
 */
module Protocol {
  import opened Common
  import opened Aggregate
  import opened Snapshots
  import opened Keys
  import Coherence

  type Token = nat

  datatype Status = Pending | Running | Completed | Failed

  /** A row of recompute_runs; history lists every status the row has had, oldest first. */
  datatype Run = Run(request: Request, history: seq<Status>, summary: Option<Summary>)

  datatype Action = TriggeredEntry | CompletedEntry(summary: Summary) | FailedEntry

  datatype AuditEntry = AuditEntry(run: RunId, action: Action)

  /** What a committed rebuild saw and counted (history only). */
  datatype Rebuild = Rebuild(before: Table, facts: seq<Rec<Stamp>>, summary: Summary)

  /** A run row that was there at the start, with its audit trail (history only). */
  datatype Past = Past(row: Run, actions: seq<Action>)

  datatype Lock = Lock(token: Token, expires: nat)

  /** The lease that a trigger took out on its scope. */
  datatype Claim = Claim(request: Request, token: Token, acquired: nat, expires: nat)

  /** An element of the job channel. */
  datatype Job = Job(run: RunId, claim: Claim)

  /** The next thing to do, first for a trigger, then in the queue, then for a worker. */
  datatype Stage =
    | Holding | Aborting | Created | Audited | Full | Rejecting
    | Queued
    | Taken | Rebuilding | Failing | FailAudit
    | Committed(summary: Summary) | Bumping(summary: Summary) | DoneAudit(summary: Summary) | Releasing

  /** One unit of work; run is meaningful once the run row exists. */
  datatype Task = Task(stage: Stage, run: RunId, claim: Claim)

  /** When a job was sent, and how many jobs each worker had taken by then (history only). */
  datatype Ticket = Ticket(sentAt: nat, took: seq<nat>)

  /** A worker: its task, the channel index and start time of that task, and how many it has taken. */
  datatype Slot = Slot(task: Option<Task>, index: nat, start: nat, took: nat)

  /** The in-process part of the system; taken counts the jobs received from the channel. */
  datatype Tasks = Tasks(triggers: map<nat, Task>, queue: seq<Job>, taken: nat, workers: seq<Slot>,
                         tickets: seq<Ticket>)

  datatype Config = Config(capacity: nat, lockTTL: nat, setup: nat)

  /** used, orphans (tokens whose lock may outlive its owner), commits and settled are history variables. */
  datatype Sys = Sys(cfg: Config, ts: Tasks, locks: map<string, Lock>, now: nat, used: set<Token>, orphans: set<Token>,
                     runs: map<RunId, Run>, audits: seq<AuditEntry>, commits: map<RunId, Rebuild>,
                     settled: map<RunId, Past>, cache: Coherence.Cached, sources: Sources, events: seq<Event>)

  datatype Step =
    | Acquire(t: nat, request: Request, token: Token, reply: Reply)
    | CreateRun(t: nat, run: RunId, reply: Reply)
    | AuditTriggered(t: nat, reply: Reply)
    | Enqueue(t: nat)
    | RejectRun(t: nat, reply: Reply)
    | ReleaseTrigger(t: nat, reply: Reply)
    | TakeJob(w: nat)
    | MarkRunning(w: nat, reply: Reply)
    | Recompute(w: nat, ok: bool)
    | MarkFailed(w: nat, reply: Reply)
    | AuditFailed(w: nat, reply: Reply)
    | MarkCompleted(w: nat, reply: Reply)
    | BumpVersion(w: nat, reply: Reply)
    | AuditCompleted(w: nat, reply: Reply)
    | ReleaseWorker(w: nat, reply: Reply)
    | Advance(d: nat)
    | Arrive(e: Event)
    | Restart
    | Read(c: Coherence.CacheStep)

  // ----- places -----

  /** Where a task is; queue places are absolute channel indices, so receiving a job moves no other. */
  datatype Place = AtTrigger(t: nat) | AtQueue(k: nat) | AtWorker(w: nat)

  function TaskAt(ts: Tasks, p: Place): Option<Task> {
    match p
    case AtTrigger(t) => if t in ts.triggers then Some(ts.triggers[t]) else None
    case AtQueue(k) =>
      if ts.taken <= k < ts.taken + |ts.queue|
      then Some(Task(Queued, ts.queue[k - ts.taken].run, ts.queue[k - ts.taken].claim)) else None
    case AtWorker(w) => if w < |ts.workers| then ts.workers[w].task else None
  }

  predicate HasRun(stage: Stage) {
    stage != Holding && stage != Aborting
  }

  predicate TriggerIs(s: Sys, t: nat, stage: Stage) {
    t in s.ts.triggers && s.ts.triggers[t].stage == stage
  }

  predicate WorkerIs(s: Sys, w: nat, stage: Stage) {
    w < |s.ts.workers| && s.ts.workers[w].task.Some? && s.ts.workers[w].task.value.stage == stage
  }

  predicate WorkerBusy(s: Sys, w: nat) {
    w < |s.ts.workers| && s.ts.workers[w].task.Some?
  }

  // ----- moves of the in-process state -----

  function SetTrigger(ts: Tasks, t: nat, task: Task): Tasks {
    ts.(triggers := ts.triggers[t := task])
  }

  function EndTrigger(ts: Tasks, t: nat): Tasks {
    ts.(triggers := ts.triggers - {t})
  }

  function TookNow(ts: Tasks): (took: seq<nat>)
    ensures |took| == |ts.workers|
    ensures forall w :: 0 <= w < |took| ==> took[w] == ts.workers[w].took
  {
    seq(|ts.workers|, w requires 0 <= w < |ts.workers| => ts.workers[w].took)
  }

  function Send(ts: Tasks, t: nat, now: nat): Tasks
    requires t in ts.triggers
  {
    ts.(triggers := ts.triggers - {t},
        queue := ts.queue + [Job(ts.triggers[t].run, ts.triggers[t].claim)],
        tickets := ts.tickets + [Ticket(now, TookNow(ts))])
  }

  function Receive(ts: Tasks, w: nat, now: nat): Tasks
    requires w < |ts.workers| && ts.queue != []
  {
    var task := Task(Taken, ts.queue[0].run, ts.queue[0].claim);
    ts.(queue := ts.queue[1..], taken := ts.taken + 1,
        workers := ts.workers[w := Slot(Some(task), ts.taken, now, ts.workers[w].took + 1)])
  }

  function SetWorker(ts: Tasks, w: nat, stage: Stage): Tasks
    requires w < |ts.workers| && ts.workers[w].task.Some?
  {
    ts.(workers := ts.workers[w := ts.workers[w].(task := Some(ts.workers[w].task.value.(stage := stage)))])
  }

  function EndWorker(ts: Tasks, w: nat): Tasks
    requires w < |ts.workers|
  {
    ts.(workers := ts.workers[w := ts.workers[w].(task := None)])
  }

  function Idle(n: nat): (ws: seq<Slot>)
    ensures |ws| == n
  {
    seq(n, _ => Slot(None, 0, 0, 0))
  }

  function Stopped(ts: Tasks): Tasks {
    Tasks(map[], [], 0, Idle(|ts.workers|), [])
  }

  // ----- stores -----

  /** The release script: delete only one's own token. */
  function CompareDelete(locks: map<string, Lock>, key: string, token: Token): map<string, Lock> {
    if key in locks && locks[key].token == token then locks - {key} else locks
  }

  /** UPDATE recompute_runs ... WHERE id = run: no guard on the current status. */
  function Mark(runs: map<RunId, Run>, run: RunId, status: Status, reply: Reply): map<RunId, Run> {
    if run in runs && reply.Applied() then runs[run := runs[run].(history := runs[run].history + [status])] else runs
  }

  function MarkDone(runs: map<RunId, Run>, run: RunId, summary: Summary, reply: Reply): map<RunId, Run> {
    if run in runs && reply.Applied()
    then runs[run := Run(runs[run].request, runs[run].history + [Completed], Some(summary))] else runs
  }

  function Log(audits: seq<AuditEntry>, run: RunId, action: Action, reply: Reply): seq<AuditEntry> {
    if reply.Applied() then audits + [AuditEntry(run, action)] else audits
  }

  function LiveTokens(ts: Tasks): set<Token> {
    (set t | t in ts.triggers :: ts.triggers[t].claim.token) +
    (set i | 0 <= i < |ts.queue| :: ts.queue[i].claim.token) +
    (set w | 0 <= w < |ts.workers| && ts.workers[w].task.Some? :: ts.workers[w].task.value.claim.token)
  }

  // ----- steps -----

  predicate Enabled(s: Sys, step: Step) {
    match step
    case Acquire(t, request, token, _) => t !in s.ts.triggers && token !in s.used && Dated(request)
    case CreateRun(t, run, _) => TriggerIs(s, t, Holding) && run !in s.runs
    case AuditTriggered(t, _) => TriggerIs(s, t, Created)
    case Enqueue(t) => TriggerIs(s, t, Audited)
    case RejectRun(t, _) => TriggerIs(s, t, Full)
    case ReleaseTrigger(t, _) =>
      (TriggerIs(s, t, Aborting) || TriggerIs(s, t, Rejecting)) && Dated(s.ts.triggers[t].claim.request)
    case TakeJob(w) => w < |s.ts.workers| && s.ts.workers[w].task.None? && s.ts.queue != []
    case MarkRunning(w, _) => WorkerIs(s, w, Taken)
    case Recompute(w, ok) =>
      WorkerIs(s, w, Rebuilding) && (ok ==> Supported(s.ts.workers[w].task.value.claim.request.slug))
    case MarkFailed(w, _) => WorkerIs(s, w, Failing)
    case AuditFailed(w, _) => WorkerIs(s, w, FailAudit)
    case MarkCompleted(w, _) => WorkerBusy(s, w) && s.ts.workers[w].task.value.stage.Committed?
    case BumpVersion(w, _) => WorkerBusy(s, w) && s.ts.workers[w].task.value.stage.Bumping?
    case AuditCompleted(w, _) => WorkerBusy(s, w) && s.ts.workers[w].task.value.stage.DoneAudit?
    case ReleaseWorker(w, _) => WorkerIs(s, w, Releasing) && Dated(s.ts.workers[w].task.value.claim.request)
    case Advance(_) => true
    case Arrive(_) => true
    case Restart => true
    case Read(c) => !c.Commit? && !c.Bump? && Coherence.Enabled(s.cache, c)
  }

  /** SET NX: an error reply leaves the trigger without a claim even if the lock was set. */
  function DoAcquire(s: Sys, t: nat, request: Request, token: Token, reply: Reply): Sys
    requires Dated(request)
  {
    var key, free := LockKey(request), LockKey(request) !in s.locks;
    var claim := Claim(request, token, s.now, s.now + s.cfg.lockTTL);
    s.(used := s.used + {token},
       locks := if free && reply.Applied() then s.locks[key := Lock(token, claim.expires)] else s.locks,
       orphans := if free && reply == Lost(true) then s.orphans + {token} else s.orphans,
       ts := if free && reply.Ok? then SetTrigger(s.ts, t, Task(Holding, 0, claim)) else s.ts)
  }

  function DoCreateRun(s: Sys, t: nat, run: RunId, reply: Reply): Sys
    requires t in s.ts.triggers
  {
    var claim := s.ts.triggers[t].claim;
    s.(runs := if reply.Applied() then s.runs[run := Run(claim.request, [Pending], None)] else s.runs,
       ts := SetTrigger(s.ts, t, if reply.Ok? then Task(Created, run, claim) else Task(Aborting, 0, claim)))
  }

  function Unlock(s: Sys, claim: Claim, reply: Reply): Sys
    requires Dated(claim.request)
  {
    if reply.Applied() then s.(locks := CompareDelete(s.locks, LockKey(claim.request), claim.token))
    else s.(orphans := s.orphans + {claim.token})
  }

  function DoRecompute(s: Sys, w: nat, ok: bool): Sys
    requires WorkerBusy(s, w) && (ok ==> Supported(s.ts.workers[w].task.value.claim.request.slug))
  {
    var task := s.ts.workers[w].task.value;
    if ok then
      var q, table := task.claim.request, s.cache.time.table;
      var facts := Facts(q.slug, s.sources, s.events);
      var summary := SummaryOf(table, q, facts, task.run);
      s.(ts := SetWorker(s.ts, w, Committed(summary)),
         commits := s.commits[task.run := Rebuild(table, facts, summary)],
         cache := Coherence.Step(s.cache, Coherence.Commit(q, facts, task.run)))
    else s.(ts := SetWorker(s.ts, w, Failing))
  }

  /** Time passes; Redis drops the locks that have expired by then. */
  function DoAdvance(s: Sys, d: nat): Sys {
    s.(now := s.now + d, locks := map k | k in s.locks && s.locks[k].expires > s.now + d :: s.locks[k])
  }

  /** The process stops and starts again: triggers, queue, workers and readers are lost, the stores stay. */
  function DoRestart(s: Sys): Sys {
    s.(ts := Stopped(s.ts), orphans := s.orphans + LiveTokens(s.ts), cache := s.cache.(readers := map[]))
  }

  function DoAuditTriggered(s: Sys, t: nat, reply: Reply): Sys
    requires t in s.ts.triggers
  {
    var task := s.ts.triggers[t];
    s.(ts := SetTrigger(s.ts, t, task.(stage := Audited)), audits := Log(s.audits, task.run, TriggeredEntry, reply))
  }

  /** A send that does not wait: a full channel leaves the trigger to reject its run. */
  function DoEnqueue(s: Sys, t: nat): Sys
    requires t in s.ts.triggers
  {
    if |s.ts.queue| < s.cfg.capacity then s.(ts := Send(s.ts, t, s.now))
    else s.(ts := SetTrigger(s.ts, t, s.ts.triggers[t].(stage := Full)))
  }

  function DoReject(s: Sys, t: nat, reply: Reply): Sys
    requires t in s.ts.triggers
  {
    var task := s.ts.triggers[t];
    s.(ts := SetTrigger(s.ts, t, task.(stage := Rejecting)), runs := Mark(s.runs, task.run, Failed, reply))
  }

  function DoReleaseTrigger(s: Sys, t: nat, reply: Reply): Sys
    requires t in s.ts.triggers && Dated(s.ts.triggers[t].claim.request)
  {
    Unlock(s.(ts := EndTrigger(s.ts, t)), s.ts.triggers[t].claim, reply)
  }

  /** A worker's update of the status of its run, and its next stage. */
  function DoMark(s: Sys, w: nat, status: Status, next: Stage, reply: Reply): Sys
    requires WorkerBusy(s, w)
  {
    s.(ts := SetWorker(s.ts, w, next), runs := Mark(s.runs, s.ts.workers[w].task.value.run, status, reply))
  }

  function DoComplete(s: Sys, w: nat, summary: Summary, reply: Reply): Sys
    requires WorkerBusy(s, w)
  {
    s.(ts := SetWorker(s.ts, w, Bumping(summary)),
       runs := MarkDone(s.runs, s.ts.workers[w].task.value.run, summary, reply))
  }

  function DoBump(s: Sys, w: nat, summary: Summary, reply: Reply): Sys
    requires WorkerBusy(s, w)
  {
    s.(ts := SetWorker(s.ts, w, DoneAudit(summary)),
       cache := Coherence.Step(s.cache, Coherence.Bump(s.ts.workers[w].task.value.claim.request.slug, reply)))
  }

  function DoLog(s: Sys, w: nat, action: Action, reply: Reply): Sys
    requires WorkerBusy(s, w)
  {
    s.(ts := SetWorker(s.ts, w, Releasing), audits := Log(s.audits, s.ts.workers[w].task.value.run, action, reply))
  }

  function DoReleaseWorker(s: Sys, w: nat, reply: Reply): Sys
    requires WorkerBusy(s, w) && Dated(s.ts.workers[w].task.value.claim.request)
  {
    Unlock(s.(ts := EndWorker(s.ts, w)), s.ts.workers[w].task.value.claim, reply)
  }

  function Apply(s: Sys, step: Step): Sys
    requires Enabled(s, step)
  {
    match step
    case Acquire(t, request, token, reply) => DoAcquire(s, t, request, token, reply)
    case CreateRun(t, run, reply) => DoCreateRun(s, t, run, reply)
    case AuditTriggered(t, reply) => DoAuditTriggered(s, t, reply)
    case Enqueue(t) => DoEnqueue(s, t)
    case RejectRun(t, reply) => DoReject(s, t, reply)
    case ReleaseTrigger(t, reply) => DoReleaseTrigger(s, t, reply)
    case TakeJob(w) => s.(ts := Receive(s.ts, w, s.now))
    case MarkRunning(w, reply) => DoMark(s, w, Running, if reply.Ok? then Rebuilding else Releasing, reply)
    case Recompute(w, ok) => DoRecompute(s, w, ok)
    case MarkFailed(w, reply) => DoMark(s, w, Failed, FailAudit, reply)
    case AuditFailed(w, reply) => DoLog(s, w, FailedEntry, reply)
    case MarkCompleted(w, reply) => DoComplete(s, w, s.ts.workers[w].task.value.stage.summary, reply)
    case BumpVersion(w, reply) => DoBump(s, w, s.ts.workers[w].task.value.stage.summary, reply)
    case AuditCompleted(w, reply) => DoLog(s, w, CompletedEntry(s.ts.workers[w].task.value.stage.summary), reply)
    case ReleaseWorker(w, reply) => DoReleaseWorker(s, w, reply)
    case Advance(d) => DoAdvance(s, d)
    case Arrive(e) => s.(events := s.events + [e])
    case Restart => DoRestart(s)
    case Read(c) => s.(cache := Coherence.Step(s.cache, c))
  }

  /** A restart loses all work in the process, and the readers; locks, tables, versions and entries stay. */
  lemma RestartLoses(s: Sys)
    ensures
      var e := Apply(s, Restart);
      && (forall p :: TaskAt(e.ts, p).None?) && |e.ts.workers| == |s.ts.workers| && e.cache.readers == map[]
      && e.locks == s.locks && e.now == s.now && e.runs == s.runs && e.audits == s.audits && e.events == s.events
      && e.sources == s.sources && e.cache.time == s.cache.time && e.cache.entries == s.cache.entries
  {}

  // ----- what a step does to the tasks -----

  /** The effect of a step on the tasks and their places. */
  datatype Move = Stay | Add(n: Place, task: Task) | Shift(o: Place, n: Place, task: Task) | Remove(o: Place) | Wipe

  ghost predicate Moves(ts: Tasks, ts': Tasks, m: Move) {
    match m
    case Stay => forall p :: TaskAt(ts', p) == TaskAt(ts, p)
    case Add(n, task) =>
      TaskAt(ts, n).None? && TaskAt(ts', n) == Some(task) && (forall p :: p != n ==> TaskAt(ts', p) == TaskAt(ts, p))
    case Shift(o, n, task) =>
      && TaskAt(ts, o).Some? && (o != n ==> TaskAt(ts, n).None? && TaskAt(ts', o).None?)
      && TaskAt(ts', n) == Some(task)
      && (forall p :: p != n && p != o ==> TaskAt(ts', p) == TaskAt(ts, p))
    case Remove(o) =>
      TaskAt(ts, o).Some? && TaskAt(ts', o).None? && (forall p :: p != o ==> TaskAt(ts', p) == TaskAt(ts, p))
    case Wipe => forall p :: TaskAt(ts', p).None?
  }

  function WorkerMove(s: Sys, w: nat, stage: Stage): Move
    requires WorkerBusy(s, w)
  {
    Shift(AtWorker(w), AtWorker(w), s.ts.workers[w].task.value.(stage := stage))
  }

  function TriggerMove(s: Sys, t: nat, stage: Stage): Move
    requires t in s.ts.triggers
  {
    Shift(AtTrigger(t), AtTrigger(t), s.ts.triggers[t].(stage := stage))
  }

  function MoveOf(s: Sys, step: Step): Move
    requires Enabled(s, step)
  {
    match step
    case Acquire(t, request, token, reply) =>
      if LockKey(request) !in s.locks && reply.Ok?
      then Add(AtTrigger(t), Task(Holding, 0, Claim(request, token, s.now, s.now + s.cfg.lockTTL))) else Stay
    case CreateRun(t, run, reply) =>
      Shift(AtTrigger(t), AtTrigger(t),
            if reply.Ok? then Task(Created, run, s.ts.triggers[t].claim) else Task(Aborting, 0, s.ts.triggers[t].claim))
    case AuditTriggered(t, _) => TriggerMove(s, t, Audited)
    case Enqueue(t) =>
      if |s.ts.queue| < s.cfg.capacity
      then Shift(AtTrigger(t), AtQueue(s.ts.taken + |s.ts.queue|), s.ts.triggers[t].(stage := Queued))
      else TriggerMove(s, t, Full)
    case RejectRun(t, _) => TriggerMove(s, t, Rejecting)
    case ReleaseTrigger(t, _) => Remove(AtTrigger(t))
    case TakeJob(w) =>
      Shift(AtQueue(s.ts.taken), AtWorker(w), Task(Taken, s.ts.queue[0].run, s.ts.queue[0].claim))
    case MarkRunning(w, reply) => WorkerMove(s, w, if reply.Ok? then Rebuilding else Releasing)
    case Recompute(w, ok) =>
      var task := s.ts.workers[w].task.value;
      var q := task.claim.request;
      var facts := Facts(q.slug, s.sources, s.events);
      WorkerMove(s, w, if ok then Committed(SummaryOf(s.cache.time.table, q, facts, task.run)) else Failing)
    case MarkFailed(w, _) => WorkerMove(s, w, FailAudit)
    case AuditFailed(w, _) => WorkerMove(s, w, Releasing)
    case MarkCompleted(w, _) => WorkerMove(s, w, Bumping(s.ts.workers[w].task.value.stage.summary))
    case BumpVersion(w, _) => WorkerMove(s, w, DoneAudit(s.ts.workers[w].task.value.stage.summary))
    case AuditCompleted(w, _) => WorkerMove(s, w, Releasing)
    case ReleaseWorker(w, _) => Remove(AtWorker(w))
    case Restart => Wipe
    case _ => Stay
  }

  lemma SetTriggerMoves(ts: Tasks, t: nat, task: Task)
    ensures t in ts.triggers ==> Moves(ts, SetTrigger(ts, t, task), Shift(AtTrigger(t), AtTrigger(t), task))
    ensures t !in ts.triggers ==> Moves(ts, SetTrigger(ts, t, task), Add(AtTrigger(t), task))
  {}

  lemma EndTriggerMoves(ts: Tasks, t: nat)
    requires t in ts.triggers
    ensures Moves(ts, EndTrigger(ts, t), Remove(AtTrigger(t)))
  {}

  lemma SetWorkerMoves(ts: Tasks, w: nat, stage: Stage)
    requires w < |ts.workers| && ts.workers[w].task.Some?
    ensures Moves(ts, SetWorker(ts, w, stage),
                  Shift(AtWorker(w), AtWorker(w), ts.workers[w].task.value.(stage := stage)))
  {}

  lemma EndWorkerMoves(ts: Tasks, w: nat)
    requires w < |ts.workers| && ts.workers[w].task.Some?
    ensures Moves(ts, EndWorker(ts, w), Remove(AtWorker(w)))
  {}

  lemma SendMoves(ts: Tasks, t: nat, now: nat)
    requires t in ts.triggers
    ensures Moves(ts, Send(ts, t, now),
                  Shift(AtTrigger(t), AtQueue(ts.taken + |ts.queue|), ts.triggers[t].(stage := Queued)))
  {
    var ts' := Send(ts, t, now);
    forall p | p != AtTrigger(t) && p != AtQueue(ts.taken + |ts.queue|) ensures TaskAt(ts', p) == TaskAt(ts, p) {}
  }

  lemma ReceiveMoves(ts: Tasks, w: nat, now: nat)
    requires w < |ts.workers| && ts.workers[w].task.None? && ts.queue != []
    ensures Moves(ts, Receive(ts, w, now),
                  Shift(AtQueue(ts.taken), AtWorker(w), Task(Taken, ts.queue[0].run, ts.queue[0].claim)))
  {
    var ts' := Receive(ts, w, now);
    forall p | p != AtQueue(ts.taken) && p != AtWorker(w) ensures TaskAt(ts', p) == TaskAt(ts, p) {}
  }

  predicate IsWorkerStep(step: Step) {
    step.MarkRunning? || step.Recompute? || step.MarkFailed? || step.AuditFailed? || step.MarkCompleted?
    || step.BumpVersion? || step.AuditCompleted?
  }

  predicate IsTriggerStep(step: Step) {
    step.Acquire? || step.CreateRun? || step.AuditTriggered? || step.RejectRun?
  }

  lemma TriggerStepMoves(s: Sys, step: Step)
    requires Enabled(s, step) && IsTriggerStep(step)
    ensures Moves(s.ts, Apply(s, step).ts, MoveOf(s, step)) && |Apply(s, step).ts.workers| == |s.ts.workers|
  {
    var m := MoveOf(s, step);
    if m != Stay {
      assert Apply(s, step).ts == SetTrigger(s.ts, step.t, m.task);
      SetTriggerMoves(s.ts, step.t, m.task);
    }
  }

  lemma WorkerStepMoves(s: Sys, step: Step)
    requires Enabled(s, step) && IsWorkerStep(step)
    ensures Moves(s.ts, Apply(s, step).ts, MoveOf(s, step)) && |Apply(s, step).ts.workers| == |s.ts.workers|
  {
    assert MoveOf(s, step).Shift? && Apply(s, step).ts == SetWorker(s.ts, step.w, MoveOf(s, step).task.stage);
    SetWorkerMoves(s.ts, step.w, MoveOf(s, step).task.stage);
  }

  lemma ChannelStepMoves(s: Sys, step: Step)
    requires Enabled(s, step) && (step.Enqueue? || step.TakeJob?)
    ensures Moves(s.ts, Apply(s, step).ts, MoveOf(s, step)) && |Apply(s, step).ts.workers| == |s.ts.workers|
  {
    match step
    case Enqueue(t) =>
      SendMoves(s.ts, t, s.now);
      SetTriggerMoves(s.ts, t, s.ts.triggers[t].(stage := Full));
    case TakeJob(w) => ReceiveMoves(s.ts, w, s.now);
  }

  lemma UnlockKeepsTasks(s: Sys, claim: Claim, reply: Reply)
    requires Dated(claim.request)
    ensures Unlock(s, claim, reply).ts == s.ts
  {}

  lemma EndStepMoves(s: Sys, step: Step)
    requires Enabled(s, step) && (step.ReleaseTrigger? || step.ReleaseWorker?)
    ensures Moves(s.ts, Apply(s, step).ts, MoveOf(s, step)) && |Apply(s, step).ts.workers| == |s.ts.workers|
  {
    match step
    case ReleaseTrigger(t, reply) =>
      UnlockKeepsTasks(s.(ts := EndTrigger(s.ts, t)), s.ts.triggers[t].claim, reply);
      EndTriggerMoves(s.ts, t);
    case ReleaseWorker(w, reply) =>
      UnlockKeepsTasks(s.(ts := EndWorker(s.ts, w)), s.ts.workers[w].task.value.claim, reply);
      EndWorkerMoves(s.ts, w);
  }

  lemma OuterStepMoves(s: Sys, step: Step)
    requires Enabled(s, step) && (step.Advance? || step.Arrive? || step.Restart? || step.Read?)
    ensures Moves(s.ts, Apply(s, step).ts, MoveOf(s, step)) && |Apply(s, step).ts.workers| == |s.ts.workers|
  {}

  /** Every step but a restart moves at most one task, and no other place is disturbed. */
  lemma StepMoves(s: Sys, step: Step)
    requires Enabled(s, step)
    ensures Moves(s.ts, Apply(s, step).ts, MoveOf(s, step)) && |Apply(s, step).ts.workers| == |s.ts.workers|
  {
    if IsWorkerStep(step) {
      WorkerStepMoves(s, step);
    } else if IsTriggerStep(step) {
      TriggerStepMoves(s, step);
    } else if step.Enqueue? || step.TakeJob? {
      ChannelStepMoves(s, step);
    } else if step.ReleaseTrigger? || step.ReleaseWorker? {
      EndStepMoves(s, step);
    } else {
      OuterStepMoves(s, step);
    }
  }

  // ----- what a step leaves alone -----

  predicate TouchesRuns(step: Step) {
    step.CreateRun? || step.RejectRun? || step.MarkRunning? || step.MarkFailed? || step.MarkCompleted?
  }

  predicate CommitsRebuild(step: Step) {
    step.Recompute? && step.ok
  }

  predicate TouchesCache(step: Step) {
    step.Read? || step.BumpVersion? || step.Restart? || CommitsRebuild(step)
  }

  /** Each of these parts is changed only by the few steps that are there for it. */
  ghost predicate Framed(s: Sys, step: Step, s': Sys) {
    && s'.cfg == s.cfg && s'.settled == s.settled && s'.sources == s.sources
    && (!step.Arrive? ==> s'.events == s.events)
    && (!TouchesRuns(step) ==> s'.runs == s.runs)
    && (!CommitsRebuild(step) ==> s'.commits == s.commits)
    && (!TouchesCache(step) ==> s'.cache == s.cache)
  }

  /** Only tasks, locks and orphans may differ. */
  ghost predicate SameRecords(s: Sys, s': Sys) {
    && s'.cfg == s.cfg && s'.settled == s.settled && s'.sources == s.sources && s'.events == s.events
    && s'.runs == s.runs && s'.audits == s.audits && s'.commits == s.commits && s'.cache == s.cache
  }

  lemma UnlockFrame(s: Sys, ts: Tasks, claim: Claim, reply: Reply)
    requires Dated(claim.request)
    ensures SameRecords(s, Unlock(s.(ts := ts), claim, reply))
  {}

  lemma AcquireFrame(s: Sys, t: nat, request: Request, token: Token, reply: Reply)
    requires Dated(request)
    ensures SameRecords(s, DoAcquire(s, t, request, token, reply))
  {}

  /** At most the one trigger is new. */
  lemma AcquireTasks(s: Sys, t: nat, request: Request, token: Token, reply: Reply)
    requires Dated(request)
    ensures
      var ts', claim := DoAcquire(s, t, request, token, reply).ts, Claim(request, token, s.now, s.now + s.cfg.lockTTL);
      ts' == s.ts || ts' == SetTrigger(s.ts, t, Task(Holding, 0, claim))
  {}

  lemma EnqueueFrame(s: Sys, t: nat)
    requires t in s.ts.triggers
    ensures SameRecords(s, DoEnqueue(s, t))
  {}

  lemma LockStepFrame(s: Sys, step: Step)
    requires Enabled(s, step) && (step.Acquire? || step.Enqueue? || step.ReleaseTrigger? || step.ReleaseWorker?)
    ensures SameRecords(s, Apply(s, step))
  {
    match step
    case Acquire(t, request, token, reply) => AcquireFrame(s, t, request, token, reply);
    case Enqueue(t) => EnqueueFrame(s, t);
    case ReleaseTrigger(t, reply) => UnlockFrame(s, EndTrigger(s.ts, t), s.ts.triggers[t].claim, reply);
    case ReleaseWorker(w, reply) => UnlockFrame(s, EndWorker(s.ts, w), s.ts.workers[w].task.value.claim, reply);
  }

  lemma RecordStepFrame(s: Sys, step: Step)
    requires Enabled(s, step)
    requires step.CreateRun? || step.AuditTriggered? || step.RejectRun? || step.TakeJob?
    ensures Framed(s, step, Apply(s, step))
  {}

  lemma MarkStepFrame(s: Sys, step: Step)
    requires Enabled(s, step) && (step.MarkRunning? || step.MarkFailed? || step.MarkCompleted?)
    ensures Framed(s, step, Apply(s, step))
  {}

  lemma LogStepFrame(s: Sys, step: Step)
    requires Enabled(s, step) && (step.AuditFailed? || step.AuditCompleted? || step.BumpVersion?)
    ensures Framed(s, step, Apply(s, step))
  {}

  lemma RecomputeFrame(s: Sys, w: nat, ok: bool)
    requires Enabled(s, Recompute(w, ok))
    ensures Framed(s, Recompute(w, ok), DoRecompute(s, w, ok))
  {}

  lemma OuterStepFrame(s: Sys, step: Step)
    requires Enabled(s, step) && (step.Advance? || step.Arrive? || step.Restart? || step.Read?)
    ensures Framed(s, step, Apply(s, step))
  {}

  lemma StepFrame(s: Sys, step: Step)
    requires Enabled(s, step)
    ensures Framed(s, step, Apply(s, step))
  {
    if step.Acquire? || step.Enqueue? || step.ReleaseTrigger? || step.ReleaseWorker? {
      LockStepFrame(s, step);
    } else if step.CreateRun? || step.AuditTriggered? || step.RejectRun? || step.TakeJob? {
      RecordStepFrame(s, step);
    } else if step.Recompute? {
      RecomputeFrame(s, step.w, step.ok);
    } else if step.MarkRunning? || step.MarkFailed? || step.MarkCompleted? {
      MarkStepFrame(s, step);
    } else if step.AuditFailed? || step.AuditCompleted? || step.BumpVersion? {
      LogStepFrame(s, step);
    } else {
      OuterStepFrame(s, step);
    }
  }
}
