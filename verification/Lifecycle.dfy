/**
 Run rows, audit entries and snapshot lineage over every interleaving: legal status
 histories, terminal statuses that never change although the SQL updates are guarded only
 by id, truthful outcomes, and the order of the audit trail.
 */
module Lifecycle {
  import opened Common
  import opened Time
  import opened Aggregate
  import opened Snapshots
  import opened Protocol
  import Coherence

  /** The durable records of the protocol. */
  datatype Records = Records(runs: map<RunId, Run>, commits: map<RunId, Rebuild>, audits: seq<AuditEntry>,
                             settled: map<RunId, Past>)

  function RecordsOf(s: Sys): Records {
    Records(s.runs, s.commits, s.audits, s.settled)
  }

  /** The actions logged for one run, in order. */
  function ActionsOf(audits: seq<AuditEntry>, run: RunId): seq<Action> {
    if audits == [] then []
    else
      ActionsOf(audits[..|audits| - 1], run) +
      if audits[|audits| - 1].run == run then [audits[|audits| - 1].action] else []
  }

  /** The current status: the last one written. */
  predicate Ends(h: seq<Status>, status: Status) {
    h != [] && h[|h| - 1] == status
  }

  predicate Terminal(h: seq<Status>) {
    Ends(h, Completed) || Ends(h, Failed)
  }

  predicate LegalHistory(h: seq<Status>) {
    h == [Pending] || h == [Pending, Running] || h == [Pending, Running, Completed] || h == [Pending, Running, Failed]
    || h == [Pending, Failed]
  }

  /** The status histories that are possible when a run's job is at a stage. */
  predicate StageHistory(stage: Stage, h: seq<Status>) {
    match stage
    case Rejecting => h == [Pending] || h == [Pending, Failed]
    case Rebuilding => h == [Pending, Running]
    case Failing => h == [Pending, Running]
    case Committed(_) => h == [Pending, Running]
    case FailAudit => h == [Pending, Running] || h == [Pending, Running, Failed]
    case Bumping(_) => h == [Pending, Running] || h == [Pending, Running, Completed]
    case DoneAudit(_) => h == [Pending, Running] || h == [Pending, Running, Completed]
    case Releasing => true
    case other => h == [Pending]
  }

  predicate BeforeCommit(stage: Stage) {
    !stage.Committed? && !stage.Bumping? && !stage.DoneAudit? && !stage.Releasing?
  }

  predicate AfterCommit(stage: Stage) {
    stage.Committed? || stage.Bumping? || stage.DoneAudit?
  }

  predicate AtMostTriggered(actions: seq<Action>) {
    actions == [] || actions == [TriggeredEntry]
  }

  predicate StageActions(stage: Stage, actions: seq<Action>) {
    match stage
    case Created => actions == []
    case Releasing => true
    case other => AtMostTriggered(actions)
  }

  /** A subsequence of: triggered, then exactly one of completed and failed. */
  predicate LegalActions(actions: seq<Action>) {
    || AtMostTriggered(actions)
    || (|actions| == 1 && !actions[0].TriggeredEntry?)
    || (|actions| == 2 && actions[0] == TriggeredEntry && !actions[1].TriggeredEntry?)
  }

  /** The run's rebuild committed with this summary. */
  ghost predicate Truthful(db: Records, run: RunId, summary: Summary) {
    run in db.commits && db.commits[run].summary == summary
  }

  /** Every commit's summary counts what its rebuild did to the table it found, over the events it saw. */
  ghost predicate CommitsOk(db: Records) {
    forall run :: run in db.commits ==>
      run in db.runs
      && db.commits[run].summary == SummaryOf(db.commits[run].before, db.runs[run].request, db.commits[run].facts, run)
  }

  ghost predicate TaskOk(task: Task, db: Records) {
    HasRun(task.stage) ==>
      && task.run in db.runs && task.run !in db.settled && db.runs[task.run].request == task.claim.request
      && StageHistory(task.stage, db.runs[task.run].history)
      && (BeforeCommit(task.stage) ==> task.run !in db.commits)
      && (AfterCommit(task.stage) ==> Truthful(db, task.run, task.stage.summary))
      && StageActions(task.stage, ActionsOf(db.audits, task.run))
  }

  ghost predicate RunOk(run: RunId, db: Records) {
    RowOk(run, db, ActionsOf(db.audits, run))
  }

  ghost predicate RowOk(run: RunId, db: Records, actions: seq<Action>) {
    if run in db.settled then run in db.runs && run !in db.commits && db.settled[run] == Past(db.runs[run], actions)
    else if run in db.runs then
      var h := db.runs[run].history;
      && LegalHistory(h) && LegalActions(actions)
      && (run in db.commits ==> h == [Pending, Running] || h == [Pending, Running, Completed])
      && (h == [Pending, Running, Completed] ==>
            db.runs[run].summary.Some? && Truthful(db, run, db.runs[run].summary.value))
      && (forall a :: a in actions ==>
            match a
            case TriggeredEntry => true
            case CompletedEntry(summary) => Truthful(db, run, summary)
            case FailedEntry => run !in db.commits && (h == [Pending, Running] || h == [Pending, Running, Failed]))
      && (h == [Pending, Failed] ==> AtMostTriggered(actions))
    else actions == [] && run !in db.commits
  }

  ghost predicate DistinctRuns(ts: Tasks) {
    forall p, q :: TaskAt(ts, p).Some? && TaskAt(ts, q).Some? && p != q
                   && HasRun(TaskAt(ts, p).value.stage) && HasRun(TaskAt(ts, q).value.stage)
                   ==> TaskAt(ts, p).value.run != TaskAt(ts, q).value.run
  }

  ghost predicate Recorded(ts: Tasks, db: Records) {
    && DistinctRuns(ts)
    && (forall p :: TaskAt(ts, p).Some? ==> TaskOk(TaskAt(ts, p).value, db))
    && (forall run :: RunOk(run, db))
  }

  // ----- one generic step -----

  /** Only the records of one run differ. */
  ghost predicate SameElsewhere(db: Records, db': Records, r: RunId) {
    db'.settled == db.settled && forall run :: run != r ==>
      && (run in db'.runs <==> run in db.runs) && (run in db.runs ==> db'.runs[run] == db.runs[run])
      && (run in db'.commits <==> run in db.commits) && (run in db.commits ==> db'.commits[run] == db.commits[run])
      && ActionsOf(db'.audits, run) == ActionsOf(db.audits, run)
  }

  lemma OtherTaskOk(task: Task, db: Records, db': Records, r: RunId)
    requires TaskOk(task, db) && SameElsewhere(db, db', r) && (HasRun(task.stage) ==> task.run != r)
    ensures TaskOk(task, db')
  {}

  lemma OtherRunOk(run: RunId, db: Records, db': Records, r: RunId)
    requires RunOk(run, db) && SameElsewhere(db, db', r) && run != r
    ensures RunOk(run, db')
  {}

  /** Moving one task while changing only the records of its run keeps everything recorded. */
  lemma MoveRecorded(ts: Tasks, ts': Tasks, m: Move, db: Records, db': Records, r: RunId)
    requires Recorded(ts, db) && Moves(ts, ts', m) && SameElsewhere(db, db', r) && RunOk(r, db')
    requires m.Add? || m.Shift?
    requires TaskOk(m.task, db') && (HasRun(m.task.stage) ==> m.task.run == r)
    requires forall p :: TaskAt(ts, p).Some? && HasRun(TaskAt(ts, p).value.stage) && TaskAt(ts, p).value.run == r
                         ==> m.Shift? && p == m.o
    ensures Recorded(ts', db')
  {
    forall p | TaskAt(ts', p).Some? ensures TaskOk(TaskAt(ts', p).value, db') {
      if p != m.n {
        assert TaskAt(ts', p) == TaskAt(ts, p);
        OtherTaskOk(TaskAt(ts, p).value, db, db', r);
      }
    }
    forall run ensures RunOk(run, db') {
      if run != r {
        OtherRunOk(run, db, db', r);
      }
    }
    forall p, q | TaskAt(ts', p).Some? && TaskAt(ts', q).Some? && p != q
                  && HasRun(TaskAt(ts', p).value.stage) && HasRun(TaskAt(ts', q).value.stage)
      ensures TaskAt(ts', p).value.run != TaskAt(ts', q).value.run
    {
      assert p != m.n ==> TaskAt(ts', p) == TaskAt(ts, p) && !(m.Shift? && p == m.o);
      assert q != m.n ==> TaskAt(ts', q) == TaskAt(ts, q) && !(m.Shift? && q == m.o);
    }
  }

  /** The job at o keeps its run while its own records change from db to db'. */
  lemma StageRecorded(ts: Tasks, ts': Tasks, m: Move, db: Records, db': Records)
    requires Recorded(ts, db) && Moves(ts, ts', m) && m.Shift? && HasRun(m.task.stage)
    requires
      var task := TaskAt(ts, m.o).value;
      HasRun(task.stage) && m.task.run == task.run && m.task.claim == task.claim
    requires SameElsewhere(db, db', m.task.run)
    requires TaskOk(TaskAt(ts, m.o).value, db) && RunOk(m.task.run, db) ==>
               TaskOk(m.task, db') && RunOk(m.task.run, db')
    ensures Recorded(ts', db')
  {
    assert RunOk(m.task.run, db);
    MoveRecorded(ts, ts', m, db, db', m.task.run);
  }

  lemma LogElsewhere(db: Records, run: RunId, action: Action, reply: Reply)
    ensures SameElsewhere(db, db.(audits := Log(db.audits, run, action, reply)), run)
    ensures ActionsOf(Log(db.audits, run, action, reply), run)
            == ActionsOf(db.audits, run) + if reply.Applied() then [action] else []
  {
    var audits' := db.audits + [AuditEntry(run, action)];
    assert audits'[..|audits'| - 1] == db.audits;
  }

  // ----- trigger steps -----

  lemma CreateRecorded(s: Sys, t: nat, run: RunId, reply: Reply)
    requires Recorded(s.ts, RecordsOf(s)) && Enabled(s, CreateRun(t, run, reply))
    ensures Recorded(DoCreateRun(s, t, run, reply).ts, RecordsOf(DoCreateRun(s, t, run, reply)))
  {
    var m, s' := MoveOf(s, CreateRun(t, run, reply)), DoCreateRun(s, t, run, reply);
    SetTriggerMoves(s.ts, t, m.task);
    assert RunOk(run, RecordsOf(s));
    forall p | TaskAt(s.ts, p).Some? && HasRun(TaskAt(s.ts, p).value.stage) ensures TaskAt(s.ts, p).value.run != run {
      assert TaskOk(TaskAt(s.ts, p).value, RecordsOf(s));
    }
    MoveRecorded(s.ts, s'.ts, m, RecordsOf(s), RecordsOf(s'), run);
  }

  lemma AcquireRecorded(s: Sys, t: nat, request: Request, token: Token, reply: Reply)
    requires Recorded(s.ts, RecordsOf(s)) && Enabled(s, Acquire(t, request, token, reply))
    ensures Recorded(DoAcquire(s, t, request, token, reply).ts, RecordsOf(DoAcquire(s, t, request, token, reply)))
  {
    AcquireTasks(s, t, request, token, reply);
    AcquireFrame(s, t, request, token, reply);
    AddRecorded(s.ts, t, Task(Holding, 0, Claim(request, token, s.now, s.now + s.cfg.lockTTL)), RecordsOf(s));
  }

  /** A trigger without a run row. */
  lemma AddRecorded(ts: Tasks, t: nat, task: Task, db: Records)
    requires Recorded(ts, db) && t !in ts.triggers && !HasRun(task.stage)
    ensures Recorded(SetTrigger(ts, t, task), db)
  {
    var ts' := SetTrigger(ts, t, task);
    forall p | p != AtTrigger(t) ensures TaskAt(ts', p) == TaskAt(ts, p) {}
  }

  lemma AuditTriggeredRecorded(s: Sys, t: nat, reply: Reply)
    requires Recorded(s.ts, RecordsOf(s)) && Enabled(s, AuditTriggered(t, reply))
    ensures Recorded(DoAuditTriggered(s, t, reply).ts, RecordsOf(DoAuditTriggered(s, t, reply)))
  {
    var m, s' := MoveOf(s, AuditTriggered(t, reply)), DoAuditTriggered(s, t, reply);
    SetTriggerMoves(s.ts, t, m.task);
    LogElsewhere(RecordsOf(s), m.task.run, TriggeredEntry, reply);
    StageRecorded(s.ts, s'.ts, m, RecordsOf(s), RecordsOf(s'));
  }

  lemma EnqueueRecorded(s: Sys, t: nat)
    requires Recorded(s.ts, RecordsOf(s)) && Enabled(s, Enqueue(t))
    ensures Recorded(DoEnqueue(s, t).ts, RecordsOf(s))
  {
    if |s.ts.queue| < s.cfg.capacity {
      SendMoves(s.ts, t, s.now);
      var m := Shift(AtTrigger(t), AtQueue(s.ts.taken + |s.ts.queue|), s.ts.triggers[t].(stage := Queued));
      StageRecorded(s.ts, Send(s.ts, t, s.now), m, RecordsOf(s), RecordsOf(s));
    } else {
      var m := TriggerMove(s, t, Full);
      SetTriggerMoves(s.ts, t, m.task);
      StageRecorded(s.ts, SetTrigger(s.ts, t, m.task), m, RecordsOf(s), RecordsOf(s));
    }
  }

  lemma RejectRecorded(s: Sys, t: nat, reply: Reply)
    requires Recorded(s.ts, RecordsOf(s)) && Enabled(s, RejectRun(t, reply))
    ensures Recorded(DoReject(s, t, reply).ts, RecordsOf(DoReject(s, t, reply)))
  {
    var m, s' := MoveOf(s, RejectRun(t, reply)), DoReject(s, t, reply);
    SetTriggerMoves(s.ts, t, m.task);
    StageRecorded(s.ts, s'.ts, m, RecordsOf(s), RecordsOf(s'));
  }

  // ----- worker steps -----

  lemma TakeRecorded(s: Sys, w: nat)
    requires Recorded(s.ts, RecordsOf(s)) && Enabled(s, TakeJob(w))
    ensures Recorded(Receive(s.ts, w, s.now), RecordsOf(s))
  {
    ReceiveMoves(s.ts, w, s.now);
    StageRecorded(s.ts, Receive(s.ts, w, s.now), MoveOf(s, TakeJob(w)), RecordsOf(s), RecordsOf(s));
  }

  lemma MarkRunningRecorded(s: Sys, w: nat, reply: Reply)
    requires Recorded(s.ts, RecordsOf(s)) && Enabled(s, MarkRunning(w, reply))
    ensures
      var s' := DoMark(s, w, Running, if reply.Ok? then Rebuilding else Releasing, reply);
      Recorded(s'.ts, RecordsOf(s'))
  {
    var next := if reply.Ok? then Rebuilding else Releasing;
    var m, s' := WorkerMove(s, w, next), DoMark(s, w, Running, next, reply);
    SetWorkerMoves(s.ts, w, m.task.stage);
    StageRecorded(s.ts, s'.ts, m, RecordsOf(s), RecordsOf(s'));
  }

  lemma RecomputeRecorded(s: Sys, w: nat, ok: bool)
    requires Recorded(s.ts, RecordsOf(s)) && Enabled(s, Recompute(w, ok))
    ensures Recorded(DoRecompute(s, w, ok).ts, RecordsOf(DoRecompute(s, w, ok)))
  {
    if ok {
      CommitRecorded(s, w);
    } else {
      SetWorkerMoves(s.ts, w, Failing);
      StageRecorded(s.ts, DoRecompute(s, w, false).ts, WorkerMove(s, w, Failing), RecordsOf(s), RecordsOf(s));
    }
  }

  lemma CommitRecorded(s: Sys, w: nat)
    requires Recorded(s.ts, RecordsOf(s)) && Enabled(s, Recompute(w, true))
    ensures Recorded(DoRecompute(s, w, true).ts, RecordsOf(DoRecompute(s, w, true)))
  {
    var s' := DoRecompute(s, w, true);
    var stage := s'.ts.workers[w].task.value.stage;
    SetWorkerMoves(s.ts, w, stage);
    StageRecorded(s.ts, s'.ts, WorkerMove(s, w, stage), RecordsOf(s), RecordsOf(s'));
  }

  lemma MarkFailedRecorded(s: Sys, w: nat, reply: Reply)
    requires Recorded(s.ts, RecordsOf(s)) && Enabled(s, MarkFailed(w, reply))
    ensures Recorded(DoMark(s, w, Failed, FailAudit, reply).ts, RecordsOf(DoMark(s, w, Failed, FailAudit, reply)))
  {
    var m, s' := MoveOf(s, MarkFailed(w, reply)), DoMark(s, w, Failed, FailAudit, reply);
    SetWorkerMoves(s.ts, w, m.task.stage);
    StageRecorded(s.ts, s'.ts, m, RecordsOf(s), RecordsOf(s'));
  }

  lemma OutcomeLast(actions: seq<Action>, action: Action)
    requires AtMostTriggered(actions) && !action.TriggeredEntry?
    ensures LegalActions(actions + [action])
    ensures forall a :: a in actions + [action] ==> a == TriggeredEntry || a == action
  {}

  /** Logging the failure after the rows so far. */
  lemma FailureLogged(task: Task, db: Records, actions: seq<Action>)
    requires task.stage.FailAudit? && TaskOk(task, db) && RowOk(task.run, db, actions) && AtMostTriggered(actions)
    ensures RowOk(task.run, db, actions + [FailedEntry])
  {
    OutcomeLast(actions, FailedEntry);
  }

  lemma CompletionLogged(task: Task, db: Records, summary: Summary, actions: seq<Action>)
    requires task.stage == DoneAudit(summary) && TaskOk(task, db)
    requires RowOk(task.run, db, actions) && AtMostTriggered(actions)
    ensures RowOk(task.run, db, actions + [CompletedEntry(summary)])
  {
    OutcomeLast(actions, CompletedEntry(summary));
  }

  lemma AuditFailedRecorded(s: Sys, w: nat, reply: Reply)
    requires Recorded(s.ts, RecordsOf(s)) && Enabled(s, AuditFailed(w, reply))
    ensures Recorded(DoLog(s, w, FailedEntry, reply).ts, RecordsOf(DoLog(s, w, FailedEntry, reply)))
  {
    var m, s' := MoveOf(s, AuditFailed(w, reply)), DoLog(s, w, FailedEntry, reply);
    SetWorkerMoves(s.ts, w, m.task.stage);
    var task := s.ts.workers[w].task.value;
    assert TaskOk(TaskAt(s.ts, AtWorker(w)).value, RecordsOf(s)) && RunOk(task.run, RecordsOf(s));
    LogElsewhere(RecordsOf(s), task.run, FailedEntry, reply);
    FailureLogged(task, RecordsOf(s), ActionsOf(s.audits, task.run));
    StageRecorded(s.ts, s'.ts, m, RecordsOf(s), RecordsOf(s'));
  }

  lemma MarkCompletedRecorded(s: Sys, w: nat, reply: Reply)
    requires Recorded(s.ts, RecordsOf(s)) && Enabled(s, MarkCompleted(w, reply))
    ensures
      var s' := DoComplete(s, w, s.ts.workers[w].task.value.stage.summary, reply);
      Recorded(s'.ts, RecordsOf(s'))
  {
    var m, s' := MoveOf(s, MarkCompleted(w, reply)), DoComplete(s, w, s.ts.workers[w].task.value.stage.summary, reply);
    SetWorkerMoves(s.ts, w, m.task.stage);
    StageRecorded(s.ts, s'.ts, m, RecordsOf(s), RecordsOf(s'));
  }

  lemma BumpRecorded(s: Sys, w: nat, reply: Reply)
    requires Recorded(s.ts, RecordsOf(s)) && Enabled(s, BumpVersion(w, reply))
    ensures Recorded(DoBump(s, w, s.ts.workers[w].task.value.stage.summary, reply).ts, RecordsOf(s))
  {
    var m := MoveOf(s, BumpVersion(w, reply));
    SetWorkerMoves(s.ts, w, m.task.stage);
    StageRecorded(s.ts, DoBump(s, w, s.ts.workers[w].task.value.stage.summary, reply).ts, m, RecordsOf(s),
                  RecordsOf(s));
  }

  lemma AuditCompletedRecorded(s: Sys, w: nat, reply: Reply)
    requires Recorded(s.ts, RecordsOf(s)) && Enabled(s, AuditCompleted(w, reply))
    ensures
      var s' := DoLog(s, w, CompletedEntry(s.ts.workers[w].task.value.stage.summary), reply);
      Recorded(s'.ts, RecordsOf(s'))
  {
    var m, s' := MoveOf(s, AuditCompleted(w, reply)),
      DoLog(s, w, CompletedEntry(s.ts.workers[w].task.value.stage.summary), reply);
    SetWorkerMoves(s.ts, w, m.task.stage);
    var task := s.ts.workers[w].task.value;
    assert TaskOk(TaskAt(s.ts, AtWorker(w)).value, RecordsOf(s)) && RunOk(task.run, RecordsOf(s));
    LogElsewhere(RecordsOf(s), task.run, CompletedEntry(task.stage.summary), reply);
    CompletionLogged(task, RecordsOf(s), task.stage.summary, ActionsOf(s.audits, task.run));
    StageRecorded(s.ts, s'.ts, m, RecordsOf(s), RecordsOf(s'));
  }

  lemma RemoveRecorded(ts: Tasks, ts': Tasks, m: Move, db: Records)
    requires Recorded(ts, db) && Moves(ts, ts', m) && (m.Remove? || m.Wipe? || m.Stay?)
    ensures Recorded(ts', db)
  {
    forall p ensures TaskAt(ts', p).Some? ==> TaskAt(ts', p) == TaskAt(ts, p) {}
  }

  lemma ReleaseTriggerRecorded(s: Sys, t: nat, reply: Reply)
    requires Recorded(s.ts, RecordsOf(s)) && Enabled(s, ReleaseTrigger(t, reply))
    ensures Recorded(DoReleaseTrigger(s, t, reply).ts, RecordsOf(DoReleaseTrigger(s, t, reply)))
  {
    EndTriggerMoves(s.ts, t);
    RemoveRecorded(s.ts, EndTrigger(s.ts, t), Remove(AtTrigger(t)), RecordsOf(s));
    UnlockKeepsTasks(s.(ts := EndTrigger(s.ts, t)), s.ts.triggers[t].claim, reply);
    UnlockFrame(s, EndTrigger(s.ts, t), s.ts.triggers[t].claim, reply);
  }

  lemma ReleaseWorkerRecorded(s: Sys, w: nat, reply: Reply)
    requires Recorded(s.ts, RecordsOf(s)) && Enabled(s, ReleaseWorker(w, reply))
    ensures Recorded(DoReleaseWorker(s, w, reply).ts, RecordsOf(DoReleaseWorker(s, w, reply)))
  {
    EndWorkerMoves(s.ts, w);
    RemoveRecorded(s.ts, EndWorker(s.ts, w), Remove(AtWorker(w)), RecordsOf(s));
    UnlockKeepsTasks(s.(ts := EndWorker(s.ts, w)), s.ts.workers[w].task.value.claim, reply);
    UnlockFrame(s, EndWorker(s.ts, w), s.ts.workers[w].task.value.claim, reply);
  }

  /** Every step keeps the records in order. */
  lemma StepKeepsRecorded(s: Sys, step: Step)
    requires Recorded(s.ts, RecordsOf(s)) && Enabled(s, step)
    ensures Recorded(Apply(s, step).ts, RecordsOf(Apply(s, step)))
  {
    if step.Acquire? || step.CreateRun? || step.ReleaseTrigger? || step.ReleaseWorker? {
      LockStepKeepsRecorded(s, step);
    } else if step.AuditTriggered? || step.Enqueue? || step.RejectRun? || step.TakeJob? {
      SendStepKeepsRecorded(s, step);
    } else if step.MarkRunning? || step.MarkFailed? || step.MarkCompleted? {
      MarkStepKeepsRecorded(s, step);
    } else if IsWorkerStep(step) {
      OutcomeStepKeepsRecorded(s, step);
    } else if step.Restart? {
      RemoveRecorded(s.ts, Stopped(s.ts), Wipe, RecordsOf(s));
    }
  }

  lemma LockStepKeepsRecorded(s: Sys, step: Step)
    requires Recorded(s.ts, RecordsOf(s)) && Enabled(s, step)
    requires step.Acquire? || step.CreateRun? || step.ReleaseTrigger? || step.ReleaseWorker?
    ensures Recorded(Apply(s, step).ts, RecordsOf(Apply(s, step)))
  {
    match step
    case Acquire(t, request, token, reply) => AcquireRecorded(s, t, request, token, reply);
    case CreateRun(t, run, reply) => CreateRecorded(s, t, run, reply);
    case ReleaseTrigger(t, reply) => ReleaseTriggerRecorded(s, t, reply);
    case ReleaseWorker(w, reply) => ReleaseWorkerRecorded(s, w, reply);
  }

  lemma SendStepKeepsRecorded(s: Sys, step: Step)
    requires Recorded(s.ts, RecordsOf(s)) && Enabled(s, step)
    requires step.AuditTriggered? || step.Enqueue? || step.RejectRun? || step.TakeJob?
    ensures Recorded(Apply(s, step).ts, RecordsOf(Apply(s, step)))
  {
    match step
    case AuditTriggered(t, reply) => AuditTriggeredRecorded(s, t, reply);
    case Enqueue(t) => EnqueueRecorded(s, t);
    case RejectRun(t, reply) => RejectRecorded(s, t, reply);
    case TakeJob(w) => TakeRecorded(s, w);
  }

  lemma MarkStepKeepsRecorded(s: Sys, step: Step)
    requires Recorded(s.ts, RecordsOf(s)) && Enabled(s, step)
    requires step.MarkRunning? || step.MarkFailed? || step.MarkCompleted?
    ensures Recorded(Apply(s, step).ts, RecordsOf(Apply(s, step)))
  {
    match step
    case MarkRunning(w, reply) => MarkRunningRecorded(s, w, reply);
    case MarkFailed(w, reply) => MarkFailedRecorded(s, w, reply);
    case MarkCompleted(w, reply) => MarkCompletedRecorded(s, w, reply);
  }

  lemma OutcomeStepKeepsRecorded(s: Sys, step: Step)
    requires Recorded(s.ts, RecordsOf(s)) && Enabled(s, step)
    requires step.Recompute? || step.AuditFailed? || step.BumpVersion? || step.AuditCompleted?
    ensures Recorded(Apply(s, step).ts, RecordsOf(Apply(s, step)))
  {
    match step
    case Recompute(w, ok) => RecomputeRecorded(s, w, ok);
    case AuditFailed(w, reply) => AuditFailedRecorded(s, w, reply);
    case BumpVersion(w, reply) => BumpRecorded(s, w, reply);
    case AuditCompleted(w, reply) => AuditCompletedRecorded(s, w, reply);
  }

  // ----- terminal statuses -----

  /** Histories only grow, requests never change, and a terminal run never changes again. */
  ghost predicate Grows(runs: map<RunId, Run>, runs': map<RunId, Run>) {
    forall run :: run in runs ==>
      && run in runs' && runs'[run].request == runs[run].request
      && runs[run].history <= runs'[run].history
      && (Terminal(runs[run].history) ==> runs'[run] == runs[run])
  }

  lemma MarkGrows(runs: map<RunId, Run>, run: RunId, status: Status, reply: Reply)
    requires run in runs ==> !Terminal(runs[run].history)
    ensures Grows(runs, Mark(runs, run, status, reply))
  {}

  lemma StepGrows(s: Sys, step: Step)
    requires Recorded(s.ts, RecordsOf(s)) && Enabled(s, step)
    ensures Grows(s.runs, Apply(s, step).runs)
  {
    if !TouchesRuns(step) {
      StepFrame(s, step);
    } else if !step.CreateRun? {
      UpdateGrows(s, step);
    }
  }

  lemma UpdateGrows(s: Sys, step: Step)
    requires Recorded(s.ts, RecordsOf(s)) && Enabled(s, step) && TouchesRuns(step) && !step.CreateRun?
    ensures Grows(s.runs, Apply(s, step).runs)
  {
    match step
    case RejectRun(t, reply) => RejectGrows(s, t, reply);
    case MarkRunning(w, reply) => MarkRunningGrows(s, w, reply);
    case MarkFailed(w, reply) => MarkFailedGrows(s, w, reply);
    case MarkCompleted(w, reply) => MarkCompletedGrows(s, w, reply);
  }

  lemma RejectGrows(s: Sys, t: nat, reply: Reply)
    requires Recorded(s.ts, RecordsOf(s)) && Enabled(s, RejectRun(t, reply))
    ensures Grows(s.runs, DoReject(s, t, reply).runs)
  {
    assert TaskOk(TaskAt(s.ts, AtTrigger(t)).value, RecordsOf(s));
    MarkGrows(s.runs, s.ts.triggers[t].run, Failed, reply);
  }

  lemma MarkRunningGrows(s: Sys, w: nat, reply: Reply)
    requires Recorded(s.ts, RecordsOf(s)) && Enabled(s, MarkRunning(w, reply))
    ensures Grows(s.runs, DoMark(s, w, Running, if reply.Ok? then Rebuilding else Releasing, reply).runs)
  {
    assert TaskOk(TaskAt(s.ts, AtWorker(w)).value, RecordsOf(s));
    MarkGrows(s.runs, s.ts.workers[w].task.value.run, Running, reply);
  }

  lemma MarkFailedGrows(s: Sys, w: nat, reply: Reply)
    requires Recorded(s.ts, RecordsOf(s)) && Enabled(s, MarkFailed(w, reply))
    ensures Grows(s.runs, DoMark(s, w, Failed, FailAudit, reply).runs)
  {
    assert TaskOk(TaskAt(s.ts, AtWorker(w)).value, RecordsOf(s));
    MarkGrows(s.runs, s.ts.workers[w].task.value.run, Failed, reply);
  }

  lemma MarkDoneGrows(runs: map<RunId, Run>, run: RunId, summary: Summary, reply: Reply)
    requires run in runs ==> !Terminal(runs[run].history)
    ensures Grows(runs, MarkDone(runs, run, summary, reply))
  {}

  lemma MarkCompletedGrows(s: Sys, w: nat, reply: Reply)
    requires Recorded(s.ts, RecordsOf(s)) && Enabled(s, MarkCompleted(w, reply))
    ensures Grows(s.runs, DoComplete(s, w, s.ts.workers[w].task.value.stage.summary, reply).runs)
  {
    var task := s.ts.workers[w].task.value;
    assert TaskOk(TaskAt(s.ts, AtWorker(w)).value, RecordsOf(s));
    MarkDoneGrows(s.runs, task.run, task.stage.summary, reply);
  }

  // ----- lineage -----

  /** The request of a run could have inserted rows of this report, window and bucket. */
  predicate Fits(q: Request, l: Label) {
    q.slug == l.slug && q.window == l.window && l.bucket < ToExclusive(q) && From(q) < l.bucket + Unit(l.window)
  }

  /** A row belongs to a committed or earlier run of its report and window, whose range overlaps the row's bucket. */
  ghost predicate RowMatches(l: Label, db: Records) {
    l.run.Some? ==>
      && (l.run.value in db.commits || l.run.value in db.settled)
      && l.run.value in db.runs && Fits(db.runs[l.run.value].request, l)
  }

  ghost predicate Lineage(table: Table, db: Records) {
    forall i :: 0 <= i < |table| ==> RowMatches(table[i].key, db)
  }

  lemma RebuiltLineage(table: Table, db: Records, db': Records, q: Request, facts: seq<Rec<Stamp>>, run: RunId)
    requires Lineage(table, db) && db'.runs == db.runs && db'.settled == db.settled
    requires db.commits.Keys <= db'.commits.Keys
    requires run in db'.runs && run in db'.commits && db'.runs[run].request == q
    ensures Lineage(Rebuilt(table, q, facts, run), db')
  {
    var rebuilt, kept := Rebuilt(table, q, facts, run), Kept(table, q);
    InsertedIsCleared(q, facts, run);
    forall i | 0 <= i < |rebuilt| ensures RowMatches(rebuilt[i].key, db') {
      if i < |kept| {
        var k := ProjectOrigin(table, KeepLabel(q), i);
        assert RowMatches(table[k].key, db);
      } else {
        assert rebuilt[i] == Inserted(q, facts, run)[i - |kept|];
      }
    }
  }

  lemma LineageKept(table: Table, db: Records, db': Records)
    requires Lineage(table, db) && Grows(db.runs, db'.runs) && db.commits == db'.commits && db'.settled == db.settled
    ensures Lineage(table, db')
  {
    forall i | 0 <= i < |table| ensures RowMatches(table[i].key, db') {
      assert RowMatches(table[i].key, db);
    }
  }

  /** Only a commit changes the table. */
  lemma OtherStepsKeepTable(s: Sys, step: Step)
    requires Enabled(s, step) && !CommitsRebuild(step)
    ensures Apply(s, step).cache.time.table == s.cache.time.table && Apply(s, step).commits == s.commits
    ensures Apply(s, step).settled == s.settled
  {
    StepFrame(s, step);
    if step.Read? {
      Coherence.OnlyCommitsWrite(s.cache, step.c);
    } else if step.BumpVersion? {
      var slug := s.ts.workers[step.w].task.value.claim.request.slug;
      Coherence.OnlyCommitsWrite(s.cache, Coherence.Bump(slug, step.reply));
    }
  }

  lemma StepKeepsLineage(s: Sys, step: Step)
    requires Recorded(s.ts, RecordsOf(s)) && Enabled(s, step) && Lineage(s.cache.time.table, RecordsOf(s))
    ensures Lineage(Apply(s, step).cache.time.table, RecordsOf(Apply(s, step)))
  {
    if step.Recompute? && step.ok {
      var task := s.ts.workers[step.w].task.value;
      var q := task.claim.request;
      assert TaskOk(TaskAt(s.ts, AtWorker(step.w)).value, RecordsOf(s));
      RebuiltLineage(s.cache.time.table, RecordsOf(s), RecordsOf(Apply(s, step)), q,
                     Facts(q.slug, s.sources, s.events), task.run);
    } else {
      OtherStepsKeepTable(s, step);
      StepGrows(s, step);
      LineageKept(s.cache.time.table, RecordsOf(s), RecordsOf(Apply(s, step)));
    }
  }

  /** Commits are counted truthfully, and later steps do not disturb them. */
  lemma StepKeepsCommits(s: Sys, step: Step)
    requires Recorded(s.ts, RecordsOf(s)) && Enabled(s, step) && CommitsOk(RecordsOf(s))
    ensures CommitsOk(RecordsOf(Apply(s, step)))
  {
    if step.Recompute? && step.ok {
      CommitKeepsCommits(s, step.w);
    } else {
      OtherStepsKeepTable(s, step);
      StepGrows(s, step);
    }
  }

  lemma CommitKeepsCommits(s: Sys, w: nat)
    requires Recorded(s.ts, RecordsOf(s)) && Enabled(s, Recompute(w, true)) && CommitsOk(RecordsOf(s))
    ensures CommitsOk(RecordsOf(DoRecompute(s, w, true)))
  {
    assert TaskOk(TaskAt(s.ts, AtWorker(w)).value, RecordsOf(s));
  }

  /** No snapshot row carries the id of a pending or failed run, except where it did at the start. */
  lemma RowsBelongToSuccess(table: Table, ts: Tasks, db: Records, i: nat)
    requires Recorded(ts, db) && Lineage(table, db) && i < |table| && table[i].key.run.Some?
    ensures
      var run := table[i].key.run.value;
      && run in db.runs
      && (run in db.settled || db.runs[run].history == [Pending, Running]
          || db.runs[run].history == [Pending, Running, Completed])
  {
    assert RowMatches(table[i].key, db);
    assert RunOk(table[i].key.run.value, db);
  }
}
