/**
 How long a job can hold its lock. Workers that always drain the queue, a bounded time per
 job and a bounded set-up time give a bound on the age of every live claim, hence a lock
 TTL under which no lock expires before its job ends.
 */
module Leases {
  import opened Common
  import opened Snapshots
  import opened Keys
  import opened Protocol
  import opened Ownership

  /** context.WithTimeout(ctx, 2*time.Minute), in seconds. */
  const PROCESS_LIMIT: nat := 120

  /** Time passes only while no idle worker ignores the queue and no job or trigger overruns its limit. */
  ghost predicate Timely(s: Sys, step: Step) {
    step.Advance? ==>
      && (s.ts.queue != [] ==> forall w :: 0 <= w < |s.ts.workers| ==> s.ts.workers[w].task.Some?)
      && (forall w :: 0 <= w < |s.ts.workers| && s.ts.workers[w].task.Some?
                      ==> s.now + step.d <= s.ts.workers[w].start + PROCESS_LIMIT)
      && (forall t :: t in s.ts.triggers ==> s.now + step.d <= s.ts.triggers[t].claim.acquired + s.cfg.setup)
  }

  /** ceil(capacity / workers): how many rounds of all workers empty a full queue. */
  function Rounds(capacity: nat, workers: nat): nat
    requires workers > 0
  {
    (capacity + workers - 1) / workers
  }

  function Sum(a: seq<nat>): nat {
    if a == [] then 0 else Sum(a[..|a| - 1]) + a[|a| - 1]
  }

  lemma {:induction false} SumGap(a: seq<nat>, b: seq<nat>, c: nat)
    requires |a| == |b| && forall i :: 0 <= i < |a| ==> a[i] >= b[i] + c
    ensures Sum(a) >= Sum(b) + |a| * c
  {
    if a != [] {
      SumGap(a[..|a| - 1], b[..|b| - 1], c);
      assert |a| * c == (|a| - 1) * c + c;
    }
  }

  lemma {:induction false} SumUpdate(a: seq<nat>, i: nat)
    requires i < |a|
    ensures Sum(a[i := a[i] + 1]) == Sum(a) + 1
  {
    var a' := a[i := a[i] + 1];
    if i < |a| - 1 {
      SumUpdate(a[..|a| - 1], i);
      assert a'[..|a| - 1] == a[..|a| - 1][i := a[i] + 1];
    } else {
      assert a'[..|a| - 1] == a[..|a| - 1];
    }
  }

  lemma {:induction false} SumZero(a: seq<nat>)
    requires forall i :: 0 <= i < |a| ==> a[i] == 0
    ensures Sum(a) == 0
  {
    if a != [] {
      SumZero(a[..|a| - 1]);
    }
  }

  // ----- the invariant -----

  ghost predicate Counts(ts: Tasks, cfg: Config) {
    && |ts.workers| > 0 && |ts.queue| <= cfg.capacity
    && |ts.tickets| == ts.taken + |ts.queue| && Sum(TookNow(ts)) == ts.taken
  }

  /** A ticket was issued with fewer than capacity jobs ahead, and worker counters only grow. */
  ghost predicate TicketOk(ts: Tasks, cfg: Config, k: nat)
    requires k < |ts.tickets|
  {
    && |ts.tickets[k].took| == |ts.workers|
    && k < Sum(ts.tickets[k].took) + cfg.capacity
    && (forall w :: 0 <= w < |ts.workers| ==> ts.tickets[k].took[w] <= ts.workers[w].took)
  }

  /** Since the ticket, each worker has started a new job at least every PROCESS_LIMIT seconds. */
  ghost predicate Busy(slot: Slot, ticket: Ticket, took: nat, now: nat) {
    if slot.task.Some? then slot.start <= ticket.sentAt + (slot.took - took) * PROCESS_LIMIT
    else now <= ticket.sentAt + (slot.took - took + 1) * PROCESS_LIMIT
  }

  ghost predicate Waiting(ts: Tasks, cfg: Config, now: nat) {
    forall k :: ts.taken <= k < |ts.tickets| ==>
      && TicketOk(ts, cfg, k)
      && (forall w :: 0 <= w < |ts.workers| ==> Busy(ts.workers[w], ts.tickets[k], ts.tickets[k].took[w], now))
  }

  ghost predicate QueueOk(ts: Tasks, cfg: Config, now: nat) {
    forall i :: 0 <= i < |ts.queue| && ts.taken + i < |ts.tickets| ==>
      && ts.queue[i].claim.expires == ts.queue[i].claim.acquired + cfg.lockTTL
      && ts.tickets[ts.taken + i].sentAt <= ts.queue[i].claim.acquired + cfg.setup
  }

  ghost predicate SlotOk(slot: Slot, workers: nat, cfg: Config, now: nat)
    requires workers > 0
  {
    slot.task.Some? ==>
      var claim := slot.task.value.claim;
      && claim.expires == claim.acquired + cfg.lockTTL
      && slot.start <= now <= slot.start + PROCESS_LIMIT
      && slot.start <= claim.acquired + cfg.setup + Rounds(cfg.capacity, workers) * PROCESS_LIMIT
  }

  /** A worker's job was started at most ceil(capacity / workers) rounds after it was sent. */
  ghost predicate StartedInTime(slot: Slot, ts: Tasks, cfg: Config)
    requires |ts.workers| > 0
  {
    slot.task.Some? ==>
      && slot.index < |ts.tickets|
      && slot.start <= ts.tickets[slot.index].sentAt + Rounds(cfg.capacity, |ts.workers|) * PROCESS_LIMIT
  }

  ghost predicate TriggerOk(task: Task, cfg: Config, now: nat) {
    && task.claim.expires == task.claim.acquired + cfg.lockTTL
    && now <= task.claim.acquired + cfg.setup
  }

  ghost predicate LeaseOk(ts: Tasks, cfg: Config, now: nat) {
    && Counts(ts, cfg)
    && Waiting(ts, cfg, now)
    && QueueOk(ts, cfg, now)
    && (forall w :: 0 <= w < |ts.workers| ==> SlotOk(ts.workers[w], |ts.workers|, cfg, now))
    && (forall w :: 0 <= w < |ts.workers| ==> StartedInTime(ts.workers[w], ts, cfg))
    && (forall t :: t in ts.triggers ==> TriggerOk(ts.triggers[t], cfg, now))
  }

  /** A queued job has been waiting for at most ceil(capacity / workers) rounds. */
  lemma QueueWait(ts: Tasks, cfg: Config, now: nat, k: nat)
    requires LeaseOk(ts, cfg, now) && ts.taken <= k < |ts.tickets|
    ensures now <= ts.tickets[k].sentAt + Rounds(cfg.capacity, |ts.workers|) * PROCESS_LIMIT
  {
    var n, took, snap := |ts.workers|, TookNow(ts), ts.tickets[k].took;
    var c := Rounds(cfg.capacity, n);
    assert TicketOk(ts, cfg, k);
    if now > ts.tickets[k].sentAt + c * PROCESS_LIMIT {
      forall w | 0 <= w < n ensures took[w] >= snap[w] + c {
        assert Busy(ts.workers[w], ts.tickets[k], snap[w], now);
        assert SlotOk(ts.workers[w], n, cfg, now);
      }
      SumGap(took, snap, c);
      RoundsCover(cfg.capacity, n);
      assert false;
    }
  }

  lemma RoundsCover(capacity: nat, workers: nat)
    requires workers > 0
    ensures workers * Rounds(capacity, workers) >= capacity
  {
    var x := capacity + workers - 1;
    assert x == workers * (x / workers) + x % workers;
  }

  // ----- each kind of step keeps the invariant -----

  /** Trigger-only changes. */
  lemma TriggersKeep(ts: Tasks, triggers: map<nat, Task>, cfg: Config, now: nat)
    requires LeaseOk(ts, cfg, now)
    requires forall t :: t in triggers ==> TriggerOk(triggers[t], cfg, now)
    ensures LeaseOk(ts.(triggers := triggers), cfg, now)
  {
    var ts' := ts.(triggers := triggers);
    assert TookNow(ts') == TookNow(ts);
    forall k | ts'.taken <= k < |ts'.tickets| ensures TicketOk(ts', cfg, k) {
      assert TicketOk(ts, cfg, k);
    }
  }

  lemma SendKeeps(ts: Tasks, t: nat, cfg: Config, now: nat)
    requires LeaseOk(ts, cfg, now) && t in ts.triggers && |ts.queue| < cfg.capacity
    ensures LeaseOk(Send(ts, t, now), cfg, now)
  {
    var ts' := Send(ts, t, now);
    assert TookNow(ts') == TookNow(ts);
    assert TriggerOk(ts.triggers[t], cfg, now);
    forall k | ts'.taken <= k < |ts'.tickets|
      ensures TicketOk(ts', cfg, k)
      ensures forall w :: 0 <= w < |ts'.workers| ==> Busy(ts'.workers[w], ts'.tickets[k], ts'.tickets[k].took[w], now)
    {
      if k < |ts.tickets| {
        assert TicketOk(ts, cfg, k);
        assert ts'.tickets[k] == ts.tickets[k];
      } else {
        forall w | 0 <= w < |ts.workers| ensures Busy(ts'.workers[w], ts'.tickets[k], ts'.tickets[k].took[w], now) {
          assert SlotOk(ts.workers[w], |ts.workers|, cfg, now);
        }
      }
    }
  }

  lemma ReceiveKeeps(ts: Tasks, w: nat, cfg: Config, now: nat)
    requires LeaseOk(ts, cfg, now) && w < |ts.workers| && ts.workers[w].task.None? && ts.queue != []
    ensures LeaseOk(Receive(ts, w, now), cfg, now)
  {
    ReceiveKeepsCounts(ts, w, cfg, now);
    ReceiveKeepsWaiting(ts, w, cfg, now);
    ReceiveKeepsQueue(ts, w, cfg, now);
    ReceiveKeepsSlots(ts, w, cfg, now);
  }

  lemma ReceiveKeepsCounts(ts: Tasks, w: nat, cfg: Config, now: nat)
    requires Counts(ts, cfg) && w < |ts.workers| && ts.queue != []
    ensures Counts(Receive(ts, w, now), cfg)
  {
    SumUpdate(TookNow(ts), w);
    assert TookNow(Receive(ts, w, now)) == TookNow(ts)[w := TookNow(ts)[w] + 1];
  }

  lemma ReceiveKeepsWaiting(ts: Tasks, w: nat, cfg: Config, now: nat)
    requires Waiting(ts, cfg, now) && w < |ts.workers| && ts.workers[w].task.None? && ts.queue != []
    ensures Waiting(Receive(ts, w, now), cfg, now)
  {
    var ts' := Receive(ts, w, now);
    forall k | ts'.taken <= k < |ts'.tickets|
      ensures TicketOk(ts', cfg, k)
      ensures forall v :: 0 <= v < |ts'.workers| ==> Busy(ts'.workers[v], ts'.tickets[k], ts'.tickets[k].took[v], now)
    {
      assert TicketOk(ts, cfg, k);
      forall v | 0 <= v < |ts'.workers| ensures Busy(ts'.workers[v], ts'.tickets[k], ts'.tickets[k].took[v], now) {
        assert Busy(ts.workers[v], ts.tickets[k], ts.tickets[k].took[v], now);
      }
    }
  }

  lemma ReceiveKeepsSlots(ts: Tasks, w: nat, cfg: Config, now: nat)
    requires LeaseOk(ts, cfg, now) && w < |ts.workers| && ts.queue != []
    ensures
      var ts' := Receive(ts, w, now);
      forall v :: 0 <= v < |ts'.workers| ==>
        SlotOk(ts'.workers[v], |ts'.workers|, cfg, now) && StartedInTime(ts'.workers[v], ts', cfg)
  {
    var ts' := Receive(ts, w, now);
    QueueWait(ts, cfg, now, ts.taken);
    assert ts.tickets[ts.taken + 0].sentAt <= ts.queue[0].claim.acquired + cfg.setup;
    forall v | 0 <= v < |ts'.workers|
      ensures SlotOk(ts'.workers[v], |ts'.workers|, cfg, now) && StartedInTime(ts'.workers[v], ts', cfg)
    {
      assert v != w ==> SlotOk(ts.workers[v], |ts.workers|, cfg, now) && StartedInTime(ts.workers[v], ts, cfg);
    }
  }

  lemma ReceiveKeepsQueue(ts: Tasks, w: nat, cfg: Config, now: nat)
    requires QueueOk(ts, cfg, now) && w < |ts.workers| && ts.queue != []
    ensures QueueOk(Receive(ts, w, now), cfg, now)
  {
    var ts' := Receive(ts, w, now);
    forall i | 0 <= i < |ts'.queue| && ts'.taken + i < |ts'.tickets|
      ensures ts'.queue[i].claim.expires == ts'.queue[i].claim.acquired + cfg.lockTTL
      ensures ts'.tickets[ts'.taken + i].sentAt <= ts'.queue[i].claim.acquired + cfg.setup
    {
      assert ts'.queue[i] == ts.queue[i + 1] && ts'.taken + i == ts.taken + (i + 1);
    }
  }

  /** A worker goes on with the same claim, or becomes idle. */
  lemma SlotKeeps(ts: Tasks, w: nat, task: Option<Task>, cfg: Config, now: nat)
    requires LeaseOk(ts, cfg, now) && w < |ts.workers| && ts.workers[w].task.Some?
    requires task.Some? ==> task.value.claim == ts.workers[w].task.value.claim
    ensures LeaseOk(ts.(workers := ts.workers[w := ts.workers[w].(task := task)]), cfg, now)
  {
    var ts' := ts.(workers := ts.workers[w := ts.workers[w].(task := task)]);
    assert TookNow(ts') == TookNow(ts);
    assert SlotOk(ts.workers[w], |ts.workers|, cfg, now);
    forall k | ts'.taken <= k < |ts'.tickets|
      ensures TicketOk(ts', cfg, k)
      ensures forall v :: 0 <= v < |ts'.workers| ==> Busy(ts'.workers[v], ts'.tickets[k], ts'.tickets[k].took[v], now)
    {
      assert TicketOk(ts, cfg, k);
      forall v | 0 <= v < |ts'.workers| ensures Busy(ts'.workers[v], ts'.tickets[k], ts'.tickets[k].took[v], now) {
        assert Busy(ts.workers[v], ts.tickets[k], ts.tickets[k].took[v], now);
      }
    }
  }

  lemma AdvanceKeeps(s: Sys, d: nat)
    requires LeaseOk(s.ts, s.cfg, s.now) && Timely(s, Advance(d))
    ensures LeaseOk(s.ts, s.cfg, s.now + d)
  {
    forall k | s.ts.taken <= k < |s.ts.tickets|
      ensures forall w :: 0 <= w < |s.ts.workers| ==>
        Busy(s.ts.workers[w], s.ts.tickets[k], s.ts.tickets[k].took[w], s.now + d)
    {
      assert TicketOk(s.ts, s.cfg, k);
      assert s.ts.queue != [];
      forall w | 0 <= w < |s.ts.workers|
        ensures Busy(s.ts.workers[w], s.ts.tickets[k], s.ts.tickets[k].took[w], s.now + d)
      {
        assert Busy(s.ts.workers[w], s.ts.tickets[k], s.ts.tickets[k].took[w], s.now);
      }
    }
    forall w | 0 <= w < |s.ts.workers| ensures SlotOk(s.ts.workers[w], |s.ts.workers|, s.cfg, s.now + d) {
      assert SlotOk(s.ts.workers[w], |s.ts.workers|, s.cfg, s.now);
    }
  }

  lemma StoppedLeaseOk(ts: Tasks, cfg: Config, now: nat)
    requires |ts.workers| > 0
    ensures LeaseOk(Stopped(ts), cfg, now)
  {
    SumZero(TookNow(Stopped(ts)));
  }

  lemma SetTriggerKeeps(ts: Tasks, t: nat, task: Task, cfg: Config, now: nat)
    requires LeaseOk(ts, cfg, now) && TriggerOk(task, cfg, now)
    ensures LeaseOk(SetTrigger(ts, t, task), cfg, now)
  {
    TriggersKeep(ts, ts.triggers[t := task], cfg, now);
  }

  lemma AcquireKeepsLease(s: Sys, t: nat, request: Request, token: Token, reply: Reply)
    requires LeaseOk(s.ts, s.cfg, s.now) && Dated(request)
    ensures LeaseOk(DoAcquire(s, t, request, token, reply).ts, s.cfg, s.now)
  {
    AcquireTasks(s, t, request, token, reply);
    SetTriggerKeeps(s.ts, t, Task(Holding, 0, Claim(request, token, s.now, s.now + s.cfg.lockTTL)), s.cfg, s.now);
  }

  /** A trigger goes on with the same claim. */
  lemma NextTriggerKeeps(ts: Tasks, t: nat, stage: Stage, run: RunId, cfg: Config, now: nat)
    requires LeaseOk(ts, cfg, now) && t in ts.triggers
    ensures LeaseOk(SetTrigger(ts, t, Task(stage, run, ts.triggers[t].claim)), cfg, now)
  {
    assert TriggerOk(ts.triggers[t], cfg, now);
    SetTriggerKeeps(ts, t, Task(stage, run, ts.triggers[t].claim), cfg, now);
  }

  lemma TriggerStepKeepsLease(s: Sys, step: Step)
    requires LeaseOk(s.ts, s.cfg, s.now) && Enabled(s, step)
    requires step.CreateRun? || step.AuditTriggered? || step.RejectRun?
             || (step.Enqueue? && |s.ts.queue| >= s.cfg.capacity)
    ensures LeaseOk(Apply(s, step).ts, s.cfg, s.now)
  {
    var m := MoveOf(s, step);
    NextTriggerKeeps(s.ts, step.t, m.task.stage, m.task.run, s.cfg, s.now);
  }

  /** Every timely step keeps the bounds. */
  lemma StepKeepsLease(s: Sys, step: Step)
    requires LeaseOk(s.ts, s.cfg, s.now) && Enabled(s, step) && Timely(s, step)
    ensures LeaseOk(Apply(s, step).ts, s.cfg, Apply(s, step).now)
  {
    if IsWorkerStep(step) {
      WorkerStepKeepsLease(s, step);
    } else if step.CreateRun? || step.AuditTriggered? || step.RejectRun?
              || (step.Enqueue? && |s.ts.queue| >= s.cfg.capacity) {
      TriggerStepKeepsLease(s, step);
    } else {
      QueueStepKeepsLease(s, step);
    }
  }

  lemma QueueStepKeepsLease(s: Sys, step: Step)
    requires LeaseOk(s.ts, s.cfg, s.now) && Enabled(s, step) && Timely(s, step) && !IsWorkerStep(step)
    requires !step.CreateRun? && !step.AuditTriggered? && !step.RejectRun?
    requires step.Enqueue? ==> |s.ts.queue| < s.cfg.capacity
    ensures LeaseOk(Apply(s, step).ts, s.cfg, Apply(s, step).now)
  {
    if step.Acquire? {
      AcquireKeepsLease(s, step.t, step.request, step.token, step.reply);
    } else if step.Advance? {
      AdvanceKeeps(s, step.d);
    } else {
      PlaceStepKeepsLease(s, step);
    }
  }

  predicate MovesPlace(step: Step) {
    || step.Enqueue? || step.ReleaseTrigger? || step.TakeJob? || step.ReleaseWorker?
    || step.Restart? || step.Arrive? || step.Read?
  }

  lemma ReleaseTriggerKeepsLease(s: Sys, t: nat, reply: Reply)
    requires LeaseOk(s.ts, s.cfg, s.now) && Enabled(s, ReleaseTrigger(t, reply))
    ensures LeaseOk(DoReleaseTrigger(s, t, reply).ts, s.cfg, DoReleaseTrigger(s, t, reply).now)
  {
    TriggersKeep(s.ts, s.ts.triggers - {t}, s.cfg, s.now);
  }

  lemma ReleaseWorkerKeepsLease(s: Sys, w: nat, reply: Reply)
    requires LeaseOk(s.ts, s.cfg, s.now) && Enabled(s, ReleaseWorker(w, reply))
    ensures LeaseOk(DoReleaseWorker(s, w, reply).ts, s.cfg, DoReleaseWorker(s, w, reply).now)
  {
    SlotKeeps(s.ts, w, None, s.cfg, s.now);
  }

  lemma PlaceStepKeepsLease(s: Sys, step: Step)
    requires LeaseOk(s.ts, s.cfg, s.now) && Enabled(s, step) && MovesPlace(step)
    requires step.Enqueue? ==> |s.ts.queue| < s.cfg.capacity
    ensures LeaseOk(Apply(s, step).ts, s.cfg, Apply(s, step).now)
  {
    match step
    case Enqueue(t) => SendKeeps(s.ts, t, s.cfg, s.now);
    case ReleaseTrigger(t, reply) => ReleaseTriggerKeepsLease(s, t, reply);
    case TakeJob(w) => ReceiveKeeps(s.ts, w, s.cfg, s.now);
    case ReleaseWorker(w, reply) => ReleaseWorkerKeepsLease(s, w, reply);
    case Restart => StoppedLeaseOk(s.ts, s.cfg, s.now);
    case Arrive(_) =>
    case Read(_) =>
  }

  lemma WorkerStepKeepsLease(s: Sys, step: Step)
    requires LeaseOk(s.ts, s.cfg, s.now) && Enabled(s, step) && IsWorkerStep(step)
    ensures LeaseOk(Apply(s, step).ts, s.cfg, Apply(s, step).now)
  {
    var stage := MoveOf(s, step).task.stage;
    assert Apply(s, step).ts == SetWorker(s.ts, step.w, stage) && Apply(s, step).now == s.now;
    SlotKeeps(s.ts, step.w, Some(s.ts.workers[step.w].task.value.(stage := stage)), s.cfg, s.now);
  }

  // ----- what it means -----

  /** The longest time from the send of a job to its end: the wait for a full queue, and one job. */
  function JobBound(cfg: Config, workers: nat): nat
    requires workers > 0
  {
    (Rounds(cfg.capacity, workers) + 1) * PROCESS_LIMIT
  }

  /** The largest age of a claim: set-up, and one job from send to end. */
  function AgeBound(cfg: Config, workers: nat): nat
    requires workers > 0
  {
    cfg.setup + JobBound(cfg, workers)
  }

  /** The channel index of a job that was sent. */
  function TicketOf(ts: Tasks, p: Place): Option<nat> {
    match p
    case AtTrigger(_) => None
    case AtQueue(k) => Some(k)
    case AtWorker(w) => if w < |ts.workers| then Some(ts.workers[w].index) else None
  }

  /** Every job that was sent and has not ended is within the bound, measured from its send. */
  lemma JobAge(s: Sys, p: Place)
    requires LeaseOk(s.ts, s.cfg, s.now) && TaskAt(s.ts, p).Some? && !p.AtTrigger?
    ensures
      var k := TicketOf(s.ts, p);
      && k.Some? && k.value < |s.ts.tickets|
      && s.now <= s.ts.tickets[k.value].sentAt + JobBound(s.cfg, |s.ts.workers|)
  {
    match p
    case AtWorker(w) =>
      assert SlotOk(s.ts.workers[w], |s.ts.workers|, s.cfg, s.now);
      assert StartedInTime(s.ts.workers[w], s.ts, s.cfg);
    case AtQueue(k) => QueueWait(s.ts, s.cfg, s.now, k);
  }

  /** No live claim is older than the bound, and its lease was taken for lockTTL. */
  lemma ClaimAge(s: Sys, p: Place)
    requires LeaseOk(s.ts, s.cfg, s.now) && TaskAt(s.ts, p).Some?
    ensures
      var c := TaskAt(s.ts, p).value.claim;
      s.now <= c.acquired + AgeBound(s.cfg, |s.ts.workers|) && c.expires == c.acquired + s.cfg.lockTTL
  {
    match p
    case AtTrigger(t) => assert TriggerOk(s.ts.triggers[t], s.cfg, s.now);
    case AtWorker(w) => assert SlotOk(s.ts.workers[w], |s.ts.workers|, s.cfg, s.now);
    case AtQueue(k) =>
      QueueWait(s.ts, s.cfg, s.now, k);
      assert s.ts.taken + (k - s.ts.taken) < |s.ts.tickets|;
  }

  /** With a TTL above the bound no lock expires before its job ends, so scopes are exclusive without exception. */
  lemma ExclusionInTime(s: Sys, p: Place, q: Place)
    requires LeaseOk(s.ts, s.cfg, s.now) && Guarded(s) && s.cfg.lockTTL > AgeBound(s.cfg, |s.ts.workers|)
    requires TaskAt(s.ts, p).Some? && TaskAt(s.ts, q).Some?
    requires ScopeOf(TaskAt(s.ts, p).value.claim.request) == ScopeOf(TaskAt(s.ts, q).value.claim.request)
    ensures p == q
  {
    ClaimAge(s, p);
    ClaimAge(s, q);
    if p != q {
      ScopeExclusion(s, p, q);
    }
  }

  /** The defaults (queue of 64, one worker, 15 minutes) do not meet the condition, whatever the set-up time. */
  lemma DefaultsMissTheBound(setup: nat)
    ensures !(15 * 60 > AgeBound(Config(64, 15 * 60, setup), 1))
  {
    assert Rounds(64, 1) == 64;
  }

  // ----- a job from its send on -----

  /** The only live job of this run is the one with channel index k, sent at that time. */
  ghost predicate SentOnce(ts: Tasks, run: RunId, k: nat, sentAt: nat) {
    forall p :: TaskAt(ts, p).Some? && HasRun(TaskAt(ts, p).value.stage) && TaskAt(ts, p).value.run == run ==>
      TicketOf(ts, p) == Some(k) && k < |ts.tickets| && ts.tickets[k].sentAt == sentAt
  }

  lemma SetTriggerSentOnce(ts: Tasks, t: nat, task: Task, run: RunId, k: nat, sentAt: nat)
    requires SentOnce(ts, run, k, sentAt) && (HasRun(task.stage) ==> task.run != run)
    ensures SentOnce(SetTrigger(ts, t, task), run, k, sentAt)
  {
    var ts' := SetTrigger(ts, t, task);
    forall p | p != AtTrigger(t) ensures TaskAt(ts', p) == TaskAt(ts, p) && TicketOf(ts', p) == TicketOf(ts, p) {}
  }

  lemma EndTriggerSentOnce(ts: Tasks, t: nat, run: RunId, k: nat, sentAt: nat)
    requires SentOnce(ts, run, k, sentAt)
    ensures SentOnce(EndTrigger(ts, t), run, k, sentAt)
  {
    var ts' := EndTrigger(ts, t);
    forall p | TaskAt(ts', p).Some? ensures TaskAt(ts', p) == TaskAt(ts, p) && TicketOf(ts', p) == TicketOf(ts, p) {}
  }

  /** No trigger carries the run of a job that was sent. */
  lemma NotAtTrigger(ts: Tasks, t: nat, run: RunId, k: nat, sentAt: nat)
    requires SentOnce(ts, run, k, sentAt) && t in ts.triggers && HasRun(ts.triggers[t].stage)
    ensures ts.triggers[t].run != run
  {
    assert TaskAt(ts, AtTrigger(t)) == Some(ts.triggers[t]);
  }

  lemma SendSentOnce(ts: Tasks, t: nat, now: nat, run: RunId, k: nat, sentAt: nat)
    requires SentOnce(ts, run, k, sentAt) && t in ts.triggers && ts.triggers[t].run != run
    ensures SentOnce(Send(ts, t, now), run, k, sentAt)
  {
    var ts' := Send(ts, t, now);
    SendMoves(ts, t, now);
    forall p | TaskAt(ts', p).Some? && p != AtQueue(ts.taken + |ts.queue|)
      ensures TaskAt(ts', p) == TaskAt(ts, p) && TicketOf(ts', p) == TicketOf(ts, p)
    {}
  }

  lemma ReceiveSentOnce(ts: Tasks, w: nat, now: nat, run: RunId, k: nat, sentAt: nat)
    requires SentOnce(ts, run, k, sentAt) && w < |ts.workers| && ts.workers[w].task.None? && ts.queue != []
    ensures SentOnce(Receive(ts, w, now), run, k, sentAt)
  {
    var ts' := Receive(ts, w, now);
    ReceiveMoves(ts, w, now);
    forall p | TaskAt(ts', p).Some? && p != AtWorker(w)
      ensures TaskAt(ts', p) == TaskAt(ts, p) && TicketOf(ts', p) == TicketOf(ts, p)
    {}
    assert TaskAt(ts, AtQueue(ts.taken)) == Some(Task(Queued, ts.queue[0].run, ts.queue[0].claim));
  }

  /** A worker goes on with the same job, or ends it. */
  lemma SlotSentOnce(ts: Tasks, w: nat, task: Option<Task>, run: RunId, k: nat, sentAt: nat)
    requires SentOnce(ts, run, k, sentAt) && w < |ts.workers| && ts.workers[w].task.Some?
    requires HasRun(ts.workers[w].task.value.stage) && (task.Some? ==> task.value.run == ts.workers[w].task.value.run)
    ensures SentOnce(ts.(workers := ts.workers[w := ts.workers[w].(task := task)]), run, k, sentAt)
  {
    var ts' := ts.(workers := ts.workers[w := ts.workers[w].(task := task)]);
    assert TaskAt(ts, AtWorker(w)) == ts.workers[w].task;
    forall p | TaskAt(ts', p).Some? && p != AtWorker(w)
      ensures TaskAt(ts', p) == TaskAt(ts, p) && TicketOf(ts', p) == TicketOf(ts, p)
    {}
  }

  /** The job of trigger t goes into the channel. */
  lemma SendIsSentOnce(s: Sys, t: nat)
    requires Counts(s.ts, s.cfg) && TriggerIs(s, t, Audited)
    requires forall p :: TaskAt(s.ts, p).Some? && p != AtTrigger(t) && HasRun(TaskAt(s.ts, p).value.stage)
                         ==> TaskAt(s.ts, p).value.run != s.ts.triggers[t].run
    ensures SentOnce(Send(s.ts, t, s.now), s.ts.triggers[t].run, s.ts.taken + |s.ts.queue|, s.now)
  {
    SendMoves(s.ts, t, s.now);
  }

  lemma StepKeepsSentOnce(s: Sys, step: Step, run: RunId, k: nat, sentAt: nat)
    requires SentOnce(s.ts, run, k, sentAt) && Enabled(s, step) && run in s.runs
    ensures SentOnce(Apply(s, step).ts, run, k, sentAt)
  {
    if IsWorkerStep(step) || step.TakeJob? || step.ReleaseWorker? {
      WorkerStepSentOnce(s, step, run, k, sentAt);
    } else if IsTriggerStep(step) || step.Enqueue? || step.ReleaseTrigger? {
      TriggerStepSentOnce(s, step, run, k, sentAt);
    } else if step.Restart? {
      assert forall p :: TaskAt(Stopped(s.ts), p).None?;
    }
  }

  lemma WorkerStepSentOnce(s: Sys, step: Step, run: RunId, k: nat, sentAt: nat)
    requires SentOnce(s.ts, run, k, sentAt) && Enabled(s, step)
    requires IsWorkerStep(step) || step.TakeJob? || step.ReleaseWorker?
    ensures SentOnce(Apply(s, step).ts, run, k, sentAt)
  {
    if step.TakeJob? {
      ReceiveSentOnce(s.ts, step.w, s.now, run, k, sentAt);
    } else if step.ReleaseWorker? {
      UnlockKeepsTasks(s.(ts := EndWorker(s.ts, step.w)), s.ts.workers[step.w].task.value.claim, step.reply);
      SlotSentOnce(s.ts, step.w, None, run, k, sentAt);
    } else {
      SetWorkerSentOnce(s, step, run, k, sentAt);
    }
  }

  lemma SetWorkerSentOnce(s: Sys, step: Step, run: RunId, k: nat, sentAt: nat)
    requires SentOnce(s.ts, run, k, sentAt) && Enabled(s, step) && IsWorkerStep(step)
    ensures SentOnce(Apply(s, step).ts, run, k, sentAt)
  {
    var stage := MoveOf(s, step).task.stage;
    assert Apply(s, step).ts == SetWorker(s.ts, step.w, stage);
    SlotSentOnce(s.ts, step.w, Some(s.ts.workers[step.w].task.value.(stage := stage)), run, k, sentAt);
  }

  lemma TriggerStepSentOnce(s: Sys, step: Step, run: RunId, k: nat, sentAt: nat)
    requires SentOnce(s.ts, run, k, sentAt) && Enabled(s, step) && run in s.runs
    requires IsTriggerStep(step) || step.Enqueue? || step.ReleaseTrigger?
    ensures SentOnce(Apply(s, step).ts, run, k, sentAt)
  {
    if step.ReleaseTrigger? {
      UnlockKeepsTasks(s.(ts := EndTrigger(s.ts, step.t)), s.ts.triggers[step.t].claim, step.reply);
      EndTriggerSentOnce(s.ts, step.t, run, k, sentAt);
    } else if step.Enqueue? {
      EnqueueSentOnce(s, step.t, run, k, sentAt);
    } else {
      SetStepSentOnce(s, step, run, k, sentAt);
    }
  }

  lemma EnqueueSentOnce(s: Sys, t: nat, run: RunId, k: nat, sentAt: nat)
    requires SentOnce(s.ts, run, k, sentAt) && TriggerIs(s, t, Audited)
    ensures SentOnce(DoEnqueue(s, t).ts, run, k, sentAt)
  {
    NotAtTrigger(s.ts, t, run, k, sentAt);
    if |s.ts.queue| < s.cfg.capacity {
      SendSentOnce(s.ts, t, s.now, run, k, sentAt);
    } else {
      SetTriggerSentOnce(s.ts, t, s.ts.triggers[t].(stage := Full), run, k, sentAt);
    }
  }

  lemma SetStepSentOnce(s: Sys, step: Step, run: RunId, k: nat, sentAt: nat)
    requires SentOnce(s.ts, run, k, sentAt) && Enabled(s, step) && IsTriggerStep(step) && run in s.runs
    ensures SentOnce(Apply(s, step).ts, run, k, sentAt)
  {
    var m := MoveOf(s, step);
    if m != Stay {
      assert Apply(s, step).ts == SetTrigger(s.ts, step.t, m.task);
      if step.AuditTriggered? || step.RejectRun? {
        NotAtTrigger(s.ts, step.t, run, k, sentAt);
      }
      SetTriggerSentOnce(s.ts, step.t, m.task, run, k, sentAt);
    }
  }
}
