/**
 The lease bound is exact: with any number of workers, any queue and any set-up time, if
 the lock TTL does not exceed the bound, some timely run puts two live jobs in one scope.
 The run fills every worker and the whole queue with jobs acquired at one moment, lets
 each worker spend its full time on each job, and triggers the last job's scope again when
 its lock expires.
 */
module Tightness {
  import opened Common
  import opened Time
  import opened Snapshots
  import opened Keys
  import opened Protocol
  import opened Ownership
  import opened Leases
  import opened Runs
  import Recompute

  // ----- distinct scopes -----

  /** 2000-01-01, in days since 0001-01-01. */
  const FIRST_DAY: nat := 730_119

  /** As many days have four-digit years from there on. */
  const MANY: nat := 2_921_940

  /** What Trigger accepts and looks up with success: a served report, on the midnight dates that the handler parses. */
  predicate Receivable(q: Request, maxRangeDays: int) {
    && Supported(q.slug) && Midnight(q.dateFrom) == q.dateFrom && Midnight(q.dateTo) == q.dateTo
    && (var raw := Recompute.RawRequest(q.slug, WindowName(q.window), q.dateFrom, q.dateTo);
        Recompute.DatedRaw(raw) && Recompute.Accept(raw, maxRangeDays) == Success(q))
  }

  /** The i-th of many scopes: the daily volume of one day. */
  function Demand(i: nat): Request {
    Request(VolumeByPeriod, Day, (FIRST_DAY + i) * DAY, (FIRST_DAY + i) * DAY)
  }

  lemma DemandIsReceivable(i: nat, maxRangeDays: int)
    requires i < MANY && maxRangeDays >= 1
    ensures Dated(Demand(i)) && Receivable(Demand(i), maxRangeDays)
  {
    var d := FIRST_DAY + i;
    DivMod(d * DAY, DAY, d, 0);
  }

  lemma DemandsDiffer(i: nat, j: nat)
    requires i < MANY && j < MANY && i != j && Dated(Demand(i)) && Dated(Demand(j))
    ensures LockKey(Demand(i)) != LockKey(Demand(j))
  {
    DivMod((FIRST_DAY + i) * DAY, DAY, FIRST_DAY + i, 0);
    DivMod((FIRST_DAY + j) * DAY, DAY, FIRST_DAY + j, 0);
    LockKeyIsScope(Demand(i), Demand(j));
  }

  /** A supply of n receivable requests with distinct scopes. */
  ghost predicate Supply(demand: nat -> Request, n: nat, maxRangeDays: int) {
    && (forall i: nat :: i < n ==> Dated(demand(i)) && Receivable(demand(i), maxRangeDays))
    && (forall i: nat, j: nat :: i < n && j < n && i != j ==> LockKey(demand(i)) != LockKey(demand(j)))
  }

  lemma SupplyExists(n: nat, maxRangeDays: int) returns (demand: nat -> Request)
    requires n <= MANY && maxRangeDays >= 1
    ensures Supply(demand, n, maxRangeDays)
  {
    demand := Demand;
    forall i: nat | i < n ensures Dated(demand(i)) && Receivable(demand(i), maxRangeDays) {
      assert demand(i) == Demand(i);
      DemandIsReceivable(i, maxRangeDays);
    }
    forall i: nat, j: nat | i < n && j < n && i != j ensures LockKey(demand(i)) != LockKey(demand(j)) {
      assert demand(i) == Demand(i) && demand(j) == Demand(j);
      DemandsDiffer(i, j);
    }
  }

  function ClaimOf(s: Sys, demand: nat -> Request, i: nat): Claim {
    Claim(demand(i), i, s.now, s.now + s.cfg.lockTTL)
  }

  // ----- steps of timely runs -----

  /** Every trigger of the run is one that the service accepts. */
  predicate Received(steps: seq<Step>, maxRangeDays: int) {
    forall i :: 0 <= i < |steps| && steps[i].Acquire? ==> Receivable(steps[i].request, maxRangeDays)
  }

  /** A timely run of receivable requests leads from s to m. */
  ghost predicate Drives(s: Sys, max: int, steps: seq<Step>, m: Sys) {
    Leads(s, steps, m) && Received(steps, max)
  }

  lemma Go(s: Sys, max: int, before: seq<Step>, m: Sys, step: Step) returns (steps: seq<Step>, m': Sys)
    requires Drives(s, max, before, m) && Enabled(m, step) && Timely(m, step)
    requires step.Acquire? ==> Receivable(step.request, max)
    ensures Drives(s, max, steps, m') && m' == Apply(m, step)
  {
    Extend(s, before, step);
    steps, m' := before + [step], Apply(m, step);
  }

  /** The effect of taking a free scope. */
  ghost predicate Takes(m: Sys, m': Sys, t: nat, key: string, claim: Claim) {
    && m'.locks == m.locks[key := Lock(claim.token, claim.expires)] && m'.used == m.used + {claim.token}
    && m'.ts == SetTrigger(m.ts, t, Task(Holding, 0, claim))
    && m'.cfg == m.cfg && m'.now == m.now && m'.runs == m.runs
  }

  lemma AcquireTakes(m: Sys, t: nat, claim: Claim)
    requires Dated(claim.request) && LockKey(claim.request) !in m.locks
    requires claim.acquired == m.now && claim.expires == m.now + m.cfg.lockTTL
    ensures Takes(m, DoAcquire(m, t, claim.request, claim.token, Ok), t, LockKey(claim.request), claim)
  {}

  lemma GoAcquire(s: Sys, max: int, before: seq<Step>, m: Sys, t: nat, claim: Claim) returns (steps: seq<Step>, m': Sys)
    requires Drives(s, max, before, m) && t !in m.ts.triggers && claim.token !in m.used
    requires Dated(claim.request) && LockKey(claim.request) !in m.locks
    requires claim.acquired == m.now && claim.expires == m.now + m.cfg.lockTTL && Receivable(claim.request, max)
    ensures Drives(s, max, steps, m') && Takes(m, m', t, LockKey(claim.request), claim)
  {
    AcquireTakes(m, t, claim);
    steps, m' := Go(s, max, before, m, Acquire(t, claim.request, claim.token, Ok));
  }

  /** What every state of the run keeps: every lock expires at the same moment. */
  ghost predicate Same(s: Sys, m: Sys, tokens: nat) {
    && m.cfg == s.cfg && |m.ts.workers| == |s.ts.workers|
    && (forall k :: k in m.locks ==> m.locks[k].expires == s.now + s.cfg.lockTTL)
    && (forall u :: u in m.used ==> u < tokens)
  }

  // ----- every scope is acquired at one moment -----

  ghost predicate Acquired(s: Sys, demand: nat -> Request, m: Sys, n: nat) {
    && Same(s, m, n) && m.now == s.now && m.runs == s.runs && m.ts == s.ts.(triggers := m.ts.triggers)
    && (forall t :: t in m.ts.triggers <==> 0 <= t < n)
    && (forall t :: 0 <= t < n ==> m.ts.triggers[t] == Task(Holding, 0, ClaimOf(s, demand, t)))
    && (forall k :: k in m.locks ==> m.locks[k].token < n && Dated(demand(m.locks[k].token))
                                     && k == LockKey(demand(m.locks[k].token)))
  }

  lemma FreeDemand(s: Sys, demand: nat -> Request, max: int, m: Sys, n: nat, supply: nat)
    requires Supply(demand, supply, max) && n < supply && Acquired(s, demand, m, n)
    ensures Dated(demand(n)) && LockKey(demand(n)) !in m.locks
  {}

  lemma AcquiredNext(s: Sys, demand: nat -> Request, m: Sys, m': Sys, key: string, n: nat)
    requires Acquired(s, demand, m, n) && Dated(demand(n)) && key == LockKey(demand(n))
    requires Takes(m, m', n, key, ClaimOf(s, demand, n))
    ensures Acquired(s, demand, m', n + 1)
  {}

  lemma AcquireNext(s: Sys, demand: nat -> Request, max: int, before: seq<Step>, m: Sys, n: nat, supply: nat)
    returns (steps: seq<Step>, m': Sys)
    requires Supply(demand, supply, max) && n < supply && Drives(s, max, before, m) && Acquired(s, demand, m, n)
    ensures Drives(s, max, steps, m') && Acquired(s, demand, m', n + 1)
  {
    var claim := ClaimOf(s, demand, n);
    FreeDemand(s, demand, max, m, n, supply);
    steps, m' := GoAcquire(s, max, before, m, n, claim);
    AcquiredNext(s, demand, m, m', LockKey(claim.request), n);
  }

  lemma {:induction false} AcquireAll(s: Sys, demand: nat -> Request, max: int, n: nat, supply: nat)
    returns (steps: seq<Step>, m: Sys)
    requires Start(s) && Supply(demand, supply, max) && n <= supply
    ensures Drives(s, max, steps, m) && Acquired(s, demand, m, n)
  {
    if n == 0 {
      steps, m := [], s;
    } else {
      steps, m := AcquireAll(s, demand, max, n - 1, supply);
      steps, m := AcquireNext(s, demand, max, steps, m, n - 1, supply);
    }
  }

  // ----- the workers and the queue are filled -----

  /** One trigger inserts its run and sends its job. */
  lemma SendOne(s: Sys, max: int, before: seq<Step>, m: Sys, t: nat, id: RunId) returns (steps: seq<Step>, m': Sys)
    requires Drives(s, max, before, m) && TriggerIs(m, t, Holding) && id !in m.runs && |m.ts.queue| < m.cfg.capacity
    ensures Drives(s, max, steps, m')
    ensures m'.ts.triggers == m.ts.triggers - {t} && m'.ts.queue == m.ts.queue + [Job(id, m.ts.triggers[t].claim)]
    ensures m'.ts.workers == m.ts.workers && m'.runs.Keys == m.runs.Keys + {id}
    ensures m'.locks == m.locks && m'.now == m.now && m'.cfg == m.cfg && m'.used == m.used
  {
    steps, m' := Go(s, max, before, m, CreateRun(t, id, Ok));
    var m1 := m';
    assert m1.ts == SetTrigger(m.ts, t, Task(Created, id, m.ts.triggers[t].claim));
    steps, m' := Go(s, max, steps, m', AuditTriggered(t, Ok));
    assert m'.ts == SetTrigger(m1.ts, t, Task(Audited, id, m.ts.triggers[t].claim));
    steps, m' := SendAudited(s, max, steps, m', t);
  }

  lemma SendAudited(s: Sys, max: int, before: seq<Step>, m: Sys, t: nat) returns (steps: seq<Step>, m': Sys)
    requires Drives(s, max, before, m) && TriggerIs(m, t, Audited) && |m.ts.queue| < m.cfg.capacity
    ensures Drives(s, max, steps, m')
    ensures m'.ts.triggers == m.ts.triggers - {t}
    ensures m'.ts.queue == m.ts.queue + [Job(m.ts.triggers[t].run, m.ts.triggers[t].claim)]
    ensures m'.ts.workers == m.ts.workers && m'.runs == m.runs
    ensures m'.locks == m.locks && m'.now == m.now && m'.cfg == m.cfg && m'.used == m.used
  {
    steps, m' := Go(s, max, before, m, Enqueue(t));
  }

  /** A worker is at the start of a job. */
  ghost predicate Fresh(slot: Slot, now: nat) {
    slot.task.Some? && slot.task.value.stage == Taken && Dated(slot.task.value.claim.request) && slot.start == now
  }

  lemma TakeOne(s: Sys, max: int, before: seq<Step>, m: Sys, w: nat) returns (steps: seq<Step>, m': Sys)
    requires Drives(s, max, before, m) && w < |m.ts.workers| && m.ts.workers[w].task.None?
    requires m.ts.queue != [] && Dated(m.ts.queue[0].claim.request)
    ensures Drives(s, max, steps, m') && m'.ts.triggers == m.ts.triggers && m'.ts.queue == m.ts.queue[1..]
    ensures |m'.ts.workers| == |m.ts.workers| && Fresh(m'.ts.workers[w], m.now)
    ensures m'.ts.workers[w].task.value.claim == m.ts.queue[0].claim
    ensures forall v :: 0 <= v < |m.ts.workers| && v != w ==> m'.ts.workers[v] == m.ts.workers[v]
    ensures m'.runs == m.runs && m'.locks == m.locks && m'.now == m.now && m'.cfg == m.cfg && m'.used == m.used
  {
    steps, m' := Go(s, max, before, m, TakeJob(w));
  }

  /** Trigger t holds the lock of a job that has no run row yet. */
  ghost predicate Ready(m: Sys, t: nat, job: Job) {
    && t in m.ts.triggers && m.ts.triggers[t] == Task(Holding, 0, job.claim) && job.run !in m.runs
    && Dated(job.claim.request)
  }

  /** The queue is empty and worker w is idle. */
  ghost predicate Vacant(m: Sys, w: nat) {
    m.ts.queue == [] && m.cfg.capacity > 0 && w < |m.ts.workers| && m.ts.workers[w].task.None?
  }

  /** The job of trigger t is with worker t. */
  ghost predicate Handed(m: Sys, m': Sys, t: nat, job: Job) {
    && m'.ts.triggers == m.ts.triggers - {t} && m'.ts.queue == [] && m'.runs.Keys == m.runs.Keys + {job.run}
    && t < |m'.ts.workers| == |m.ts.workers| && Fresh(m'.ts.workers[t], m'.now)
    && (forall v :: 0 <= v < |m.ts.workers| && v != t ==> m'.ts.workers[v] == m.ts.workers[v])
    && m'.locks == m.locks && m'.now == m.now && m'.cfg == m.cfg && m'.used == m.used
  }

  /** A trigger's job goes through the empty queue to the idle worker of the same number. */
  lemma SendAndTake(s: Sys, max: int, before: seq<Step>, m: Sys, t: nat, job: Job) returns (steps: seq<Step>, m': Sys)
    requires Drives(s, max, before, m) && Ready(m, t, job) && Vacant(m, t)
    ensures Drives(s, max, steps, m') && Handed(m, m', t, job)
  {
    var m1;
    steps, m1 := SendOne(s, max, before, m, t, job.run);
    assert m1.ts.queue == [job];
    steps, m' := TakeOne(s, max, steps, m1, t);
  }

  /** After i of n jobs: the first ones are with the workers, the rest in the queue. */
  ghost predicate Filled(s: Sys, demand: nat -> Request, base: nat, m: Sys, n: nat, i: nat) {
    var ws := |s.ts.workers|;
    && i <= n && Same(s, m, n) && (forall id :: id in m.runs ==> id < base + i)
    && (forall t :: t in m.ts.triggers <==> i <= t < n)
    && (forall t :: i <= t < n ==> m.ts.triggers[t] == Task(Holding, 0, ClaimOf(s, demand, t)))
    && (forall w :: 0 <= w < ws ==> if w < i then Fresh(m.ts.workers[w], m.now) else m.ts.workers[w].task.None?)
    && |m.ts.queue| == (if i <= ws then 0 else i - ws)
    && (forall j :: 0 <= j < |m.ts.queue| ==> m.ts.queue[j].claim == ClaimOf(s, demand, ws + j))
  }

  lemma FilledByTake(s: Sys, demand: nat -> Request, base: nat, m: Sys, m': Sys, n: nat, i: nat)
    requires Filled(s, demand, base, m, n, i) && i < n && i < |s.ts.workers|
    requires Handed(m, m', i, Job(base + i, ClaimOf(s, demand, i)))
    ensures Filled(s, demand, base, m', n, i + 1)
  {}

  /** The job of trigger t went to the end of the queue. */
  ghost predicate Sent(m: Sys, m': Sys, t: nat, job: Job) {
    && m'.ts.triggers == m.ts.triggers - {t} && m'.ts.queue == m.ts.queue + [job]
    && m'.ts.workers == m.ts.workers && m'.runs.Keys == m.runs.Keys + {job.run}
    && m'.locks == m.locks && m'.now == m.now && m'.cfg == m.cfg && m'.used == m.used
  }

  lemma FilledBySend(s: Sys, demand: nat -> Request, base: nat, m: Sys, m': Sys, n: nat, i: nat)
    requires Filled(s, demand, base, m, n, i) && |s.ts.workers| <= i < n
    requires Sent(m, m', i, Job(base + i, ClaimOf(s, demand, i)))
    ensures Filled(s, demand, base, m', n, i + 1)
  {}

  /** The next trigger to go on, and where its job will go. */
  lemma FilledNext(s: Sys, demand: nat -> Request, base: nat, m: Sys, n: nat, i: nat)
    requires Filled(s, demand, base, m, n, i) && i < n && n <= |s.ts.workers| + s.cfg.capacity
    requires Dated(demand(i)) && s.cfg.capacity > 0
    ensures Ready(m, i, Job(base + i, ClaimOf(s, demand, i)))
    ensures if i < |s.ts.workers| then Vacant(m, i) else |m.ts.queue| < m.cfg.capacity
  {}

  lemma FillWorker(s: Sys, demand: nat -> Request, base: nat, max: int, before: seq<Step>, m: Sys, n: nat, i: nat)
    returns (steps: seq<Step>, m': Sys)
    requires Drives(s, max, before, m) && Filled(s, demand, base, m, n, i) && i < n && Dated(demand(i))
    requires i < |s.ts.workers| && n <= |s.ts.workers| + s.cfg.capacity && s.cfg.capacity > 0
    ensures Drives(s, max, steps, m') && Filled(s, demand, base, m', n, i + 1) && m'.now == m.now
  {
    var job := Job(base + i, ClaimOf(s, demand, i));
    FilledNext(s, demand, base, m, n, i);
    steps, m' := SendAndTake(s, max, before, m, i, job);
    FilledByTake(s, demand, base, m, m', n, i);
  }

  /** A job goes to the end of the queue. */
  lemma SendJob(s: Sys, max: int, before: seq<Step>, m: Sys, t: nat, job: Job) returns (steps: seq<Step>, m': Sys)
    requires Drives(s, max, before, m) && Ready(m, t, job) && |m.ts.queue| < m.cfg.capacity
    ensures Drives(s, max, steps, m') && Sent(m, m', t, job)
  {
    steps, m' := SendOne(s, max, before, m, t, job.run);
  }

  lemma FillQueue(s: Sys, demand: nat -> Request, base: nat, max: int, before: seq<Step>, m: Sys, n: nat, i: nat)
    returns (steps: seq<Step>, m': Sys)
    requires Drives(s, max, before, m) && Filled(s, demand, base, m, n, i) && Dated(demand(i))
    requires |s.ts.workers| <= i < n <= |s.ts.workers| + s.cfg.capacity
    ensures Drives(s, max, steps, m') && Filled(s, demand, base, m', n, i + 1) && m'.now == m.now
  {
    var job := Job(base + i, ClaimOf(s, demand, i));
    FilledNext(s, demand, base, m, n, i);
    steps, m' := SendJob(s, max, before, m, i, job);
    FilledBySend(s, demand, base, m, m', n, i);
  }

  lemma FillNext(s: Sys, demand: nat -> Request, base: nat, max: int, before: seq<Step>, m: Sys, n: nat, i: nat)
    returns (steps: seq<Step>, m': Sys)
    requires Drives(s, max, before, m) && Filled(s, demand, base, m, n, i) && i < n && Dated(demand(i))
    requires n <= |s.ts.workers| + s.cfg.capacity && s.cfg.capacity > 0
    ensures Drives(s, max, steps, m') && Filled(s, demand, base, m', n, i + 1) && m'.now == m.now
  {
    if i < |s.ts.workers| {
      steps, m' := FillWorker(s, demand, base, max, before, m, n, i);
    } else {
      steps, m' := FillQueue(s, demand, base, max, before, m, n, i);
    }
  }

  ghost predicate DatedUpTo(demand: nat -> Request, n: nat) {
    forall i: nat :: i < n ==> Dated(demand(i))
  }

  lemma {:induction false} FillAll(s: Sys, demand: nat -> Request, base: nat, max: int, before: seq<Step>, m: Sys,
                                   n: nat, i: nat)
    returns (steps: seq<Step>, m': Sys)
    requires DatedUpTo(demand, n) && Drives(s, max, before, m) && Filled(s, demand, base, m, n, i)
    requires n <= |s.ts.workers| + s.cfg.capacity && s.cfg.capacity > 0
    ensures Drives(s, max, steps, m') && Filled(s, demand, base, m', n, n) && m'.now == m.now
    decreases n - i
  {
    if i == n {
      steps, m' := before, m;
    } else {
      steps, m' := FillNext(s, demand, base, max, before, m, n, i);
      steps, m' := FillAll(s, demand, base, max, steps, m', n, i + 1);
    }
  }

  // ----- rounds -----

  /** The claim c is the last of the queue, or with a worker. */
  ghost predicate LastIs(ts: Tasks, c: Claim) {
    if ts.queue != [] then ts.queue[|ts.queue| - 1].claim == c
    else exists w :: 0 <= w < |ts.workers| && ts.workers[w].task.Some? && ts.workers[w].task.value.claim == c
  }

  /** Between rounds: every worker has just started a job, or is idle because the queue is empty. */
  ghost predicate AtRound(s: Sys, m: Sys, n: nat, c: Claim) {
    && Same(s, m, n) && m.ts.triggers == map[] && LastIs(m.ts, c)
    && (forall j :: 0 <= j < |m.ts.queue| ==> Dated(m.ts.queue[j].claim.request))
    && (forall w :: 0 <= w < |m.ts.workers| ==>
          Fresh(m.ts.workers[w], m.now) || (m.ts.workers[w].task.None? && m.ts.queue == []))
  }

  /** In a round: the workers from w on still hold their old job. */
  ghost predicate InRound(s: Sys, m: Sys, n: nat, c: Claim, w: nat) {
    && Same(s, m, n) && m.ts.triggers == map[] && w <= |m.ts.workers|
    && (forall j :: 0 <= j < |m.ts.queue| ==> Dated(m.ts.queue[j].claim.request))
    && (forall v :: 0 <= v < w ==> Fresh(m.ts.workers[v], m.now) || (m.ts.workers[v].task.None? && m.ts.queue == []))
    && (forall v :: w <= v < |m.ts.workers| ==> Fresh(m.ts.workers[v], m.ts.workers[v].start))
    && (if m.ts.queue != [] then m.ts.queue[|m.ts.queue| - 1].claim == c
        else exists v :: 0 <= v < w && m.ts.workers[v].task.Some? && m.ts.workers[v].task.value.claim == c)
  }

  /** A worker gives up its job and releases the lock. */
  lemma FinishOne(s: Sys, max: int, before: seq<Step>, m: Sys, w: nat, n: nat) returns (steps: seq<Step>, m': Sys)
    requires Drives(s, max, before, m) && Same(s, m, n)
    requires w < |m.ts.workers| && Fresh(m.ts.workers[w], m.ts.workers[w].start)
    ensures Drives(s, max, steps, m') && Same(s, m', n) && m'.now == m.now
    ensures m'.ts.triggers == m.ts.triggers && m'.ts.queue == m.ts.queue
    ensures m'.ts.workers[w].task.None?
    ensures forall v :: 0 <= v < |m.ts.workers| && v != w ==> m'.ts.workers[v] == m.ts.workers[v]
  {
    steps, m' := Go(s, max, before, m, MarkRunning(w, Lost(false)));
    var m1 := m';
    assert m1.ts == SetWorker(m.ts, w, Releasing) && m1.locks == m.locks;
    steps, m' := ReleaseOne(s, max, steps, m1, w, n);
  }

  lemma ReleaseOne(s: Sys, max: int, before: seq<Step>, m: Sys, w: nat, n: nat) returns (steps: seq<Step>, m': Sys)
    requires Drives(s, max, before, m) && Same(s, m, n) && WorkerIs(m, w, Releasing)
    requires Dated(m.ts.workers[w].task.value.claim.request)
    ensures Drives(s, max, steps, m') && Same(s, m', n) && m'.now == m.now && m'.ts == EndWorker(m.ts, w)
  {
    var claim := m.ts.workers[w].task.value.claim;
    CompareDeleteKeeps(m.locks, LockKey(claim.request), claim.token);
    steps, m' := Go(s, max, before, m, ReleaseWorker(w, Ok));
  }

  lemma RoundNext(s: Sys, max: int, before: seq<Step>, m: Sys, n: nat, c: Claim, w: nat)
    returns (steps: seq<Step>, m': Sys)
    requires Drives(s, max, before, m) && InRound(s, m, n, c, w) && w < |m.ts.workers|
    ensures Drives(s, max, steps, m') && InRound(s, m', n, c, w + 1) && m'.now == m.now
    ensures |m'.ts.queue| == (if m.ts.queue == [] then 0 else |m.ts.queue| - 1)
  {
    var m1;
    steps, m1 := FinishOne(s, max, before, m, w, n);
    if m.ts.queue == [] {
      m' := m1;
      RoundIdles(s, m, m', n, c, w);
    } else {
      assert Dated(m1.ts.queue[0].claim.request);
      steps, m' := TakeOne(s, max, steps, m1, w);
      RoundTakes(s, m, m', n, c, w);
    }
  }

  /** Only worker w has changed. */
  ghost predicate Elsewhere(m: Sys, m': Sys, w: nat) {
    && |m'.ts.workers| == |m.ts.workers| && m'.now == m.now && m'.ts.triggers == m.ts.triggers
    && (forall v :: 0 <= v < |m.ts.workers| && v != w ==> m'.ts.workers[v] == m.ts.workers[v])
  }

  lemma RoundIdles(s: Sys, m: Sys, m': Sys, n: nat, c: Claim, w: nat)
    requires InRound(s, m, n, c, w) && w < |m.ts.workers| && m.ts.queue == []
    requires Same(s, m', n) && Elsewhere(m, m', w) && m'.ts.queue == [] && m'.ts.workers[w].task.None?
    ensures InRound(s, m', n, c, w + 1)
  {
    var v :| 0 <= v < w && m.ts.workers[v].task.Some? && m.ts.workers[v].task.value.claim == c;
    assert m'.ts.workers[v] == m.ts.workers[v];
  }

  lemma RoundTakes(s: Sys, m: Sys, m': Sys, n: nat, c: Claim, w: nat)
    requires InRound(s, m, n, c, w) && w < |m.ts.workers| && m.ts.queue != []
    requires Same(s, m', n) && Elsewhere(m, m', w) && m'.ts.queue == m.ts.queue[1..]
    requires Fresh(m'.ts.workers[w], m'.now) && m'.ts.workers[w].task.value.claim == m.ts.queue[0].claim
    ensures InRound(s, m', n, c, w + 1)
  {}

  lemma {:induction false} RoundFrom(s: Sys, max: int, before: seq<Step>, m: Sys, n: nat, c: Claim, w: nat)
    returns (steps: seq<Step>, m': Sys)
    requires Drives(s, max, before, m) && InRound(s, m, n, c, w)
    ensures Drives(s, max, steps, m') && AtRound(s, m', n, c) && m'.now == m.now
    ensures |m'.ts.queue| == (if |m.ts.queue| <= |m.ts.workers| - w then 0 else |m.ts.queue| - (|m.ts.workers| - w))
    decreases |m.ts.workers| - w
  {
    if w == |m.ts.workers| {
      steps, m' := before, m;
    } else {
      var m1;
      steps, m1 := RoundNext(s, max, before, m, n, c, w);
      steps, m' := RoundFrom(s, max, steps, m1, n, c, w + 1);
    }
  }

  /** Time passes between rounds. */
  lemma RoundWait(s: Sys, max: int, before: seq<Step>, m: Sys, n: nat, c: Claim, d: nat)
    returns (steps: seq<Step>, m': Sys)
    requires Drives(s, max, before, m) && AtRound(s, m, n, c) && d <= PROCESS_LIMIT
    ensures Drives(s, max, steps, m') && Same(s, m', n) && m'.now == m.now + d && m'.ts == m.ts
    ensures m'.now >= s.now + s.cfg.lockTTL ==> m'.locks == map[]
  {
    steps, m' := Go(s, max, before, m, Advance(d));
  }

  lemma RoundStarts(s: Sys, m: Sys, m1: Sys, n: nat, c: Claim)
    requires AtRound(s, m, n, c) && m.ts.queue != [] && Same(s, m1, n) && m1.ts == m.ts
    ensures InRound(s, m1, n, c, 0)
  {}

  lemma OneRound(s: Sys, max: int, before: seq<Step>, m: Sys, n: nat, c: Claim) returns (steps: seq<Step>, m': Sys)
    requires Drives(s, max, before, m) && AtRound(s, m, n, c) && m.ts.queue != []
    ensures Drives(s, max, steps, m') && AtRound(s, m', n, c) && m'.now == m.now + PROCESS_LIMIT
    ensures |m'.ts.queue| == (if |m.ts.queue| <= |m.ts.workers| then 0 else |m.ts.queue| - |m.ts.workers|)
  {
    var m1;
    steps, m1 := RoundWait(s, max, before, m, n, c, PROCESS_LIMIT);
    RoundStarts(s, m, m1, n, c);
    steps, m' := RoundFrom(s, max, steps, m1, n, c, 0);
  }

  lemma RoundsLess(q: nat, w: nat)
    requires q > 0 && w > 0
    ensures Rounds(if q <= w then 0 else q - w, w) == Rounds(q, w) - 1
  {
    var k, r := (q - 1) / w, (q - 1) % w;
    assert q - 1 == w * k + r;
    assert q + w - 1 == w * (k + 1) + r;
    DivMod(q + w - 1, w, k + 1, r);
    if q <= w {
      DivMod(q - 1, w, 0, q - 1);
      DivMod(w - 1, w, 0, w - 1);
    } else {
      DivMod(q - 1, w, k, r);
    }
  }

  lemma NoRounds(w: nat)
    requires w > 0
    ensures Rounds(0, w) == 0
  {
    DivMod(w - 1, w, 0, w - 1);
  }

  /** One of several rounds that remain. */
  lemma LongRound(s: Sys, max: int, before: seq<Step>, m: Sys, n: nat, c: Claim) returns (steps: seq<Step>, m1: Sys)
    requires Drives(s, max, before, m) && AtRound(s, m, n, c) && |m.ts.workers| > 0
    requires m.now + PROCESS_LIMIT < s.now + s.cfg.lockTTL
    requires s.now + s.cfg.lockTTL <= m.now + (Rounds(|m.ts.queue|, |m.ts.workers|) + 1) * PROCESS_LIMIT
    ensures Drives(s, max, steps, m1) && AtRound(s, m1, n, c) && |m1.ts.workers| > 0 && |m1.ts.queue| < |m.ts.queue|
    ensures m1.now <= s.now + s.cfg.lockTTL
    ensures s.now + s.cfg.lockTTL <= m1.now + (Rounds(|m1.ts.queue|, |m1.ts.workers|) + 1) * PROCESS_LIMIT
  {
    NoRounds(|m.ts.workers|);
    steps, m1 := OneRound(s, max, before, m, n, c);
    RoundsLess(|m.ts.queue|, |m.ts.workers|);
  }

  /** Rounds go by until the locks expire; the last job is still live then. */
  lemma {:induction false} WaitForExpiry(s: Sys, max: int, before: seq<Step>, m: Sys, n: nat, c: Claim)
    returns (steps: seq<Step>, m': Sys)
    requires Drives(s, max, before, m) && AtRound(s, m, n, c) && |m.ts.workers| > 0
    requires m.now <= s.now + s.cfg.lockTTL
    requires s.now + s.cfg.lockTTL <= m.now + (Rounds(|m.ts.queue|, |m.ts.workers|) + 1) * PROCESS_LIMIT
    ensures Drives(s, max, steps, m') && Same(s, m', n)
    ensures m'.locks == map[] && m'.ts.triggers == map[] && LastIs(m'.ts, c)
    decreases |m.ts.queue|
  {
    var left := s.now + s.cfg.lockTTL - m.now;
    if left <= PROCESS_LIMIT {
      steps, m' := RoundWait(s, max, before, m, n, c, left);
    } else {
      var m1;
      steps, m1 := LongRound(s, max, before, m, n, c);
      steps, m' := WaitForExpiry(s, max, steps, m1, n, c);
    }
  }

  // ----- the second job -----

  lemma LastPlace(ts: Tasks, c: Claim) returns (p: Place)
    requires LastIs(ts, c)
    ensures TaskAt(ts, p).Some? && TaskAt(ts, p).value.claim == c && !p.AtTrigger?
  {
    if ts.queue != [] {
      p := AtQueue(ts.taken + |ts.queue| - 1);
    } else {
      var w :| 0 <= w < |ts.workers| && ts.workers[w].task.Some? && ts.workers[w].task.value.claim == c;
      p := AtWorker(w);
    }
  }

  /** A second trigger takes the scope of a live job whose lock is gone. */
  lemma TriggerAgain(s: Sys, max: int, before: seq<Step>, m: Sys, p: Place, t: nat, token: Token)
    returns (steps: seq<Step>, m': Sys)
    requires Drives(s, max, before, m) && TaskAt(m.ts, p).Some? && Dated(TaskAt(m.ts, p).value.claim.request)
    requires m.locks == map[]
    requires t !in m.ts.triggers && token !in m.used && Receivable(TaskAt(m.ts, p).value.claim.request, max)
    ensures Drives(s, max, steps, m') && Shared(m'.ts, AtTrigger(t), p)
  {
    var claim := Claim(TaskAt(m.ts, p).value.claim.request, token, m.now, m.now + m.cfg.lockTTL);
    steps, m' := GoAcquire(s, max, before, m, t, claim);
    SetTriggerMoves(m.ts, t, Task(Holding, 0, claim));
  }

  /** The set-up time alone outlives the lease. */
  lemma SlowSetup(s: Sys, max: int) returns (steps: seq<Step>, e: Sys, p: Place, q: Place)
    requires Start(s) && s.cfg.lockTTL <= s.cfg.setup && max >= 1
    ensures Drives(s, max, steps, e) && Shared(e.ts, p, q)
  {
    var demand := SupplyExists(1, max);
    var m;
    steps, m := AcquireAll(s, demand, max, 1, 1);
    steps, m := Go(s, max, steps, m, Advance(s.cfg.lockTTL));
    assert m.locks == map[];
    steps, e := TriggerAgain(s, max, steps, m, AtTrigger(0), 1, 1);
    p, q := AtTrigger(1), AtTrigger(0);
  }

  lemma FillStarts(s: Sys, demand: nat -> Request, base: nat, m: Sys, m': Sys, n: nat)
    requires Start(s) && Acquired(s, demand, m, n) && Same(s, m', n) && m'.ts == m.ts && m'.runs == m.runs
    requires forall id :: id in s.runs ==> id < base
    ensures Filled(s, demand, base, m', n, 0)
  {}

  lemma FillEnds(s: Sys, demand: nat -> Request, max: int, base: nat, m: Sys, n: nat)
    requires Supply(demand, n, max) && Filled(s, demand, base, m, n, n) && n > |s.ts.workers|
    ensures AtRound(s, m, n, ClaimOf(s, demand, n - 1)) && |m.ts.queue| == n - |s.ts.workers|
  {
    assert m.ts.triggers == map[];
  }

  lemma {:induction false} FirstFree(ids: set<RunId>) returns (base: nat)
    ensures forall id :: id in ids ==> id < base
  {
    if ids == {} {
      base := 0;
    } else {
      var id :| id in ids;
      var rest := FirstFree(ids - {id});
      base := if id < rest then rest else id + 1;
      assert forall x :: x in ids ==> x == id || x in ids - {id};
    }
  }

  /** All jobs are acquired, set-up takes its full time, and workers and queue are filled. */
  lemma FullHouse(s: Sys, demand: nat -> Request, max: int) returns (steps: seq<Step>, m: Sys)
    requires Start(s) && Supply(demand, |s.ts.workers| + s.cfg.capacity, max)
    requires s.cfg.capacity > 0 && s.cfg.setup < s.cfg.lockTTL
    ensures
      var n := |s.ts.workers| + s.cfg.capacity;
      && Drives(s, max, steps, m) && AtRound(s, m, n, ClaimOf(s, demand, n - 1)) && m.now == s.now + s.cfg.setup
      && |m.ts.queue| == s.cfg.capacity
  {
    var n := |s.ts.workers| + s.cfg.capacity;
    var base := FirstFree(s.runs.Keys);
    steps, m := SetUp(s, demand, base, max, n);
    steps, m := FillAll(s, demand, base, max, steps, m, n, 0);
    FillEnds(s, demand, max, base, m, n);
  }

  lemma SetUp(s: Sys, demand: nat -> Request, base: nat, max: int, n: nat) returns (steps: seq<Step>, m: Sys)
    requires Start(s) && Supply(demand, n, max) && s.cfg.setup < s.cfg.lockTTL
    requires forall id :: id in s.runs ==> id < base
    ensures Drives(s, max, steps, m) && Filled(s, demand, base, m, n, 0) && m.now == s.now + s.cfg.setup
  {
    var m1;
    steps, m1 := AcquireAll(s, demand, max, n, n);
    WaitIsTimely(s, demand, m1, n);
    steps, m := Go(s, max, steps, m1, Advance(s.cfg.setup));
    FillStarts(s, demand, base, m1, m, n);
  }

  /** Set-up may take its full time while every trigger has just started. */
  lemma WaitIsTimely(s: Sys, demand: nat -> Request, m: Sys, n: nat)
    requires Start(s) && Acquired(s, demand, m, n)
    ensures Enabled(m, Advance(s.cfg.setup)) && Timely(m, Advance(s.cfg.setup))
  {}

  /** When the TTL is at most the bound, some timely run has two live jobs in one scope. */
  lemma BoundIsReached(s: Sys, max: int) returns (steps: seq<Step>, e: Sys, p: Place, q: Place)
    requires Start(s) && s.cfg.capacity > 0 && |s.ts.workers| + s.cfg.capacity <= MANY && max >= 1
    requires s.cfg.lockTTL <= AgeBound(s.cfg, |s.ts.workers|)
    ensures Drives(s, max, steps, e) && Shared(e.ts, p, q)
  {
    if s.cfg.lockTTL <= s.cfg.setup {
      steps, e, p, q := SlowSetup(s, max);
    } else {
      var n, m := |s.ts.workers| + s.cfg.capacity, s;
      var demand := SupplyExists(n, max);
      steps, m := FullHouse(s, demand, max);
      steps, m := WaitForExpiry(s, max, steps, m, n, ClaimOf(s, demand, n - 1));
      q := LastPlace(m.ts, ClaimOf(s, demand, n - 1));
      p := AtTrigger(0);
      steps, e := TriggerAgain(s, max, steps, m, q, 0, n);
    }
  }

  /** Every timely run keeps scopes exclusive. */
  ghost predicate AlwaysExclusive(s: Sys) {
    forall steps, e, p, q :: Leads(s, steps, e) ==> !Shared(e.ts, p, q)
  }

  /** Every timely run of requests that the service accepts does. */
  ghost predicate ServedExclusive(s: Sys, maxRangeDays: int) {
    forall steps, e, p, q :: Drives(s, maxRangeDays, steps, e) ==> !Shared(e.ts, p, q)
  }

  /**
   The lease bound is exact: above it, every timely run keeps scopes exclusive; and if only
   the timely runs of acceptable requests do, the lock TTL exceeds the bound: set-up time
   plus one more job than the rounds of a full queue.
   */
  lemma LeaseBoundExact(s: Sys, maxRangeDays: int)
    requires Start(s) && s.cfg.capacity > 0 && |s.ts.workers| + s.cfg.capacity <= MANY && maxRangeDays >= 1
    ensures s.cfg.lockTTL > AgeBound(s.cfg, |s.ts.workers|) ==> AlwaysExclusive(s)
    ensures AlwaysExclusive(s) ==> ServedExclusive(s, maxRangeDays)
    ensures ServedExclusive(s, maxRangeDays) ==> s.cfg.lockTTL > AgeBound(s.cfg, |s.ts.workers|)
  {
    if s.cfg.lockTTL > AgeBound(s.cfg, |s.ts.workers|) {
      StartInOrder(s);
      forall steps, e, p, q | Leads(s, steps, e) ensures !Shared(e.ts, p, q) {
        if Shared(e.ts, p, q) {
          TimelyRunsExclude(s, steps, e, p, q);
        }
      }
    } else {
      var steps, e, p, q := BoundIsReached(s, maxRangeDays);
    }
  }

  /**
   So with the defaults (queue of 64, one worker, 15 minutes) some timely run of acceptable
   requests puts two live jobs in one scope, whatever the set-up time.
   */
  lemma DefaultsNotExclusive(s: Sys, maxRangeDays: int)
    requires Start(s) && s.cfg == Config(64, 15 * 60, s.cfg.setup) && |s.ts.workers| == 1 && maxRangeDays >= 1
    ensures !ServedExclusive(s, maxRangeDays)
  {
    LeaseBoundExact(s, maxRangeDays);
    DefaultsMissTheBound(s.cfg.setup);
  }
}
