/** The main theorems, over every run of the whole system from an idle start. */
module Runs {
  import opened Common
  import opened Time
  import opened Snapshots
  import opened Reports
  import opened Keys
  import opened Protocol
  import opened Ownership
  import opened Lifecycle
  import opened Leases
  import Coherence
  import History
  import HistoryReads

  /**
   An idle process over any events and any cache versions. There may be run rows of any
   status, with any audit trail, and a table that carries their ids, as after seeding.
   */
  ghost predicate Start(s: Sys) {
    && |s.ts.workers| > 0 && s.ts == Tasks(map[], [], 0, Idle(|s.ts.workers|), [])
    && s.cfg.lockTTL > 0 && s.locks == map[] && s.used == {} && s.orphans == {} && s.commits == map[]
    && s.cache == Coherence.Initial(s.cache.time.table, s.cache.time.versions)
    && s.settled == SettledOf(s.runs, s.audits) && AtRest(s.cache.time.table, s.runs, s.audits)
  }

  function SettledOf(runs: map<RunId, Run>, audits: seq<AuditEntry>): map<RunId, Past> {
    map run | run in runs :: Past(runs[run], ActionsOf(audits, run))
  }

  /** No audit entry refers to a run without a row. */
  ghost predicate OnlyKnownRuns(runs: map<RunId, Run>, audits: seq<AuditEntry>) {
    forall run :: run !in runs ==> ActionsOf(audits, run) == []
  }

  /** Every labelled row of the table has a run row that fits it. */
  ghost predicate RowsKnown(table: Table, runs: map<RunId, Run>) {
    forall i :: 0 <= i < |table| && table[i].key.run.Some? ==>
      table[i].key.run.value in runs && Fits(runs[table[i].key.run.value].request, table[i].key)
  }

  /** Tables that no process is working on: audit entries and snapshot rows only of existing run rows. */
  ghost predicate AtRest(table: Table, runs: map<RunId, Run>, audits: seq<AuditEntry>) {
    OnlyKnownRuns(runs, audits) && RowsKnown(table, runs)
  }

  ghost predicate Valid(s: Sys, steps: seq<Step>)
    decreases |steps|, 0
  {
    steps == [] || (Valid(s, steps[..|steps| - 1]) && Enabled(After(s, steps[..|steps| - 1]), steps[|steps| - 1]))
  }

  ghost function After(s: Sys, steps: seq<Step>): Sys
    requires Valid(s, steps)
    decreases |steps|, 1
  {
    if steps == [] then s else Apply(After(s, steps[..|steps| - 1]), steps[|steps| - 1])
  }

  /** A run in which time passes only within the limits of Leases. */
  ghost predicate TimelyRun(s: Sys, steps: seq<Step>)
    requires Valid(s, steps)
  {
    steps == [] || (TimelyRun(s, steps[..|steps| - 1]) && Timely(After(s, steps[..|steps| - 1]), steps[|steps| - 1]))
  }

  /** The steps lead from s to e. */
  ghost predicate Reaches(s: Sys, steps: seq<Step>, e: Sys) {
    Valid(s, steps) && After(s, steps) == e
  }

  /** And do so in time. */
  ghost predicate Leads(s: Sys, steps: seq<Step>, e: Sys) {
    Reaches(s, steps, e) && TimelyRun(s, steps)
  }

  /** Two different live jobs of one scope. */
  ghost predicate Shared(ts: Tasks, p: Place, q: Place) {
    p != q && TaskAt(ts, p).Some? && TaskAt(ts, q).Some?
    && ScopeOf(TaskAt(ts, p).value.claim.request) == ScopeOf(TaskAt(ts, q).value.claim.request)
  }

  lemma Extend(s: Sys, steps: seq<Step>, step: Step)
    requires Valid(s, steps) && Enabled(After(s, steps), step)
    ensures Valid(s, steps + [step]) && After(s, steps + [step]) == Apply(After(s, steps), step)
    ensures TimelyRun(s, steps) && Timely(After(s, steps), step) ==> TimelyRun(s, steps + [step])
  {
    assert (steps + [step])[..|steps + [step]| - 1] == steps;
  }

  ghost predicate InOrder(s: Sys) {
    && Guarded(s) && Recorded(s.ts, RecordsOf(s)) && CommitsOk(RecordsOf(s))
    && Lineage(s.cache.time.table, RecordsOf(s)) && Coherence.Coherent(s.cache)
  }

  lemma StartInOrder(s: Sys)
    requires Start(s)
    ensures InOrder(s) && LeaseOk(s.ts, s.cfg, s.now)
  {
    assert forall p :: TaskAt(s.ts, p).None?;
    StoppedLeaseOk(s.ts, s.cfg, s.now);
    Coherence.InitialCoherent(s.cache.time.table, s.cache.time.versions);
  }

  lemma StepKeepsCache(s: Sys, step: Step)
    requires Enabled(s, step) && Coherence.Coherent(s.cache)
    ensures Coherence.Coherent(Apply(s, step).cache)
  {
    if step.Read? {
      Coherence.StepKeepsCoherent(s.cache, step.c);
    } else if step.BumpVersion? {
      var slug := s.ts.workers[step.w].task.value.claim.request.slug;
      Coherence.StepKeepsCoherent(s.cache, Coherence.Bump(slug, step.reply));
    } else if step.Recompute? && step.ok {
      var task := s.ts.workers[step.w].task.value;
      var q := task.claim.request;
      Coherence.StepKeepsCoherent(s.cache, Coherence.Commit(q, Facts(q.slug, s.sources, s.events), task.run));
    } else if !step.Restart? {
      StepFrame(s, step);
    }
  }

  lemma {:induction false} RunInOrder(s: Sys, steps: seq<Step>)
    requires InOrder(s) && Valid(s, steps)
    ensures InOrder(After(s, steps))
  {
    if steps != [] {
      var before, step := After(s, steps[..|steps| - 1]), steps[|steps| - 1];
      RunInOrder(s, steps[..|steps| - 1]);
      StepKeepsOwnership(before, step);
      StepKeepsRecorded(before, step);
      StepKeepsCommits(before, step);
      StepKeepsLineage(before, step);
      StepKeepsCache(before, step);
    }
  }

  // ----- scope exclusion -----

  /** In every run, two live jobs of one scope coexist only if a lease has run out. */
  lemma EveryRunExcludes(s: Sys, steps: seq<Step>, e: Sys, p: Place, q: Place)
    requires Guarded(s) && Reaches(s, steps, e) && Shared(e.ts, p, q)
    ensures e.now >= TaskAt(e.ts, p).value.claim.expires || e.now >= TaskAt(e.ts, q).value.claim.expires
  {
    RunGuarded(s, steps);
    ScopeExclusion(e, p, q);
  }

  lemma {:induction false} RunGuarded(s: Sys, steps: seq<Step>)
    requires Guarded(s) && Valid(s, steps)
    ensures Guarded(After(s, steps))
  {
    if steps != [] {
      RunGuarded(s, steps[..|steps| - 1]);
      StepKeepsOwnership(After(s, steps[..|steps| - 1]), steps[|steps| - 1]);
    }
  }

  lemma {:induction false} TimelyRunLeases(s: Sys, steps: seq<Step>)
    requires Valid(s, steps) && TimelyRun(s, steps) && LeaseOk(s.ts, s.cfg, s.now)
    ensures LeaseOk(After(s, steps).ts, After(s, steps).cfg, After(s, steps).now)
    ensures After(s, steps).cfg == s.cfg && |After(s, steps).ts.workers| == |s.ts.workers|
  {
    if steps != [] {
      var before, step := After(s, steps[..|steps| - 1]), steps[|steps| - 1];
      TimelyRunLeases(s, steps[..|steps| - 1]);
      StepKeepsLease(before, step);
      StepKeepsConfig(before, step);
    }
  }

  lemma StepKeepsConfig(s: Sys, step: Step)
    requires Enabled(s, step)
    ensures Apply(s, step).cfg == s.cfg && |Apply(s, step).ts.workers| == |s.ts.workers|
  {
    StepFrame(s, step);
    StepMoves(s, step);
  }

  /**
   If the lock TTL exceeds set-up time plus one more job than a full queue takes, then in
   every timely run no lock expires early and each scope has at most one live job.
   */
  lemma TimelyRunsExclude(s: Sys, steps: seq<Step>, e: Sys, p: Place, q: Place)
    requires Guarded(s) && LeaseOk(s.ts, s.cfg, s.now) && Leads(s, steps, e) && TaskAt(e.ts, p).Some?
    requires s.cfg.lockTTL > AgeBound(s.cfg, |s.ts.workers|)
    ensures e.now < TaskAt(e.ts, p).value.claim.expires && !Shared(e.ts, p, q)
  {
    RunGuarded(s, steps);
    TimelyRunLeases(s, steps);
    ClaimAge(e, p);
    if Shared(e.ts, p, q) {
      ExclusionInTime(e, p, q);
    }
  }

  /**
   A job that the queue accepts is over at most ceil(Q / W) + 1 job times later, in every
   timely run: afterwards nothing in the system works for its run.
   */
  lemma AcceptedJobsEnd(s: Sys, steps: seq<Step>, m: Sys, t: nat, more: seq<Step>, e: Sys, p: Place)
    requires Start(s) && Leads(s, steps, m) && Enabled(m, Enqueue(t)) && |m.ts.queue| < m.cfg.capacity
    requires Leads(DoEnqueue(m, t), more, e) && TaskAt(e.ts, p).Some? && HasRun(TaskAt(e.ts, p).value.stage)
    requires TaskAt(e.ts, p).value.run == m.ts.triggers[t].run
    ensures !p.AtTrigger? && e.now <= m.now + JobBound(s.cfg, |s.ts.workers|)
  {
    StartInOrder(s);
    RunInOrder(s, steps);
    TimelyRunLeases(s, steps);
    JobAccepted(m, t);
    SentJobEnds(DoEnqueue(m, t), m.ts.triggers[t].run, m.ts.taken + |m.ts.queue|, m.now, more, e, p);
  }

  /** A live job of a run whose only job was sent at that time is within the bound. */
  lemma SentJobEnds(m: Sys, run: RunId, k: nat, sentAt: nat, more: seq<Step>, e: Sys, p: Place)
    requires InOrder(m) && LeaseOk(m.ts, m.cfg, m.now) && SentOnce(m.ts, run, k, sentAt) && run in m.runs
    requires Leads(m, more, e) && TaskAt(e.ts, p).Some? && HasRun(TaskAt(e.ts, p).value.stage)
    requires TaskAt(e.ts, p).value.run == run
    ensures !p.AtTrigger? && e.now <= sentAt + JobBound(m.cfg, |m.ts.workers|)
  {
    TimelyRunLeases(m, more);
    RunKeepsSentOnce(m, more, run, k, sentAt);
    assert TicketOf(e.ts, p) == Some(k);
    JobAge(e, p);
  }

  lemma JobAccepted(m: Sys, t: nat)
    requires InOrder(m) && LeaseOk(m.ts, m.cfg, m.now) && Enabled(m, Enqueue(t)) && |m.ts.queue| < m.cfg.capacity
    ensures
      var e := DoEnqueue(m, t);
      && e.cfg == m.cfg && |e.ts.workers| == |m.ts.workers| && InOrder(e) && LeaseOk(e.ts, e.cfg, e.now)
      && m.ts.triggers[t].run in e.runs
      && SentOnce(e.ts, m.ts.triggers[t].run, m.ts.taken + |m.ts.queue|, m.now)
  {
    assert TaskOk(TaskAt(m.ts, AtTrigger(t)).value, RecordsOf(m));
    SendIsSentOnce(m, t);
    StepKeepsLease(m, Enqueue(t));
    assert Valid(m, [Enqueue(t)]) && After(m, [Enqueue(t)]) == Apply(m, Enqueue(t)) by {
      Extend(m, [], Enqueue(t));
    }
    RunInOrder(m, [Enqueue(t)]);
  }

  lemma {:induction false} RunKeepsSentOnce(s: Sys, steps: seq<Step>, run: RunId, k: nat, sentAt: nat)
    requires InOrder(s) && Valid(s, steps) && SentOnce(s.ts, run, k, sentAt) && run in s.runs
    ensures SentOnce(After(s, steps).ts, run, k, sentAt)
  {
    if steps != [] {
      RunKeepsSentOnce(s, steps[..|steps| - 1], run, k, sentAt);
      RunGrows(s, steps[..|steps| - 1]);
      StepKeepsSentOnce(After(s, steps[..|steps| - 1]), steps[|steps| - 1], run, k, sentAt);
    }
  }

  /** A step in which no lock is left behind: no restart, no failed release, no acquire lost in transit. */
  predicate Clean(step: Step) {
    && !step.Restart?
    && (step.Acquire? ==> step.reply != Lost(true))
    && (step.ReleaseTrigger? || step.ReleaseWorker? ==> step.reply.Applied())
  }

  /** After any run of clean steps, a system without live work holds no lock, expired or not. */
  lemma CleanRunsLeaveNoLock(s: Sys, steps: seq<Step>, e: Sys)
    requires Guarded(s) && s.orphans == {} && Reaches(s, steps, e) && Quiescent(e.ts)
    requires forall i :: 0 <= i < |steps| ==> Clean(steps[i])
    ensures e.locks == map[]
  {
    RunGuarded(s, steps);
    CleanRunsOrphanNothing(s, steps);
    QuiescentHoldsNoLock(e);
  }

  lemma {:induction false} CleanRunsOrphanNothing(s: Sys, steps: seq<Step>)
    requires Valid(s, steps) && (forall i :: 0 <= i < |steps| ==> Clean(steps[i]))
    ensures After(s, steps).orphans == s.orphans
  {
    if steps != [] {
      CleanRunsOrphanNothing(s, steps[..|steps| - 1]);
      OrphansHaveCause(After(s, steps[..|steps| - 1]), steps[|steps| - 1]);
    }
  }

  // ----- the table of a run is a history -----

  /** The committed rebuilds and the arriving events of a run. */
  ghost function ChangesOf(s: Sys, steps: seq<Step>): seq<History.Change>
    requires Valid(s, steps)
  {
    if steps == [] then []
    else
      var before, step := After(s, steps[..|steps| - 1]), steps[|steps| - 1];
      ChangesOf(s, steps[..|steps| - 1]) +
      if step.Arrive? then [History.Arrive(step.e)]
      else if step.Recompute? && step.ok then
        [History.Recompute(before.ts.workers[step.w].task.value.claim.request,
                           before.ts.workers[step.w].task.value.run)]
      else []
  }

  function DatabaseOf(s: Sys): History.Database {
    History.Database(s.sources, s.events, s.cache.time.table)
  }

  /** A run to e whose commits and arrivals are these changes. */
  ghost predicate Traces(s: Sys, steps: seq<Step>, e: Sys, changes: seq<History.Change>) {
    Reaches(s, steps, e) && ChangesOf(s, steps) == changes
  }

  /** Whatever the interleaving and the failures, the table is the replay of the commits and arrivals alone. */
  lemma {:induction false} TableIsReplay(s: Sys, steps: seq<Step>, e: Sys, changes: seq<History.Change>)
    requires Traces(s, steps, e, changes)
    ensures History.Replay(DatabaseOf(s), changes) == DatabaseOf(e)
  {
    if steps != [] {
      var init, step := steps[..|steps| - 1], steps[|steps| - 1];
      var before := After(s, init);
      TableIsReplay(s, init, before, ChangesOf(s, init));
      StepIsChange(before, step);
      if step.Arrive? || (step.Recompute? && step.ok) {
        assert changes[..|changes| - 1] == ChangesOf(s, init);
      } else {
        assert changes == ChangesOf(s, init);
      }
    }
  }

  /** One step commits a rebuild, adds an event, or leaves the database as it was. */
  lemma StepIsChange(s: Sys, step: Step)
    requires Enabled(s, step)
    ensures DatabaseOf(Apply(s, step)) ==
      if step.Arrive? then History.Apply(DatabaseOf(s), History.Arrive(step.e))
      else if step.Recompute? && step.ok then
        History.Apply(DatabaseOf(s), History.Recompute(s.ts.workers[step.w].task.value.claim.request,
                                                       s.ts.workers[step.w].task.value.run))
      else DatabaseOf(s)
  {
    if !(step.Recompute? && step.ok) {
      OtherStepsKeepTable(s, step);
      StepFrame(s, step);
    }
  }

  /** So in every run, each bucket holds the rows of the last committed rebuild that cleared it. */
  lemma EveryBucketHasLastRebuild(s: Sys, steps: seq<Step>, e: Sys, changes: seq<History.Change>, slug: Slug,
                                  w: Window, b: int)
    requires Traces(s, steps, e, changes)
    ensures RowsAt(e.cache.time.table, slug, w, b) ==
      match History.LastCover(changes, slug, w, b)
      case None => RowsAt(s.cache.time.table, slug, w, b)
      case Some(i) => History.RowsInsertedBy(DatabaseOf(s), changes, i, slug, w, b)
  {
    TableIsReplay(s, steps, e, changes);
    History.LastCoveringRebuildWins(DatabaseOf(s), changes, slug, w, b);
  }

  /**
   From a table of aligned buckets, whatever the interleaving and the failures: a report run
   whose buckets were each last rebuilt as a whole, with no event of theirs since, is the
   naive report of the events.
   */
  lemma CurrentReadIsRaw(s: Sys, steps: seq<Step>, e: Sys, changes: seq<History.Change>, slug: Slug, p: RunParams)
    requires Traces(s, steps, e, changes) && Aligned(s.cache.time.table) && Supported(slug)
    requires HistoryReads.ReadCurrent(changes, slug, p)
    ensures ExecuteReport(e.cache.time.table, slug, p) == Success(RawQuery(Facts(slug, e.sources, e.events), slug, p))
  {
    TableIsReplay(s, steps, e, changes);
    HistoryReads.CurrentReadRefinesRaw(DatabaseOf(s), changes, slug, p);
  }

  /** So is every answer, from the cache or not, to a query made after the last commit of the report. */
  lemma CurrentAnswerIsRaw(s: Sys, steps: seq<Step>, e: Sys, changes: seq<History.Change>, r: nat)
    requires Start(s) && Traces(s, steps, e, changes) && Aligned(s.cache.time.table)
    requires r in e.cache.readers && e.cache.readers[r].Served? && Supported(e.cache.readers[r].slug)
    requires Coherence.At(e.cache.time.committed, e.cache.readers[r].slug) <= e.cache.readers[r].queriedAt
    requires HistoryReads.ReadCurrent(changes, e.cache.readers[r].slug, e.cache.readers[r].p)
    ensures
      var answer := e.cache.readers[r];
      answer.rows == RawQuery(Facts(answer.slug, e.sources, e.events), answer.slug, answer.p)
  {
    StartInOrder(s);
    RunInOrder(s, steps);
    Coherence.FreshResponse(e.cache, r);
    CurrentReadIsRaw(s, steps, e, changes, e.cache.readers[r].slug, e.cache.readers[r].p);
  }

  // ----- runs, outcomes, lineage and audit -----

  /** No step touches the rows that were there at the start, nor their audit trail. */
  lemma EarlierRunsStay(s: Sys, steps: seq<Step>, e: Sys, run: RunId)
    requires Start(s) && Reaches(s, steps, e) && run in s.runs
    ensures run in e.runs && e.runs[run] == s.runs[run] && ActionsOf(e.audits, run) == ActionsOf(s.audits, run)
    ensures run !in e.commits
  {
    StartInOrder(s);
    RunInOrder(s, steps);
    RunKeepsSettled(s, steps);
    assert RunOk(run, RecordsOf(e));
    assert s.settled[run] == Past(s.runs[run], ActionsOf(s.audits, run));
  }

  lemma {:induction false} RunKeepsSettled(s: Sys, steps: seq<Step>)
    requires Valid(s, steps)
    ensures After(s, steps).settled == s.settled
  {
    if steps != [] {
      RunKeepsSettled(s, steps[..|steps| - 1]);
      StepFrame(After(s, steps[..|steps| - 1]), steps[|steps| - 1]);
    }
  }

  /** What is known of every state of a run about a run id that was not there at the start. */
  lemma RunInRecords(s: Sys, steps: seq<Step>, e: Sys, run: RunId)
    requires Start(s) && Reaches(s, steps, e) && run !in s.runs
    ensures InOrder(e) && e.settled == s.settled && RunOk(run, RecordsOf(e)) && run !in e.settled
  {
    StartInOrder(s);
    RunInOrder(s, steps);
    RunKeepsSettled(s, steps);
    assert RunOk(run, RecordsOf(e));
  }

  /** Every run row created since the start has a legal status history. */
  lemma EveryHistoryLegal(s: Sys, steps: seq<Step>, e: Sys, run: RunId)
    requires Start(s) && Reaches(s, steps, e) && run in e.runs && run !in s.runs
    ensures LegalHistory(e.runs[run].history)
  {
    RunInRecords(s, steps, e, run);
  }

  /** A terminal run is never changed again, by any continuation, although no UPDATE checks the status. */
  lemma TerminalIsForever(s: Sys, steps: seq<Step>, m: Sys, more: seq<Step>, e: Sys, run: RunId)
    requires Start(s) && Reaches(s, steps, m) && Reaches(m, more, e) && run in m.runs
    ensures run in e.runs && m.runs[run].history <= e.runs[run].history
    ensures Terminal(m.runs[run].history) ==> e.runs[run] == m.runs[run]
  {
    StartInOrder(s);
    RunInOrder(s, steps);
    RunGrows(m, more);
  }

  lemma {:induction false} RunGrows(s: Sys, steps: seq<Step>)
    requires InOrder(s) && Valid(s, steps)
    ensures Grows(s.runs, After(s, steps).runs)
  {
    if steps != [] {
      var before := After(s, steps[..|steps| - 1]);
      RunGrows(s, steps[..|steps| - 1]);
      RunInOrder(s, steps[..|steps| - 1]);
      StepGrows(before, steps[|steps| - 1]);
      GrowsFurther(s.runs, before.runs, After(s, steps).runs);
    }
  }

  lemma GrowsFurther(a: map<RunId, Run>, b: map<RunId, Run>, c: map<RunId, Run>)
    requires Grows(a, b) && Grows(b, c)
    ensures Grows(a, c)
  {}

  /** The i-th change of the run is this run's rebuild, and the record holds the table and the facts it found. */
  ghost predicate CommittedAt(s: Sys, changes: seq<History.Change>, i: nat, e: Sys, run: RunId)
    requires run in e.commits && run in e.runs
  {
    && i < |changes| && changes[i] == History.Recompute(e.runs[run].request, run)
    && (var found := History.Replay(DatabaseOf(s), changes[..i]);
        && e.commits[run].before == found.table
        && e.commits[run].facts == Facts(e.runs[run].request.slug, found.sources, found.events))
  }

  /** Every recorded commit is a change of the run, made to the table that the changes before it had left. */
  lemma {:induction false} CommitsAreChanges(s: Sys, steps: seq<Step>, e: Sys, changes: seq<History.Change>, run: RunId)
    returns (i: nat)
    requires Start(s) && Traces(s, steps, e, changes) && run in e.commits
    ensures run in e.runs && CommittedAt(s, changes, i, e, run)
  {
    var init, step := steps[..|steps| - 1], steps[|steps| - 1];
    var m, before := After(s, init), ChangesOf(s, init);
    if step.Recompute? && step.ok && m.ts.workers[step.w].task.value.run == run {
      i := |before|;
      NewCommit(s, init, m, before, step.w);
    } else {
      CommitStays(m, step, run);
      i := CommitsAreChanges(s, init, m, before, run);
      OldCommit(s, init, m, before, step, changes, i, run);
    }
  }

  lemma NewCommit(s: Sys, init: seq<Step>, m: Sys, before: seq<History.Change>, w: nat)
    requires Start(s) && Traces(s, init, m, before) && Enabled(m, Recompute(w, true))
    ensures
      var task, e := m.ts.workers[w].task.value, DoRecompute(m, w, true);
      && task.run in e.commits && task.run in e.runs
      && CommittedAt(s, before + [History.Recompute(task.claim.request, task.run)], |before|, e, task.run)
  {
    StartInOrder(s);
    RunInOrder(s, init);
    TableIsReplay(s, init, m, before);
    WorkerTaskOk(m, w);
    CommitIsLast(s, m, before, w);
  }

  lemma OldCommit(s: Sys, init: seq<Step>, m: Sys, before: seq<History.Change>, step: Step,
                  changes: seq<History.Change>, i: nat, run: RunId)
    requires Start(s) && Reaches(s, init, m) && Enabled(m, step) && before <= changes
    requires run in m.commits && run in m.runs && CommittedAt(s, before, i, m, run)
    requires run in Apply(m, step).commits && Apply(m, step).commits[run] == m.commits[run]
    ensures run in Apply(m, step).runs && CommittedAt(s, changes, i, Apply(m, step), run)
  {
    StartInOrder(s);
    RunInOrder(s, init);
    StepGrows(m, step);
    CommittedStays(s, before, changes, i, m, Apply(m, step), run);
  }

  /** What a commit records: the table and the facts it finds. */
  ghost predicate Records(m: Sys, e: Sys, q: Request, run: RunId) {
    && e.runs == m.runs && run in e.commits && e.commits[run].before == m.cache.time.table
    && e.commits[run].facts == Facts(q.slug, m.sources, m.events)
  }

  lemma WorkerTaskOk(m: Sys, w: nat)
    requires InOrder(m) && WorkerIs(m, w, Rebuilding)
    ensures
      var task := m.ts.workers[w].task.value;
      task.run in m.runs && m.runs[task.run].request == task.claim.request
  {
    assert TaskOk(TaskAt(m.ts, AtWorker(w)).value, RecordsOf(m));
  }

  lemma CommitIsLast(s: Sys, m: Sys, before: seq<History.Change>, w: nat)
    requires WorkerIs(m, w, Rebuilding) && Supported(m.ts.workers[w].task.value.claim.request.slug)
    requires History.Replay(DatabaseOf(s), before) == DatabaseOf(m)
    requires
      var task := m.ts.workers[w].task.value;
      task.run in m.runs && m.runs[task.run].request == task.claim.request
    ensures
      var task, e := m.ts.workers[w].task.value, DoRecompute(m, w, true);
      && task.run in e.commits && task.run in e.runs
      && CommittedAt(s, before + [History.Recompute(task.claim.request, task.run)], |before|, e, task.run)
  {
    var task := m.ts.workers[w].task.value;
    CommitRecords(m, w);
    CommitIsChange(s, m, DoRecompute(m, w, true), before, task.claim.request, task.run);
  }

  lemma CommitRecords(m: Sys, w: nat)
    requires WorkerIs(m, w, Rebuilding) && Supported(m.ts.workers[w].task.value.claim.request.slug)
    ensures
      var task := m.ts.workers[w].task.value;
      Records(m, DoRecompute(m, w, true), task.claim.request, task.run)
  {}

  lemma CommitIsChange(s: Sys, m: Sys, e: Sys, before: seq<History.Change>, q: Request, run: RunId)
    requires Records(m, e, q, run) && run in m.runs && m.runs[run].request == q
    requires History.Replay(DatabaseOf(s), before) == DatabaseOf(m)
    ensures CommittedAt(s, before + [History.Recompute(q, run)], |before|, e, run)
  {
    assert (before + [History.Recompute(q, run)])[..|before|] == before;
  }

  lemma CommittedStays(s: Sys, before: seq<History.Change>, changes: seq<History.Change>, i: nat, m: Sys, e: Sys,
                       run: RunId)
    requires before <= changes && run in m.commits && run in m.runs && CommittedAt(s, before, i, m, run)
    requires run in e.commits && e.commits[run] == m.commits[run] && Grows(m.runs, e.runs)
    ensures run in e.runs && CommittedAt(s, changes, i, e, run)
  {
    assert changes[..i] == before[..i];
  }

  /** A step that does not commit this run leaves its record. */
  lemma CommitStays(s: Sys, step: Step, run: RunId)
    requires Enabled(s, step) && run in Apply(s, step).commits
    requires !(step.Recompute? && step.ok && s.ts.workers[step.w].task.value.run == run)
    ensures run in s.commits && Apply(s, step).commits[run] == s.commits[run]
  {
    if !(step.Recompute? && step.ok) {
      OtherStepsKeepTable(s, step);
    }
  }

  /**
   A completed run's rebuild committed, and its stored summary counts exactly what that
   rebuild deleted, inserted and bucketed: the summary of a change of the run, computed
   over the table and the events that the changes before it had left. A failed run committed
   nothing.
   */
  lemma OutcomesAreTruthful(s: Sys, steps: seq<Step>, e: Sys, changes: seq<History.Change>, run: RunId)
    requires Start(s) && Traces(s, steps, e, changes) && run in e.runs && run !in s.runs
    ensures Ends(e.runs[run].history, Completed) ==> exists i :: CountedAt(s, changes, i, run, e.runs[run])
    ensures Ends(e.runs[run].history, Failed) || Ends(e.runs[run].history, Pending) ==>
              forall i :: 0 <= i < |changes| && changes[i].Recompute? ==> changes[i].run != run
  {
    RunInRecords(s, steps, e, run);
    if Ends(e.runs[run].history, Completed) {
      var i := CommitsAreChanges(s, steps, e, changes, run);
      assert CountedAt(s, changes, i, run, e.runs[run]);
    }
    forall i | 0 <= i < |changes| && changes[i].Recompute? ensures changes[i].run in e.commits {
      ChangesAreCommits(s, steps, e, changes, i);
    }
  }

  /** The i-th change is the run's rebuild and the row stores its counts. */
  ghost predicate CountedAt(s: Sys, changes: seq<History.Change>, i: nat, run: RunId, row: Run) {
    && i < |changes| && changes[i] == History.Recompute(row.request, run)
    && (var found := History.Replay(DatabaseOf(s), changes[..i]);
        var facts := Facts(row.request.slug, found.sources, found.events);
        row.summary == Some(SummaryOf(found.table, row.request, facts, run)))
  }

  /** Conversely, every rebuild among the changes is recorded as a commit. */
  lemma {:induction false} ChangesAreCommits(s: Sys, steps: seq<Step>, e: Sys, changes: seq<History.Change>, i: nat)
    requires Traces(s, steps, e, changes) && i < |changes| && changes[i].Recompute?
    ensures changes[i].run in e.commits
  {
    var init, step := steps[..|steps| - 1], steps[|steps| - 1];
    var m, before := After(s, init), ChangesOf(s, init);
    assert before <= changes;
    CommitsGrow(m, step);
    if i < |before| {
      ChangesAreCommits(s, init, m, before, i);
    }
  }

  lemma CommitsGrow(s: Sys, step: Step)
    requires Enabled(s, step)
    ensures s.commits.Keys <= Apply(s, step).commits.Keys
    ensures step.Recompute? && step.ok ==> s.ts.workers[step.w].task.value.run in Apply(s, step).commits
  {
    if !(step.Recompute? && step.ok) {
      OtherStepsKeepTable(s, step);
    }
  }

  /**
   Every labelled row belongs to a run of its own report, window and overlapping range that
   committed or was there at the start; a run since the start is running or completed.
   */
  lemma RowsHaveLineage(s: Sys, steps: seq<Step>, e: Sys, i: nat)
    requires Start(s) && Reaches(s, steps, e)
    requires i < |e.cache.time.table| && e.cache.time.table[i].key.run.Some?
    ensures
      var l := e.cache.time.table[i].key;
      && l.run.value in e.runs && Fits(e.runs[l.run.value].request, l)
      && (l.run.value !in s.runs ==>
            var h := e.runs[l.run.value].history;
            l.run.value in e.commits && (h == [Pending, Running] || h == [Pending, Running, Completed]))
  {
    StartInOrder(s);
    RunInOrder(s, steps);
    RunKeepsSettled(s, steps);
    assert RowMatches(e.cache.time.table[i].key, RecordsOf(e));
    RowsBelongToSuccess(e.cache.time.table, e.ts, RecordsOf(e), i);
  }

  /**
   The audit entries of a run created since the start are a subsequence of triggered, then
   one of completed and failed; a completed entry carries the counts of a committed rebuild,
   a failed entry means that nothing committed, and a run that was never marked running, such
   as one rejected by a full queue, has no outcome entry, whichever of its updates were lost.
   */
  lemma AuditTrailInOrder(s: Sys, steps: seq<Step>, e: Sys, run: RunId)
    requires Start(s) && Reaches(s, steps, e) && run !in s.runs
    ensures
      var actions := ActionsOf(e.audits, run);
      && LegalActions(actions)
      && (actions != [] ==> run in e.runs)
      && (FailedEntry in actions ==> run !in e.commits)
      && (forall summary :: CompletedEntry(summary) in actions ==>
            run in e.commits && run in e.runs
            && summary == SummaryOf(e.commits[run].before, e.runs[run].request, e.commits[run].facts, run))
      && (run in e.runs && Running !in e.runs[run].history ==> AtMostTriggered(actions))
  {
    RunInRecords(s, steps, e, run);
    if run in e.runs && Running !in e.runs[run].history {
      NotRunningActions(run, RecordsOf(e), ActionsOf(e.audits, run));
    }
  }

  /** The outcome entries need a run that was marked running. */
  lemma NotRunningActions(run: RunId, db: Records, actions: seq<Action>)
    requires RowOk(run, db, actions) && run in db.runs && run !in db.settled && Running !in db.runs[run].history
    ensures AtMostTriggered(actions)
  {
    assert |actions| > 0 ==> actions[0] in actions;
    assert |actions| > 1 ==> actions[1] in actions;
  }

  // ----- cache -----

  /** In every run of the whole system, a stale entry under the current version has one of the two causes. */
  lemma EveryStaleEntryHasCause(s: Sys, steps: seq<Step>, e: Sys, key: Coherence.CacheKey)
    requires Start(s) && Reaches(s, steps, e) && key in e.cache.entries && key.slug !in e.cache.time.regressed
    requires key.slug in e.cache.time.versions && key.version == e.cache.time.versions[key.slug]
    requires ExecuteReport(e.cache.time.table, key.slug, key.params) != Success(e.cache.entries[key].rows)
    ensures
      var t := e.cache.time;
      || Coherence.At(t.bumped, key.slug) < Coherence.At(t.committed, key.slug)
      || e.cache.entries[key].queriedAt < Coherence.At(t.bumped, key.slug) <= e.cache.entries[key].readAt
  {
    StartInOrder(s);
    RunInOrder(s, steps);
    Coherence.StaleEntryHasCause(e.cache, key);
  }

  lemma StepKeepsWarm(s: Sys, step: Step, slug: Slug)
    requires Enabled(s, step) && Coherence.Warm(s.cache, slug)
    ensures Coherence.Warm(Apply(s, step).cache, slug)
    ensures s.cache.time.versions[slug] <= Apply(s, step).cache.time.versions[slug]
  {
    if step.Read? {
      Coherence.WarmStep(s.cache, step.c, slug);
    } else if step.BumpVersion? {
      var bumped := s.ts.workers[step.w].task.value.claim.request.slug;
      Coherence.WarmStep(s.cache, Coherence.Bump(bumped, step.reply), slug);
    } else if step.Recompute? && step.ok {
      var task := s.ts.workers[step.w].task.value;
      var q := task.claim.request;
      Coherence.WarmStep(s.cache, Coherence.Commit(q, Facts(q.slug, s.sources, s.events), task.run), slug);
    } else if !step.Restart? {
      StepFrame(s, step);
    }
  }

  /** Where the version key exists at the start, the version only grows, in every run of the whole system. */
  lemma {:induction false} VersionsGrow(s: Sys, steps: seq<Step>, slug: Slug)
    requires Coherence.Warm(s.cache, slug) && Valid(s, steps)
    ensures Coherence.Warm(After(s, steps).cache, slug)
    ensures s.cache.time.versions[slug] <= After(s, steps).cache.time.versions[slug]
  {
    if steps != [] {
      VersionsGrow(s, steps[..|steps| - 1], slug);
      StepKeepsWarm(After(s, steps[..|steps| - 1]), steps[|steps| - 1], slug);
    }
  }

  /** From a start whose version key exists, every stale entry under the current version has one of the two causes. */
  lemma StaleAfterWarmStart(s: Sys, steps: seq<Step>, e: Sys, key: Coherence.CacheKey)
    requires Start(s) && Reaches(s, steps, e) && key.slug in s.cache.time.versions
    requires key in e.cache.entries && key.slug in e.cache.time.versions
    requires key.version == e.cache.time.versions[key.slug]
    requires ExecuteReport(e.cache.time.table, key.slug, key.params) != Success(e.cache.entries[key].rows)
    ensures
      var t := e.cache.time;
      || Coherence.At(t.bumped, key.slug) < Coherence.At(t.committed, key.slug)
      || e.cache.entries[key].queriedAt < Coherence.At(t.bumped, key.slug) <= e.cache.entries[key].readAt
  {
    VersionsGrow(s, steps, key.slug);
    EveryStaleEntryHasCause(s, steps, e, key);
  }
}
