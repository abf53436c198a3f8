/**
 Whole histories of the recompute service at the level of the objects: any sequence of
 Trigger calls, worker turns, clock ticks and arriving events, with any replies. Each is a
 run of the protocol machine, so the theorems about runs hold of the stored state.
 */
module Service {
  import opened Common
  import opened Snapshots
  import opened Keys
  import opened Protocol
  import opened Lifecycle
  import opened Runs
  import opened Recompute
  import opened Conformance
  import Coherence

  datatype Call =
    | TriggerCall(raw: RawRequest, replies: TriggerReplies, id: RunId, token: Token)
    | WorkerCall(w: nat, answers: JobReplies)
    | ClockCall(d: nat)
    | ArrivalCall(e: Event)

  predicate AllDated(queue: seq<Job>) {
    forall i :: 0 <= i < |queue| ==> Dated(queue[i].claim.request)
  }

  predicate Callable(call: Call) {
    call.TriggerCall? ==> DatedRaw(call.raw)
  }

  /** A change of the state that keeps the queue dated and adds at most this run. */
  ghost predicate Adds(st: State, st': State, id: RunId) {
    AllDated(st'.queue) && st'.runs.Keys <= st.runs.Keys + {id}
  }

  lemma ReleasedAdds(st: State, st': State, claim: Claim, reply: Reply, id: RunId)
    requires Dated(claim.request) && Adds(st, st', id)
    ensures Adds(st, Released(st', claim, reply), id)
  {}

  lemma SubmittedAdds(st: State, st': State, capacity: nat, id: RunId, claim: Claim, replies: TriggerReplies)
    requires Dated(claim.request) && Adds(st, st', id)
    ensures Adds(st, Submitted(st', capacity, id, claim, replies).0, id)
  {
    var logged := st'.(audits := Log(st'.audits, id, TriggeredEntry, replies.audit));
    if |st'.queue| >= capacity {
      ReleasedAdds(st, logged.(runs := Mark(st'.runs, id, Failed, replies.fail)), claim, replies.release, id);
    }
  }

  lemma CreatedAdds(st: State, st': State, capacity: nat, id: RunId, claim: Claim, replies: TriggerReplies)
    requires Dated(claim.request) && Adds(st, st', id)
    ensures Adds(st, Recompute.Entered(st', capacity, id, claim, replies).0, id)
  {
    var created :=
      if replies.create.Applied() then st'.(runs := st'.runs[id := Run(claim.request, [Pending], None)]) else st';
    if replies.create.Ok? {
      SubmittedAdds(st, created, capacity, id, claim, replies);
    } else {
      ReleasedAdds(st, created, claim, replies.release, id);
    }
  }

  lemma AcquiredAdds(st: State, limits: Limits, q: Request, replies: TriggerReplies, id: RunId, token: Token)
    requires Dated(q) && AllDated(st.queue)
    ensures Adds(st, Recompute.Acquired(st, limits, q, replies, id, token).0, id)
  {
    if LockKey(q) !in st.locks && replies.acquire.Ok? {
      var claim := Claim(q, token, st.now, st.now + limits.lockTTL);
      var locked := st.(locks := st.locks[LockKey(q) := Lock(token, claim.expires)]);
      AcquiredFree(st, limits, q, replies, id, token, locked, claim);
      CreatedAdds(st, locked, limits.capacity, id, claim, replies);
    } else {
      AcquiredNot(st, limits, q, replies, id, token);
    }
  }

  lemma TriggeredAdds(st: State, limits: Limits, raw: RawRequest, replies: TriggerReplies, id: RunId, token: Token)
    requires DatedRaw(raw) && AllDated(st.queue)
    ensures Adds(st, Triggered(st, limits, raw, replies, id, token).0, id)
  {
    var accepted := Accept(raw, limits.maxRangeDays);
    if accepted.Success? {
      AcquiredAdds(st, limits, accepted.value, replies, id, token);
    }
  }

  lemma ProcessedKeeps(st: State, job: Job, replies: JobReplies)
    requires Dated(job.claim.request)
    ensures Processed(st, job, replies).queue == st.queue && Processed(st, job, replies).runs.Keys == st.runs.Keys
  {
    var q, running := job.claim.request, st.(runs := Mark(st.runs, job.run, Running, replies.running));
    var facts := Facts(q.slug, st.sources, st.events);
    FinishedKeeps(running.(table := Rebuilt(st.table, q, facts, job.run)), job,
                  SummaryOf(st.table, q, facts, job.run), replies);
    AbandonedKeeps(running, job, replies);
  }

  lemma FinishedKeeps(st: State, job: Job, summary: Summary, replies: JobReplies)
    requires Dated(job.claim.request)
    ensures Finished(st, job, summary, replies).queue == st.queue
    ensures Finished(st, job, summary, replies).runs.Keys == st.runs.Keys
  {}

  lemma AbandonedKeeps(st: State, job: Job, replies: JobReplies)
    requires Dated(job.claim.request)
    ensures Abandoned(st, job, replies).queue == st.queue && Abandoned(st, job, replies).runs.Keys == st.runs.Keys
  {}

  /** One call, from start to end; the lock expiry of a clock tick is Redis's. */
  function AfterCall(st: State, limits: Limits, call: Call): (r: State)
    requires AllDated(st.queue) && Callable(call)
    ensures AllDated(r.queue)
  {
    match call
    case TriggerCall(raw, replies, id, token) =>
      TriggeredAdds(st, limits, raw, replies, id, token);
      Triggered(st, limits, raw, replies, id, token).0
    case WorkerCall(_, replies) =>
      if st.queue == [] then st
      else
        ProcessedKeeps(st.(queue := st.queue[1..]), st.queue[0], replies);
        Processed(st.(queue := st.queue[1..]), st.queue[0], replies)
    case ClockCall(d) =>
      st.(now := st.now + d, locks := map k | k in st.locks && st.locks[k].expires > st.now + d :: st.locks[k])
    case ArrivalCall(e) => st.(events := st.events + [e])
  }

  function AfterCalls(st: State, limits: Limits, calls: seq<Call>): (r: State)
    requires AllDated(st.queue) && forall i :: 0 <= i < |calls| ==> Callable(calls[i])
    ensures AllDated(r.queue)
  {
    if calls == [] then st else AfterCall(AfterCalls(st, limits, calls[..|calls| - 1]), limits, calls[|calls| - 1])
  }

  /** Run ids (none of taken) and lock tokens are drawn fresh, and every worker call names a worker. */
  ghost predicate WellFormed(calls: seq<Call>, workers: nat, taken: set<RunId>) {
    && (forall i :: 0 <= i < |calls| ==> Callable(calls[i]) && (calls[i].WorkerCall? ==> calls[i].w < workers)
                                         && (calls[i].TriggerCall? ==> calls[i].id !in taken))
    && (forall i, j :: 0 <= i < j < |calls| && calls[i].TriggerCall? && calls[j].TriggerCall? ==>
          calls[i].id != calls[j].id && calls[i].token != calls[j].token)
  }

  lemma WellFormedPrefix(calls: seq<Call>, call: Call, workers: nat, taken: set<RunId>)
    requires WellFormed(calls + [call], workers, taken)
    ensures WellFormed(calls, workers, taken)
  {
    var all := calls + [call];
    assert forall i :: 0 <= i < |calls| ==> all[i] == calls[i];
  }

  /** Nobody is in the middle of a call. */
  ghost predicate BetweenCalls(s: Sys) {
    s.ts.triggers == map[] && forall w :: 0 <= w < |s.ts.workers| ==> s.ts.workers[w].task.None?
  }

  /** Only the taken ids and the ids and tokens of the calls are in use. */
  ghost predicate DrawnFrom(s: Sys, calls: seq<Call>, taken: set<RunId>) {
    && (forall u :: u in s.used ==> exists i :: 0 <= i < |calls| && calls[i].TriggerCall? && calls[i].token == u)
    && (forall id :: id in s.runs && id !in taken ==>
          exists i :: 0 <= i < |calls| && calls[i].TriggerCall? && calls[i].id == id)
  }

  lemma {:induction false} Chain(s: Sys, a: seq<Step>, m: Sys, b: seq<Step>)
    requires Reaches(s, a, m) && Valid(m, b)
    ensures Reaches(s, a + b, After(m, b))
  {
    if b == [] {
      assert a + b == a;
    } else {
      Chain(s, a, m, b[..|b| - 1]);
      ChainNext(s, a, After(m, b[..|b| - 1]), b);
      assert Enabled(After(m, b[..|b| - 1]), b[|b| - 1]);
    }
  }

  lemma ChainNext(s: Sys, a: seq<Step>, n: Sys, b: seq<Step>)
    requires b != [] && Reaches(s, a + b[..|b| - 1], n) && Enabled(n, b[|b| - 1])
    ensures Reaches(s, a + b, Apply(n, b[|b| - 1]))
  {
    Extend(s, a + b[..|b| - 1], b[|b| - 1]);
    assert a + b == a + b[..|b| - 1] + [b[|b| - 1]];
  }

  /** The steps of one call, with the replies that it got. */
  function CallSteps(st: State, limits: Limits, call: Call): seq<Step>
    requires Callable(call)
  {
    match call
    case TriggerCall(raw, replies, id, token) => TriggerSteps(st, limits, raw, replies, id, token, 0)
    case WorkerCall(w, replies) => if st.queue == [] then [] else ProcessSteps(st.queue[0], replies, w)
    case ClockCall(d) => [Advance(d)]
    case ArrivalCall(e) => [Arrive(e)]
  }

  /** One call from a state between calls is the run with these steps, to a state between calls. */
  lemma CallIsRun(s: Sys, st: State, limits: Limits, call: Call) returns (steps: seq<Step>, e: Sys)
    requires Shows(s, st, limits, s.used) && BetweenCalls(s) && AllDated(st.queue) && Callable(call)
    requires call.TriggerCall? ==> call.token !in s.used && call.id !in s.runs
    requires call.WorkerCall? ==> call.w < |s.ts.workers|
    ensures steps == CallSteps(st, limits, call)
    ensures Reaches(s, steps, e) && Shows(e, AfterCall(st, limits, call), limits, e.used) && BetweenCalls(e)
    ensures |e.ts.workers| == |s.ts.workers|
    ensures call.TriggerCall? ==> e.used <= s.used + {call.token} && e.runs.Keys <= s.runs.Keys + {call.id}
    ensures !call.TriggerCall? ==> e.used == s.used && e.runs.Keys == s.runs.Keys
  {
    if call.TriggerCall? {
      steps, e := TriggerCallIsRun(s, st, limits, call);
    } else if call.WorkerCall? {
      steps, e := WorkerCallIsRun(s, st, limits, call);
    } else {
      steps, e := Take(s, [], s, if call.ClockCall? then Advance(call.d) else Arrive(call.e));
    }
  }

  lemma TriggerCallIsRun(s: Sys, st: State, limits: Limits, call: Call) returns (steps: seq<Step>, e: Sys)
    requires Shows(s, st, limits, s.used) && BetweenCalls(s) && AllDated(st.queue) && Callable(call)
    requires call.TriggerCall? && call.token !in s.used && call.id !in s.runs
    ensures steps == CallSteps(st, limits, call)
    ensures Reaches(s, steps, e) && Shows(e, AfterCall(st, limits, call), limits, e.used) && BetweenCalls(e)
    ensures |e.ts.workers| == |s.ts.workers|
    ensures e.used <= s.used + {call.token} && e.runs.Keys <= s.runs.Keys + {call.id}
  {
    steps, e := TriggerIsRun(s, st, limits, s.used, call.raw, call.replies, call.id, call.token, 0);
    TriggeredAdds(st, limits, call.raw, call.replies, call.id, call.token);
  }

  lemma WorkerCallIsRun(s: Sys, st: State, limits: Limits, call: Call) returns (steps: seq<Step>, e: Sys)
    requires Shows(s, st, limits, s.used) && BetweenCalls(s) && AllDated(st.queue)
    requires call.WorkerCall? && call.w < |s.ts.workers|
    ensures steps == CallSteps(st, limits, call)
    ensures Reaches(s, steps, e) && Shows(e, AfterCall(st, limits, call), limits, e.used) && BetweenCalls(e)
    ensures |e.ts.workers| == |s.ts.workers| && e.used == s.used && e.runs.Keys == s.runs.Keys
  {
    if st.queue == [] {
      steps, e := [], s;
    } else {
      steps, e := ProcessIsRun(s, st, limits, s.used, call.answers, call.w);
      ProcessedKeeps(st.(queue := st.queue[1..]), st.queue[0], call.answers);
    }
  }

  lemma DrawnNext(s: Sys, e: Sys, calls: seq<Call>, call: Call, taken: set<RunId>)
    requires DrawnFrom(s, calls, taken)
    requires call.TriggerCall? ==> e.used <= s.used + {call.token} && e.runs.Keys <= s.runs.Keys + {call.id}
    requires !call.TriggerCall? ==> e.used == s.used && e.runs.Keys == s.runs.Keys
    ensures DrawnFrom(e, calls + [call], taken)
  {
    var all := calls + [call];
    assert all[|calls|] == call;
    forall u | u in e.used ensures exists i :: 0 <= i < |all| && all[i].TriggerCall? && all[i].token == u {
      if u in s.used {
        var i :| 0 <= i < |calls| && calls[i].TriggerCall? && calls[i].token == u;
        assert all[i] == calls[i];
      }
    }
    forall id | id in e.runs && id !in taken
      ensures exists i :: 0 <= i < |all| && all[i].TriggerCall? && all[i].id == id
    {
      if id in s.runs {
        var i :| 0 <= i < |calls| && calls[i].TriggerCall? && calls[i].id == id;
        assert all[i] == calls[i];
      }
    }
  }

  lemma NextCall(s: Sys, before: seq<Step>, m: Sys, st: State, limits: Limits, calls: seq<Call>, call: Call,
                 taken: set<RunId>) returns (steps: seq<Step>, e: Sys)
    requires Reaches(s, before, m) && Shows(m, st, limits, m.used) && BetweenCalls(m) && AllDated(st.queue)
    requires DrawnFrom(m, calls, taken) && WellFormed(calls + [call], |m.ts.workers|, taken)
    ensures Reaches(s, steps, e) && Callable(call) && Shows(e, AfterCall(st, limits, call), limits, e.used)
    ensures BetweenCalls(e) && steps == before + CallSteps(st, limits, call)
    ensures DrawnFrom(e, calls + [call], taken) && |e.ts.workers| == |m.ts.workers|
  {
    NotDrawn(m, calls, call, taken);
    var more;
    more, e := CallIsRun(m, st, limits, call);
    Chain(s, before, m, more);
    steps := before + more;
    DrawnNext(m, e, calls, call, taken);
  }

  lemma NotDrawn(s: Sys, calls: seq<Call>, call: Call, taken: set<RunId>)
    requires DrawnFrom(s, calls, taken) && WellFormed(calls + [call], |s.ts.workers|, taken)
    ensures Callable(call) && (call.TriggerCall? ==> call.token !in s.used && call.id !in s.runs)
    ensures call.WorkerCall? ==> call.w < |s.ts.workers|
  {
    var all := calls + [call];
    assert all[|calls|] == call;
    assert forall i :: 0 <= i < |calls| ==> all[i] == calls[i];
  }

  /** The steps of a sequence of calls. */
  function StepsOf(st: State, limits: Limits, calls: seq<Call>): seq<Step>
    requires AllDated(st.queue) && forall i :: 0 <= i < |calls| ==> Callable(calls[i])
  {
    if calls == [] then []
    else
      var init, call := calls[..|calls| - 1], calls[|calls| - 1];
      StepsOf(st, limits, init) + CallSteps(AfterCalls(st, limits, init), limits, call)
  }

  /**
   Every sequence of calls, with any replies, is the run of the protocol machine with the
   steps of the calls, over the same stores.
   */
  lemma {:induction false} CallsAreRun(s: Sys, st: State, limits: Limits, calls: seq<Call>)
    returns (steps: seq<Step>, e: Sys)
    requires Start(s) && Shows(s, st, limits, {}) && AllDated(st.queue)
    requires WellFormed(calls, |s.ts.workers|, s.runs.Keys)
    ensures Reaches(s, steps, e) && Shows(e, AfterCalls(st, limits, calls), limits, e.used) && BetweenCalls(e)
    ensures DrawnFrom(e, calls, s.runs.Keys) && |e.ts.workers| == |s.ts.workers|
    ensures steps == StepsOf(st, limits, calls)
  {
    if calls == [] {
      steps, e := [], s;
    } else {
      var init, call := calls[..|calls| - 1], calls[|calls| - 1];
      assert calls == init + [call];
      WellFormedPrefix(init, call, |s.ts.workers|, s.runs.Keys);
      var before, m := CallsAreRun(s, st, limits, init);
      steps, e := NextCall(s, before, m, AfterCalls(st, limits, init), limits, init, call, s.runs.Keys);
    }
  }

  // ----- what this says about the objects -----

  /** No job, no lock, and tables at rest. */
  ghost predicate Resting(st: State) {
    st.queue == [] && st.locks == map[] && AtRest(st.table, st.runs, st.audits)
  }

  function VersionsOf(texts: map<string, nat>): map<Slug, nat> {
    map slug | slug in {VolumeByPeriod, StatusCounts, TopEntities} && VersionKey(SlugName(slug)) in texts
      :: texts[VersionKey(SlugName(slug))]
  }

  /** The machine state of stores at rest and idle workers. */
  function StartOf(st: State, limits: Limits, workers: nat): Sys {
    Sys(Config(limits.capacity, limits.lockTTL, 0), Tasks(map[], [], 0, Idle(workers), []), map[], st.now, {}, {},
        st.runs, st.audits, map[], SettledOf(st.runs, st.audits), Coherence.Initial(st.table, VersionsOf(st.versions)),
        st.sources, st.events)
  }

  lemma StartShows(st: State, limits: Limits, workers: nat)
    requires Resting(st) && workers > 0 && limits.lockTTL > 0
    ensures Start(StartOf(st, limits, workers)) && Shows(StartOf(st, limits, workers), st, limits, {})
  {}

  /**
   Whatever is called in whatever order and whatever fails, on stores that start at rest: the
   run rows that were there stay as they were; each new run row has a legal status history
   and its audit entries are in order; and the rows that carry a run id fit that run's
   request, and that run committed if it is new.
   */
  lemma ServiceHistory(st: State, limits: Limits, workers: nat, calls: seq<Call>, run: RunId)
    requires Resting(st) && workers > 0 && limits.lockTTL > 0 && WellFormed(calls, workers, st.runs.Keys)
    ensures
      var end := AfterCalls(st, limits, calls);
      && (run in st.runs ==> run in end.runs && end.runs[run] == st.runs[run]
                             && ActionsOf(end.audits, run) == ActionsOf(st.audits, run))
      && (run !in st.runs ==> LegalActions(ActionsOf(end.audits, run)))
      && (run !in st.runs && run in end.runs ==> LegalHistory(end.runs[run].history))
      && (forall i :: 0 <= i < |end.table| && end.table[i].key.run == Some(run) ==>
            && run in end.runs && Fits(end.runs[run].request, end.table[i].key)
            && (run !in st.runs ==>
                  var h := end.runs[run].history;
                  h == [Pending, Running] || h == [Pending, Running, Completed]))
  {
    var s := StartOf(st, limits, workers);
    StartShows(st, limits, workers);
    var steps, e := CallsAreRun(s, st, limits, calls);
    if run in st.runs {
      EarlierRunsStay(s, steps, e, run);
    } else {
      AuditTrailInOrder(s, steps, e, run);
      if run in e.runs {
        EveryHistoryLegal(s, steps, e, run);
      }
    }
    forall i | 0 <= i < |e.cache.time.table| && e.cache.time.table[i].key.run == Some(run)
      ensures run in e.runs && Fits(e.runs[run].request, e.cache.time.table[i].key)
      ensures run !in st.runs ==>
                e.runs[run].history == [Pending, Running] || e.runs[run].history == [Pending, Running, Completed]
    {
      RowsHaveLineage(s, steps, e, i);
    }
  }
}
