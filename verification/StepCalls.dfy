/**
 The steps of the machines are the remote calls of the methods, one for one and in order:
 the runs that Conformance and ReadConformance take are what the stores record.
 */
module StepCalls {
  import opened Common
  import opened Snapshots
  import opened Keys
  import opened Protocol
  import opened Recompute
  import opened Conformance
  import Calls
  import Reports
  import Report
  import Redis
  import Coherence
  import R = ReadConformance

  /** The remote call of a step for a run and its claim; sends, receives and time make none. */
  function CallOf(step: Step, claim: Claim, run: RunId, summary: Summary): seq<Calls.Remote>
    requires Dated(claim.request)
  {
    match step
    case Acquire(_, q, token, reply) => if Dated(q) then [Calls.SetLock(LockKey(q), token, reply)] else []
    case CreateRun(_, id, reply) => [Calls.InsertRun(id, Pending, reply)]
    case AuditTriggered(_, reply) => [Calls.InsertAudit(run, TriggeredEntry, reply)]
    case RejectRun(_, reply) => [Calls.UpdateRun(run, Failed, reply)]
    case ReleaseTrigger(_, reply) => [Calls.FreeLock(LockKey(claim.request), claim.token, reply)]
    case MarkRunning(_, reply) => [Calls.UpdateRun(run, Running, reply)]
    case Recompute(_, ok) => [Calls.Rebuild(claim.request, run, ok)]
    case MarkFailed(_, reply) => [Calls.UpdateRun(run, Failed, reply)]
    case AuditFailed(_, reply) => [Calls.InsertAudit(run, FailedEntry, reply)]
    case MarkCompleted(_, reply) => [Calls.UpdateRun(run, Completed, reply)]
    case BumpVersion(_, reply) => [Calls.RaiseVersion(SlugName(claim.request.slug), reply)]
    case AuditCompleted(_, reply) => [Calls.InsertAudit(run, CompletedEntry(summary), reply)]
    case ReleaseWorker(_, reply) => [Calls.FreeLock(LockKey(claim.request), claim.token, reply)]
    case _ => []
  }

  function CallsOf(steps: seq<Step>, claim: Claim, run: RunId, summary: Summary): seq<Calls.Remote>
    requires Dated(claim.request)
  {
    if steps == [] then [] else CallOf(steps[0], claim, run, summary) + CallsOf(steps[1..], claim, run, summary)
  }

  lemma {:induction false} CallsOfBoth(a: seq<Step>, b: seq<Step>, claim: Claim, run: RunId, summary: Summary)
    requires Dated(claim.request)
    ensures CallsOf(a + b, claim, run, summary) == CallsOf(a, claim, run, summary) + CallsOf(b, claim, run, summary)
  {
    if a == [] {
      assert a + b == b;
    } else {
      assert (a + b)[1..] == a[1..] + b;
      CallsOfBoth(a[1..], b, claim, run, summary);
    }
  }

  lemma CallsOfTwo(a: Step, b: Step, claim: Claim, run: RunId, summary: Summary)
    requires Dated(claim.request)
    ensures CallsOf([a], claim, run, summary) == CallOf(a, claim, run, summary)
    ensures CallsOf([a, b], claim, run, summary) == CallOf(a, claim, run, summary) + CallOf(b, claim, run, summary)
  {
    assert [a][1..] == [] && [a, b][1..] == [b] && [b][1..] == [];
  }

  // ----- Trigger -----

  lemma SubmitStepsCall(full: bool, t: nat, id: RunId, claim: Claim, replies: TriggerReplies, summary: Summary)
    requires Dated(claim.request)
    ensures CallsOf(SubmitSteps(full, t, replies), claim, id, summary) == SubmitCalls(full, id, claim, replies)
  {
    var first, more := [AuditTriggered(t, replies.audit), Enqueue(t)],
      if full then [RejectRun(t, replies.fail), ReleaseTrigger(t, replies.release)] else [];
    CallsOfBoth(first, more, claim, id, summary);
    CallsOfTwo(first[0], first[1], claim, id, summary);
    if full {
      CallsOfTwo(more[0], more[1], claim, id, summary);
    }
  }

  lemma CreateStepsCall(full: bool, t: nat, id: RunId, claim: Claim, replies: TriggerReplies, summary: Summary)
    requires Dated(claim.request)
    ensures CallsOf(CreateSteps(full, t, id, replies), claim, id, summary) == LockedCalls(full, id, claim, replies)
  {
    var release := ReleaseTrigger(t, replies.release);
    var more := if replies.create.Ok? then SubmitSteps(full, t, replies) else [release];
    CallsOfBoth([CreateRun(t, id, replies.create)], more, claim, id, summary);
    CallsOfTwo(CreateRun(t, id, replies.create), release, claim, id, summary);
    CallsOfTwo(release, release, claim, id, summary);
    SubmitStepsCall(full, t, id, claim, replies, summary);
  }

  /** The steps of a Trigger call are its remote calls. */
  lemma TriggerStepsAreCalls(st: State, limits: Limits, raw: RawRequest, replies: TriggerReplies, id: RunId,
                             token: Token, t: nat, q: Request, summary: Summary)
    requires DatedRaw(raw) && Acceptable(raw, limits.maxRangeDays) && SentAs(raw, q)
    ensures
      var claim := Claim(q, token, st.now, st.now + limits.lockTTL);
      CallsOf(TriggerSteps(st, limits, raw, replies, id, token, t), claim, id, summary)
      == TriggerCalls(st, limits, raw, replies, id, token)
  {
    AcceptExact(raw, limits.maxRangeDays);
    var claim, take := Claim(q, token, st.now, st.now + limits.lockTTL), Acquire(t, q, token, replies.acquire);
    var full := |st.queue| >= limits.capacity;
    CallsOfTwo(take, take, claim, id, summary);
    CallsOfBoth([take], CreateSteps(full, t, id, replies), claim, id, summary);
    CreateStepsCall(full, t, id, claim, replies, summary);
    assert [take] + [] == [take];
  }

  // ----- processJob -----

  lemma FinishStepsCall(job: Job, replies: JobReplies, w: nat, summary: Summary)
    requires Dated(job.claim.request)
    ensures CallsOf(FinishSteps(w, replies), job.claim, job.run, summary) == FinishCalls(job, summary, replies)
  {
    var mark, bump := MarkCompleted(w, replies.mark), BumpVersion(w, replies.bump);
    var log, release := AuditCompleted(w, replies.audit), ReleaseWorker(w, replies.release);
    assert FinishSteps(w, replies) == [mark, bump] + [log, release];
    CallsOfBoth([mark, bump], [log, release], job.claim, job.run, summary);
    FinishStartsWith(job, replies, w, summary);
    LogAndRelease(job, log, CompletedEntry(summary), replies, w, summary);
  }

  lemma FinishStartsWith(job: Job, replies: JobReplies, w: nat, summary: Summary)
    requires Dated(job.claim.request)
    ensures CallsOf([MarkCompleted(w, replies.mark), BumpVersion(w, replies.bump)], job.claim, job.run, summary)
            == [Calls.UpdateRun(job.run, Completed, replies.mark),
                Calls.RaiseVersion(SlugName(job.claim.request.slug), replies.bump)]
  {
    CallsOfTwo(MarkCompleted(w, replies.mark), BumpVersion(w, replies.bump), job.claim, job.run, summary);
  }

  /** Both outcomes of a job end with its audit entry and its release. */
  lemma LogAndRelease(job: Job, log: Step, action: Action, replies: JobReplies, w: nat, summary: Summary)
    requires Dated(job.claim.request)
    requires CallOf(log, job.claim, job.run, summary) == [Calls.InsertAudit(job.run, action, replies.audit)]
    ensures CallsOf([log, ReleaseWorker(w, replies.release)], job.claim, job.run, summary)
            == [Calls.InsertAudit(job.run, action, replies.audit), FreeCall(job.claim, replies.release)]
  {
    CallsOfTwo(log, ReleaseWorker(w, replies.release), job.claim, job.run, summary);
  }

  lemma AbandonStepsCall(job: Job, replies: JobReplies, w: nat, summary: Summary)
    requires Dated(job.claim.request)
    ensures CallsOf(AbandonSteps(w, replies), job.claim, job.run, summary) == AbandonCalls(job, replies)
  {
    var mark, log := MarkFailed(w, replies.mark), AuditFailed(w, replies.audit);
    var release := ReleaseWorker(w, replies.release);
    assert AbandonSteps(w, replies) == [mark] + [log, release];
    CallsOfBoth([mark], [log, release], job.claim, job.run, summary);
    CallsOfTwo(mark, log, job.claim, job.run, summary);
    LogAndRelease(job, log, FailedEntry, replies, w, summary);
  }

  lemma RebuildStepsCall(st: State, job: Job, replies: JobReplies, w: nat)
    requires Dated(job.claim.request) && replies.running.Ok?
    ensures [Calls.UpdateRun(job.run, Running, replies.running)]
            + CallsOf(RebuildSteps(job, replies, w), job.claim, job.run, SummaryOfJob(st, job))
            == JobCalls(st, job, replies)
  {
    var summary, rebuild := SummaryOfJob(st, job), Step.Recompute(w, Commits(job, replies));
    var more := if Commits(job, replies) then FinishSteps(w, replies) else AbandonSteps(w, replies);
    FinishStepsCall(job, replies, w, summary);
    AbandonStepsCall(job, replies, w, summary);
    CallsOfBoth([rebuild], more, job.claim, job.run, summary);
    CallsOfTwo(rebuild, rebuild, job.claim, job.run, summary);
  }

  lemma JobStartsWith(job: Job, replies: JobReplies, w: nat, summary: Summary)
    requires Dated(job.claim.request)
    ensures CallsOf([TakeJob(w), MarkRunning(w, replies.running)], job.claim, job.run, summary)
            == [Calls.UpdateRun(job.run, Running, replies.running)]
  {
    CallsOfTwo(TakeJob(w), MarkRunning(w, replies.running), job.claim, job.run, summary);
  }

  /** The steps of a job are its remote calls: the bump between the commit and the release, the rebuild before it. */
  lemma ProcessStepsAreCalls(st: State, job: Job, replies: JobReplies, w: nat)
    requires Dated(job.claim.request)
    ensures CallsOf(ProcessSteps(job, replies, w), job.claim, job.run, SummaryOfJob(st, job))
            == JobCalls(st, job, replies)
  {
    var summary, release := SummaryOfJob(st, job), ReleaseWorker(w, replies.release);
    var take, mark := TakeJob(w), MarkRunning(w, replies.running);
    JobStartsWith(job, replies, w, summary);
    if replies.running.Ok? {
      CallsOfBoth([take, mark], RebuildSteps(job, replies, w), job.claim, job.run, summary);
      RebuildStepsCall(st, job, replies, w);
    } else {
      CallsOfBoth([take, mark], [release], job.claim, job.run, summary);
      CallsOfTwo(release, release, job.claim, job.run, summary);
    }
  }

  // ----- RunReport -----

  /** The remote call of a reader step, for the keys that the call looks under and stores under. */
  function ReadCallOf(s: Coherence.CacheStep, slug: Slug, p: Reports.RunParams, lookKey: string, storeKey: string)
    : seq<Calls.Remote>
  {
    match s
    case ReadVersion(_, ok) => [Calls.AskVersion(SlugName(slug), ok)]
    case InitVersion(_, reply) => [Calls.InitVersion(SlugName(slug), reply)]
    case GetEntry(_, ok) => [Calls.GetEntry(lookKey, ok)]
    case RunRead(_, ok) => [Calls.Select(slug, p, ok)]
    case SetEntry(_, reply) => [Calls.PutEntry(storeKey, reply)]
    case _ => []
  }

  function ReadCallsOf(steps: seq<Coherence.CacheStep>, slug: Slug, p: Reports.RunParams, lookKey: string,
                       storeKey: string): seq<Calls.Remote>
  {
    if steps == [] then []
    else ReadCallOf(steps[0], slug, p, lookKey, storeKey) + ReadCallsOf(steps[1..], slug, p, lookKey, storeKey)
  }

  lemma {:induction false} ReadCallsBoth(a: seq<Coherence.CacheStep>, b: seq<Coherence.CacheStep>, slug: Slug,
                                         p: Reports.RunParams, lookKey: string, storeKey: string)
    ensures ReadCallsOf(a + b, slug, p, lookKey, storeKey)
            == ReadCallsOf(a, slug, p, lookKey, storeKey) + ReadCallsOf(b, slug, p, lookKey, storeKey)
  {
    if a == [] {
      assert a + b == b;
    } else {
      assert (a + b)[1..] == a[1..] + b;
      ReadCallsBoth(a[1..], b, slug, p, lookKey, storeKey);
    }
  }

  lemma ReadCallsOne(s: Coherence.CacheStep, slug: Slug, p: Reports.RunParams, lookKey: string, storeKey: string)
    ensures ReadCallsOf([s], slug, p, lookKey, storeKey) == ReadCallOf(s, slug, p, lookKey, storeKey)
  {
    assert [s][1..] == [];
  }

  lemma VersionStepsCall(versions: map<string, nat>, slug: Slug, p: Reports.RunParams, r: nat,
                         replies: Report.VersionReplies, lookKey: string, storeKey: string)
    ensures ReadCallsOf(R.VersionSteps(versions, slug, r, replies), slug, p, lookKey, storeKey)
            == Report.KeyCalls(versions, slug, replies)
  {
    var ask, init := Coherence.ReadVersion(r, replies.ok), Coherence.InitVersion(r, replies.init);
    ReadCallsBoth([ask], [init], slug, p, lookKey, storeKey);
    ReadCallsOne(ask, slug, p, lookKey, storeKey);
    ReadCallsOne(init, slug, p, lookKey, storeKey);
    assert [ask] + [] == [ask];
  }

  /** The key under which a call works when it learns its version from these versions. */
  function KeyUnder(versions: map<string, nat>, digest: Report.Digest, slug: Slug, p: Reports.RunParams,
                    replies: Report.VersionReplies): string
  {
    var version := Redis.Versioned(versions, SlugName(slug), replies.ok, replies.init).1;
    if version.Success? then Report.EntryKey(digest, slug, version.value, p) else ""
  }

  lemma StoreStepsCall(st: Report.State, digest: Report.Digest, slug: Slug, p: Reports.RunParams, r: nat,
                       replies: Report.RunReplies, lookKey: string)
    ensures
      var storeKey := KeyUnder(st.versions, digest, slug, p, replies.again);
      ReadCallsOf(R.StoreSteps(st, slug, r, replies), slug, p, lookKey, storeKey)
      == Report.StoreCalls(st, digest, slug, p, replies)
  {
    var storeKey, put := KeyUnder(st.versions, digest, slug, p, replies.again), Coherence.SetEntry(r, replies.put);
    var version := R.VersionSteps(st.versions, slug, r, replies.again);
    VersionStepsCall(st.versions, slug, p, r, replies.again, lookKey, storeKey);
    ReadCallsBoth(version, [put], slug, p, lookKey, storeKey);
    ReadCallsOne(put, slug, p, lookKey, storeKey);
    assert version + [] == version;
  }

  lemma FetchStepsCall(st: Report.State, digest: Report.Digest, slug: Slug, p: Reports.RunParams, r: nat,
                       replies: Report.RunReplies, lookKey: string)
    requires Supported(slug)
    ensures
      var storeKey := KeyUnder(st.versions, digest, slug, p, replies.again);
      ReadCallsOf(R.FetchSteps(st, slug, p, r, replies), slug, p, lookKey, storeKey)
      == Report.FetchCalls(st, digest, slug, p, replies)
  {
    var storeKey := KeyUnder(st.versions, digest, slug, p, replies.again);
    var run := Coherence.RunRead(r, Report.ScanOk(st.table, slug, p, replies));
    StoreStepsCall(st, digest, slug, p, r, replies, lookKey);
    ReadCallsBoth([run], R.StoreSteps(st, slug, r, replies), slug, p, lookKey, storeKey);
    ReadCallsOne(run, slug, p, lookKey, storeKey);
    assert [run] + [] == [run];
  }

  lemma LookStepsCall(st: Report.State, digest: Report.Digest, slug: Slug, p: Reports.RunParams, r: nat,
                      replies: Report.RunReplies, storeKey: string)
    ensures
      var lookKey := KeyUnder(st.versions, digest, slug, p, replies.read);
      ReadCallsOf(R.LookSteps(st, slug, r, replies), slug, p, lookKey, storeKey)
      == Report.LookCalls(st, digest, slug, p, replies)
  {
    var lookKey, look := KeyUnder(st.versions, digest, slug, p, replies.read), Coherence.GetEntry(r, replies.get);
    var version := R.VersionSteps(st.versions, slug, r, replies.read);
    VersionStepsCall(st.versions, slug, p, r, replies.read, lookKey, storeKey);
    ReadCallsBoth(version, [look], slug, p, lookKey, storeKey);
    ReadCallsOne(look, slug, p, lookKey, storeKey);
    assert version + [] == version;
  }

  lemma SoughtStepsCall(st: Report.State, digest: Report.Digest, slug: Slug, p: Reports.RunParams, r: nat,
                        replies: Report.RunReplies)
    requires Supported(slug)
    ensures
      var lookKey := KeyUnder(st.versions, digest, slug, p, replies.read);
      var storeKey := KeyUnder(Report.Looked(st, digest, slug, p, replies).0.versions, digest, slug, p, replies.again);
      ReadCallsOf(R.SoughtSteps(st, digest, slug, p, r, replies), slug, p, lookKey, storeKey)
      == Report.SoughtCalls(st, digest, slug, p, replies)
  {
    var (st', hit) := Report.Looked(st, digest, slug, p, replies);
    var lookKey := KeyUnder(st.versions, digest, slug, p, replies.read);
    var storeKey := KeyUnder(st'.versions, digest, slug, p, replies.again);
    var look, fetch := R.LookSteps(st, slug, r, replies), R.FetchSteps(st', slug, p, r, replies);
    LookStepsCall(st, digest, slug, p, r, replies, storeKey);
    FetchStepsCall(st', digest, slug, p, r, replies, lookKey);
    ReadCallsBoth(look, fetch, slug, p, lookKey, storeKey);
    assert look + [] == look;
  }

  /** The steps of a RunReport call are its remote calls: it looks up, queries and stores in this order. */
  lemma ReadStepsAreCalls(st: Report.State, digest: Report.Digest, slug: Slug, raw: Reports.RawParams,
                          p: Reports.RunParams, maxRangeDays: int, r: nat, replies: Report.RunReplies)
    requires Supported(slug) && Reports.Admissible(raw, maxRangeDays) && Reports.AskedFor(raw, p)
    requires replies.lookup.None?
    ensures
      var st' := if replies.caching then Report.Looked(st, digest, slug, p, replies).0 else st;
      var lookKey := KeyUnder(st.versions, digest, slug, p, replies.read);
      var storeKey := KeyUnder(st'.versions, digest, slug, p, replies.again);
      ReadCallsOf(R.ReadSteps(st, digest, slug, p, r, replies), slug, p, lookKey, storeKey)
      == Report.AnswerCalls(st, digest, slug, raw, maxRangeDays, replies)
  {
    Reports.ValidateExact(raw, maxRangeDays);
    var st' := if replies.caching then Report.Looked(st, digest, slug, p, replies).0 else st;
    var lookKey := KeyUnder(st.versions, digest, slug, p, replies.read);
    var storeKey := KeyUnder(st'.versions, digest, slug, p, replies.again);
    var begin := Coherence.Begin(r, slug, p, replies.caching);
    ReadCallsOne(begin, slug, p, lookKey, storeKey);
    if replies.caching {
      SoughtStepsCall(st, digest, slug, p, r, replies);
      ReadCallsBoth([begin], R.SoughtSteps(st, digest, slug, p, r, replies), slug, p, lookKey, storeKey);
    } else {
      FetchStepsCall(st, digest, slug, p, r, replies, lookKey);
      ReadCallsBoth([begin], R.FetchSteps(st, slug, p, r, replies), slug, p, lookKey, storeKey);
    }
  }
}
