/** Locks: who holds them, what a release can remove, and when two jobs can share a scope. */
module Ownership {
  import opened Common
  import opened Snapshots
  import opened Keys
  import opened Protocol

  ghost predicate ClaimsOk(ts: Tasks, used: set<Token>) {
    forall p :: TaskAt(ts, p).Some? ==>
      Dated(TaskAt(ts, p).value.claim.request) && TaskAt(ts, p).value.claim.token in used
  }

  ghost predicate DistinctTokens(ts: Tasks) {
    forall p, q :: TaskAt(ts, p).Some? && TaskAt(ts, q).Some? && p != q
                   ==> TaskAt(ts, p).value.claim.token != TaskAt(ts, q).value.claim.token
  }

  /** While its lease runs, a claim's own token is in its lock. */
  ghost predicate Holds(c: Claim, locks: map<string, Lock>, now: nat) {
    Dated(c.request)
      && (now < c.expires ==> LockKey(c.request) in locks && locks[LockKey(c.request)] == Lock(c.token, c.expires))
  }

  ghost predicate LeasesHeld(ts: Tasks, locks: map<string, Lock>, now: nat) {
    forall p :: TaskAt(ts, p).Some? ==> Holds(TaskAt(ts, p).value.claim, locks, now)
  }

  ghost predicate Owner(ts: Tasks, p: Place, key: string, token: Token) {
    TaskAt(ts, p).Some? && TaskAt(ts, p).value.claim.token == token
    && Dated(TaskAt(ts, p).value.claim.request) && LockKey(TaskAt(ts, p).value.claim.request) == key
  }

  /** Every lock belongs to live work or to a known orphan. */
  ghost predicate LocksOwned(ts: Tasks, locks: map<string, Lock>, used: set<Token>, orphans: set<Token>) {
    forall k :: k in locks ==>
      locks[k].token in used && (locks[k].token in orphans || exists p :: Owner(ts, p, k, locks[k].token))
  }

  ghost predicate Owned(ts: Tasks, locks: map<string, Lock>, now: nat, used: set<Token>, orphans: set<Token>) {
    ClaimsOk(ts, used) && DistinctTokens(ts) && LeasesHeld(ts, locks, now) && LocksOwned(ts, locks, used, orphans)
  }

  ghost predicate Guarded(s: Sys) {
    Owned(s.ts, s.locks, s.now, s.used, s.orphans) && s.cfg.lockTTL > 0
  }

  // ----- each kind of move keeps ownership -----

  lemma ShiftOwned(ts: Tasks, ts': Tasks, m: Move, locks: map<string, Lock>, now: nat, used: set<Token>,
                   orphans: set<Token>)
    requires Owned(ts, locks, now, used, orphans) && Moves(ts, ts', m)
    requires m.Stay? || (m.Shift? && m.task.claim == TaskAt(ts, m.o).value.claim)
    ensures Owned(ts', locks, now, used, orphans)
  {
    forall k | k in locks && locks[k].token !in orphans ensures exists p :: Owner(ts', p, k, locks[k].token) {
      var p :| Owner(ts, p, k, locks[k].token);
      assert Owner(ts', if m.Shift? && p == m.o then m.n else p, k, locks[k].token);
    }
  }

  lemma AcquireOwned(s: Sys, t: nat, request: Request, token: Token, reply: Reply)
    requires Guarded(s) && Enabled(s, Acquire(t, request, token, reply))
    ensures Guarded(DoAcquire(s, t, request, token, reply))
  {
    var s', key := DoAcquire(s, t, request, token, reply), LockKey(request);
    var m := MoveOf(s, Acquire(t, request, token, reply));
    StepMoves(s, Acquire(t, request, token, reply));
    forall p | TaskAt(s'.ts, p).Some? ensures Holds(TaskAt(s'.ts, p).value.claim, s'.locks, s'.now) {
      assert (m.Add? && p == m.n) || TaskAt(s.ts, p) == TaskAt(s'.ts, p);
      if !(m.Add? && p == m.n) {
        assert Holds(TaskAt(s.ts, p).value.claim, s.locks, s.now);
      }
    }
    forall k | k in s'.locks
      ensures s'.locks[k].token in s'.used
      ensures s'.locks[k].token in s'.orphans || exists p :: Owner(s'.ts, p, k, s'.locks[k].token)
    {
      if k in s.locks {
        if s.locks[k].token !in s.orphans {
          var p :| Owner(s.ts, p, k, s.locks[k].token);
          assert Owner(s'.ts, p, k, s.locks[k].token);
        }
      } else if reply.Ok? {
        assert Owner(s'.ts, m.n, k, token);
      }
    }
  }

  /** The release script touches no lock with another token. */
  lemma CompareDeleteKeeps(locks: map<string, Lock>, key: string, token: Token)
    ensures
      var locks' := CompareDelete(locks, key, token);
      && (forall k :: k in locks' ==> k in locks && locks'[k] == locks[k])
      && (forall k :: k in locks && (k != key || locks[k].token != token) ==> k in locks')
      && (key in locks' ==> locks'[key].token != token)
  {}

  lemma RemoveKeepsClaims(ts: Tasks, ts': Tasks, o: Place, used: set<Token>)
    requires ClaimsOk(ts, used) && DistinctTokens(ts) && Moves(ts, ts', Remove(o))
    ensures ClaimsOk(ts', used) && DistinctTokens(ts')
  {
    forall p ensures TaskAt(ts', p).Some? ==> TaskAt(ts', p) == TaskAt(ts, p) {}
  }

  lemma RemoveKeepsLeases(ts: Tasks, ts': Tasks, o: Place, locks: map<string, Lock>, locks': map<string, Lock>,
                          now: nat)
    requires LeasesHeld(ts, locks, now) && DistinctTokens(ts) && Moves(ts, ts', Remove(o))
    requires forall k :: k in locks && locks[k].token != TaskAt(ts, o).value.claim.token ==>
               k in locks' && locks'[k] == locks[k]
    ensures LeasesHeld(ts', locks', now)
  {
    forall p | TaskAt(ts', p).Some? ensures Holds(TaskAt(ts', p).value.claim, locks', now) {
      assert p != o && TaskAt(ts, p) == TaskAt(ts', p);
      assert Holds(TaskAt(ts, p).value.claim, locks, now);
    }
  }

  lemma RemoveKeepsOwners(ts: Tasks, ts': Tasks, o: Place, locks: map<string, Lock>, locks': map<string, Lock>,
                          used: set<Token>, orphans: set<Token>, orphans': set<Token>)
    requires LocksOwned(ts, locks, used, orphans) && Moves(ts, ts', Remove(o)) && orphans <= orphans'
    requires forall k :: k in locks' ==> k in locks && locks'[k] == locks[k]
    requires forall k :: k in locks' && Owner(ts, o, k, locks'[k].token) ==> locks'[k].token in orphans'
    ensures LocksOwned(ts', locks', used, orphans')
  {
    forall k | k in locks' && locks'[k].token !in orphans' ensures exists p :: Owner(ts', p, k, locks'[k].token) {
      var p :| Owner(ts, p, k, locks[k].token);
      assert p != o && TaskAt(ts', p) == TaskAt(ts, p);
      assert Owner(ts', p, k, locks[k].token);
    }
  }

  /** Releasing a finished task removes its own lock or orphans its token, and touches no other lock. */
  lemma ReleaseOwned(s: Sys, o: Place, ts': Tasks, reply: Reply)
    requires Guarded(s) && Moves(s.ts, ts', Remove(o))
    ensures
      var c := TaskAt(s.ts, o).value.claim;
      Dated(c.request) && Guarded(Unlock(s.(ts := ts'), c, reply))
  {
    var c := TaskAt(s.ts, o).value.claim;
    UnlockFrees(s, ts', c, reply);
    FreedOwned(s, o, Unlock(s.(ts := ts'), c, reply));
  }

  /** What a release does for a claim: no lock appears, other tokens keep theirs, and a lock that stays is an orphan. */
  ghost predicate Frees(s: Sys, s': Sys, c: Claim)
    requires Dated(c.request)
  {
    && s'.now == s.now && s'.used == s.used && s'.cfg == s.cfg && s.orphans <= s'.orphans
    && (forall k :: k in s'.locks ==> k in s.locks && s'.locks[k] == s.locks[k])
    && (forall k :: k in s.locks && s.locks[k].token != c.token ==> k in s'.locks)
    && (LockKey(c.request) in s'.locks && s'.locks[LockKey(c.request)].token == c.token ==> c.token in s'.orphans)
  }

  lemma UnlockFrees(s: Sys, ts': Tasks, c: Claim, reply: Reply)
    requires Dated(c.request)
    ensures Frees(s, Unlock(s.(ts := ts'), c, reply), c) && Unlock(s.(ts := ts'), c, reply).ts == ts'
  {
    CompareDeleteKeeps(s.locks, LockKey(c.request), c.token);
  }

  lemma FreedOwned(s: Sys, o: Place, s': Sys)
    requires Guarded(s) && Moves(s.ts, s'.ts, Remove(o)) && Dated(TaskAt(s.ts, o).value.claim.request)
    requires Frees(s, s', TaskAt(s.ts, o).value.claim)
    ensures Guarded(s')
  {
    RemoveKeepsClaims(s.ts, s'.ts, o, s.used);
    RemoveKeepsLeases(s.ts, s'.ts, o, s.locks, s'.locks, s.now);
    RemoveKeepsOwners(s.ts, s'.ts, o, s.locks, s'.locks, s.used, s.orphans, s'.orphans);
  }

  lemma AdvanceOwned(s: Sys, d: nat)
    requires Guarded(s)
    ensures Guarded(DoAdvance(s, d))
  {
    var s' := DoAdvance(s, d);
    forall p | TaskAt(s'.ts, p).Some? ensures Holds(TaskAt(s'.ts, p).value.claim, s'.locks, s'.now) {
      assert Holds(TaskAt(s.ts, p).value.claim, s.locks, s.now);
    }
  }

  lemma RestartOwned(s: Sys)
    requires Guarded(s)
    ensures Guarded(DoRestart(s))
  {
    forall k | k in s.locks ensures s.locks[k].token in s.orphans + LiveTokens(s.ts) {
      if s.locks[k].token !in s.orphans {
        var p :| Owner(s.ts, p, k, s.locks[k].token);
        TokenIsLive(s.ts, p);
      }
    }
    StoppedIsEmpty(s.ts);
  }

  lemma StoppedIsEmpty(ts: Tasks)
    ensures forall p :: TaskAt(Stopped(ts), p).None?
  {}

  lemma TokenIsLive(ts: Tasks, p: Place)
    requires TaskAt(ts, p).Some?
    ensures TaskAt(ts, p).value.claim.token in LiveTokens(ts)
  {
    if p.AtQueue? {
      assert ts.queue[p.k - ts.taken].claim.token in (set i | 0 <= i < |ts.queue| :: ts.queue[i].claim.token);
    }
  }

  predicate TouchesLocks(step: Step) {
    step.Acquire? || step.ReleaseTrigger? || step.ReleaseWorker? || step.Advance? || step.Restart?
  }

  /** All other steps leave the locks and the clock alone, and every claim where it is. */
  lemma OtherStepsFrame(s: Sys, step: Step)
    requires Enabled(s, step) && !TouchesLocks(step)
    ensures
      var s' := Apply(s, step);
      s'.locks == s.locks && s'.now == s.now && s'.used == s.used && s'.orphans == s.orphans && s'.cfg == s.cfg
  {
    if IsWorkerStep(step) {
      WorkerStepsFrame(s, step);
    }
  }

  lemma WorkerStepsFrame(s: Sys, step: Step)
    requires Enabled(s, step) && IsWorkerStep(step)
    ensures
      var s' := Apply(s, step);
      s'.locks == s.locks && s'.now == s.now && s'.used == s.used && s'.orphans == s.orphans && s'.cfg == s.cfg
  {
    if step.MarkRunning? || step.MarkFailed? || step.MarkCompleted? {
      MarkStepsFrame(s, step);
    }
  }

  lemma MarkStepsFrame(s: Sys, step: Step)
    requires Enabled(s, step) && (step.MarkRunning? || step.MarkFailed? || step.MarkCompleted?)
    ensures
      var s' := Apply(s, step);
      s'.locks == s.locks && s'.now == s.now && s'.used == s.used && s'.orphans == s.orphans && s'.cfg == s.cfg
  {}

  lemma OtherStepsKeepClaims(s: Sys, step: Step)
    requires Enabled(s, step) && !TouchesLocks(step)
    ensures
      var m := MoveOf(s, step);
      m.Stay? || (m.Shift? && TaskAt(s.ts, m.o).Some? && m.task.claim == TaskAt(s.ts, m.o).value.claim)
  {}

  /** Every step keeps ownership. */
  lemma StepKeepsOwnership(s: Sys, step: Step)
    requires Guarded(s) && Enabled(s, step)
    ensures Guarded(Apply(s, step))
  {
    if TouchesLocks(step) {
      LockStepKeeps(s, step);
    } else {
      StepMoves(s, step);
      OtherStepsFrame(s, step);
      OtherStepsKeepClaims(s, step);
      ShiftOwned(s.ts, Apply(s, step).ts, MoveOf(s, step), s.locks, s.now, s.used, s.orphans);
    }
  }

  lemma LockStepKeeps(s: Sys, step: Step)
    requires Guarded(s) && Enabled(s, step) && TouchesLocks(step)
    ensures Guarded(Apply(s, step))
  {
    if step.Acquire? {
      AcquireOwned(s, step.t, step.request, step.token, step.reply);
    } else if step.Advance? {
      AdvanceOwned(s, step.d);
    } else if step.Restart? {
      RestartOwned(s);
    } else {
      ReleaseStepKeeps(s, step);
    }
  }

  lemma ReleaseStepKeeps(s: Sys, step: Step)
    requires Guarded(s) && Enabled(s, step) && (step.ReleaseTrigger? || step.ReleaseWorker?)
    ensures Guarded(Apply(s, step))
  {
    match step
    case ReleaseTrigger(t, reply) => ReleaseTriggerOwned(s, t, reply);
    case ReleaseWorker(w, reply) => ReleaseWorkerOwned(s, w, reply);
  }

  lemma ReleaseTriggerOwned(s: Sys, t: nat, reply: Reply)
    requires Guarded(s) && t in s.ts.triggers && Dated(s.ts.triggers[t].claim.request)
    ensures Guarded(DoReleaseTrigger(s, t, reply))
  {
    EndTriggerMoves(s.ts, t);
    ReleaseOwned(s, AtTrigger(t), EndTrigger(s.ts, t), reply);
  }

  lemma ReleaseWorkerOwned(s: Sys, w: nat, reply: Reply)
    requires Guarded(s) && WorkerBusy(s, w) && Dated(s.ts.workers[w].task.value.claim.request)
    ensures Guarded(DoReleaseWorker(s, w, reply))
  {
    EndWorkerMoves(s.ts, w);
    assert TaskAt(s.ts, AtWorker(w)) == s.ts.workers[w].task;
    ReleaseOwned(s, AtWorker(w), EndWorker(s.ts, w), reply);
  }

  // ----- what it means -----

  /**
   Scope exclusion: of two different live jobs with the same scope, at least one has
   outlived its lease. No assumption is made on failures or on the number of workers.
   */
  lemma ScopeExclusion(s: Sys, p: Place, q: Place)
    requires Guarded(s) && TaskAt(s.ts, p).Some? && TaskAt(s.ts, q).Some? && p != q
    requires ScopeOf(TaskAt(s.ts, p).value.claim.request) == ScopeOf(TaskAt(s.ts, q).value.claim.request)
    ensures s.now >= TaskAt(s.ts, p).value.claim.expires || s.now >= TaskAt(s.ts, q).value.claim.expires
  {
    var a, b := TaskAt(s.ts, p).value.claim, TaskAt(s.ts, q).value.claim;
    assert Holds(a, s.locks, s.now) && Holds(b, s.locks, s.now);
    LockKeyIsScope(a.request, b.request);
  }

  /** A trigger is turned away only by a lock of its own scope: other scopes never collide. */
  lemma OnlyOwnScopeConflicts(s: Sys, request: Request)
    requires Guarded(s) && Dated(request) && LockKey(request) in s.locks
    ensures s.locks[LockKey(request)].token in s.orphans
            || exists p :: TaskAt(s.ts, p).Some? && ScopeOf(TaskAt(s.ts, p).value.claim.request) == ScopeOf(request)
  {
    var key := LockKey(request);
    if s.locks[key].token !in s.orphans {
      var p :| Owner(s.ts, p, key, s.locks[key].token);
      LockKeyIsScope(TaskAt(s.ts, p).value.claim.request, request);
    }
  }

  /** Even a release after expiry removes no lock but the one that still carries the releaser's own token. */
  lemma ReleaseIsOwn(s: Sys, step: Step, key: string)
    requires Enabled(s, step) && (step.ReleaseTrigger? || step.ReleaseWorker?)
    requires key in s.locks && key !in Apply(s, step).locks
    ensures Owner(s.ts, if step.ReleaseTrigger? then AtTrigger(step.t) else AtWorker(step.w), key, s.locks[key].token)
  {
    match step
    case ReleaseTrigger(t, reply) => UnlockIsOwn(s.(ts := EndTrigger(s.ts, t)), s.ts.triggers[t].claim, reply, key);
    case ReleaseWorker(w, reply) =>
      UnlockIsOwn(s.(ts := EndWorker(s.ts, w)), s.ts.workers[w].task.value.claim, reply, key);
  }

  lemma UnlockIsOwn(s: Sys, c: Claim, reply: Reply, key: string)
    requires Dated(c.request) && key in s.locks && key !in Unlock(s, c, reply).locks
    ensures key == LockKey(c.request) && s.locks[key].token == c.token
  {}

  ghost predicate Quiescent(ts: Tasks) {
    forall p :: TaskAt(ts, p).None?
  }

  /** With no failed release, no lost acquire and no restart, a quiescent system holds no lock at all. */
  lemma QuiescentHoldsNoLock(s: Sys)
    requires Guarded(s) && Quiescent(s.ts) && s.orphans == {}
    ensures s.locks == map[]
  {
    assert forall p, k, token :: !Owner(s.ts, p, k, token);
  }

  /** A token becomes an orphan only through a failed release, a lost acquire or a restart. */
  lemma OrphansHaveCause(s: Sys, step: Step)
    requires Enabled(s, step) && !step.Restart?
    requires step.Acquire? ==> step.reply != Lost(true)
    requires step.ReleaseTrigger? || step.ReleaseWorker? ==> step.reply.Applied()
    ensures Apply(s, step).orphans == s.orphans
  {
    if !TouchesLocks(step) {
      OtherStepsFrame(s, step);
    } else {
      LockStepOrphans(s, step);
    }
  }

  lemma AcquireOrphans(s: Sys, t: nat, request: Request, token: Token, reply: Reply)
    requires Dated(request) && reply != Lost(true)
    ensures DoAcquire(s, t, request, token, reply).orphans == s.orphans
  {}

  lemma UnlockOrphans(s: Sys, claim: Claim, reply: Reply)
    requires Dated(claim.request) && reply.Applied()
    ensures Unlock(s, claim, reply).orphans == s.orphans
  {}

  lemma LockStepOrphans(s: Sys, step: Step)
    requires Enabled(s, step) && TouchesLocks(step) && !step.Restart?
    requires step.Acquire? ==> step.reply != Lost(true)
    requires step.ReleaseTrigger? || step.ReleaseWorker? ==> step.reply.Applied()
    ensures Apply(s, step).orphans == s.orphans
  {
    match step
    case Acquire(t, request, token, reply) => AcquireOrphans(s, t, request, token, reply);
    case ReleaseTrigger(t, reply) => UnlockOrphans(s.(ts := EndTrigger(s.ts, t)), s.ts.triggers[t].claim, reply);
    case ReleaseWorker(w, reply) =>
      UnlockOrphans(s.(ts := EndWorker(s.ts, w)), s.ts.workers[w].task.value.claim, reply);
    case Advance(d) =>
  }
}
