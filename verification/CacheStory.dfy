/**
 The causes of a stale entry as steps of the run itself, without history variables: which
 commit, bump, query and version read came before which.
 */
module CacheStory {
  import opened Common
  import opened Aggregate
  import opened Ordering
  import opened Snapshots
  import opened Reports
  import opened Coherence

  predicate Commits(s: CacheStep, slug: Slug) {
    s.Commit? && s.q.slug == slug
  }

  /** An increment that takes effect. */
  predicate Bumps(s: CacheStep, slug: Slug) {
    s.Bump? && s.slug == slug && s.reply.Applied()
  }

  /** A query of reader r that returns rows. */
  predicate Queries(s: CacheStep, r: nat) {
    s == RunRead(r, true)
  }

  /** A read of the version by reader r, or its initialisation after a read of nil. */
  predicate ReadsVersion(s: CacheStep, r: nat) {
    (s.ReadVersion? || s.InitVersion?) && s.r == r
  }

  // ----- times are steps -----

  /** The n-th step is the last commit of the report; 0 when there is none. */
  predicate LastCommit(steps: seq<CacheStep>, slug: Slug, n: nat) {
    && n <= |steps| && (n > 0 ==> Commits(steps[n - 1], slug))
    && (forall j :: n <= j < |steps| ==> !Commits(steps[j], slug))
  }

  predicate LastBump(steps: seq<CacheStep>, slug: Slug, n: nat) {
    && n <= |steps| && (n > 0 ==> Bumps(steps[n - 1], slug))
    && (forall j :: n <= j < |steps| ==> !Bumps(steps[j], slug))
  }

  lemma StepTimes(c: Cached, s: CacheStep, slug: Slug)
    requires Enabled(c, s)
    ensures
      var c' := Step(c, s);
      && |c'.time.past| == |c.time.past| + 1
      && At(c'.time.committed, slug) == (if Commits(s, slug) then |c.time.past| else At(c.time.committed, slug))
      && At(c'.time.bumped, slug) == (if Bumps(s, slug) then |c.time.past| else At(c.time.bumped, slug))
  {
    match s
    case Commit(q, facts, run) => CommitTimes(c.time, q, facts, run, slug);
    case Bump(bumped, reply) => BumpTimes(c.time, bumped, reply, slug);
    case InitVersion(r, reply) => InitTimes(c.time, c.readers[r].slug, reply);
    case other =>
  }

  lemma CommitTimes(t: Timeline, q: Request, facts: seq<Rec<Stamp>>, run: RunId, slug: Slug)
    ensures
      var t' := AfterCommit(t, q, facts, run);
      && |t'.past| == |t.past| + 1 && t'.bumped == t.bumped
      && At(t'.committed, slug) == if q.slug == slug then |t.past| else At(t.committed, slug)
  {}

  lemma BumpTimes(t: Timeline, bumped: Slug, reply: Reply, slug: Slug)
    ensures
      var t' := AfterBump(t, bumped, reply);
      && |t'.past| == |t.past| + 1 && t'.committed == t.committed
      && At(t'.bumped, slug) == if bumped == slug && reply.Applied() then |t.past| else At(t.bumped, slug)
  {}

  lemma InitTimes(t: Timeline, initialised: Slug, reply: Reply)
    ensures
      var t' := AfterInit(t, initialised, reply);
      |t'.past| == |t.past| + 1 && t'.committed == t.committed && t'.bumped == t.bumped
  {}

  lemma {:induction false} TimesAreSteps(table: Table, versions: map<Slug, nat>, steps: seq<CacheStep>, slug: Slug)
    requires Valid(Initial(table, versions), steps)
    ensures
      var t := After(Initial(table, versions), steps).time;
      && |t.past| == |steps| + 1
      && LastCommit(steps, slug, At(t.committed, slug)) && LastBump(steps, slug, At(t.bumped, slug))
  {
    if steps != [] {
      var init, s, c := steps[..|steps| - 1], steps[|steps| - 1], Initial(table, versions);
      var t := After(c, init).time;
      TimesAreSteps(table, versions, init, slug);
      StepTimes(After(c, init), s, slug);
      assert steps == init + [s];
      LastCommitNext(init, s, slug, At(t.committed, slug));
      LastBumpNext(init, s, slug, At(t.bumped, slug));
    }
  }

  lemma LastCommitNext(init: seq<CacheStep>, s: CacheStep, slug: Slug, n: nat)
    requires LastCommit(init, slug, n)
    ensures LastCommit(init + [s], slug, if Commits(s, slug) then |init| + 1 else n)
  {}

  lemma LastBumpNext(init: seq<CacheStep>, s: CacheStep, slug: Slug, n: nat)
    requires LastBump(init, slug, n)
    ensures LastBump(init + [s], slug, if Bumps(s, slug) then |init| + 1 else n)
  {}

  /** past lists the tables after 0, 1, 2, ... steps. */
  lemma {:induction false} PastIsTables(table: Table, versions: map<Slug, nat>, steps: seq<CacheStep>, n: nat)
    requires Valid(Initial(table, versions), steps) && n <= |steps|
    ensures
      var c := Initial(table, versions);
      && |After(c, steps).time.past| == |steps| + 1 && Valid(c, steps[..n])
      && After(c, steps).time.past[n] == After(c, steps[..n]).time.table
  {
    var c := Initial(table, versions);
    if n == |steps| {
      assert steps[..n] == steps;
    }
    if steps != [] {
      var init, s := steps[..|steps| - 1], steps[|steps| - 1];
      StepPast(After(c, init), s);
      if n < |steps| {
        PastIsTables(table, versions, init, n);
        assert init[..n] == steps[..n];
      } else {
        PastIsTables(table, versions, init, |init|);
      }
    }
  }

  lemma StepPast(c: Cached, s: CacheStep)
    requires Enabled(c, s)
    ensures Step(c, s).time.past == c.time.past + [Step(c, s).time.table]
  {}

  // ----- queries and version reads are steps -----

  predicate QueriedAt(steps: seq<CacheStep>, r: nat, n: nat) {
    0 < n <= |steps| && Queries(steps[n - 1], r)
  }

  predicate ReadAt(steps: seq<CacheStep>, r: nat, n: nat) {
    0 < n <= |steps| && ReadsVersion(steps[n - 1], r)
  }

  predicate ReaderTold(steps: seq<CacheStep>, r: nat, reader: Reader) {
    match reader
    case AskStore(_, _, _, queriedAt) => QueriedAt(steps, r, queriedAt)
    case InitStore(_, _, _, queriedAt) => QueriedAt(steps, r, queriedAt)
    case Storing(_, _, _, queriedAt, _, readAt) => QueriedAt(steps, r, queriedAt) && ReadAt(steps, r, readAt)
    case other => true
  }

  /** One reader made the query and the store-time version read of an entry. */
  ghost predicate EntryTold(steps: seq<CacheStep>, e: Entry) {
    exists r: nat :: QueriedAt(steps, r, e.queriedAt) && ReadAt(steps, r, e.readAt)
  }

  /** The times in entries and readers are those of query and version read steps. */
  ghost predicate Told(c: Cached, steps: seq<CacheStep>) {
    && |c.time.past| == |steps| + 1
    && (forall r :: r in c.readers ==> ReaderTold(steps, r, c.readers[r]))
    && (forall key :: key in c.entries ==> EntryTold(steps, c.entries[key]))
  }

  lemma ToldLater(reader: Reader, steps: seq<CacheStep>, r: nat, s: CacheStep)
    requires ReaderTold(steps, r, reader)
    ensures ReaderTold(steps + [s], r, reader)
  {}

  lemma EntryToldLater(e: Entry, steps: seq<CacheStep>, s: CacheStep)
    requires EntryTold(steps, e)
    ensures EntryTold(steps + [s], e)
  {
    var r: nat :| QueriedAt(steps, r, e.queriedAt) && ReadAt(steps, r, e.readAt);
    assert QueriedAt(steps + [s], r, e.queriedAt) && ReadAt(steps + [s], r, e.readAt);
  }

  lemma StepTold(c: Cached, steps: seq<CacheStep>, s: CacheStep)
    requires Told(c, steps) && Enabled(c, s)
    ensures Told(Step(c, s), steps + [s])
  {
    var c', all := Step(c, s), steps + [s];
    StepPast(c, s);
    forall r | r in c'.readers ensures ReaderTold(all, r, c'.readers[r]) {
      if r in c.readers {
        ToldLater(c.readers[r], steps, r, s);
      }
    }
    forall key | key in c'.entries ensures EntryTold(all, c'.entries[key]) {
      if key in c.entries && c'.entries[key] == c.entries[key] {
        EntryToldLater(c.entries[key], steps, s);
      } else {
        ToldLater(c.readers[s.r], steps, s.r, s);
        assert QueriedAt(all, s.r, c'.entries[key].queriedAt) && ReadAt(all, s.r, c'.entries[key].readAt);
      }
    }
  }

  lemma {:induction false} RunTold(table: Table, versions: map<Slug, nat>, steps: seq<CacheStep>)
    requires Valid(Initial(table, versions), steps)
    ensures Told(After(Initial(table, versions), steps), steps)
  {
    if steps != [] {
      var init, c := steps[..|steps| - 1], Initial(table, versions);
      RunTold(table, versions, init);
      StepTold(After(c, init), init, steps[|steps| - 1]);
      assert steps == init + [steps[|steps| - 1]];
    }
  }

  // ----- the story of a stale entry -----

  /** A commit of the report with no bump after it. */
  ghost predicate Unbumped(steps: seq<CacheStep>, slug: Slug) {
    exists i :: 0 <= i < |steps| && Commits(steps[i], slug) && NoBumpFrom(steps, slug, i)
  }

  predicate NoBumpFrom(steps: seq<CacheStep>, slug: Slug, i: nat) {
    forall j :: i <= j < |steps| ==> !Bumps(steps[j], slug)
  }

  /** The query of a reader, then a bump of the report, then a version read of the same reader. */
  predicate InTurn(steps: seq<CacheStep>, slug: Slug, r: nat, i: nat, j: nat, k: nat) {
    i < j < k < |steps| && Queries(steps[i], r) && Bumps(steps[j], slug) && ReadsVersion(steps[k], r)
  }

  /** The entry holds the report of the table as the query of step i found it. */
  ghost predicate FoundBy(start: Cached, steps: seq<CacheStep>, i: nat, key: CacheKey, rows: seq<ResultRow>)
    requires Valid(start, steps) && i < |steps|
  {
    && Valid(start, steps[..i + 1])
    && ExecuteReport(After(start, steps[..i + 1]).time.table, key.slug, key.params) == Success(rows)
  }

  /** A reader queried, a bump came, and then the reader read the version under which it stored what it had found. */
  ghost predicate Overtaken(start: Cached, steps: seq<CacheStep>, key: CacheKey, rows: seq<ResultRow>)
    requires Valid(start, steps)
  {
    exists r: nat, i: nat, j: nat, k: nat ::
      InTurn(steps, key.slug, r, i, j, k) && FoundBy(start, steps, i, key, rows)
  }

  /** An entry under the current version of its report that disagrees with the current table. */
  ghost predicate Stale(c: Cached, key: CacheKey) {
    && key in c.entries && key.slug in c.time.versions && key.version == c.time.versions[key.slug]
    && ExecuteReport(c.time.table, key.slug, key.params) != Success(c.entries[key].rows)
  }

  /**
   In every run from an empty cache where the version of the report exists, a stale entry is
   there for one of two reasons: a commit of the report with no bump after it; or the reader
   that stored it queried before a bump and read the version after it.
   */
  lemma StaleEntryStory(table: Table, versions: map<Slug, nat>, steps: seq<CacheStep>, key: CacheKey)
    requires Valid(Initial(table, versions), steps) && key.slug in versions
    requires Stale(After(Initial(table, versions), steps), key)
    ensures
      var start := Initial(table, versions);
      Unbumped(steps, key.slug) || Overtaken(start, steps, key, After(start, steps).entries[key].rows)
  {
    var start, slug := Initial(table, versions), key.slug;
    var c := After(start, steps);
    InitialCoherent(table, versions);
    RunKeepsCoherent(start, steps);
    WarmVersionsGrow(start, steps, slug);
    StaleEntryHasCause(c, key);
    TimesAreSteps(table, versions, steps, slug);
    if At(c.time.bumped, slug) < At(c.time.committed, slug) {
      assert NoBumpFrom(steps, slug, At(c.time.committed, slug) - 1);
    } else {
      RunTold(table, versions, steps);
      BumpOvertakes(table, versions, steps, key);
    }
  }

  lemma BumpOvertakes(table: Table, versions: map<Slug, nat>, steps: seq<CacheStep>, key: CacheKey)
    requires Valid(Initial(table, versions), steps)
    requires
      var c := After(Initial(table, versions), steps);
      && Coherent(c) && Told(c, steps) && key in c.entries && LastBump(steps, key.slug, At(c.time.bumped, key.slug))
      && c.entries[key].queriedAt < At(c.time.bumped, key.slug) <= c.entries[key].readAt
    ensures
      var start := Initial(table, versions);
      Overtaken(start, steps, key, After(start, steps).entries[key].rows)
  {
    var start := Initial(table, versions);
    var c := After(start, steps);
    var e, bump := c.entries[key], At(c.time.bumped, key.slug);
    assert EntryOk(c.time, key, e) && EntryTold(steps, e);
    var r: nat :| QueriedAt(steps, r, e.queriedAt) && ReadAt(steps, r, e.readAt);
    BumpBetween(steps, key.slug, r, e.queriedAt, bump, e.readAt);
    QueryFound(table, versions, steps, e.queriedAt, key, e.rows);
  }

  lemma BumpBetween(steps: seq<CacheStep>, slug: Slug, r: nat, query: nat, bump: nat, read: nat)
    requires QueriedAt(steps, r, query) && ReadAt(steps, r, read) && LastBump(steps, slug, bump) && query < bump <= read
    ensures InTurn(steps, slug, r, query - 1, bump - 1, read - 1)
  {
    assert bump != read;
  }

  lemma QueryFound(table: Table, versions: map<Slug, nat>, steps: seq<CacheStep>, n: nat, key: CacheKey,
                   rows: seq<ResultRow>)
    requires Valid(Initial(table, versions), steps) && 0 < n <= |steps|
    requires PastResult(After(Initial(table, versions), steps).time.past, key.slug, key.params, rows, n)
    ensures FoundBy(Initial(table, versions), steps, n - 1, key, rows)
  {
    PastIsTables(table, versions, steps, n);
  }
}
