/**
 The versioned report cache over the snapshot table. Readers run the steps of RunReport
 (read the version, look up, query, read the version again, store), writers commit
 rebuilds and bump versions, in any interleaving.
 */
module Coherence {
  import opened Common
  import opened Time
  import opened Aggregate
  import opened Ordering
  import opened Snapshots
  import opened Reports

  /** The components of a cache key; see Keys for the strings. */
  datatype CacheKey = CacheKey(slug: Slug, version: nat, params: RunParams)

  /** A stored result, with the times of its query and of its store-time version read (history only). */
  datatype Entry = Entry(rows: seq<ResultRow>, queriedAt: nat, readAt: nat)

  /** Where one RunReport call stands. */
  datatype Reader =
    | AskRead(slug: Slug, p: RunParams)
    | InitRead(slug: Slug, p: RunParams)
    | Lookup(slug: Slug, p: RunParams, version: nat)
    | Query(slug: Slug, p: RunParams, caching: bool)
    | AskStore(slug: Slug, p: RunParams, rows: seq<ResultRow>, queriedAt: nat)
    | InitStore(slug: Slug, p: RunParams, rows: seq<ResultRow>, queriedAt: nat)
    | Storing(slug: Slug, p: RunParams, rows: seq<ResultRow>, queriedAt: nat, version: nat, readAt: nat)
    | Served(slug: Slug, p: RunParams, rows: seq<ResultRow>, queriedAt: nat, cacheHit: bool)

  /**
   The shared history. past records the table after every step, committed and bumped the
   times of the last commit and the last bump of a report, and regressed the reports whose
   version has ever been set back; these four are history variables.
   */
  datatype Timeline = Timeline(table: Table, versions: map<Slug, nat>, past: seq<Table>, committed: map<Slug, nat>,
                               bumped: map<Slug, nat>, regressed: set<Slug>)

  datatype Cached = Cached(time: Timeline, entries: map<CacheKey, Entry>, readers: map<nat, Reader>)

  datatype CacheStep =
    | Commit(q: Request, facts: seq<Rec<Stamp>>, run: RunId)
    | Bump(slug: Slug, reply: Reply)
    | Begin(r: nat, slug: Slug, p: RunParams, caching: bool)
    | ReadVersion(r: nat, ok: bool)
    | InitVersion(r: nat, reply: Reply)
    | GetEntry(r: nat, ok: bool)
    | RunRead(r: nat, ok: bool)
    | SetEntry(r: nat, reply: Reply)
    | Return(r: nat)
    | Evict(key: CacheKey)

  function Initial(table: Table, versions: map<Slug, nat>): Cached {
    Cached(Timeline(table, versions, [table], map[], map[], {}), map[], map[])
  }

  function At(times: map<Slug, nat>, slug: Slug): nat {
    if slug in times then times[slug] else 0
  }

  // ----- the steps -----

  /** Time passes with every step. */
  function Tick(t: Timeline): Timeline {
    t.(past := t.past + [t.table])
  }

  function AfterCommit(t: Timeline, q: Request, facts: seq<Rec<Stamp>>, run: RunId): Timeline {
    Tick(t.(table := Rebuilt(t.table, q, facts, run), committed := t.committed[q.slug := |t.past|]))
  }

  /** INCR: an absent key counts as zero. */
  function AfterBump(t: Timeline, slug: Slug, reply: Reply): Timeline {
    if reply.Applied() then
      Tick(t.(versions := t.versions[slug := At(t.versions, slug) + 1], bumped := t.bumped[slug := |t.past|]))
    else Tick(t)
  }

  /** GetVersion's unconditional SET of an initial version, decided by an earlier read of nil. */
  function AfterInit(t: Timeline, slug: Slug, reply: Reply): Timeline {
    if reply.Applied() then
      Tick(t.(versions := t.versions[slug := 1],
              regressed := if At(t.versions, slug) > 1 then t.regressed + {slug} else t.regressed))
    else Tick(t)
  }

  function KeyFor(slug: Slug, version: nat, p: RunParams): CacheKey {
    CacheKey(slug, version, Normalize(p))
  }

  predicate Enabled(c: Cached, s: CacheStep) {
    match s
    case Commit(q, facts, _) => Supported(q.slug)
    case Bump(_, _) => true
    case Begin(r, slug, _, _) => r !in c.readers && Supported(slug)
    case ReadVersion(r, _) => r in c.readers && (c.readers[r].AskRead? || c.readers[r].AskStore?)
    case InitVersion(r, _) => r in c.readers && (c.readers[r].InitRead? || c.readers[r].InitStore?)
    case GetEntry(r, _) => r in c.readers && c.readers[r].Lookup?
    case RunRead(r, _) => r in c.readers && c.readers[r].Query?
    case SetEntry(r, _) => r in c.readers && c.readers[r].Storing?
    case Return(r) => r in c.readers && c.readers[r].Served?
    case Evict(_) => true
  }

  function Goto(c: Cached, r: nat, reader: Reader): Cached {
    Cached(Tick(c.time), c.entries, c.readers[r := reader])
  }

  /** Where a reader goes after asking for the version at time now. */
  function VersionRead(t: Timeline, reader: Reader, ok: bool): Reader
    requires reader.AskRead? || reader.AskStore?
  {
    match reader
    case AskRead(slug, p) =>
      if !ok then Query(slug, p, true)
      else if slug in t.versions then Lookup(slug, p, t.versions[slug])
      else InitRead(slug, p)
    case AskStore(slug, p, rows, queriedAt) =>
      if !ok then Served(slug, p, rows, queriedAt, false)
      else if slug in t.versions then Storing(slug, p, rows, queriedAt, t.versions[slug], |t.past|)
      else InitStore(slug, p, rows, queriedAt)
  }

  function VersionInitialised(t: Timeline, reader: Reader, reply: Reply): Reader
    requires reader.InitRead? || reader.InitStore?
  {
    match reader
    case InitRead(slug, p) => if reply.Ok? then Lookup(slug, p, 1) else Query(slug, p, true)
    case InitStore(slug, p, rows, queriedAt) =>
      if reply.Ok? then Storing(slug, p, rows, queriedAt, 1, |t.past|) else Served(slug, p, rows, queriedAt, false)
  }

  function LookedUp(c: Cached, reader: Reader, ok: bool): Reader
    requires reader.Lookup?
  {
    var key := KeyFor(reader.slug, reader.version, reader.p);
    if ok && key in c.entries then Served(reader.slug, reader.p, c.entries[key].rows, c.entries[key].queriedAt, true)
    else Query(reader.slug, reader.p, true)
  }

  function Queried(t: Timeline, reader: Reader): Reader
    requires reader.Query?
  {
    var rows := RunQuery(t.table, reader.slug, reader.p);
    if reader.caching then AskStore(reader.slug, reader.p, rows, |t.past|)
    else Served(reader.slug, reader.p, rows, |t.past|, false)
  }

  function Stored(entries: map<CacheKey, Entry>, reader: Reader, reply: Reply): map<CacheKey, Entry>
    requires reader.Storing?
  {
    if reply.Applied() then
      entries[KeyFor(reader.slug, reader.version, reader.p) := Entry(reader.rows, reader.queriedAt, reader.readAt)]
    else entries
  }

  function Step(c: Cached, s: CacheStep): Cached
    requires Enabled(c, s)
  {
    match s
    case Commit(q, facts, run) => c.(time := AfterCommit(c.time, q, facts, run))
    case Bump(slug, reply) => c.(time := AfterBump(c.time, slug, reply))
    case Begin(r, slug, p, caching) => Goto(c, r, if caching then AskRead(slug, p) else Query(slug, p, false))
    case ReadVersion(r, ok) => Goto(c, r, VersionRead(c.time, c.readers[r], ok))
    case InitVersion(r, reply) =>
      Cached(AfterInit(c.time, c.readers[r].slug, reply), c.entries,
             c.readers[r := VersionInitialised(c.time, c.readers[r], reply)])
    case GetEntry(r, ok) => Goto(c, r, LookedUp(c, c.readers[r], ok))
    case RunRead(r, ok) =>
      if ok then Goto(c, r, Queried(c.time, c.readers[r])) else Cached(Tick(c.time), c.entries, c.readers - {r})
    case SetEntry(r, reply) =>
      var reader := c.readers[r];
      Goto(c.(entries := Stored(c.entries, reader, reply)), r,
           Served(reader.slug, reader.p, reader.rows, reader.queriedAt, false))
    case Return(r) => Cached(Tick(c.time), c.entries, c.readers - {r})
    case Evict(key) => Cached(Tick(c.time), c.entries - {key}, c.readers)
  }

  /** Only a commit changes the table. */
  lemma OnlyCommitsWrite(c: Cached, s: CacheStep)
    requires Enabled(c, s) && !s.Commit?
    ensures Step(c, s).time.table == c.time.table
  {}

  // ----- the invariant -----

  /** rows is the report of the table as it was at time queriedAt. */
  ghost predicate PastResult(past: seq<Table>, slug: Slug, p: RunParams, rows: seq<ResultRow>, queriedAt: nat) {
    queriedAt < |past| && ExecuteReport(past[queriedAt], slug, p) == Success(rows)
  }

  /** A version read at readAt is at most the current one, and if it still is the current one, no bump followed. */
  ghost predicate ReadBefore(t: Timeline, slug: Slug, version: nat, readAt: nat) {
    && readAt < |t.past|
    && (slug !in t.regressed ==>
          && slug in t.versions && version <= t.versions[slug]
          && (version == t.versions[slug] ==> At(t.bumped, slug) <= readAt))
  }

  ghost predicate EntryOk(t: Timeline, key: CacheKey, e: Entry) {
    && PastResult(t.past, key.slug, key.params, e.rows, e.queriedAt)
    && e.queriedAt <= e.readAt
    && ReadBefore(t, key.slug, key.version, e.readAt)
  }

  ghost predicate ReaderOk(t: Timeline, reader: Reader) {
    match reader
    case AskStore(slug, p, rows, queriedAt) => PastResult(t.past, slug, p, rows, queriedAt)
    case InitStore(slug, p, rows, queriedAt) => PastResult(t.past, slug, p, rows, queriedAt)
    case Storing(slug, p, rows, queriedAt, version, readAt) =>
      PastResult(t.past, slug, p, rows, queriedAt) && queriedAt <= readAt && ReadBefore(t, slug, version, readAt)
    case Served(slug, p, rows, queriedAt, _) => PastResult(t.past, slug, p, rows, queriedAt)
    case other => Supported(other.slug)
  }

  /** Since the last commit of a report, the rows that its queries can see have not changed. */
  ghost predicate Unchanged(t: Timeline) {
    forall slug, i :: At(t.committed, slug) <= i < |t.past| ==> RowsOf(t.past[i], slug) == RowsOf(t.table, slug)
  }

  ghost predicate TimeOk(t: Timeline) {
    && t.past != [] && t.past[|t.past| - 1] == t.table
    && (forall slug :: At(t.committed, slug) < |t.past|)
    && (forall slug :: At(t.bumped, slug) < |t.past|)
    && Unchanged(t)
  }

  ghost predicate Coherent(c: Cached) {
    && TimeOk(c.time)
    && (forall key :: key in c.entries ==> EntryOk(c.time, key, c.entries[key]))
    && (forall r :: r in c.readers ==> ReaderOk(c.time, c.readers[r]))
  }

  lemma InitialCoherent(table: Table, versions: map<Slug, nat>)
    ensures Coherent(Initial(table, versions))
  {}

  /** Everything that was sound at time t is sound at time t'. */
  ghost predicate Sound(t: Timeline, t': Timeline) {
    && TimeOk(t')
    && (forall key, e :: EntryOk(t, key, e) ==> EntryOk(t', key, e))
    && (forall reader :: ReaderOk(t, reader) ==> ReaderOk(t', reader))
  }

  /** Results of past tables stay results of past tables, so only the version reads can become unsound. */
  lemma SoundLater(t: Timeline, t': Timeline)
    requires TimeOk(t') && |t.past| < |t'.past| && t'.past[..|t.past|] == t.past
    requires forall slug, v: nat, at: nat :: ReadBefore(t, slug, v, at) ==> ReadBefore(t', slug, v, at)
    ensures Sound(t, t')
  {
    forall slug, p, rows, at: nat | PastResult(t.past, slug, p, rows, at)
      ensures PastResult(t'.past, slug, p, rows, at)
    {
      assert t'.past[..|t.past|][at] == t.past[at];
    }
  }

  /** A timeline that keeps its table keeps Unchanged. */
  lemma UnchangedLater(t: Timeline, t': Timeline)
    requires Unchanged(t) && t'.table == t.table && t'.past == t.past + [t.table] && t'.committed == t.committed
    ensures Unchanged(t')
  {
    forall slug, i | At(t'.committed, slug) <= i < |t'.past|
      ensures RowsOf(t'.past[i], slug) == RowsOf(t'.table, slug)
    {
      assert i < |t.past| ==> t'.past[i] == t.past[i];
    }
  }

  lemma TickSound(t: Timeline)
    requires TimeOk(t)
    ensures Sound(t, Tick(t))
  {
    UnchangedLater(t, Tick(t));
    SoundLater(t, Tick(t));
  }

  lemma CommitSound(t: Timeline, q: Request, facts: seq<Rec<Stamp>>, run: RunId)
    requires TimeOk(t)
    ensures Sound(t, AfterCommit(t, q, facts, run))
  {
    var t' := AfterCommit(t, q, facts, run);
    forall slug, i | At(t'.committed, slug) <= i < |t'.past|
      ensures RowsOf(t'.past[i], slug) == RowsOf(t'.table, slug)
    {
      if i < |t.past| {
        assert t'.past[i] == t.past[i];
        RebuildKeepsOthers(t.table, q, facts, run, slug);
      }
    }
    forall slug ensures At(t'.committed, slug) < |t'.past| {
      assert At(t.committed, slug) < |t.past|;
    }
    SoundLater(t, t');
  }

  lemma BumpSound(t: Timeline, slug: Slug, reply: Reply)
    requires TimeOk(t)
    ensures Sound(t, AfterBump(t, slug, reply))
  {
    var t' := AfterBump(t, slug, reply);
    UnchangedLater(t, t');
    forall x ensures At(t'.bumped, x) < |t'.past| {
      assert At(t.bumped, x) < |t.past|;
    }
    SoundLater(t, t');
  }

  lemma InitSound(t: Timeline, slug: Slug, reply: Reply)
    requires TimeOk(t)
    ensures Sound(t, AfterInit(t, slug, reply))
    ensures reply.Ok? ==> ReadBefore(AfterInit(t, slug, reply), slug, 1, |t.past|)
  {
    var t' := AfterInit(t, slug, reply);
    UnchangedLater(t, t');
    assert At(t.bumped, slug) < |t.past|;
    SoundLater(t, t');
  }

  /** A step that moves one reader, after a sound change of the timeline. */
  lemma MoveKeeps(c: Cached, t': Timeline, r: nat, reader: Reader)
    requires Coherent(c) && Sound(c.time, t') && ReaderOk(t', reader)
    ensures Coherent(Cached(t', c.entries, c.readers[r := reader]))
  {}

  lemma StepReadVersion(c: Cached, r: nat, ok: bool)
    requires Coherent(c) && Enabled(c, ReadVersion(r, ok))
    ensures Coherent(Step(c, ReadVersion(r, ok)))
  {
    var reader := c.readers[r];
    TickSound(c.time);
    assert ReaderOk(c.time, reader);
    assert ReaderOk(Tick(c.time), reader);
    assert At(c.time.bumped, reader.slug) < |c.time.past|;
    MoveKeeps(c, Tick(c.time), r, VersionRead(c.time, reader, ok));
  }

  lemma StepInitVersion(c: Cached, r: nat, reply: Reply)
    requires Coherent(c) && Enabled(c, InitVersion(r, reply))
    ensures Coherent(Step(c, InitVersion(r, reply)))
  {
    var reader := c.readers[r];
    var t' := AfterInit(c.time, reader.slug, reply);
    InitSound(c.time, reader.slug, reply);
    assert ReaderOk(c.time, reader);
    assert ReaderOk(t', reader);
    MoveKeeps(c, t', r, VersionInitialised(c.time, reader, reply));
  }

  /** A hit serves the entry's result, which is also the reader's: the key fixes the normal form. */
  lemma StepGetEntry(c: Cached, r: nat, ok: bool)
    requires Coherent(c) && Enabled(c, GetEntry(r, ok))
    ensures Coherent(Step(c, GetEntry(r, ok)))
  {
    var reader := c.readers[r];
    var key := KeyFor(reader.slug, reader.version, reader.p);
    TickSound(c.time);
    assert ReaderOk(c.time, reader);
    if ok && key in c.entries {
      assert EntryOk(c.time, key, c.entries[key]);
      HitOk(Tick(c.time), key, c.entries[key], reader.slug, reader.p);
    }
    MoveKeeps(c, Tick(c.time), r, LookedUp(c, reader, ok));
  }

  lemma HitOk(t: Timeline, key: CacheKey, e: Entry, slug: Slug, p: RunParams)
    requires EntryOk(t, key, e) && key.slug == slug && key.params == Normalize(p)
    ensures ReaderOk(t, Served(slug, p, e.rows, e.queriedAt, true))
  {
    SameNormalForm(t.past, slug, key.params, p, e.rows, e.queriedAt);
  }

  lemma SameNormalForm(past: seq<Table>, slug: Slug, p: RunParams, p': RunParams, rows: seq<ResultRow>, at: nat)
    requires Normalize(p) == Normalize(p') && at < |past|
    ensures PastResult(past, slug, p, rows, at) <==> PastResult(past, slug, p', rows, at)
  {
    NormalFormIsSound(past[at], slug, p, p');
  }

  lemma StepRunRead(c: Cached, r: nat, ok: bool)
    requires Coherent(c) && Enabled(c, RunRead(r, ok))
    ensures Coherent(Step(c, RunRead(r, ok)))
  {
    var reader := c.readers[r];
    TickSound(c.time);
    assert ReaderOk(c.time, reader);
    if ok {
      assert PastResult(Tick(c.time).past, reader.slug, reader.p, RunQuery(c.time.table, reader.slug, reader.p),
                        |c.time.past|);
      MoveKeeps(c, Tick(c.time), r, Queried(c.time, reader));
    }
  }

  lemma StepSetEntry(c: Cached, r: nat, reply: Reply)
    requires Coherent(c) && Enabled(c, SetEntry(r, reply))
    ensures Coherent(Step(c, SetEntry(r, reply)))
  {
    var reader := c.readers[r];
    var key := KeyFor(reader.slug, reader.version, reader.p);
    TickSound(c.time);
    assert ReaderOk(c.time, reader);
    StoredOk(c.time, reader);
    var stored := c.(entries := Stored(c.entries, reader, reply));
    assert Coherent(stored);
    assert ReaderOk(c.time, Served(reader.slug, reader.p, reader.rows, reader.queriedAt, false));
    MoveKeeps(stored, Tick(c.time), r, Served(reader.slug, reader.p, reader.rows, reader.queriedAt, false));
  }

  lemma StoredOk(t: Timeline, reader: Reader)
    requires reader.Storing? && ReaderOk(t, reader)
    ensures EntryOk(t, KeyFor(reader.slug, reader.version, reader.p),
                    Entry(reader.rows, reader.queriedAt, reader.readAt))
  {
    SameNormalForm(t.past, reader.slug, Normalize(reader.p), reader.p, reader.rows, reader.queriedAt);
  }

  /** Every step of every reader and writer keeps the invariant. */
  lemma StepKeepsCoherent(c: Cached, s: CacheStep)
    requires Coherent(c) && Enabled(c, s)
    ensures Coherent(Step(c, s))
  {
    match s
    case Commit(q, facts, run) => CommitSound(c.time, q, facts, run);
    case Bump(slug, reply) => BumpSound(c.time, slug, reply);
    case Begin(r, slug, p, caching) =>
      TickSound(c.time);
      MoveKeeps(c, Tick(c.time), r, if caching then AskRead(slug, p) else Query(slug, p, false));
    case ReadVersion(r, ok) => StepReadVersion(c, r, ok);
    case InitVersion(r, reply) => StepInitVersion(c, r, reply);
    case GetEntry(r, ok) => StepGetEntry(c, r, ok);
    case RunRead(r, ok) => StepRunRead(c, r, ok);
    case SetEntry(r, reply) => StepSetEntry(c, r, reply);
    case Return(r) => TickSound(c.time);
    case Evict(key) => TickSound(c.time);
  }

  // ----- what the invariant says -----

  /**
   Interleaved coherence: an entry under a report's current version that disagrees with the
   current table was either left behind by a commit that no bump has followed yet, or its
   query ran before the last bump while its store-time version read ran after it.
   */
  lemma StaleEntryHasCause(c: Cached, key: CacheKey)
    requires Coherent(c) && key in c.entries && key.slug !in c.time.regressed
    requires key.slug in c.time.versions && key.version == c.time.versions[key.slug]
    requires ExecuteReport(c.time.table, key.slug, key.params) != Success(c.entries[key].rows)
    ensures
      || At(c.time.bumped, key.slug) < At(c.time.committed, key.slug)
      || c.entries[key].queriedAt < At(c.time.bumped, key.slug) <= c.entries[key].readAt
  {
    var e, slug := c.entries[key], key.slug;
    assert EntryOk(c.time, key, e);
    if At(c.time.committed, slug) <= e.queriedAt {
      assert RowsOf(c.time.past[e.queriedAt], slug) == RowsOf(c.time.table, slug);
      QueryReadsOwnRows(c.time.past[e.queriedAt], c.time.table, slug, key.params);
    }
  }

  /** Every response, hit or miss, is the report of some table state that existed, for its own parameters. */
  lemma ResponseIsPastResult(c: Cached, r: nat)
    requires Coherent(c) && r in c.readers && c.readers[r].Served?
    ensures
      var Served(slug, p, rows, queriedAt, _) := c.readers[r];
      queriedAt < |c.time.past| && ExecuteReport(c.time.past[queriedAt], slug, p) == Success(rows)
  {
    assert ReaderOk(c.time, c.readers[r]);
  }

  /** A response whose query ran after the last commit of its report is the current report. */
  lemma FreshResponse(c: Cached, r: nat)
    requires Coherent(c) && r in c.readers && c.readers[r].Served?
    requires At(c.time.committed, c.readers[r].slug) <= c.readers[r].queriedAt
    ensures ExecuteReport(c.time.table, c.readers[r].slug, c.readers[r].p) == Success(c.readers[r].rows)
  {
    var Served(slug, p, rows, queriedAt, _) := c.readers[r];
    assert ReaderOk(c.time, c.readers[r]);
    QueryReadsOwnRows(c.time.past[queriedAt], c.time.table, slug, p);
  }

  // ----- runs -----

  ghost predicate Valid(c: Cached, steps: seq<CacheStep>)
    decreases |steps|, 0
  {
    steps == [] || (Valid(c, steps[..|steps| - 1]) && Enabled(After(c, steps[..|steps| - 1]), steps[|steps| - 1]))
  }

  ghost function After(c: Cached, steps: seq<CacheStep>): Cached
    requires Valid(c, steps)
    decreases |steps|, 1
  {
    if steps == [] then c else Step(After(c, steps[..|steps| - 1]), steps[|steps| - 1])
  }

  lemma {:induction false} RunKeepsCoherent(c: Cached, steps: seq<CacheStep>)
    requires Coherent(c) && Valid(c, steps)
    ensures Coherent(After(c, steps))
  {
    if steps != [] {
      RunKeepsCoherent(c, steps[..|steps| - 1]);
      StepKeepsCoherent(After(c, steps[..|steps| - 1]), steps[|steps| - 1]);
    }
  }

  lemma Extend(c: Cached, steps: seq<CacheStep>, s: CacheStep)
    requires Valid(c, steps) && Enabled(After(c, steps), s)
    ensures Valid(c, steps + [s]) && After(c, steps + [s]) == Step(After(c, steps), s)
  {
    assert (steps + [s])[..|steps + [s]| - 1] == steps;
  }

  predicate Initialising(reader: Reader, slug: Slug) {
    (reader.InitRead? || reader.InitStore?) && reader.slug == slug
  }

  /** The version key exists and no reader is about to initialise it. */
  ghost predicate Warm(c: Cached, slug: Slug) {
    && slug in c.time.versions && slug !in c.time.regressed
    && (forall r :: r in c.readers ==> !Initialising(c.readers[r], slug))
  }

  /** From then on the version only grows, in every run: a restart of the version needs a pending initialisation. */
  lemma {:induction false} WarmVersionsGrow(c: Cached, steps: seq<CacheStep>, slug: Slug)
    requires Valid(c, steps) && Warm(c, slug)
    ensures Warm(After(c, steps), slug) && c.time.versions[slug] <= After(c, steps).time.versions[slug]
  {
    if steps != [] {
      WarmVersionsGrow(c, steps[..|steps| - 1], slug);
      WarmStep(After(c, steps[..|steps| - 1]), steps[|steps| - 1], slug);
    }
  }

  lemma WarmStep(c: Cached, s: CacheStep, slug: Slug)
    requires Enabled(c, s) && Warm(c, slug)
    ensures Warm(Step(c, s), slug) && c.time.versions[slug] <= Step(c, s).time.versions[slug]
  {
    match s
    case ReadVersion(r, ok) => assert !Initialising(VersionRead(c.time, c.readers[r], ok), slug);
    case InitVersion(r, reply) =>
      assert !Initialising(c.readers[r], slug);
      assert !Initialising(VersionInitialised(c.time, c.readers[r], reply), slug);
    case GetEntry(r, ok) => assert !Initialising(LookedUp(c, c.readers[r], ok), slug);
    case RunRead(r, ok) => assert !Initialising(Queried(c.time, c.readers[r]), slug);
    case other =>
  }

  /** The condition is needed: an initialisation that races two bumps sets the version back. */
  lemma InitialisationRace(slug: Slug, p: RunParams)
    requires Supported(slug)
    ensures exists steps: seq<CacheStep>, more: seq<CacheStep> ::
      && Valid(Initial([], map[]), steps) && Valid(Initial([], map[]), steps + more)
      && slug in After(Initial([], map[]), steps).time.versions
      && slug in After(Initial([], map[]), steps + more).time.versions
      && After(Initial([], map[]), steps + more).time.versions[slug]
         < After(Initial([], map[]), steps).time.versions[slug]
  {
    var c := Initial([], map[]);
    var s1 := [Begin(0, slug, p, true)];
    Extend(c, [], s1[0]);
    assert [] + s1 == s1;
    Extend(c, s1, ReadVersion(0, true));
    var s2 := s1 + [ReadVersion(0, true)];
    Extend(c, s2, Bump(slug, Ok));
    var s3 := s2 + [Bump(slug, Ok)];
    Extend(c, s3, Bump(slug, Ok));
    var s4 := s3 + [Bump(slug, Ok)];
    assert After(c, s4).time.versions[slug] == 2;
    Extend(c, s4, InitVersion(0, Ok));
  }

  /**
   The second cause of staleness does occur: a query before a rebuild, stored under the
   version that is current after it. The old result then lives under the new version.
   */
  lemma LateStoreWitness(slug: Slug, p: RunParams, q: Request, facts: seq<Rec<Stamp>>, run: RunId)
    requires Supported(slug) && q.slug == slug && q.window == p.window == Day && RangeInside(q, p)
    requires p.limit >= 1 && p.offset == 0 && Positive(facts)
    requires exists i :: 0 <= i < |facts| && FromStamp(slug, p)(facts[i].key).Some?
    ensures exists steps: seq<CacheStep> ::
      && Valid(Initial([], map[slug := 1]), steps)
      && (var c := After(Initial([], map[slug := 1]), steps);
          && slug in c.time.versions && KeyFor(slug, c.time.versions[slug], p) in c.entries
          && At(c.time.committed, slug) < At(c.time.bumped, slug)
          && ExecuteReport(c.time.table, slug, p) != Success(c.entries[KeyFor(slug, c.time.versions[slug], p)].rows))
  {
    var c := Initial([], map[slug := 1]);
    var s4 := MissedRead(slug, p);
    var s8 := LateStore(c, s4, slug, p, q, facts, run);
    DayReadRefinesRaw([], q, facts, run, p);
    RawQueryNonEmpty(facts, slug, p);
  }

  /** The states of a read of the empty table, up to and not including its store-time version read. */
  function ReadTrace(slug: Slug, p: RunParams, i: nat): Cached {
    var past := seq(i + 1, _ => []);
    var time := Timeline([], map[slug := 1], past, map[], map[], {});
    Cached(time, map[],
           if i == 0 then map[]
           else if i == 1 then map[0 := AskRead(slug, p)]
           else if i == 2 then map[0 := Lookup(slug, p, 1)]
           else if i == 3 then map[0 := Query(slug, p, true)]
           else map[0 := AskStore(slug, p, [], 4)])
  }

  function ReadStep(slug: Slug, p: RunParams, i: nat): CacheStep {
    if i == 0 then Begin(0, slug, p, true)
    else if i == 1 then ReadVersion(0, true)
    else if i == 2 then GetEntry(0, true)
    else RunRead(0, true)
  }

  lemma EmptyQuery(slug: Slug, p: RunParams)
    ensures RunQuery([], slug, p) == []
  {}

  lemma ReadAdvances(slug: Slug, p: RunParams, i: nat)
    requires Supported(slug) && i < 4
    ensures Enabled(ReadTrace(slug, p, i), ReadStep(slug, p, i))
    ensures Step(ReadTrace(slug, p, i), ReadStep(slug, p, i)) == ReadTrace(slug, p, i + 1)
  {
    var c, c' := ReadTrace(slug, p, i), ReadTrace(slug, p, i + 1);
    assert Tick(c.time).past == c'.time.past;
    if i == 3 {
      EmptyQuery(slug, p);
    }
  }

  lemma MissedRead(slug: Slug, p: RunParams) returns (steps: seq<CacheStep>)
    requires Supported(slug)
    ensures Valid(Initial([], map[slug := 1]), steps)
    ensures After(Initial([], map[slug := 1]), steps) == ReadTrace(slug, p, 4)
  {
    var c := Initial([], map[slug := 1]);
    steps := [];
    assert c.time.past == ReadTrace(slug, p, 0).time.past;
    for i := 0 to 4
      invariant Valid(c, steps) && After(c, steps) == ReadTrace(slug, p, i)
    {
      ReadAdvances(slug, p, i);
      Extend(c, steps, ReadStep(slug, p, i));
      steps := steps + [ReadStep(slug, p, i)];
    }
  }

  /** The rebuild and its bump happen, and only then the read stores what it queried. */
  lemma LateStore(c: Cached, before: seq<CacheStep>, slug: Slug, p: RunParams, q: Request, facts: seq<Rec<Stamp>>,
                  run: RunId) returns (steps: seq<CacheStep>)
    requires Valid(c, before) && Supported(slug) && q.slug == slug
    requires After(c, before) == ReadTrace(slug, p, 4)
    ensures Valid(c, steps)
    ensures
      var c := After(c, steps);
      && c.time.versions == map[slug := 2] && c.time.table == Rebuilt([], q, facts, run)
      && KeyFor(slug, 2, p) in c.entries && c.entries[KeyFor(slug, 2, p)].rows == []
      && At(c.time.committed, slug) == 5 && At(c.time.bumped, slug) == 6
  {
    Extend(c, before, Commit(q, facts, run));
    steps := before + [Commit(q, facts, run)];
    LateCommit(After(c, before), slug, p, q, facts, run);
    Extend(c, steps, Bump(slug, Ok));
    LateBump(After(c, steps), slug, AskStore(slug, p, [], 4), Rebuilt([], q, facts, run));
    steps := steps + [Bump(slug, Ok)];
    Extend(c, steps, ReadVersion(0, true));
    LateVersion(After(c, steps), slug, p, Rebuilt([], q, facts, run));
    steps := steps + [ReadVersion(0, true)];
    Extend(c, steps, SetEntry(0, Ok));
    LateSet(After(c, steps), slug, p, Rebuilt([], q, facts, run));
    steps := steps + [SetEntry(0, Ok)];
  }

  /** A moment of the late store: the current version and table, and how far the read is. */
  ghost predicate Late(c: Cached, slug: Slug, version: nat, table: Table, reader: Reader) {
    && c.time.versions == map[slug := version] && c.time.table == table && c.readers == map[0 := reader]
    && At(c.time.committed, slug) == 5
    && (if version == 1 then |c.time.past| == 6 else At(c.time.bumped, slug) == 6)
  }

  lemma LateCommit(c: Cached, slug: Slug, p: RunParams, q: Request, facts: seq<Rec<Stamp>>, run: RunId)
    requires c == ReadTrace(slug, p, 4) && q.slug == slug && Supported(slug)
    ensures Late(Step(c, Commit(q, facts, run)), slug, 1, Rebuilt([], q, facts, run), AskStore(slug, p, [], 4))
  {}

  lemma LateBump(c: Cached, slug: Slug, reader: Reader, table: Table)
    requires Late(c, slug, 1, table, reader)
    ensures Late(Step(c, Bump(slug, Ok)), slug, 2, table, reader)
  {}

  lemma LateVersion(c: Cached, slug: Slug, p: RunParams, table: Table)
    requires Late(c, slug, 2, table, AskStore(slug, p, [], 4))
    ensures
      exists readAt ::
        Late(Step(c, ReadVersion(0, true)), slug, 2, table, Storing(slug, p, [], 4, 2, readAt))
  {
    var c' := Step(c, ReadVersion(0, true));
    assert c'.readers == map[0 := c'.readers[0]];
    assert Late(c', slug, 2, table, Storing(slug, p, [], 4, 2, c'.readers[0].readAt));
  }

  lemma LateSet(c: Cached, slug: Slug, p: RunParams, table: Table)
    requires exists readAt :: Late(c, slug, 2, table, Storing(slug, p, [], 4, 2, readAt))
    ensures
      var c' := Step(c, SetEntry(0, Ok));
      && c'.time.versions == c.time.versions && c'.time.table == table
      && KeyFor(slug, 2, p) in c'.entries && c'.entries[KeyFor(slug, 2, p)].rows == []
      && At(c'.time.committed, slug) == 5 && At(c'.time.bumped, slug) == 6
  {}
}
