/** The demo seeder: generated events, and one rebuild of each report and window over their range. */
module Seeding {
  import opened Common
  import opened Time
  import opened Aggregate
  import opened Snapshots
  import opened Protocol
  import opened Lifecycle
  import opened Runs
  import Keys
  import Postgres

  const SEED_COUNT: nat := 25000

  const SLUGS: seq<Slug> := [VolumeByPeriod, StatusCounts, TopEntities]

  const WINDOWS: seq<Window> := [Day, Week]

  /** MAX(id) per demo source; None when there is no such source. */
  datatype SourceMap = SourceMap(stripe: Option<nat>, adyen: Option<nat>, paypal: Option<nat>)

  predicate IsMax(ids: set<nat>, id: nat) {
    id in ids && forall x :: x in ids ==> x <= id
  }

  lemma {:induction false} HasMax(ids: set<nat>)
    requires ids != {}
    ensures exists id :: IsMax(ids, id)
  {
    var x :| x in ids;
    if ids == {x} {
      assert IsMax(ids, x);
    } else {
      HasMax(ids - {x});
      var y :| IsMax(ids - {x}, y);
      assert forall z :: z in ids ==> z == x || z in ids - {x};
      assert IsMax(ids, if x < y then y else x);
    }
  }

  /** The greatest id of a source with this slug. */
  function MaxId(sources: Sources, slug: string): (r: Option<nat>)
    ensures r.Some? ==> r.value in sources && sources[r.value] == slug
    ensures r.None? <==> forall id :: id in sources ==> sources[id] != slug
    ensures r.Some? ==> forall id :: id in sources && sources[id] == slug ==> id <= r.value
  {
    var ids := set id | id in sources && sources[id] == slug;
    assert forall id :: id in sources && sources[id] == slug ==> id in ids;
    if ids == {} then None
    else
      HasMax(ids);
      var id :| IsMax(ids, id);
      Some(id)
  }

  /** The CTE source_map. */
  function SourceMapOf(sources: Sources): SourceMap {
    SourceMap(MaxId(sources, "stripe"), MaxId(sources, "adyen"), MaxId(sources, "paypal"))
  }

  /** What goes wrong in one seedSnapshots call. */
  datatype SeedFault = SeedFault(create: Reply, tx: Postgres.TxFault, mark: Reply)

  const NO_FAULT: SeedFault := SeedFault(Ok, Postgres.NoFault, Ok)

  /** date_trunc('hour', t). */
  function FloorHour(t: int): int {
    t - t % HOUR
  }

  // ----- the generated events -----

  function OccurredAt(i: nat, now: int): int {
    FloorHour(now - (i % 90) * DAY - (i % 24) * HOUR)
  }

  function SourceOf(i: nat, m: SourceMap): Option<nat> {
    if i % 3 == 0 then m.stripe else if i % 3 == 1 then m.adyen else m.paypal
  }

  function StatusOf(i: nat): string {
    if i % 17 == 0 then "failed" else if i % 11 == 0 then "pending" else "success"
  }

  predicate Mapped(m: SourceMap) {
    m.stripe.Some? && m.adyen.Some? && m.paypal.Some?
  }

  /** Row i of the generated series. */
  function SeedEvent(i: nat, now: int, m: SourceMap): Event
    requires Mapped(m)
  {
    Event(SourceOf(i, m).value, StatusOf(i), "entity-" + Keys.Decimal(i % 240 + 1), OccurredAt(i, now))
  }

  /** generate_series(1, n). */
  function Generated(n: nat, now: int, m: SourceMap): (es: seq<Event>)
    requires Mapped(m)
    ensures |es| == n && forall k :: 0 <= k < n ==> es[k] == SeedEvent(k + 1, now, m)
  {
    seq(n, k requires 0 <= k => SeedEvent(k + 1, now, m))
  }

  /**
   The columns of the k-th generated event: every third one from each source, every 17th
   failed, of the others every 11th pending, 240 entities in turn, and the full hour of a time
   up to 89 days and 23 hours back.
   */
  lemma GeneratedColumns(n: nat, now: int, m: SourceMap, i: nat, days: nat, hours: nat, entity: nat)
    requires Mapped(m) && 1 <= i <= n && days < 90 && hours < 24 && entity < 240
    requires (i - days) % 90 == 0 && (i - hours) % 24 == 0 && (i - entity) % 240 == 0
    ensures
      var e := Generated(n, now, m)[i - 1];
      && Some(e.sourceId) == (if i % 3 == 0 then m.stripe else if i % 3 == 1 then m.adyen else m.paypal)
      && (e.status == "failed" <==> exists j: nat :: i == 17 * j)
      && (e.status == "pending" <==> (exists j: nat :: i == 11 * j) && !exists j: nat :: i == 17 * j)
      && (e.status != "failed" && e.status != "pending" ==> e.status == "success")
      && e.entityId == "entity-" + Keys.Decimal(entity + 1)
      && e.occurredAt % HOUR == 0 && e.occurredAt <= now - days * DAY - hours * HOUR < e.occurredAt + HOUR
  {
    MultipleExists(i, 17);
    MultipleExists(i, 11);
    Residue(i, days, 90);
    Residue(i, hours, 24);
    Residue(i, entity, 240);
    assert Generated(n, now, m)[i - 1] == SeedEvent(i, now, m);
    HourFloor(now - days * DAY - hours * HOUR);
  }

  lemma HourFloor(t: int)
    ensures FloorHour(t) % HOUR == 0 && FloorHour(t) <= t < FloorHour(t) + HOUR
  {
    assert FloorHour(t) == HOUR * (t / HOUR);
  }

  lemma MultipleExists(i: nat, u: nat)
    requires u > 0
    ensures i % u == 0 <==> exists j: nat :: i == u * j
  {
    assert i == u * (i / u) + i % u;
    if j: nat :| i == u * j {
      DivMod(i, u, j, 0);
    }
  }

  lemma Residue(i: nat, r: nat, u: nat)
    requires r < u && (i - r) % u == 0
    ensures i % u == r
  {
    var q := (i - r) / u;
    assert i == u * q + r;
    DivMod(i, u, q, r);
  }

  /** The range that the seeder rebuilds, from two readings of the Go clock. */
  function SeedRange(slug: Slug, w: Window, goFrom: int, goTo: int): Request {
    Request(slug, w, goFrom - 90 * DAY, goTo)
  }

  /** Days and hours back are whole hours, so truncation to the hour commutes with them. */
  lemma HoursBack(now: int, days: nat, hours: nat)
    ensures FloorHour(now - days * DAY - hours * HOUR) == FloorHour(now) - days * DAY - hours * HOUR
  {
    ShiftHours(now, 24 * days + hours);
  }

  lemma ShiftHours(now: int, n: nat)
    ensures (now - n * HOUR) % HOUR == now % HOUR
  {
    var q, r := now / HOUR, now % HOUR;
    assert now - n * HOUR == HOUR * (q - n) + r;
    assert (now - n * HOUR) / HOUR == q - n;
  }

  lemma DaysBack(t: int, n: nat)
    ensures Midnight(t - n * DAY) == Midnight(t) - n * DAY
  {
    var q, r := t / DAY, t % DAY;
    assert t - n * DAY == DAY * (q - n) + r;
    assert (t - n * DAY) / DAY == q - n;
  }

  /**
   Exactly when the generated events fall inside the seeded range: the first reading of the
   Go clock must not be a calendar day later than the hour after the database clock.
   */
  lemma SeedRangeExact(slug: Slug, w: Window, now: int, goFrom: int, goTo: int)
    requires now <= goFrom <= goTo
    ensures (forall i :: 1 <= i <= SEED_COUNT ==> InRange(SeedRange(slug, w, goFrom, goTo), OccurredAt(i, now)))
            <==> Midnight(goFrom) <= FloorHour(now) + HOUR
  {
    var q := SeedRange(slug, w, goFrom, goTo);
    DaysBack(goFrom, 90);
    if Midnight(goFrom) <= FloorHour(now) + HOUR {
      forall i | 1 <= i <= SEED_COUNT ensures InRange(q, OccurredAt(i, now)) {
        HoursBack(now, i % 90, i % 24);
      }
    } else {
      HoursBack(now, 359 % 90, 359 % 24);
      assert !InRange(q, OccurredAt(359, now));
    }
  }

  /** A Go clock that reads less than an hour after now() meets the condition. */
  lemma SeedWithinTheHour(slug: Slug, w: Window, now: int, goFrom: int, goTo: int)
    requires now <= goFrom <= goTo && goFrom < now + HOUR
    ensures forall i :: 1 <= i <= SEED_COUNT ==> InRange(SeedRange(slug, w, goFrom, goTo), OccurredAt(i, now))
  {
    MidnightIsHour(goFrom);
    assert FloorHour(now) + HOUR > now && FloorHour(goFrom) <= FloorHour(now) + HOUR;
    SeedRangeExact(slug, w, now, goFrom, goTo);
  }

  lemma MidnightIsHour(t: int)
    ensures Midnight(t) <= FloorHour(t)
  {}

  /** A day-crossing delay of more than an hour leaves an event out. */
  lemma SlowSeedWitness(slug: Slug, w: Window)
    ensures
      var now := 100 * DAY - 2 * HOUR;
      !InRange(SeedRange(slug, w, now + 2 * HOUR, now + 2 * HOUR), OccurredAt(359, now))
  {
    var now := 100 * DAY - 2 * HOUR;
    HoursBack(now, 359 % 90, 359 % 24);
    DaysBack(now + 2 * HOUR, 90);
  }

  // ----- the six rebuilds -----

  type Rebuilder = (Table, Request, RunId) -> Table

  /** The rebuilds of a database that holds these events. */
  function RebuilderOf(sources: Sources, events: seq<Event>): (rebuild: Rebuilder)
    ensures Rebuilds(rebuild, sources, events)
  {
    (table: Table, q: Request, id: RunId) => Rebuilt(table, q, Facts(q.slug, sources, events), id)
  }

  ghost predicate Rebuilds(rebuild: Rebuilder, sources: Sources, events: seq<Event>) {
    forall table: Table, q: Request, id: RunId {:trigger Rebuilt(table, q, Facts(q.slug, sources, events), id)} ::
      rebuild(table, q, id) == Rebuilt(table, q, Facts(q.slug, sources, events), id)
  }

  lemma RebuildsOne(rebuild: Rebuilder, sources: Sources, events: seq<Event>, table: Table, q: Request, id: RunId)
    requires Rebuilds(rebuild, sources, events)
    ensures rebuild(table, q, id) == Rebuilt(table, q, Facts(q.slug, sources, events), id)
  {}

  /** The snapshot table after one seedSnapshots call, and whether the call succeeded. */
  function SeedOne(table: Table, q: Request, rebuild: Rebuilder, id: RunId, f: SeedFault): (Table, bool) {
    if f.create.Ok? && Supported(q.slug) && f.tx == Postgres.NoFault then (rebuild(table, q, id), f.mark.Ok?)
    else (table, false)
  }

  /** Exactly when one seedSnapshots call rebuilds the table, and when it succeeds. */
  lemma SeedOneExact(table: Table, q: Request, rebuild: Rebuilder, sources: Sources, events: seq<Event>, id: RunId,
                     f: SeedFault)
    requires Rebuilds(rebuild, sources, events)
    ensures
      var (table', ok) := SeedOne(table, q, rebuild, id, f);
      var commits := f.create.Ok? && f.tx == Postgres.NoFault && !q.slug.Unsupported?;
      && table' == (if commits then Rebuilt(table, q, Facts(q.slug, sources, events), id) else table)
      && (ok <==> commits && f.mark.Ok?)
  {
    RebuildsOne(rebuild, sources, events, table, q, id);
  }

  /** The six rebuilds, in loop order. */
  function Plan(goFrom: int, goTo: int): seq<Request> {
    [SeedRange(VolumeByPeriod, Day, goFrom, goTo), SeedRange(VolumeByPeriod, Week, goFrom, goTo),
     SeedRange(StatusCounts, Day, goFrom, goTo), SeedRange(StatusCounts, Week, goFrom, goTo),
     SeedRange(TopEntities, Day, goFrom, goTo), SeedRange(TopEntities, Week, goFrom, goTo)]
  }

  lemma PlanEntry(goFrom: int, goTo: int, s: nat, w: nat)
    requires s < 3 && w < 2
    ensures |SLUGS| == 3 && |WINDOWS| == 2 && |Plan(goFrom, goTo)| == 6
    ensures Plan(goFrom, goTo)[2 * s + w] == SeedRange(SLUGS[s], WINDOWS[w], goFrom, goTo)
  {}

  function FaultAt(faults: seq<SeedFault>, k: nat): SeedFault {
    if k < |faults| then faults[k] else NO_FAULT
  }

  /** The plan from its k-th rebuild on; the first failure ends the seeding. */
  function SeedFrom(table: Table, rebuild: Rebuilder, plan: seq<Request>, first: RunId, faults: seq<SeedFault>, k: nat)
    : (Table, bool)
    requires k <= |plan|
    decreases |plan| - k
  {
    if k == |plan| then (table, true)
    else
      var (table', ok) := SeedOne(table, plan[k], rebuild, first + k, FaultAt(faults, k));
      if ok then SeedFrom(table', rebuild, plan, first, faults, k + 1) else (table', false)
  }

  /** The first k runs of the plan have completed. */
  ghost predicate RunsDone(runs: map<RunId, Run>, plan: seq<Request>, first: RunId, k: nat)
    requires k <= |plan|
  {
    && (forall id :: id in runs ==> id < first + k)
    && (forall id :: first <= id < first + k ==>
          id in runs && runs[id].request == plan[id - first] && runs[id].history == [Running, Completed])
  }

  /** One more run, completed. */
  ghost predicate RunAdded(before: map<RunId, Run>, after: map<RunId, Run>, id: RunId, q: Request) {
    && after.Keys == before.Keys + {id} && after[id].request == q && after[id].history == [Running, Completed]
    && (forall x :: x in before && x != id ==> after[x] == before[x])
  }

  /** One new row at most: completed if the call succeeded, and else in a state that starts with running. */
  ghost predicate RunTried(before: map<RunId, Run>, after: map<RunId, Run>, id: RunId, q: Request, ok: bool) {
    && (ok ==> RunAdded(before, after, id, q)) && after - {id} == before
    && (!ok && id in after ==>
          var h := after[id].history;
          after[id].request == q && (h == [Running] || h == [Running, Failed] || h == [Running, Completed]))
  }

  /** The run rows after one seedSnapshots call, up to the summary. */
  ghost predicate SeedRow(before: map<RunId, Run>, id: RunId, q: Request, f: SeedFault, after: map<RunId, Run>) {
    var created := if f.create.Applied() then before[id := Run(q, [Running], None)] else before;
    if !f.create.Ok? then after == created
    else if Supported(q.slug) && f.tx == Postgres.NoFault then
      exists summary :: after == MarkDone(created, id, summary, f.mark)
    else after == Mark(created, id, Failed, f.mark)
  }

  lemma SeedRowTried(before: map<RunId, Run>, id: RunId, q: Request, f: SeedFault, after: map<RunId, Run>)
    requires id !in before && SeedRow(before, id, q, f, after)
    ensures RunTried(before, after, id, q, f.create.Ok? && Supported(q.slug) && f.tx == Postgres.NoFault && f.mark.Ok?)
    ensures Extends(before, after) && (f.create.Ok? ==> id in after && after[id].request == q)
  {}

  /** Every old run row is still there. */
  ghost predicate Extends(start: map<RunId, Run>, runs: map<RunId, Run>) {
    forall id :: id in start ==> id in runs && runs[id] == start[id]
  }

  lemma RunsDoneStep(before: map<RunId, Run>, after: map<RunId, Run>, plan: seq<Request>, first: RunId, k: nat)
    requires k < |plan| && RunsDone(before, plan, first, k) && RunAdded(before, after, first + k, plan[k])
    ensures RunsDone(after, plan, first, k + 1)
  {}

  // ----- the store after seeding -----

  lemma RebuiltRowsKnown(table: Table, q: Request, facts: seq<Rec<Stamp>>, id: RunId, runs: map<RunId, Run>)
    requires RowsKnown(table, runs) && id in runs && runs[id].request == q
    ensures RowsKnown(Rebuilt(table, q, facts, id), runs)
  {
    var rebuilt, kept := Rebuilt(table, q, facts, id), Kept(table, q);
    InsertedIsCleared(q, facts, id);
    forall i | 0 <= i < |rebuilt| && rebuilt[i].key.run.Some?
      ensures rebuilt[i].key.run.value in runs && Fits(runs[rebuilt[i].key.run.value].request, rebuilt[i].key)
    {
      if i < |kept| {
        var k := ProjectOrigin(table, KeepLabel(q), i);
      } else {
        assert rebuilt[i] == Inserted(q, facts, id)[i - |kept|];
      }
    }
  }

  /** A new run row, with or without its rebuild, leaves stores at rest that were at rest. */
  lemma RebuildLeavesAtRest(table: Table, runs: map<RunId, Run>, audits: seq<AuditEntry>, q: Request,
                            facts: seq<Rec<Stamp>>, id: RunId, runs': map<RunId, Run>)
    requires AtRest(table, runs, audits) && id !in runs && Extends(runs, runs')
    ensures AtRest(table, runs', audits)
    ensures id in runs' && runs'[id].request == q ==> AtRest(Rebuilt(table, q, facts, id), runs', audits)
  {
    if id in runs' && runs'[id].request == q {
      RebuiltRowsKnown(table, q, facts, id, runs');
    }
  }

  class Seeder {
    const store: Postgres.Store

    constructor (store: Postgres.Store)
      ensures this.store == store
    {
      this.store := store;
    }

    /** A running run, the rebuild, and the outcome; the run row may be lost or stay open only when the call fails. */
    method SeedSnapshots(q: Request, id: RunId, f: SeedFault, ghost rebuild: Rebuilder) returns (ok: bool)
      requires id !in store.runs && Rebuilds(rebuild, store.sources, store.events)
      modifies store`snapshots, store`runs, store.trace
      ensures (store.snapshots, ok) == SeedOne(old(store.snapshots), q, rebuild, id, f)
      ensures RunTried(old(store.runs), store.runs, id, q, ok)
      ensures AtRest(old(store.snapshots), old(store.runs), store.audits) ==>
                AtRest(store.snapshots, store.runs, store.audits)
    {
      ghost var table, runs := store.snapshots, store.runs;
      var run := store.CreateRun(q, Running, id, f.create);
      if run.Failure? {
        SeedRowTried(runs, id, q, f, store.runs);
        StillAtRest(table, runs, q, id);
        return false;
      }
      var summary := store.RecomputeReport(q, run.value, f.tx);
      if summary.Failure? {
        var _ := store.MarkRunFailed(run.value, f.mark);
        SeedRowTried(runs, id, q, f, store.runs);
        StillAtRest(table, runs, q, id);
        return false;
      }
      RebuildsOne(rebuild, store.sources, store.events, table, q, id);
      ok := store.MarkRunCompleted(run.value, summary.value, f.mark);
      SeedRowTried(runs, id, q, f, store.runs);
      StillAtRest(table, runs, q, id);
    }

    /** The stores are at rest after one new run, if they were before. */
    lemma StillAtRest(table: Table, runs: map<RunId, Run>, q: Request, id: RunId)
      requires id !in runs && Extends(runs, store.runs)
      requires store.snapshots == table
               || (id in store.runs && store.runs[id].request == q
                   && store.snapshots == Rebuilt(table, q, Facts(q.slug, store.sources, store.events), id))
      ensures AtRest(table, runs, store.audits) ==> AtRest(store.snapshots, store.runs, store.audits)
    {
      if AtRest(table, runs, store.audits) {
        RebuildLeavesAtRest(table, runs, store.audits, q, Facts(q.slug, store.sources, store.events), id, store.runs);
      }
    }

    /** Rebuild every report and window. */
    method SeedAll(goFrom: int, goTo: int, first: RunId, faults: seq<SeedFault>, ghost rebuild: Rebuilder)
      returns (ok: bool)
      requires (forall id :: id in store.runs ==> id < first) && Rebuilds(rebuild, store.sources, store.events)
      modifies store`snapshots, store`runs, store.trace
      ensures (store.snapshots, ok) == SeedFrom(old(store.snapshots), rebuild, Plan(goFrom, goTo), first, faults, 0)
      ensures ok ==> RunsDone(store.runs, Plan(goFrom, goTo), first, 6)
      ensures AtRest(old(store.snapshots), old(store.runs), store.audits) ==>
                AtRest(store.snapshots, store.runs, store.audits)
    {
      ghost var plan := Plan(goFrom, goTo);
      ghost var all := SeedFrom(store.snapshots, rebuild, plan, first, faults, 0);
      ghost var rest := AtRest(store.snapshots, store.runs, store.audits);
      var k := 0;
      var s := 0;
      while s < |SLUGS|
        invariant 0 <= s <= 3 && k == 2 * s
        invariant RunsDone(store.runs, plan, first, k)
        invariant rest ==> AtRest(store.snapshots, store.runs, store.audits)
        invariant all == SeedFrom(store.snapshots, rebuild, plan, first, faults, k)
      {
        var w := 0;
        while w < |WINDOWS|
          invariant 0 <= w <= 2 && k == 2 * s + w
          invariant RunsDone(store.runs, plan, first, k)
          invariant rest ==> AtRest(store.snapshots, store.runs, store.audits)
          invariant all == SeedFrom(store.snapshots, rebuild, plan, first, faults, k)
        {
          var q := SeedRange(SLUGS[s], WINDOWS[w], goFrom, goTo);
          PlanEntry(goFrom, goTo, s, w);
          ghost var before := store.runs;
          var done := SeedSnapshots(q, first + k, FaultAt(faults, k), rebuild);
          if !done { return false; }
          RunsDoneStep(before, store.runs, plan, first, k);
          k, w := k + 1, w + 1;
        }
        s := s + 1;
      }
      return true;
    }

    /**
     Reset if forced, skip if there are events, else generate them and rebuild everything.
     Forced seeding restarts the run ids. Whether the call succeeds or not, stores at rest
     stay at rest, so the service can start from them.
     */
    method Seed(force: bool, reset: Reply, countOk: bool, insert: Reply, now: int, goFrom: int, goTo: int,
                first: RunId, faults: seq<SeedFault>) returns (ok: bool)
      requires !force ==> forall id :: id in store.runs ==> id < first
      modifies store`snapshots, store`runs, store`audits, store`events, store.trace
      ensures !force && old(store.events) != [] ==>
                && store.events == old(store.events) && store.snapshots == old(store.snapshots)
                && store.runs == old(store.runs)
      ensures ok && (force || old(store.events) == []) ==>
                && Mapped(SourceMapOf(store.sources))
                && store.events == Generated(SEED_COUNT, now, SourceMapOf(store.sources))
                && (store.snapshots, true)
                   == SeedFrom(if force then [] else old(store.snapshots), RebuilderOf(store.sources, store.events),
                               Plan(goFrom, goTo), first, faults, 0)
                && RunsDone(store.runs, Plan(goFrom, goTo), first, 6)
      ensures store.events == old(store.events) || (force && store.events == [])
              || (Mapped(SourceMapOf(store.sources))
                  && store.events == Generated(SEED_COUNT, now, SourceMapOf(store.sources)))
      ensures !Mapped(SourceMapOf(store.sources)) && (force || old(store.events) == []) ==> !ok
      ensures AtRest(old(store.snapshots), old(store.runs), old(store.audits)) || (force && reset.Applied()) ==>
                AtRest(store.snapshots, store.runs, store.audits)
    {
      if force {
        if reset.Applied() {
          store.snapshots, store.runs, store.audits, store.events := [], map[], [], [];
        }
        if !reset.Ok? { return false; }
      }
      if !countOk { return false; }
      if |store.events| > 0 { return true; }
      var m := SourceMapOf(store.sources);
      if !Mapped(m) { return false; }
      if insert.Applied() {
        store.events := store.events + Generated(SEED_COUNT, now, m);
      }
      if !insert.Ok? { return false; }
      ok := SeedAll(goFrom, goTo, first, faults, RebuilderOf(store.sources, store.events));
    }
  }

  // ----- coverage -----

  function OfFamily(slug: Slug, w: Window): Label -> bool {
    (l: Label) => l.slug == slug && l.window == w
  }

  /** A rebuild leaves the total of every other report or window as it was. */
  lemma OtherFamilyKept(table: Table, q: Request, facts: seq<Rec<Stamp>>, run: RunId, slug: Slug, w: Window)
    requires slug != q.slug || w != q.window
    ensures Total(Rebuilt(table, q, facts, run), OfFamily(slug, w)) == Total(table, OfFamily(slug, w))
  {
    var p := OfFamily(slug, w);
    TotalConcat(Kept(table, q), Inserted(q, facts, run), p);
    ProjectTotal(table, KeepLabel(q), p);
    TotalSame(table, Pull(KeepLabel(q), p), p);
    InsertedIsCleared(q, facts, run);
    TotalNone(Inserted(q, facts, run), p);
  }

  /** A first rebuild of a report and window whose range holds every event counts every event. */
  lemma FirstRebuildCounts(table: Table, q: Request, sources: Sources, events: seq<Event>, run: RunId)
    requires Supported(q.slug) && Total(table, OfFamily(q.slug, q.window)) == 0
    requires forall i :: 0 <= i < |events| ==> events[i].sourceId in sources && InRange(q, events[i].occurredAt)
    ensures Total(Rebuilt(table, q, Facts(q.slug, sources, events), run), OfFamily(q.slug, q.window)) == |events|
  {
    var p, facts := OfFamily(q.slug, q.window), Facts(q.slug, sources, events);
    TotalConcat(Kept(table, q), Inserted(q, facts, run), p);
    ProjectTotal(table, KeepLabel(q), p);
    NoFamilyRows(table, p, Pull(KeepLabel(q), p));
    InsertedIsCleared(q, facts, run);
    TotalSame(Inserted(q, facts, run), p, Any());
    CrossReportTotals(q, sources, events, run);
    AllInRange(q, events);
  }

  /** A part of a zero total is zero. */
  lemma {:induction false} NoFamilyRows(table: Table, p: Label -> bool, part: Label -> bool)
    requires Total(table, p) == 0 && forall l :: part(l) ==> p(l)
    ensures Total(table, part) == 0
  {
    if table != [] {
      NoFamilyRows(table[..|table| - 1], p, part);
    }
  }

  lemma {:induction false} AllInRange(q: Request, events: seq<Event>)
    requires forall i :: 0 <= i < |events| ==> InRange(q, events[i].occurredAt)
    ensures EventsInRange(q, events) == |events|
  {
    if events != [] {
      AllInRange(q, events[..|events| - 1]);
    }
  }

  function FamilyTotal(table: Table, q: Request): nat {
    Total(table, OfFamily(q.slug, q.window))
  }

  /** Every rebuild of the plan has its own report and window, and the same date range. */
  ghost predicate OneEach(plan: seq<Request>) {
    && (forall j :: 0 <= j < |plan| ==> Supported(plan[j].slug))
    && (forall i, j :: 0 <= i < |plan| && 0 <= j < |plan| && i != j ==>
          plan[i].slug != plan[j].slug || plan[i].window != plan[j].window)
  }

  /** Every event has a source and lies in every range of the plan. */
  ghost predicate AllCounted(sources: Sources, events: seq<Event>, plan: seq<Request>) {
    forall i, j :: 0 <= i < |events| && 0 <= j < |plan| ==>
      events[i].sourceId in sources && InRange(plan[j], events[i].occurredAt)
  }

  /** The first k families hold every event, the others none. */
  ghost predicate Progress(table: Table, plan: seq<Request>, n: nat, k: nat) {
    forall j :: 0 <= j < |plan| ==> FamilyTotal(table, plan[j]) == if j < k then n else 0
  }

  /** The k-th rebuild fills the k-th family and leaves the others. */
  lemma RebuildProgress(table: Table, sources: Sources, events: seq<Event>, plan: seq<Request>, run: RunId, k: nat)
    requires OneEach(plan) && AllCounted(sources, events, plan) && k < |plan| && Progress(table, plan, |events|, k)
    ensures Progress(Rebuilt(table, plan[k], Facts(plan[k].slug, sources, events), run), plan, |events|, k + 1)
  {
    var q := plan[k];
    var facts := Facts(q.slug, sources, events);
    assert FamilyTotal(table, q) == 0;
    FirstRebuildCounts(table, q, sources, events, run);
    forall j | 0 <= j < |plan| && j != k
      ensures FamilyTotal(Rebuilt(table, q, facts, run), plan[j]) == FamilyTotal(table, plan[j])
    {
      OtherFamilyKept(table, q, facts, run, plan[j].slug, plan[j].window);
    }
  }

  /** What a plan must satisfy over the given events. */
  ghost predicate Counts(sources: Sources, events: seq<Event>, plan: seq<Request>) {
    OneEach(plan) && AllCounted(sources, events, plan)
  }

  /** Every rebuild of the plan makes progress. */
  ghost predicate Advances(rebuild: Rebuilder, plan: seq<Request>, n: nat) {
    forall table, k, id :: 0 <= k < |plan| && Progress(table, plan, n, k) ==>
      Progress(rebuild(table, plan[k], id), plan, n, k + 1)
  }

  lemma {:induction false} SeedProgress(table: Table, rebuild: Rebuilder, plan: seq<Request>, n: nat, first: RunId,
                                        faults: seq<SeedFault>, k: nat)
    requires Advances(rebuild, plan, n) && k <= |plan| && Progress(table, plan, n, k)
    requires SeedFrom(table, rebuild, plan, first, faults, k).1
    ensures Progress(SeedFrom(table, rebuild, plan, first, faults, k).0, plan, n, |plan|)
    decreases |plan| - k
  {
    if k < |plan| {
      SeedProgress(rebuild(table, plan[k], first + k), rebuild, plan, n, first, faults, k + 1);
    }
  }

  lemma RebuilderAdvances(sources: Sources, events: seq<Event>, plan: seq<Request>)
    requires Counts(sources, events, plan)
    ensures Advances(RebuilderOf(sources, events), plan, |events|)
  {
    var rebuild := RebuilderOf(sources, events);
    forall table, k, id | 0 <= k < |plan| && Progress(table, plan, |events|, k)
      ensures Progress(rebuild(table, plan[k], id), plan, |events|, k + 1)
    {
      RebuildProgress(table, sources, events, plan, id, k);
    }
  }

  lemma PlanHasOneEach(goFrom: int, goTo: int)
    ensures OneEach(Plan(goFrom, goTo))
  {}

  lemma GeneratedCounted(sources: Sources, now: int, goFrom: int, goTo: int)
    requires now <= goFrom <= goTo && goFrom < now + HOUR && Mapped(SourceMapOf(sources))
    ensures AllCounted(sources, Generated(SEED_COUNT, now, SourceMapOf(sources)), Plan(goFrom, goTo))
  {
    forall j | 0 <= j < |Plan(goFrom, goTo)|
      ensures forall i :: 1 <= i <= SEED_COUNT ==> InRange(Plan(goFrom, goTo)[j], OccurredAt(i, now))
    {
      var q := Plan(goFrom, goTo)[j];
      assert q == SeedRange(q.slug, q.window, goFrom, goTo);
      SeedWithinTheHour(q.slug, q.window, now, goFrom, goTo);
    }
  }

  /**
   Seeding an empty database: if the Go clock is read less than an hour after the database
   clock and every step succeeds, each report and window totals exactly the number of
   generated events.
   */
  lemma SeedCoversEverything(sources: Sources, now: int, goFrom: int, goTo: int, first: RunId,
                             faults: seq<SeedFault>, end: Table, slug: Slug, w: Window)
    requires now <= goFrom <= goTo && goFrom < now + HOUR && Supported(slug) && Mapped(SourceMapOf(sources))
    requires SeedsTo(sources, Generated(SEED_COUNT, now, SourceMapOf(sources)), goFrom, goTo, first, faults, end)
    ensures Total(end, OfFamily(slug, w)) == 25_000
  {
    var events, plan := Generated(SEED_COUNT, now, SourceMapOf(sources)), Plan(goFrom, goTo);
    GeneratedCounted(sources, now, goFrom, goTo);
    PlanHasOneEach(goFrom, goTo);
    RebuilderAdvances(sources, events, plan);
    SeedTotals(RebuilderOf(sources, events), plan, SEED_COUNT, first, faults, PlanIndex(goFrom, goTo, slug, w));
  }

  /** The six rebuilds over these events take the empty table to end, without a failure. */
  ghost predicate SeedsTo(sources: Sources, events: seq<Event>, goFrom: int, goTo: int, first: RunId,
                          faults: seq<SeedFault>,
                          end: Table)
  {
    SeedFrom([], RebuilderOf(sources, events), Plan(goFrom, goTo), first, faults, 0) == (end, true)
  }

  lemma SeedTotals(rebuild: Rebuilder, plan: seq<Request>, n: nat, first: RunId, faults: seq<SeedFault>, j: nat)
    requires Advances(rebuild, plan, n) && j < |plan| && SeedFrom([], rebuild, plan, first, faults, 0).1
    ensures FamilyTotal(SeedFrom([], rebuild, plan, first, faults, 0).0, plan[j]) == n
  {
    SeedProgress([], rebuild, plan, n, first, faults, 0);
  }

  function PlanIndex(goFrom: int, goTo: int, slug: Slug, w: Window): (j: nat)
    requires Supported(slug)
    ensures j < |Plan(goFrom, goTo)| && Plan(goFrom, goTo)[j].slug == slug && Plan(goFrom, goTo)[j].window == w
  {
    (match slug case VolumeByPeriod => 0 case StatusCounts => 2 case _ => 4) + if w == Day then 0 else 1
  }
}
