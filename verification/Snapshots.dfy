/**
 The derived table metric_snapshots and its rebuild from raw events. A table is
 a list of records: a label (every column except metric_value) and the value.
 The UNIQUE constraint is a property to prove, not part of the type.
 */
module Snapshots {
  import opened Common
  import opened Time
  import opened Aggregate

  type RunId = nat

  datatype Slug = VolumeByPeriod | StatusCounts | TopEntities | Unsupported(name: string)

  datatype Dimension = Source | Status | EntityId | OtherDimension(name: string)

  datatype Metric = EventCount | OtherMetric(name: string)

  /** event_sources: id to slug. */
  type Sources = map<nat, string>

  datatype Event = Event(sourceId: nat, status: string, entityId: string, occurredAt: int)

  /** Every column of a snapshot row except metric_value and computed_at. */
  datatype Label = Label(slug: Slug, window: Window, bucket: int, dimKey: Dimension, dim: string,
                         metric: Metric, run: Option<RunId>)

  type Table = seq<Rec<Label>>

  /** What a report counts about one event: when it happened and its dimension value. */
  datatype Stamp = Stamp(at: int, dim: string)

  datatype Cell = Cell(bucket: int, dim: string)

  datatype Request = Request(slug: Slug, window: Window, dateFrom: int, dateTo: int)

  datatype Summary = Summary(rowsDeleted: nat, rowsInserted: nat, bucketCount: nat)

  predicate Supported(slug: Slug) {
    !slug.Unsupported?
  }

  function DimensionOf(slug: Slug): Dimension {
    match slug
    case VolumeByPeriod => Source
    case StatusCounts => Status
    case TopEntities => EntityId
    case Unsupported(name) => OtherDimension(name)
  }

  /** fromTS and toExclusive: the calendar dates of the request at midnight. */
  function From(q: Request): int { Midnight(q.dateFrom) }

  function ToExclusive(q: Request): int { Midnight(q.dateTo) + DAY }

  predicate InRange(q: Request, t: int) {
    From(q) <= t < ToExclusive(q)
  }

  /** The bucket interval that the DELETE statement clears. */
  predicate Cleared(q: Request, bucket: int) {
    Trunc(q.window, From(q)) <= bucket < Trunc(q.window, ToExclusive(q)) + Unit(q.window)
  }

  predicate Deleted(q: Request, l: Label) {
    l.slug == q.slug && l.window == q.window && Cleared(q, l.bucket)
  }

  // ----- the statements -----

  /** The dimension of an event; the inner join drops an event without a source. */
  function StampOf(slug: Slug, sources: Sources, e: Event): Option<Stamp> {
    match slug
    case VolumeByPeriod => if e.sourceId in sources then Some(Stamp(e.occurredAt, sources[e.sourceId])) else None
    case StatusCounts => Some(Stamp(e.occurredAt, e.status))
    case TopEntities => Some(Stamp(e.occurredAt, e.entityId))
    case Unsupported(_) => None
  }

  /** The facts that a report counts, one record of weight one per event. */
  function Facts(slug: Slug, sources: Sources, events: seq<Event>): (fs: seq<Rec<Stamp>>)
    ensures Positive(fs)
  {
    if events == [] then []
    else
      Facts(slug, sources, events[..|events| - 1]) +
      match StampOf(slug, sources, events[|events| - 1]) case None => [] case Some(s) => [Rec(s, 1)]
  }

  function KeepLabel(q: Request): Label -> Option<Label> {
    (l: Label) => if Deleted(q, l) then None else Some(l)
  }

  function DropLabel(q: Request): Label -> Option<Label> {
    (l: Label) => if Deleted(q, l) then Some(l) else None
  }

  /** WHERE occurred_at in range, SELECT date_trunc(window, occurred_at), dimension. */
  function ToCell(q: Request): Stamp -> Option<Cell> {
    (s: Stamp) => if InRange(q, s.at) then Some(Cell(Trunc(q.window, s.at), s.dim)) else None
  }

  function ToLabel(q: Request, run: RunId): Cell -> Option<Label> {
    (c: Cell) => Some(Label(q.slug, q.window, c.bucket, DimensionOf(q.slug), c.dim, EventCount, Some(run)))
  }

  /** The aggregate the INSERT selects. */
  function Cells(q: Request, facts: seq<Rec<Stamp>>): seq<Rec<Cell>> {
    Group(Project(facts, ToCell(q)))
  }

  function Kept(table: Table, q: Request): Table {
    Project(table, KeepLabel(q))
  }

  function Inserted(q: Request, facts: seq<Rec<Stamp>>, run: RunId): Table {
    Project(Cells(q, facts), ToLabel(q, run))
  }

  function Rebuilt(table: Table, q: Request, facts: seq<Rec<Stamp>>, run: RunId): Table {
    Kept(table, q) + Inserted(q, facts, run)
  }

  /** SELECT COUNT(DISTINCT bucket_start) over the cleared interval of the new table. */
  function ToBucket(q: Request): Label -> Option<int> {
    (l: Label) => if Deleted(q, l) then Some(l.bucket) else None
  }

  function BucketCount(table: Table, q: Request): nat {
    |Group(Project(table, ToBucket(q)))|
  }

  function SummaryOf(table: Table, q: Request, facts: seq<Rec<Stamp>>, run: RunId): Summary {
    Summary(|Project(table, DropLabel(q))|, |Inserted(q, facts, run)|, BucketCount(Rebuilt(table, q, facts, run), q))
  }

  // ----- facts -----

  /** Under the foreign key on source_id every report counts every event exactly once. */
  lemma {:induction false} FactCount(slug: Slug, sources: Sources, events: seq<Event>)
    requires Supported(slug)
    requires forall i :: 0 <= i < |events| ==> events[i].sourceId in sources
    ensures |Facts(slug, sources, events)| == |events|
    ensures forall i :: 0 <= i < |events| ==> Facts(slug, sources, events)[i].key.at == events[i].occurredAt
  {
    if events != [] {
      FactCount(slug, sources, events[..|events| - 1]);
    }
  }

  lemma CellsFacts(q: Request, facts: seq<Rec<Stamp>>)
    requires Positive(facts)
    ensures Distinct(Cells(q, facts)) && Positive(Cells(q, facts))
  {
    ProjectPositive(facts, ToCell(q));
    GroupKeys(Project(facts, ToCell(q)));
  }

  /** A cell is inserted exactly when an event of the range falls in it. */
  lemma CellPresent(q: Request, facts: seq<Rec<Stamp>>, c: Cell)
    ensures HasKey(Cells(q, facts), c) <==>
            exists i :: 0 <= i < |facts| && ToCell(q)(facts[i].key) == Some(c)
  {
    GroupKeys(Project(facts, ToCell(q)));
    ProjectHasKey(facts, ToCell(q), c);
  }

  /** Every inserted bucket lies in the cleared interval. */
  lemma InsertedIsCleared(q: Request, facts: seq<Rec<Stamp>>, run: RunId)
    ensures forall j :: 0 <= j < |Inserted(q, facts, run)| ==>
      var l := Inserted(q, facts, run)[j].key;
      && Deleted(q, l) && l.run == Some(run) && l.dimKey == DimensionOf(q.slug) && l.metric == EventCount
      && Trunc(q.window, l.bucket) == l.bucket
      && l.bucket < ToExclusive(q) && From(q) < l.bucket + Unit(q.window)
  {
    forall j | 0 <= j < |Inserted(q, facts, run)|
      ensures
        var l := Inserted(q, facts, run)[j].key;
        && Deleted(q, l) && l.run == Some(run) && l.dimKey == DimensionOf(q.slug) && l.metric == EventCount
        && Trunc(q.window, l.bucket) == l.bucket
        && l.bucket < ToExclusive(q) && From(q) < l.bucket + Unit(q.window)
    {
      var i := ProjectOrigin(Cells(q, facts), ToLabel(q, run), j);
      assert HasKey(Cells(q, facts), Cells(q, facts)[i].key);
      CellPresent(q, facts, Cells(q, facts)[i].key);
      var k :| 0 <= k < |facts| && ToCell(q)(facts[k].key) == Some(Cells(q, facts)[i].key);
      var at := facts[k].key.at;
      TruncIsFloor(q.window, at);
      TruncMonotone(q.window, From(q), at);
      TruncMonotone(q.window, at, ToExclusive(q));
    }
  }

  // ----- rows of one bucket -----

  /** The columns of the UNIQUE constraint. */
  function UniqueKey(l: Label): Label {
    l.(run := None)
  }

  ghost predicate Unique(table: Table) {
    forall i, j :: 0 <= i < j < |table| ==> UniqueKey(table[i].key) != UniqueKey(table[j].key)
  }

  function AtBucket(slug: Slug, w: Window, b: int): Label -> Option<Label> {
    (l: Label) => if l.slug == slug && l.window == w && l.bucket == b then Some(l) else None
  }

  /** The rows of one (report, window, bucket). */
  function RowsAt(table: Table, slug: Slug, w: Window, b: int): Table {
    Project(table, AtBucket(slug, w, b))
  }

  predicate Covers(q: Request, slug: Slug, w: Window, b: int) {
    q.slug == slug && q.window == w && Cleared(q, b)
  }

  /** A rebuild replaces the rows of every bucket it clears and leaves every other bucket as it was. */
  lemma RebuiltAt(table: Table, q: Request, facts: seq<Rec<Stamp>>, run: RunId, slug: Slug, w: Window, b: int)
    ensures RowsAt(Rebuilt(table, q, facts, run), slug, w, b)
            == if Covers(q, slug, w, b) then RowsAt(Inserted(q, facts, run), slug, w, b) else RowsAt(table, slug, w, b)
  {
    var at := AtBucket(slug, w, b);
    var ins := Inserted(q, facts, run);
    ProjectConcat(Kept(table, q), ins, at);
    ProjectThen(table, KeepLabel(q), at);
    if Covers(q, slug, w, b) {
      ProjectNone(table, Then(KeepLabel(q), at));
    } else {
      ProjectSame(table, Then(KeepLabel(q), at), at);
      InsertedIsCleared(q, facts, run);
      ProjectNone(ins, at);
    }
  }

  /** UNIQUE is never violated: the delete interval covers the insert interval. */
  lemma RebuiltUnique(table: Table, q: Request, facts: seq<Rec<Stamp>>, run: RunId)
    requires Unique(table) && Positive(facts)
    ensures Unique(Rebuilt(table, q, facts, run))
  {
    var kept, ins := Kept(table, q), Inserted(q, facts, run);
    KeptUnique(table, q);
    CellsFacts(q, facts);
    InsertedIsCleared(q, facts, run);
    ProjectAll(Cells(q, facts), ToLabel(q, run));
    forall i, j | 0 <= i < |kept| && 0 <= j < |ins| ensures UniqueKey(kept[i].key) != UniqueKey(ins[j].key) {
      var k := ProjectOrigin(table, KeepLabel(q), i);
    }
  }

  /** Every bucket starts at a day or week boundary of its window. */
  ghost predicate Aligned(table: Table) {
    forall i :: 0 <= i < |table| ==> Trunc(table[i].key.window, table[i].key.bucket) == table[i].key.bucket
  }

  /** Rebuilds insert aligned buckets only. */
  lemma RebuiltAligned(table: Table, q: Request, facts: seq<Rec<Stamp>>, run: RunId)
    requires Aligned(table)
    ensures Aligned(Rebuilt(table, q, facts, run))
  {
    var kept := Kept(table, q);
    InsertedIsCleared(q, facts, run);
    forall i | 0 <= i < |kept| ensures Trunc(kept[i].key.window, kept[i].key.bucket) == kept[i].key.bucket {
      var k := ProjectOrigin(table, KeepLabel(q), i);
    }
  }

  lemma {:induction false} KeptUnique(table: Table, q: Request)
    requires Unique(table)
    ensures Unique(Kept(table, q))
  {
    if table != [] {
      var init := table[..|table| - 1];
      KeptUnique(init, q);
      forall j | 0 <= j < |Kept(init, q)| ensures UniqueKey(Kept(init, q)[j].key) != UniqueKey(table[|table| - 1].key) {
        var i := ProjectOrigin(init, KeepLabel(q), j);
      }
    }
  }

  // ----- what the inserted rows count -----

  function InCell(w: Window, c: Cell): Stamp -> bool {
    (s: Stamp) => Cell(Trunc(w, s.at), s.dim) == c
  }

  /** The full raw aggregate of a cell: every event of that bucket and dimension, in or out of range. */
  function RawCount(facts: seq<Rec<Stamp>>, w: Window, c: Cell): nat {
    Total(facts, InCell(w, c))
  }

  function LabelIs(slug: Slug, w: Window, c: Cell): Label -> bool {
    (l: Label) => l.slug == slug && l.window == w && l.bucket == c.bucket && l.dim == c.dim
  }

  /** The value that a table holds for a cell of a report. */
  function ValueAt(table: Table, slug: Slug, w: Window, c: Cell): nat {
    Total(table, LabelIs(slug, w, c))
  }

  function InRangeCell(q: Request, c: Cell): Stamp -> bool {
    (s: Stamp) => InRange(q, s.at) && Cell(Trunc(q.window, s.at), s.dim) == c
  }

  /** After a rebuild, a cleared cell counts exactly its events inside [from, toExclusive). */
  lemma RebuiltValue(table: Table, q: Request, facts: seq<Rec<Stamp>>, run: RunId, c: Cell)
    requires Cleared(q, c.bucket)
    ensures ValueAt(Rebuilt(table, q, facts, run), q.slug, q.window, c) == Total(facts, InRangeCell(q, c))
  {
    var p := LabelIs(q.slug, q.window, c);
    var ins := Inserted(q, facts, run);
    TotalConcat(Kept(table, q), ins, p);
    KeptTotal(table, q, p);
    ProjectTotal(Cells(q, facts), ToLabel(q, run), p);
    GroupKeepsTotals(Project(facts, ToCell(q)), Pull(ToLabel(q, run), p));
    ProjectTotal(facts, ToCell(q), Pull(ToLabel(q, run), p));
    TotalSame(facts, Pull(ToCell(q), Pull(ToLabel(q, run), p)), InRangeCell(q, c));
  }

  /** Rows that a predicate selects only inside the cleared interval are all deleted. */
  lemma KeptTotal(table: Table, q: Request, p: Label -> bool)
    requires forall l :: p(l) ==> Deleted(q, l)
    ensures Total(Kept(table, q), p) == 0
  {
    ProjectTotal(table, KeepLabel(q), p);
    TotalNone(table, Pull(KeepLabel(q), p));
  }

  function Outside(q: Request, c: Cell): Stamp -> bool {
    (s: Stamp) => !InRange(q, s.at) && Cell(Trunc(q.window, s.at), s.dim) == c
  }

  /**
   The exact boundary theorem: after a rebuild, a cleared bucket agrees with the plain
   aggregate of the raw events if and only if no event of that bucket lies outside the
   requested range. The documentation's "only the affected bucket range is rebuilt"
   holds for that range and no more.
   */
  lemma BoundaryExact(table: Table, q: Request, facts: seq<Rec<Stamp>>, run: RunId, b: int)
    requires Cleared(q, b) && Positive(facts)
    ensures (forall dim :: ValueAt(Rebuilt(table, q, facts, run), q.slug, q.window, Cell(b, dim))
                           == RawCount(facts, q.window, Cell(b, dim)))
            <==> (forall i :: 0 <= i < |facts| && Trunc(q.window, facts[i].key.at) == b ==> InRange(q, facts[i].key.at))
  {
    forall dim
      ensures RawCount(facts, q.window, Cell(b, dim))
              == ValueAt(Rebuilt(table, q, facts, run), q.slug, q.window, Cell(b, dim))
                + Total(facts, Outside(q, Cell(b, dim)))
    {
      RebuiltValue(table, q, facts, run, Cell(b, dim));
      TotalSplit(facts, InRangeCell(q, Cell(b, dim)), InCell(q.window, Cell(b, dim)), Outside(q, Cell(b, dim)));
    }
    forall dim
      ensures Total(facts, Outside(q, Cell(b, dim))) > 0
              <==> exists i :: 0 <= i < |facts| && Outside(q, Cell(b, dim))(facts[i].key)
    {
      TotalPositive(facts, Outside(q, Cell(b, dim)));
    }
    if i :| 0 <= i < |facts| && Trunc(q.window, facts[i].key.at) == b && !InRange(q, facts[i].key.at) {
      assert Outside(q, Cell(b, facts[i].key.dim))(facts[i].key);
    }
  }

  /**
   The gap: a day rebuild always clears the day after date_to and never refills it,
   whatever events that day has.
   */
  lemma DayAfterIsEmptied(table: Table, q: Request, facts: seq<Rec<Stamp>>, run: RunId)
    requires q.window == Day && q.dateFrom <= q.dateTo
    ensures RowsAt(Rebuilt(table, q, facts, run), q.slug, Day, Midnight(q.dateTo) + DAY) == []
  {
    var b := Midnight(q.dateTo) + DAY;
    TruncMonotone(Day, q.dateFrom, q.dateTo);
    RebuiltAt(table, q, facts, run, q.slug, Day, b);
    InsertedIsCleared(q, facts, run);
    ProjectNone(Inserted(q, facts, run), AtBucket(q.slug, Day, b));
  }

  /** A table that agreed with the events before a day rebuild, and disagrees after it. */
  lemma DayAfterWitness()
    ensures
      var q := Request(StatusCounts, Day, 0, 0);
      var events := [Event(1, "success", "entity-1", DAY)];
      var facts := Facts(StatusCounts, map[1 := "stripe"], events);
      var before := [Rec(Label(StatusCounts, Day, DAY, Status, "success", EventCount, None), 1)];
      && ValueAt(before, StatusCounts, Day, Cell(DAY, "success")) == RawCount(facts, Day, Cell(DAY, "success"))
      && ValueAt(Rebuilt(before, q, facts, 7), StatusCounts, Day, Cell(DAY, "success"))
         != RawCount(facts, Day, Cell(DAY, "success"))
  {
    var q := Request(StatusCounts, Day, 0, 0);
    var events := [Event(1, "success", "entity-1", DAY)];
    var sources: Sources := map[1 := "stripe"];
    var facts := Facts(StatusCounts, sources, events);
    var before := [Rec(Label(StatusCounts, Day, DAY, Status, "success", EventCount, None), 1)];
    var c := Cell(DAY, "success");
    assert events[..0] == [] && before[..0] == [];
    assert StampOf(StatusCounts, sources, events[0]) == Some(Stamp(DAY, "success"));
    assert Facts(StatusCounts, sources, events[..0]) == [];
    assert facts == [Rec(Stamp(DAY, "success"), 1)];
    TotalOne(facts[0], InCell(Day, c));
    TotalOne(before[0], LabelIs(StatusCounts, Day, c));
    TotalOne(facts[0], InRangeCell(q, c));
    RebuiltValue(before, q, facts, 7, c);
  }

  // ----- accounting -----

  lemma {:induction false} KeptAndDeleted(table: Table, q: Request)
    ensures |Kept(table, q)| + |Project(table, DropLabel(q))| == |table|
  {
    if table != [] {
      KeptAndDeleted(table[..|table| - 1], q);
    }
  }

  /** The table grows by RowsInserted and shrinks by RowsDeleted. */
  lemma RowAccounting(table: Table, q: Request, facts: seq<Rec<Stamp>>, run: RunId)
    ensures
      var s := SummaryOf(table, q, facts, run);
      |Rebuilt(table, q, facts, run)| + s.rowsDeleted == |table| + s.rowsInserted
  {
    KeptAndDeleted(table, q);
  }

  function AtInRange(q: Request): Stamp -> bool {
    (s: Stamp) => InRange(q, s.at)
  }

  /** The inserted values sum to the number of facts in range. */
  lemma InsertedTotal(q: Request, facts: seq<Rec<Stamp>>, run: RunId)
    ensures Total(Inserted(q, facts, run), Any()) == Total(facts, AtInRange(q))
  {
    var p := Any<Label>();
    ProjectTotal(Cells(q, facts), ToLabel(q, run), p);
    GroupKeepsTotals(Project(facts, ToCell(q)), Pull(ToLabel(q, run), p));
    ProjectTotal(facts, ToCell(q), Pull(ToLabel(q, run), p));
    TotalSame(facts, Pull(ToCell(q), Pull(ToLabel(q, run), p)), AtInRange(q));
  }

  /** The number of events in the requested range. */
  function EventsInRange(q: Request, events: seq<Event>): nat {
    if events == [] then 0
    else EventsInRange(q, events[..|events| - 1]) + if InRange(q, events[|events| - 1].occurredAt) then 1 else 0
  }

  lemma {:induction false} FactsInRange(q: Request, slug: Slug, sources: Sources, events: seq<Event>)
    requires Supported(slug)
    requires forall i :: 0 <= i < |events| ==> events[i].sourceId in sources
    ensures Total(Facts(slug, sources, events), AtInRange(q)) == EventsInRange(q, events)
  {
    if events != [] {
      var init, last := events[..|events| - 1], events[|events| - 1];
      FactsInRange(q, slug, sources, init);
      var stamp := StampOf(slug, sources, last);
      TotalConcat(Facts(slug, sources, init), [Rec(stamp.value, 1)], AtInRange(q));
      TotalOne(Rec(stamp.value, 1), AtInRange(q));
    }
  }

  /** All three reports insert the same total: the number of events in range. */
  lemma CrossReportTotals(q: Request, sources: Sources, events: seq<Event>, run: RunId)
    requires Supported(q.slug)
    requires forall i :: 0 <= i < |events| ==> events[i].sourceId in sources
    ensures Total(Inserted(q, Facts(q.slug, sources, events), run), Any()) == EventsInRange(q, events)
  {
    InsertedTotal(q, Facts(q.slug, sources, events), run);
    FactsInRange(q, q.slug, sources, events);
  }

  function Anonymous(): Label -> Option<Label> {
    (l: Label) => Some(UniqueKey(l))
  }

  /** The rows of a table without their run ids, in order. */
  function WithoutRuns(table: Table): Table {
    Project(table, Anonymous())
  }

  lemma RebuiltWithoutRuns(table: Table, q: Request, facts: seq<Rec<Stamp>>, run1: RunId, run2: RunId)
    ensures WithoutRuns(Rebuilt(table, q, facts, run1)) == WithoutRuns(Rebuilt(table, q, facts, run2))
  {
    ProjectConcat(Kept(table, q), Inserted(q, facts, run1), Anonymous());
    ProjectConcat(Kept(table, q), Inserted(q, facts, run2), Anonymous());
    ProjectThen(Cells(q, facts), ToLabel(q, run1), Anonymous());
    ProjectThen(Cells(q, facts), ToLabel(q, run2), Anonymous());
    ProjectSame(Cells(q, facts), Then(ToLabel(q, run1), Anonymous()), Then(ToLabel(q, run2), Anonymous()));
  }

  /** A second identical rebuild deletes what the first inserted and gives the same rows up to run_id. */
  lemma RebuildIdempotent(table: Table, q: Request, facts: seq<Rec<Stamp>>, run1: RunId, run2: RunId)
    ensures
      var first := Rebuilt(table, q, facts, run1);
      && Rebuilt(first, q, facts, run2) == Rebuilt(table, q, facts, run2)
      && WithoutRuns(Rebuilt(first, q, facts, run2)) == WithoutRuns(first)
      && SummaryOf(first, q, facts, run2).rowsDeleted == SummaryOf(table, q, facts, run1).rowsInserted
  {
    RebuiltWithoutRuns(table, q, facts, run1, run2);
    KeptTwice(table, q, q);
    RebuiltKept(table, q, facts, run1, q);
    InsertedIsCleared(q, facts, run1);
    ProjectNone(Inserted(q, facts, run1), KeepLabel(q));
    RebuiltDeleted(table, q, facts, run1);
  }

  /** The rows that a second delete leaves of a rebuilt table. */
  lemma RebuiltKept(table: Table, q: Request, facts: seq<Rec<Stamp>>, run: RunId, q': Request)
    ensures Kept(Rebuilt(table, q, facts, run), q') == Kept(Kept(table, q), q') + Kept(Inserted(q, facts, run), q')
  {
    ProjectConcat(Kept(table, q), Inserted(q, facts, run), KeepLabel(q'));
  }

  lemma KeptTwice(table: Table, q: Request, q': Request)
    ensures Kept(Kept(table, q), q') == Kept(Kept(table, q'), q)
    ensures Kept(Kept(table, q), q) == Kept(table, q)
  {
    ProjectThen(table, KeepLabel(q), KeepLabel(q'));
    ProjectThen(table, KeepLabel(q'), KeepLabel(q));
    ProjectSame(table, Then(KeepLabel(q), KeepLabel(q')), Then(KeepLabel(q'), KeepLabel(q)));
    ProjectThen(table, KeepLabel(q), KeepLabel(q));
    ProjectSame(table, Then(KeepLabel(q), KeepLabel(q)), KeepLabel(q));
  }

  /** A second delete over a rebuilt table removes exactly the inserted rows. */
  lemma RebuiltDeleted(table: Table, q: Request, facts: seq<Rec<Stamp>>, run: RunId)
    ensures Project(Rebuilt(table, q, facts, run), DropLabel(q)) == Inserted(q, facts, run)
  {
    var kept, ins := Kept(table, q), Inserted(q, facts, run);
    ProjectConcat(kept, ins, DropLabel(q));
    ProjectThen(table, KeepLabel(q), DropLabel(q));
    ProjectNone(table, Then(KeepLabel(q), DropLabel(q)));
    InsertedIsCleared(q, facts, run);
    ProjectId(ins, DropLabel(q));
  }

  /** Rebuilds of other reports or windows, or with disjoint cleared intervals, commute. */
  lemma RebuildsCommute(table: Table, q: Request, facts: seq<Rec<Stamp>>, run: RunId,
                        q': Request, facts': seq<Rec<Stamp>>, run': RunId)
    requires q.slug != q'.slug || q.window != q'.window || (forall b :: !(Cleared(q, b) && Cleared(q', b)))
    ensures multiset(Rebuilt(Rebuilt(table, q, facts, run), q', facts', run'))
            == multiset(Rebuilt(Rebuilt(table, q', facts', run'), q, facts, run))
  {
    KeptTwice(table, q, q');
    RebuiltKept(table, q, facts, run, q');
    RebuiltKept(table, q', facts', run', q);
    InsertedSurvives(q, facts, run, q');
    InsertedSurvives(q', facts', run', q);
  }

  lemma InsertedSurvives(q: Request, facts: seq<Rec<Stamp>>, run: RunId, q': Request)
    requires q.slug != q'.slug || q.window != q'.window || (forall b :: !(Cleared(q, b) && Cleared(q', b)))
    ensures Kept(Inserted(q, facts, run), q') == Inserted(q, facts, run)
  {
    InsertedIsCleared(q, facts, run);
    ProjectId(Inserted(q, facts, run), KeepLabel(q'));
  }

  // ----- granularity -----

  function InWeek(week: int, dim: string): Cell -> bool {
    (c: Cell) => Trunc(Week, c.bucket) == week && c.dim == dim
  }

  /** Each inserted week row is the sum of the inserted day rows of that week and dimension. */
  lemma WeekIsSumOfDays(q: Request, facts: seq<Rec<Stamp>>, week: int, dim: string)
    ensures Total(Cells(q.(window := Week), facts), Is(Cell(week, dim)))
            == Total(Cells(q.(window := Day), facts), InWeek(week, dim))
  {
    var qw, qd := q.(window := Week), q.(window := Day);
    GroupKeepsTotals(Project(facts, ToCell(qw)), Is(Cell(week, dim)));
    GroupKeepsTotals(Project(facts, ToCell(qd)), InWeek(week, dim));
    ProjectTotal(facts, ToCell(qw), Is(Cell(week, dim)));
    ProjectTotal(facts, ToCell(qd), InWeek(week, dim));
    forall i | 0 <= i < |facts|
      ensures Pull(ToCell(qw), Is(Cell(week, dim)))(facts[i].key) == Pull(ToCell(qd), InWeek(week, dim))(facts[i].key)
    {
      WeekAbsorbsDay(facts[i].key.at);
    }
    TotalSame(facts, Pull(ToCell(qw), Is(Cell(week, dim))), Pull(ToCell(qd), InWeek(week, dim)));
  }

  // ----- bucket counts -----

  function StampBucket(q: Request): Stamp -> Option<int> {
    (s: Stamp) => if InRange(q, s.at) then Some(Trunc(q.window, s.at)) else None
  }

  /** BucketCount is the number of distinct truncated event times in the range. */
  lemma BucketCountIsDistinctTimes(table: Table, q: Request, facts: seq<Rec<Stamp>>, run: RunId)
    ensures BucketCount(Rebuilt(table, q, facts, run), q) == |Group(Project(facts, StampBucket(q)))|
  {
    var rebuilt, ins := Rebuilt(table, q, facts, run), Inserted(q, facts, run);
    var a, b := Project(rebuilt, ToBucket(q)), Project(facts, StampBucket(q));
    ProjectConcat(Kept(table, q), ins, ToBucket(q));
    ProjectThen(table, KeepLabel(q), ToBucket(q));
    ProjectNone(table, Then(KeepLabel(q), ToBucket(q)));
    assert a == Project(ins, ToBucket(q));
    forall t ensures HasKey(a, t) <==> HasKey(b, t) {
      InsertedBucket(q, facts, run, t);
      ProjectHasKey(facts, StampBucket(q), t);
    }
    GroupKeys(a);
    GroupKeys(b);
    SameKeysSameSize(Group(a), Group(b));
  }

  lemma InsertedBucket(q: Request, facts: seq<Rec<Stamp>>, run: RunId, t: int)
    ensures HasKey(Project(Inserted(q, facts, run), ToBucket(q)), t)
            <==> exists i :: 0 <= i < |facts| && StampBucket(q)(facts[i].key) == Some(t)
  {
    var ins, cells := Inserted(q, facts, run), Cells(q, facts);
    InsertedIsCleared(q, facts, run);
    ProjectHasKey(ins, ToBucket(q), t);
    ProjectAll(cells, ToLabel(q, run));
    if j :| 0 <= j < |ins| && ToBucket(q)(ins[j].key) == Some(t) {
      assert HasKey(cells, cells[j].key);
      CellPresent(q, facts, cells[j].key);
      var i :| 0 <= i < |facts| && ToCell(q)(facts[i].key) == Some(cells[j].key);
      assert StampBucket(q)(facts[i].key) == Some(t);
    }
    if i :| 0 <= i < |facts| && StampBucket(q)(facts[i].key) == Some(t) {
      var c := Cell(t, facts[i].key.dim);
      assert ToCell(q)(facts[i].key) == Some(c);
      CellPresent(q, facts, c);
      var j :| 0 <= j < |cells| && cells[j].key == c;
      assert ToBucket(q)(ins[j].key) == Some(t);
    }
  }

  function KeySet<K>(rs: seq<Rec<K>>): set<K> {
    set i | 0 <= i < |rs| :: rs[i].key
  }

  lemma {:induction false} KeySetSize<K>(rs: seq<Rec<K>>)
    requires Distinct(rs)
    ensures |KeySet(rs)| == |rs|
  {
    if rs != [] {
      var init, last := rs[..|rs| - 1], rs[|rs| - 1];
      KeySetSize(init);
      KeySetGrows(init, last);
      assert rs == init + [last];
      assert last.key !in KeySet(init);
    }
  }

  lemma KeySetGrows<K>(init: seq<Rec<K>>, last: Rec<K>)
    ensures KeySet(init + [last]) == KeySet(init) + {last.key}
  {
    var rs := init + [last];
    forall k ensures k in KeySet(rs) <==> k in KeySet(init) || k == last.key {
      if k in KeySet(init) {
        var i :| 0 <= i < |init| && init[i].key == k;
        assert rs[i].key == k;
      }
      assert rs[|init|].key == last.key;
    }
  }

  lemma SameKeysSameSize<K>(a: seq<Rec<K>>, b: seq<Rec<K>>)
    requires Distinct(a) && Distinct(b)
    requires forall k :: HasKey(a, k) <==> HasKey(b, k)
    ensures |a| == |b|
  {
    KeySetSize(a);
    KeySetSize(b);
    assert KeySet(a) == KeySet(b) by {
      forall k ensures k in KeySet(a) <==> k in KeySet(b) {
        assert k in KeySet(a) <==> HasKey(a, k);
        assert k in KeySet(b) <==> HasKey(b, k);
      }
    }
  }

  /** The number of calendar days of a request, as Trigger computes it from midnight dates. */
  function RangeDays(q: Request): int {
    (Midnight(q.dateTo) - Midnight(q.dateFrom)) / DAY + 1
  }

  /** An n-day rebuild yields at most n day buckets and at most floor((n + 12) / 7) week buckets. */
  lemma BucketCountBound(table: Table, q: Request, facts: seq<Rec<Stamp>>, run: RunId)
    requires q.dateFrom <= q.dateTo
    ensures BucketCount(Rebuilt(table, q, facts, run), q)
            <= if q.window == Day then RangeDays(q) else (RangeDays(q) + 12) / 7
  {
    BucketCountIsDistinctTimes(table, q, facts, run);
    TruncMonotone(Day, q.dateFrom, q.dateTo);
    BucketsInSlots(q, facts);
    SlotSpan(q, Trunc(q.window, From(q)) / Unit(q.window), Trunc(q.window, ToExclusive(q) - 1) / Unit(q.window));
  }

  lemma BucketsInSlots(q: Request, facts: seq<Rec<Stamp>>)
    requires From(q) < ToExclusive(q)
    ensures
      var u := Unit(q.window);
      |Group(Project(facts, StampBucket(q)))|
      <= Trunc(q.window, ToExclusive(q) - 1) / u - Trunc(q.window, From(q)) / u + 1
  {
    var b, u := Project(facts, StampBucket(q)), Unit(q.window);
    var lo, hi := Trunc(q.window, From(q)), Trunc(q.window, ToExclusive(q) - 1);
    TruncMonotone(q.window, From(q), ToExclusive(q) - 1);
    SlotMonotone(q.window, lo, hi);
    var n := hi / u - lo / u + 1;
    forall t | t in KeySet(Group(b)) ensures t in Slots(lo, n, u) {
      GroupKeys(b);
      assert HasKey(Group(b), t);
      BucketInSlots(q, facts, t);
    }
    GroupKeys(b);
    KeySetSize(Group(b));
    SlotsSize(lo, n, u);
    SubsetSize(KeySet(Group(b)), Slots(lo, n, u));
  }

  lemma BucketInSlots(q: Request, facts: seq<Rec<Stamp>>, t: int)
    requires HasKey(Project(facts, StampBucket(q)), t)
    ensures
      var u, lo := Unit(q.window), Trunc(q.window, From(q));
      var hi := Trunc(q.window, ToExclusive(q) - 1);
      lo / u <= hi / u && t in Slots(lo, hi / u - lo / u + 1, u)
  {
    var u, lo := Unit(q.window), Trunc(q.window, From(q));
    var hi := Trunc(q.window, ToExclusive(q) - 1);
    ProjectHasKey(facts, StampBucket(q), t);
    var i :| 0 <= i < |facts| && StampBucket(q)(facts[i].key) == Some(t);
    BucketBounds(q, facts[i].key.at);
    SlotMonotone(q.window, lo, t);
    SlotMonotone(q.window, t, hi);
    Multiple(lo, t, u);
    InSlots(lo, hi / u - lo / u + 1, u, t / u - lo / u);
  }

  lemma BucketBounds(q: Request, at: int)
    requires InRange(q, at)
    ensures
      var t, lo := Trunc(q.window, at), Trunc(q.window, From(q));
      lo <= t <= Trunc(q.window, ToExclusive(q) - 1) && t % Unit(q.window) == 0 && lo % Unit(q.window) == 0
  {
    TruncIsFloor(q.window, at);
    TruncIsFloor(q.window, From(q));
    TruncMonotone(q.window, From(q), at);
    TruncMonotone(q.window, at, ToExclusive(q) - 1);
  }

  lemma Multiple(lo: int, t: int, u: int)
    requires u > 0 && lo % u == 0 && t % u == 0
    ensures t == lo + (t / u - lo / u) * u
  {
    assert t == u * (t / u) && lo == u * (lo / u);
  }

  /** The first n aligned instants from lo on. */
  function Slots(lo: int, n: nat, u: int): set<int> {
    if n == 0 then {} else Slots(lo, n - 1, u) + {lo + (n - 1) * u}
  }

  lemma {:induction false} InSlots(lo: int, n: nat, u: int, k: nat)
    requires k < n
    ensures lo + k * u in Slots(lo, n, u)
  {
    if k < n - 1 {
      InSlots(lo, n - 1, u, k);
    }
  }

  lemma {:induction false} SlotsSize(lo: int, n: nat, u: int)
    ensures |Slots(lo, n, u)| <= n
  {
    if n > 0 {
      SlotsSize(lo, n - 1, u);
    }
  }

  lemma SlotMonotone(w: Window, s: int, t: int)
    requires s <= t
    ensures s / Unit(w) <= t / Unit(w)
  {
    QuotientMonotone(Unit(w), s, t);
  }

  /** The number of day or week slots that an n-day range touches. */
  lemma SlotSpan(q: Request, lo: int, hi: int)
    requires q.dateFrom <= q.dateTo
    requires lo == Trunc(q.window, From(q)) / Unit(q.window)
    requires hi == Trunc(q.window, ToExclusive(q) - 1) / Unit(q.window)
    ensures hi - lo + 1 <= if q.window == Day then RangeDays(q) else (RangeDays(q) + 12) / 7
  {
    var f, t := q.dateFrom / DAY, q.dateTo / DAY;
    DayNumber(q.dateFrom);
    DayNumber(q.dateTo);
    DayDifference(f, t);
    if q.window == Day {
      DaySlot(f, 0);
      DaySlot(t, DAY - 1);
    } else {
      WeekSlot(f, 0);
      WeekSlot(t, DAY - 1);
    }
  }

  lemma DayNumber(t: int)
    ensures Midnight(t) == DAY * (t / DAY)
  {}

  lemma DayDifference(f: int, t: int)
    ensures (DAY * t - DAY * f) / DAY == t - f
  {}

  lemma DaySlot(d: int, offset: int)
    requires 0 <= offset < DAY
    ensures Trunc(Day, DAY * d + offset) / DAY == d
  {}

  /** The week slot of an instant is the week of its day number. */
  lemma WeekSlot(d: int, offset: int)
    requires 0 <= offset < DAY
    ensures Trunc(Week, DAY * d + offset) / WEEK == d / 7
  {
    var w, r := d / 7, d % 7;
    assert DAY * d + offset == WEEK * w + (DAY * r + offset);
    assert 0 <= DAY * r + offset < WEEK;
  }

  lemma {:induction false} SubsetSize<T>(a: set<T>, b: set<T>)
    requires a <= b
    ensures |a| <= |b|
  {
    if a != {} {
      var x :| x in a;
      SubsetSize(a - {x}, b - {x});
    }
  }
}
