/**
 What a rebuild does, on the columns of the events and the rows: which rows go, which rows
 come, and what each of them counts. Nothing here goes through the facts, cells and labels
 of the statements.
 */
module RebuildMeaning {
  import opened Common
  import opened Time
  import opened Aggregate
  import opened Snapshots

  // ----- the columns -----

  /** The dimension that a report counts: source slug, status or entity. */
  predicate HasDimension(slug: Slug, sources: Sources, e: Event, dim: string) {
    match slug
    case VolumeByPeriod => e.sourceId in sources && sources[e.sourceId] == dim
    case StatusCounts => e.status == dim
    case TopEntities => e.entityId == dim
    case Unsupported(_) => false
  }

  predicate DimensionColumn(slug: Slug, key: Dimension) {
    match slug
    case VolumeByPeriod => key == Source
    case StatusCounts => key == Status
    case TopEntities => key == EntityId
    case Unsupported(_) => false
  }

  function Length(w: Window): (u: int)
    ensures u > 0
  {
    if w == Day then 24 * 3_600_000_000 else 7 * 24 * 3_600_000_000
  }

  /** The day or week that starts at b holds t. */
  predicate Holds(w: Window, b: int, t: int) {
    b % Length(w) == 0 && b <= t < b + Length(w)
  }

  /** The calendar day of the event is one of the request. */
  predicate OnDays(q: Request, t: int) {
    q.dateFrom / DAY <= t / DAY <= q.dateTo / DAY
  }

  predicate Counts(q: Request, sources: Sources, e: Event, b: int, dim: string) {
    OnDays(q, e.occurredAt) && Holds(q.window, b, e.occurredAt) && HasDimension(q.slug, sources, e, dim)
  }

  /** The positions of the events that a cell counts. */
  function Counted(q: Request, sources: Sources, events: seq<Event>, b: int, dim: string): set<int> {
    set i | 0 <= i < |events| && Counts(q, sources, events[i], b, dim)
  }

  /** A row that goes: its day or week is one from that of date_from to that of the day after date_to. */
  predicate Overwritten(q: Request, l: Label) {
    && l.slug == q.slug && l.window == q.window
    && (var u := Length(q.window);
        (q.dateFrom / DAY) * DAY / u <= l.bucket / u <= (q.dateTo / DAY + 1) * DAY / u)
  }

  /** A row that comes: one for each cell that counts an event. */
  predicate IsCount(q: Request, sources: Sources, events: seq<Event>, run: RunId, r: Rec<Label>) {
    && r.key.slug == q.slug && r.key.window == q.window && DimensionColumn(q.slug, r.key.dimKey)
    && r.key.metric == EventCount && r.key.run == Some(run)
    && r.value == |Counted(q, sources, events, r.key.bucket, r.key.dim)| && r.value > 0
  }

  // ----- the statements in these terms -----

  lemma LengthIsUnit(w: Window)
    ensures Length(w) == Unit(w)
  {}

  lemma TruncHolds(w: Window, b: int, t: int)
    ensures Trunc(w, t) == b <==> Holds(w, b, t)
  {
    LengthIsUnit(w);
    TruncIsFloor(w, t);
    if b % Length(w) == 0 {
      AlignedIsFixed(w, b);
      BucketOf(w, b, t);
    }
  }

  lemma AlignedIsFixed(w: Window, b: int)
    requires b % Length(w) == 0
    ensures Trunc(w, b) == b
  {}

  lemma DayFloor(t: int)
    ensures Midnight(t) == (t / DAY) * DAY
  {
    assert t == DAY * (t / DAY) + t % DAY;
  }

  lemma RangeIsDays(q: Request, t: int)
    ensures InRange(q, t) <==> OnDays(q, t)
  {
    DayFloor(q.dateFrom);
    DayFloor(q.dateTo);
    DayFloor(t);
  }

  /** An interval between two truncated instants, by the numbers of the days or weeks. */
  lemma TruncInterval(w: Window, lo: int, b: int, hi: int)
    ensures Trunc(w, lo) <= b < Trunc(w, hi) + Unit(w) <==> lo / Length(w) <= b / Length(w) <= hi / Length(w)
  {
    match w
    case Day => SlotInterval(DAY, lo, b, hi);
    case Week => SlotInterval(WEEK, lo, b, hi);
  }

  lemma SlotInterval(u: int, lo: int, b: int, hi: int)
    requires u == DAY || u == WEEK
    ensures lo - lo % u <= b < hi - hi % u + u <==> lo / u <= b / u <= hi / u
  {
    assert lo == u * (lo / u) + lo % u && b == u * (b / u) + b % u && hi == u * (hi / u) + hi % u;
  }

  lemma DeletedIsOverwritten(q: Request, l: Label)
    ensures Deleted(q, l) <==> Overwritten(q, l)
  {
    DayFloor(q.dateFrom);
    DayFloor(q.dateTo);
    TruncInterval(q.window, From(q), l.bucket, ToExclusive(q));
  }

  // ----- facts are events -----

  /** The positions of the elements that pass. */
  function Positions<T>(s: seq<T>, p: T -> bool): set<int> {
    set i | 0 <= i < |s| && p(s[i])
  }

  lemma PositionsNext<T>(init: seq<T>, last: T, p: T -> bool)
    ensures |Positions(init + [last], p)| == |Positions(init, p)| + if p(last) then 1 else 0
  {
    var s := init + [last];
    assert forall i :: 0 <= i < |init| ==> s[i] == init[i];
    assert Positions(s, p) == Positions(init, p) + if p(last) then {|init|} else {};
  }

  predicate Passes(s: Option<Stamp>, p: Stamp -> bool) {
    s.Some? && p(s.value)
  }

  function Stamped(slug: Slug, sources: Sources, p: Stamp -> bool): Event -> bool {
    (e: Event) => Passes(StampOf(slug, sources, e), p)
  }

  lemma {:induction false} FactsAreEvents(slug: Slug, sources: Sources, events: seq<Event>, p: Stamp -> bool)
    ensures Total(Facts(slug, sources, events), p) == |Positions(events, Stamped(slug, sources, p))|
  {
    if events != [] {
      var init, last := events[..|events| - 1], StampOf(slug, sources, events[|events| - 1]);
      FactsAreEvents(slug, sources, init, p);
      assert events == init + [events[|events| - 1]];
      PositionsNext(init, events[|events| - 1], Stamped(slug, sources, p));
      if last.Some? {
        TotalConcat(Facts(slug, sources, init), [Rec(last.value, 1)], p);
        TotalOne(Rec(last.value, 1), p);
      } else {
        assert Facts(slug, sources, events) == Facts(slug, sources, init);
      }
    }
  }

  lemma StampCounts(q: Request, sources: Sources, e: Event, b: int, dim: string)
    ensures Passes(StampOf(q.slug, sources, e), Pull(ToCell(q), Is(Cell(b, dim)))) <==> Counts(q, sources, e, b, dim)
  {
    RangeIsDays(q, e.occurredAt);
    TruncHolds(q.window, b, e.occurredAt);
  }

  /** The value of a cell before grouping. */
  lemma CellCount(q: Request, sources: Sources, events: seq<Event>, b: int, dim: string)
    ensures Total(Project(Facts(q.slug, sources, events), ToCell(q)), Is(Cell(b, dim)))
            == |Counted(q, sources, events, b, dim)|
  {
    var facts, p := Facts(q.slug, sources, events), Pull(ToCell(q), Is(Cell(b, dim)));
    ProjectTotal(facts, ToCell(q), Is(Cell(b, dim)));
    FactsAreEvents(q.slug, sources, events, p);
    forall i | 0 <= i < |events|
      ensures Stamped(q.slug, sources, p)(events[i]) <==> Counts(q, sources, events[i], b, dim)
    {
      StampCounts(q, sources, events[i], b, dim);
    }
    assert Positions(events, Stamped(q.slug, sources, p)) == Counted(q, sources, events, b, dim);
  }

  lemma CellRow(q: Request, sources: Sources, events: seq<Event>, c: Rec<Cell>)
    ensures c in Cells(q, Facts(q.slug, sources, events))
            <==> c.value == |Counted(q, sources, events, c.key.bucket, c.key.dim)| && c.value > 0
  {
    var cells := Project(Facts(q.slug, sources, events), ToCell(q));
    CellCount(q, sources, events, c.key.bucket, c.key.dim);
    assert c.key == Cell(c.key.bucket, c.key.dim);
    GroupRow(cells, c);
    ProjectPositive(Facts(q.slug, sources, events), ToCell(q));
    TotalPositive(cells, Is(c.key));
  }

  // ----- the rows -----

  lemma KeptRow(table: Table, q: Request, r: Rec<Label>)
    ensures r in Kept(table, q) <==> r in table && !Overwritten(q, r.key)
  {
    DeletedIsOverwritten(q, r.key);
    if r in Kept(table, q) {
      var j :| 0 <= j < |Kept(table, q)| && Kept(table, q)[j] == r;
      var i := ProjectOrigin(table, KeepLabel(q), j);
      assert table[i] == r;
    }
    if r in table && !Deleted(q, r.key) {
      var i :| 0 <= i < |table| && table[i] == r;
      var j := ProjectImage(table, KeepLabel(q), i);
      assert Kept(table, q)[j] == r;
    }
  }

  lemma InsertedRow(q: Request, sources: Sources, events: seq<Event>, run: RunId, r: Rec<Label>)
    requires Supported(q.slug)
    ensures r in Inserted(q, Facts(q.slug, sources, events), run) <==> IsCount(q, sources, events, run, r)
  {
    var cells, ins := Cells(q, Facts(q.slug, sources, events)), Inserted(q, Facts(q.slug, sources, events), run);
    var c := Rec(Cell(r.key.bucket, r.key.dim), r.value);
    CellRow(q, sources, events, c);
    if r in ins {
      var j :| 0 <= j < |ins| && ins[j] == r;
      var i := ProjectOrigin(cells, ToLabel(q, run), j);
      assert cells[i] == c;
    }
    if IsCount(q, sources, events, run, r) {
      var i :| 0 <= i < |cells| && cells[i] == c;
      var j := ProjectImage(cells, ToLabel(q, run), i);
      assert ins[j] == r;
    }
  }

  /**
   The rows after a rebuild: the old ones that are not overwritten, and one for each day or
   week and each dimension value with events of the requested days, which holds their number.
   */
  lemma RebuiltRows(table: Table, q: Request, sources: Sources, events: seq<Event>, run: RunId, r: Rec<Label>)
    requires Supported(q.slug)
    ensures r in Rebuilt(table, q, Facts(q.slug, sources, events), run)
            <==> (r in table && !Overwritten(q, r.key)) || IsCount(q, sources, events, run, r)
  {
    KeptRow(table, q, r);
    InsertedRow(q, sources, events, run, r);
  }

  // ----- the summary -----

  /** The cells that count an event. */
  ghost predicate Filled(q: Request, sources: Sources, events: seq<Event>, c: Cell) {
    Counted(q, sources, events, c.bucket, c.dim) != {}
  }

  /** RowsDeleted counts the overwritten rows. */
  lemma {:induction false} DeletedCount(table: Table, q: Request)
    ensures |Project(table, DropLabel(q))| == |Positions(table, Goes(q))|
  {
    if table != [] {
      var init, last := table[..|table| - 1], table[|table| - 1];
      DeletedCount(init, q);
      DeletedIsOverwritten(q, last.key);
      assert table == init + [last];
      PositionsNext(init, last, Goes(q));
    }
  }

  function Goes(q: Request): Rec<Label> -> bool {
    (r: Rec<Label>) => Overwritten(q, r.key)
  }

  /** RowsInserted counts the filled cells: any list of them without repetition is as long. */
  lemma InsertedCount(q: Request, sources: Sources, events: seq<Event>, run: RunId, cells: set<Cell>)
    requires forall c :: c in cells <==> Filled(q, sources, events, c)
    ensures |Inserted(q, Facts(q.slug, sources, events), run)| == |cells|
  {
    var facts := Facts(q.slug, sources, events);
    var rows := Cells(q, facts);
    ProjectAll(rows, ToLabel(q, run));
    CellsFacts(q, facts);
    KeySetSize(rows);
    forall c ensures c in KeySet(rows) <==> c in cells {
      CellRow(q, sources, events, Rec(c, |Counted(q, sources, events, c.bucket, c.dim)|));
      if c in KeySet(rows) {
        var i :| 0 <= i < |rows| && rows[i].key == c;
        CellRow(q, sources, events, rows[i]);
      }
    }
    assert KeySet(rows) == cells;
  }

  /** BucketCount counts the days or weeks with filled cells. */
  lemma BucketsCounted(table: Table, q: Request, sources: Sources, events: seq<Event>, run: RunId, buckets: set<int>)
    requires forall b :: b in buckets <==> exists dim :: Filled(q, sources, events, Cell(b, dim))
    ensures BucketCount(Rebuilt(table, q, Facts(q.slug, sources, events), run), q) == |buckets|
  {
    var facts := Facts(q.slug, sources, events);
    var times := Group(Project(facts, StampBucket(q)));
    BucketCountIsDistinctTimes(table, q, facts, run);
    GroupKeys(Project(facts, StampBucket(q)));
    KeySetSize(times);
    forall b ensures b in KeySet(times) <==> b in buckets {
      BucketTimes(q, sources, events, b);
      assert b in KeySet(times) <==> HasKey(times, b);
    }
    assert KeySet(times) == buckets;
  }

  lemma BucketTimes(q: Request, sources: Sources, events: seq<Event>, b: int)
    ensures HasKey(Project(Facts(q.slug, sources, events), StampBucket(q)), b)
            <==> exists dim :: Filled(q, sources, events, Cell(b, dim))
  {
    var facts := Facts(q.slug, sources, events);
    ProjectHasKey(facts, StampBucket(q), b);
    if j :| 0 <= j < |facts| && StampBucket(q)(facts[j].key) == Some(b) {
      FilledByFact(q, sources, events, Cell(b, facts[j].key.dim), j);
    }
    if dim :| Filled(q, sources, events, Cell(b, dim)) {
      var c := Cell(b, dim);
      CellRow(q, sources, events, Rec(c, |Counted(q, sources, events, b, dim)|));
      var i :| 0 <= i < |Cells(q, facts)| && Cells(q, facts)[i] == Rec(c, |Counted(q, sources, events, b, dim)|);
      assert HasKey(Cells(q, facts), c);
      CellPresent(q, facts, c);
      var j :| 0 <= j < |facts| && ToCell(q)(facts[j].key) == Some(c);
      assert StampBucket(q)(facts[j].key) == Some(b);
    }
  }

  lemma FilledByFact(q: Request, sources: Sources, events: seq<Event>, c: Cell, j: nat)
    requires j < |Facts(q.slug, sources, events)|
    requires ToCell(q)(Facts(q.slug, sources, events)[j].key) == Some(c)
    ensures Filled(q, sources, events, c)
  {
    var facts := Facts(q.slug, sources, events);
    CellPresent(q, facts, c);
    var i :| 0 <= i < |Cells(q, facts)| && Cells(q, facts)[i].key == c;
    CellRow(q, sources, events, Cells(q, facts)[i]);
  }

  /** The counts that a rebuild returns. */
  lemma SummaryCounts(table: Table, q: Request, sources: Sources, events: seq<Event>, run: RunId, cells: set<Cell>,
                      buckets: set<int>)
    requires forall c :: c in cells <==> Filled(q, sources, events, c)
    requires forall b :: b in buckets <==> exists dim :: Filled(q, sources, events, Cell(b, dim))
    ensures
      var summary := SummaryOf(table, q, Facts(q.slug, sources, events), run);
      && summary.rowsDeleted == |Positions(table, Goes(q))|
      && summary.rowsInserted == |cells| && summary.bucketCount == |buckets|
  {
    DeletedCount(table, q);
    InsertedCount(q, sources, events, run, cells);
    BucketsCounted(table, q, sources, events, run, buckets);
  }
}
