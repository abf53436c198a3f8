/**
 Reads after whole histories: when every bucket of a read was last rebuilt as a whole, and
 none of its events arrived after that rebuild, the read is the naive report of the raw
 events, whatever other rebuilds and arrivals there were in between.
 */
module HistoryReads {
  import opened Common
  import opened Time
  import opened Aggregate
  import opened Snapshots
  import opened Ordering
  import opened Reports
  import opened History
  import opened RebuildMeaning
  import QueryMeaning

  /** No event of the bucket arrives after change i. */
  predicate QuietSince(changes: seq<Change>, i: nat, w: Window, b: int) {
    forall j :: i < j < |changes| && changes[j].Arrive? ==> Trunc(w, changes[j].event.occurredAt) != b
  }

  /** The last rebuild of the bucket held the whole bucket, and nothing of it arrived later. */
  predicate Current(changes: seq<Change>, slug: Slug, w: Window, b: int) {
    var cover := LastCover(changes, slug, w, b);
    && cover.Some? && QuietSince(changes, cover.value, w, b)
    && From(changes[cover.value].q) <= b && b + Unit(w) <= ToExclusive(changes[cover.value].q)
  }

  /** So for every bucket of the read. */
  ghost predicate ReadCurrent(changes: seq<Change>, slug: Slug, p: RunParams) {
    forall b :: InRead(p, b) && Trunc(p.window, b) == b ==> Current(changes, slug, p.window, b)
  }

  function FactsOf(db: Database, slug: Slug): seq<Rec<Stamp>> {
    Facts(slug, db.sources, db.events)
  }

  // ----- the events of a bucket -----

  /** The events of a quiet bucket are still those that its last rebuild saw. */
  lemma {:induction false} QuietFacts(db: Database, changes: seq<Change>, i: nat, slug: Slug, w: Window, c: Cell)
    requires i <= |changes| && (i < |changes| ==> changes[i].Recompute?) && QuietSince(changes, i, w, c.bucket)
    ensures RawCount(FactsOf(Replay(db, changes), slug), w, c)
            == RawCount(FactsOf(Replay(db, changes[..i]), slug), w, c)
  {
    if i == |changes| {
      assert changes[..i] == changes;
    } else {
      var init, last := changes[..|changes| - 1], changes[|changes| - 1];
      assert changes[..i] == init[..i];
      if i < |init| {
        assert forall j :: 0 <= j < |init| ==> init[j] == changes[j];
      }
      QuietFacts(db, init, i, slug, w, c);
      if last.Arrive? {
        ArrivalElsewhere(Replay(db, init), last.event, slug, w, c);
      }
    }
  }

  lemma ArrivalElsewhere(db: Database, e: Event, slug: Slug, w: Window, c: Cell)
    requires Trunc(w, e.occurredAt) != c.bucket
    ensures RawCount(Facts(slug, db.sources, db.events + [e]), w, c) == RawCount(FactsOf(db, slug), w, c)
  {
    var events := db.events + [e];
    assert events[..|events| - 1] == db.events;
    match StampOf(slug, db.sources, e)
    case None =>
      assert Facts(slug, db.sources, events) == FactsOf(db, slug);
    case Some(s) =>
      TotalConcat(FactsOf(db, slug), [Rec(s, 1)], InCell(w, c));
      TotalOne(Rec(s, 1), InCell(w, c));
  }

  /** A current cell has the count of all its events. */
  lemma CurrentValue(db: Database, changes: seq<Change>, slug: Slug, w: Window, c: Cell)
    requires Current(changes, slug, w, c.bucket) && Trunc(w, c.bucket) == c.bucket
    ensures ValueAt(Replay(db, changes).table, slug, w, c) == RawCount(FactsOf(Replay(db, changes), slug), w, c)
  {
    var i := LastCover(changes, slug, w, c.bucket).value;
    var seen, q := FactsOf(Replay(db, changes[..i]), slug), changes[i].q;
    HistoryValue(db, changes, slug, w, c, i);
    SourcesFixed(db, changes[..i]);
    forall j | 0 <= j < |seen| ensures InRangeCell(q, c)(seen[j].key) == InCell(w, c)(seen[j].key) {
      BucketOf(w, c.bucket, seen[j].key.at);
    }
    TotalSame(seen, InRangeCell(q, c), InCell(w, c));
    QuietFacts(db, changes, i, slug, w, c);
  }

  // ----- the rows of a bucket -----

  /** Every row of a rebuilt bucket counts events of the report's dimension, at least one. */
  lemma RebuiltRow(db: Database, changes: seq<Change>, slug: Slug, w: Window, b: int, k: nat)
    requires LastCover(changes, slug, w, b).Some? && k < |Replay(db, changes).table|
    requires
      var l := Replay(db, changes).table[k].key;
      l.slug == slug && l.window == w && l.bucket == b
    ensures
      var r := Replay(db, changes).table[k];
      r.key.metric == EventCount && r.key.dimKey == DimensionOf(slug) && r.value > 0
  {
    var i := LastCover(changes, slug, w, b).value;
    var table, at := Replay(db, changes).table, AtBucket(slug, w, b);
    var q, facts := changes[i].q, Facts(slug, db.sources, EventsBefore(db, changes, i));
    var ins := Inserted(q, facts, changes[i].run);
    LastCoveringRebuildWins(db, changes, slug, w, b);
    var j := ProjectImage(table, at, k);
    var m := ProjectOrigin(ins, at, j);
    InsertedIsCleared(q, facts, changes[i].run);
    CellsFacts(q, facts);
    ProjectPositive(Cells(q, facts), ToLabel(q, changes[i].run));
    assert ins[m] == table[k];
  }

  // ----- the read -----

  /** The rows of a read are positive, and total for a cell what the table holds for it. */
  lemma ReadCells(db: Database, changes: seq<Change>, slug: Slug, p: RunParams, c: Cell)
    requires Aligned(db.table) && ReadCurrent(changes, slug, p)
    ensures
      var table := Replay(db, changes).table;
      && Positive(Project(table, ToReadCell(slug, p)))
      && Total(Project(table, ToReadCell(slug, p)), Is(c))
         == if InRead(p, c.bucket) then ValueAt(table, slug, p.window, c) else 0
  {
    var table, to := Replay(db, changes).table, ToReadCell(slug, p);
    AlwaysAligned(db, changes);
    forall k | 0 <= k < |table| && table[k].key.slug == slug && table[k].key.window == p.window
               && InRead(p, table[k].key.bucket)
      ensures table[k].key.metric == EventCount && table[k].key.dimKey == DimensionOf(slug) && table[k].value > 0
    {
      assert Current(changes, slug, p.window, table[k].key.bucket);
      RebuiltRow(db, changes, slug, p.window, table[k].key.bucket, k);
    }
    forall j | 0 <= j < |Project(table, to)| ensures Project(table, to)[j].value > 0 {
      var k := ProjectOrigin(table, to, j);
    }
    ProjectTotal(table, to, Is(c));
    if InRead(p, c.bucket) {
      TotalSame(table, Pull(to, Is(c)), LabelIs(slug, p.window, c));
    } else {
      TotalNone(table, Pull(to, Is(c)));
    }
  }

  /** The events of a read total for a cell its raw count. */
  lemma ReadStamps(facts: seq<Rec<Stamp>>, p: RunParams, c: Cell)
    ensures Total(Project(facts, StampReadCell(p)), Is(c))
            == if InRead(p, c.bucket) then RawCount(facts, p.window, c) else 0
  {
    ProjectTotal(facts, StampReadCell(p), Is(c));
    if InRead(p, c.bucket) {
      TotalSame(facts, Pull(StampReadCell(p), Is(c)), InCell(p.window, c));
    } else {
      TotalNone(facts, Pull(StampReadCell(p), Is(c)));
    }
  }

  /** An unaligned bucket has neither rows nor events. */
  lemma UnalignedCell(table: Table, facts: seq<Rec<Stamp>>, slug: Slug, w: Window, c: Cell)
    requires Aligned(table) && Trunc(w, c.bucket) != c.bucket
    ensures ValueAt(table, slug, w, c) == 0 && RawCount(facts, w, c) == 0
  {
    TotalNone(table, LabelIs(slug, w, c));
    forall i | 0 <= i < |facts| ensures !InCell(w, c)(facts[i].key) {
      TruncTwice(w, facts[i].key.at);
    }
    TotalNone(facts, InCell(w, c));
  }

  lemma TruncTwice(w: Window, t: int)
    ensures Trunc(w, Trunc(w, t)) == Trunc(w, t)
  {
    TruncIsFloor(w, t);
  }

  /**
   After any history from a table of aligned buckets, a read whose buckets are all current
   returns the rows of the naive aggregate of the events present now, in the same order, for
   any breakdown, filter, limit and offset.
   */
  lemma CurrentReadRefinesRaw(db: Database, changes: seq<Change>, slug: Slug, p: RunParams)
    requires Aligned(db.table) && ReadCurrent(changes, slug, p)
    ensures RunQuery(Replay(db, changes).table, slug, p) == RawQuery(FactsOf(Replay(db, changes), slug), slug, p)
  {
    var table, facts := Replay(db, changes).table, FactsOf(Replay(db, changes), slug);
    AlwaysAligned(db, changes);
    ReadCells(db, changes, slug, p, Cell(0, ""));
    forall c
      ensures Total(Project(table, ToReadCell(slug, p)), Is(c)) == Total(Project(facts, StampReadCell(p)), Is(c))
    {
      ReadCells(db, changes, slug, p, c);
      ReadStamps(facts, p, c);
      if Trunc(p.window, c.bucket) != c.bucket {
        UnalignedCell(table, facts, slug, p.window, c);
      } else if InRead(p, c.bucket) {
        assert Current(changes, slug, p.window, c.bucket);
        CurrentValue(db, changes, slug, p.window, c);
      }
    }
    CellsRefineRaw(table, facts, slug, p);
  }

  // ----- histories of events and rows -----

  /** The events that arrive, in order. */
  function Arrivals(changes: seq<Change>): seq<Event> {
    if changes == [] then []
    else (if changes[0].Arrive? then [changes[0].event] else []) + Arrivals(changes[1..])
  }

  lemma {:induction false} ArrivalsLast(init: seq<Change>, last: Change)
    ensures Arrivals(init + [last]) == Arrivals(init) + if last.Arrive? then [last.event] else []
  {
    var all := init + [last];
    if init == [] {
      assert all[1..] == [];
    } else {
      assert all[1..] == init[1..] + [last];
      ArrivalsLast(init[1..], last);
    }
  }

  /** The events after a history are the first ones and the arrivals. */
  lemma {:induction false} EventsOfHistory(db: Database, changes: seq<Change>)
    ensures Replay(db, changes).events == db.events + Arrivals(changes)
  {
    if changes != [] {
      var init, last := changes[..|changes| - 1], changes[|changes| - 1];
      EventsOfHistory(db, init);
      ArrivalsLast(init, last);
      assert changes == init + [last];
    }
  }

  /**
   The rows of a bucket after any history, on the columns of the events: one for each dimension
   value of the events that the last rebuild of the bucket counted, among those that had
   arrived by then; the first rows, if there was no such rebuild.
   */
  lemma HistoryRows(db: Database, changes: seq<Change>, slug: Slug, w: Window, b: int, r: Rec<Label>)
    requires r.key.slug == slug && r.key.window == w && r.key.bucket == b
    ensures r in Replay(db, changes).table <==>
      match LastCover(changes, slug, w, b)
      case None => r in db.table
      case Some(i) =>
        IsCount(changes[i].q, db.sources, db.events + Arrivals(changes[..i]), changes[i].run, r)
  {
    var cover := LastCover(changes, slug, w, b);
    LastCoveringRebuildWins(db, changes, slug, w, b);
    InBucket(Replay(db, changes).table, slug, w, b, r);
    if cover.None? {
      InBucket(db.table, slug, w, b, r);
    } else {
      var c := changes[cover.value];
      var events := EventsBefore(db, changes, cover.value);
      EventsOfHistory(db, changes[..cover.value]);
      InBucket(Inserted(c.q, Facts(slug, db.sources, events), c.run), slug, w, b, r);
      InsertedRow(c.q, db.sources, events, c.run, r);
    }
  }

  lemma InBucket(table: Table, slug: Slug, w: Window, b: int, r: Rec<Label>)
    requires r.key.slug == slug && r.key.window == w && r.key.bucket == b
    ensures r in RowsAt(table, slug, w, b) <==> r in table
  {
    var at := AtBucket(slug, w, b);
    if r in RowsAt(table, slug, w, b) {
      var j :| 0 <= j < |RowsAt(table, slug, w, b)| && RowsAt(table, slug, w, b)[j] == r;
      var i := ProjectOrigin(table, at, j);
      assert table[i] == r;
    }
    if r in table {
      var i :| 0 <= i < |table| && table[i] == r;
      var j := ProjectImage(table, at, i);
      assert RowsAt(table, slug, w, b)[j] == r;
    }
  }

  // ----- the naive report -----

  /** The start of the day or week of an instant. */
  function StartOf(w: Window, t: int): int {
    t - t % Length(w)
  }

  /** The event is in the group of the row: its day or week starts on a day of the read, and it passes the filter. */
  predicate InReport(slug: Slug, p: RunParams, sources: Sources, e: Event, dim: string, key: GroupKey) {
    && HasDimension(slug, sources, e, dim)
    && QueryMeaning.OnDays(p, StartOf(p.window, e.occurredAt))
    && (slug == VolumeByPeriod ==> p.source == "" || dim == p.source)
    && (slug == StatusCounts ==> p.status == "" || dim == p.status)
    && (if QueryMeaning.ByDates(slug, p) then key.date == Some(StartOf(p.window, e.occurredAt)) else key.date.None?)
    && (if QueryMeaning.ByNames(slug, p) then key.dim == Some(dim) else key.dim.None?)
  }

  /** The positions of the events of a group. */
  ghost function Reported(slug: Slug, p: RunParams, sources: Sources, events: seq<Event>, key: GroupKey): set<int> {
    set i | 0 <= i < |events| && exists dim :: InReport(slug, p, sources, events[i], dim, key)
  }

  /** The naive report counts the events of each group: a row for every group with events, and its number. */
  lemma RawRows(slug: Slug, p: RunParams, sources: Sources, events: seq<Event>, r: ResultRow)
    requires Supported(slug)
    ensures r in RawResult(Facts(slug, sources, events), slug, p)
            <==> r.value == |Reported(slug, p, sources, events, r.key)| && r.value > 0
  {
    var facts, select := Facts(slug, sources, events), FromStamp(slug, p);
    var groups := Group(Project(facts, select));
    GroupKeys(Project(facts, select));
    SortSorts(OrderOf(ShapeOf(slug, p.breakdown)), groups);
    SameElements(RawResult(facts, slug, p), groups);
    GroupRow(Project(facts, select), r);
    ProjectPositive(facts, select);
    TotalPositive(Project(facts, select), Is(r.key));
    ProjectTotal(facts, select, Is(r.key));
    FactsAreEvents(slug, sources, events, Pull(select, Is(r.key)));
    forall i | 0 <= i < |events|
      ensures Stamped(slug, sources, Pull(select, Is(r.key)))(events[i])
              <==> exists dim :: InReport(slug, p, sources, events[i], dim, r.key)
    {
      EventReported(slug, p, sources, events[i], r.key);
    }
    assert Positions(events, Stamped(slug, sources, Pull(select, Is(r.key))))
           == Reported(slug, p, sources, events, r.key);
  }

  lemma EventReported(slug: Slug, p: RunParams, sources: Sources, e: Event, key: GroupKey)
    requires Supported(slug)
    ensures Stamped(slug, sources, Pull(FromStamp(slug, p), Is(key)))(e)
            <==> exists dim :: InReport(slug, p, sources, e, dim, key)
  {
    var b := Trunc(p.window, e.occurredAt);
    LengthIsUnit(p.window);
    TruncIsFloor(p.window, e.occurredAt);
    assert b == StartOf(p.window, e.occurredAt);
    QueryMeaning.ReadDays(p, b);
    QueryMeaning.SourceFolds(p.breakdown);
    QueryMeaning.PeriodFolds(p.breakdown);
    var s := StampOf(slug, sources, e);
    if s.Some? {
      assert HasDimension(slug, sources, e, s.value.dim);
      assert forall dim :: HasDimension(slug, sources, e, dim) ==> dim == s.value.dim;
    }
    if Stamped(slug, sources, Pull(FromStamp(slug, p), Is(key)))(e) {
      assert InReport(slug, p, sources, e, s.value.dim, key);
    }
  }
}
