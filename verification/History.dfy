/**
 Whole histories of the snapshot table: any sequence of committed rebuilds, of any
 reports, windows and ranges, interleaved with arriving events.
 */
module History {
  import opened Common
  import opened Time
  import opened Aggregate
  import opened Snapshots

  datatype Database = Database(sources: Sources, events: seq<Event>, table: Table)

  datatype Change = Arrive(event: Event) | Recompute(q: Request, run: RunId)

  /** One committed change; a rebuild of an unsupported report is rolled back. */
  function Apply(db: Database, c: Change): Database {
    match c
    case Arrive(e) => db.(events := db.events + [e])
    case Recompute(q, run) =>
      if Supported(q.slug) then db.(table := Rebuilt(db.table, q, Facts(q.slug, db.sources, db.events), run)) else db
  }

  function Replay(db: Database, changes: seq<Change>): Database {
    if changes == [] then db else Apply(Replay(db, changes[..|changes| - 1]), changes[|changes| - 1])
  }

  predicate Rebuilds(c: Change, slug: Slug, w: Window, b: int) {
    c.Recompute? && Supported(slug) && Covers(c.q, slug, w, b)
  }

  /** The position of the last rebuild whose cleared interval contains the bucket. */
  function LastCover(changes: seq<Change>, slug: Slug, w: Window, b: int): (r: Option<nat>)
    ensures r.Some? ==> r.value < |changes| && Rebuilds(changes[r.value], slug, w, b)
    ensures forall j :: (if r.Some? then r.value < j else 0 <= j) && j < |changes| ==> !Rebuilds(changes[j], slug, w, b)
  {
    if changes == [] then None
    else if Rebuilds(changes[|changes| - 1], slug, w, b) then Some(|changes| - 1)
    else LastCover(changes[..|changes| - 1], slug, w, b)
  }

  /** The events present when change i happens. */
  function EventsBefore(db: Database, changes: seq<Change>, i: nat): seq<Event>
    requires i <= |changes|
  {
    Replay(db, changes[..i]).events
  }

  /** The rows of a bucket as rebuild i inserted them, counted over the events present then. */
  function RowsInsertedBy(db: Database, changes: seq<Change>, i: nat, slug: Slug, w: Window, b: int): Table
    requires i < |changes| && changes[i].Recompute?
  {
    var facts := Facts(slug, db.sources, EventsBefore(db, changes, i));
    RowsAt(Inserted(changes[i].q, facts, changes[i].run), slug, w, b)
  }

  /**
   The last covering rebuild wins: after any history, the rows of a bucket are exactly the
   rows inserted by the last rebuild that cleared it, counted over the events present at
   that rebuild; a bucket that no rebuild cleared keeps its initial rows.
   */
  lemma {:induction false} LastCoveringRebuildWins(db: Database, changes: seq<Change>, slug: Slug, w: Window, b: int)
    ensures RowsAt(Replay(db, changes).table, slug, w, b) ==
      match LastCover(changes, slug, w, b)
      case None => RowsAt(db.table, slug, w, b)
      case Some(i) => RowsInsertedBy(db, changes, i, slug, w, b)
  {
    if changes != [] {
      var init, last := changes[..|changes| - 1], changes[|changes| - 1];
      SourcesFixed(db, init);
      ApplyAt(Replay(db, init), last, slug, w, b);
      if !Rebuilds(last, slug, w, b) {
        LastCoveringRebuildWins(db, init, slug, w, b);
        var cover := LastCover(init, slug, w, b);
        if cover.Some? {
          assert changes[..cover.value] == init[..cover.value];
        }
      } else {
        assert changes[..|init|] == init;
      }
    }
  }

  /** One change replaces a bucket or leaves it as it was. */
  lemma ApplyAt(db: Database, c: Change, slug: Slug, w: Window, b: int)
    ensures RowsAt(Apply(db, c).table, slug, w, b)
            == if Rebuilds(c, slug, w, b)
              then RowsAt(Inserted(c.q, Facts(slug, db.sources, db.events), c.run), slug, w, b)
               else RowsAt(db.table, slug, w, b)
  {
    if c.Recompute? {
      RebuiltAt(db.table, c.q, Facts(c.q.slug, db.sources, db.events), c.run, slug, w, b);
    }
  }

  lemma {:induction false} SourcesFixed(db: Database, changes: seq<Change>)
    ensures Replay(db, changes).sources == db.sources
  {
    if changes != [] {
      SourcesFixed(db, changes[..|changes| - 1]);
    }
  }

  /** In numbers: the value of a covered cell is the count of the in-range events of its last rebuild. */
  lemma HistoryValue(db: Database, changes: seq<Change>, slug: Slug, w: Window, c: Cell, i: nat)
    requires LastCover(changes, slug, w, c.bucket) == Some(i)
    ensures ValueAt(Replay(db, changes).table, slug, w, c)
            == Total(Facts(slug, db.sources, EventsBefore(db, changes, i)), InRangeCell(changes[i].q, c))
  {
    var q, facts := changes[i].q, Facts(slug, db.sources, EventsBefore(db, changes, i));
    LastCoveringRebuildWins(db, changes, slug, w, c.bucket);
    ValueAtBucket(Replay(db, changes).table, slug, w, c);
    RebuiltAt([], q, facts, changes[i].run, slug, w, c.bucket);
    ValueAtBucket(Rebuilt([], q, facts, changes[i].run), slug, w, c);
    RebuiltValue([], q, facts, changes[i].run, c);
  }

  /** The value of a cell depends only on the rows of its bucket. */
  lemma ValueAtBucket(table: Table, slug: Slug, w: Window, c: Cell)
    ensures ValueAt(table, slug, w, c) == Total(RowsAt(table, slug, w, c.bucket), LabelIs(slug, w, c))
  {
    var at := AtBucket(slug, w, c.bucket);
    ProjectTotal(table, at, LabelIs(slug, w, c));
    TotalSame(table, LabelIs(slug, w, c), Pull(at, LabelIs(slug, w, c)));
  }

  /** The UNIQUE constraint holds after every history. */
  lemma {:induction false} AlwaysUnique(db: Database, changes: seq<Change>)
    requires Unique(db.table)
    ensures Unique(Replay(db, changes).table)
  {
    if changes != [] {
      var before, last := Replay(db, changes[..|changes| - 1]), changes[|changes| - 1];
      AlwaysUnique(db, changes[..|changes| - 1]);
      if last.Recompute? {
        RebuiltUnique(before.table, last.q, Facts(last.q.slug, before.sources, before.events), last.run);
      }
    }
  }

  /** So do aligned buckets. */
  lemma {:induction false} AlwaysAligned(db: Database, changes: seq<Change>)
    requires Aligned(db.table)
    ensures Aligned(Replay(db, changes).table)
  {
    if changes != [] {
      var before, last := Replay(db, changes[..|changes| - 1]), changes[|changes| - 1];
      AlwaysAligned(db, changes[..|changes| - 1]);
      if last.Recompute? {
        RebuiltAligned(before.table, last.q, Facts(last.q.slug, before.sources, before.events), last.run);
      }
    }
  }
}
