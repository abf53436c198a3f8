/**
 The three report queries over metric_snapshots, the same aggregates taken
 directly from raw events, and the laws that relate them.
 */
module Reports {
  import opened Common
  import opened Time
  import opened Aggregate
  import opened Ordering
  import opened Snapshots

  /** Validated parameters of a report run. */
  datatype RunParams = RunParams(window: Window, dateFrom: int, dateTo: int, breakdown: string,
                                 limit: nat, offset: nat, source: string, status: string)

  /** Parameters as the handler passes them on. */
  datatype RawParams = RawParams(window: string, dateFrom: int, dateTo: int, breakdown: string,
                                 limit: int, offset: int, source: string, status: string)

  function ParseWindow(name: string): Option<Window> {
    if name == "day" then Some(Day) else if name == "week" then Some(Week) else None
  }

  /** The checks of a run request, in the order in which the service makes them. */
  function Validate(p: RawParams, maxRangeDays: int): Result<RunParams> {
    match ParseWindow(p.window)
    case None => Failure(Invalid)
    case Some(w) =>
      if p.dateFrom > p.dateTo then Failure(Invalid)
      else if (p.dateTo - p.dateFrom) / DAY + 1 > maxRangeDays then Failure(Invalid)
      else if p.breakdown !in ["", "source", "status", "period"] then Failure(Invalid)
      else if p.limit < 1 || p.limit > 100 then Failure(Invalid)
      else if p.offset < 0 then Failure(Invalid)
      else Success(RunParams(w, p.dateFrom, p.dateTo, p.breakdown, p.limit, p.offset, p.source, p.status))
  }

  /** The checks of a run request, on what was sent. */
  predicate Admissible(raw: RawParams, maxRangeDays: int) {
    && (raw.window == "day" || raw.window == "week")
    && raw.dateFrom <= raw.dateTo < raw.dateFrom + maxRangeDays * DAY
    && (raw.breakdown == "" || raw.breakdown == "source" || raw.breakdown == "status" || raw.breakdown == "period")
    && 1 <= raw.limit <= 100 && raw.offset >= 0
  }

  /** The parameters that run are the ones that were sent. */
  predicate AskedFor(raw: RawParams, p: RunParams) {
    && ((raw.window == "day" && p.window == Day) || (raw.window == "week" && p.window == Week))
    && p.dateFrom == raw.dateFrom && p.dateTo == raw.dateTo && p.breakdown == raw.breakdown
    && p.limit == raw.limit && p.offset == raw.offset && p.source == raw.source && p.status == raw.status
  }

  /** Validation accepts exactly the admissible requests, and changes nothing in them. */
  lemma ValidateExact(raw: RawParams, maxRangeDays: int)
    ensures Validate(raw, maxRangeDays).Success? <==> Admissible(raw, maxRangeDays)
    ensures Admissible(raw, maxRangeDays) ==> AskedFor(raw, Validate(raw, maxRangeDays).value)
    ensures !Admissible(raw, maxRangeDays) ==> Validate(raw, maxRangeDays) == Failure(Invalid)
  {
    DaysWithin(raw.dateFrom, raw.dateTo, maxRangeDays);
  }

  /** The number of days of a range, both ends included. */
  lemma DaysWithin(from: int, to: int, most: int)
    ensures (to - from) / DAY + 1 <= most <==> to < from + most * DAY
  {}

  /** Simple case folding, as far as it can reach an ASCII letter. */
  function Fold(c: char): char {
    if 'A' <= c <= 'Z' then c + 32 as char
    else if c == '\U{17F}' then 's'
    else if c == '\U{212A}' then 'k'
    else c
  }

  predicate EqualFold(a: string, b: string) {
    |a| == |b| && forall i :: 0 <= i < |a| ==> Fold(a[i]) == Fold(b[i])
  }

  /** Which columns a query groups by. */
  datatype Shape = ByDateAndDim | ByDate | ByDim

  function ShapeOf(slug: Slug, breakdown: string): Shape {
    match slug
    case VolumeByPeriod => if EqualFold(breakdown, "source") then ByDateAndDim else ByDate
    case StatusCounts => if EqualFold(breakdown, "period") then ByDateAndDim else ByDim
    case _ => ByDim
  }

  function OrderOf(shape: Shape): Order {
    if shape == ByDim then ByCount else ByKey
  }

  function FilterOf(slug: Slug, p: RunParams): string {
    match slug
    case VolumeByPeriod => p.source
    case StatusCounts => p.status
    case _ => ""
  }

  function KeyOf(shape: Shape, date: int, dim: string): GroupKey {
    match shape
    case ByDateAndDim => GroupKey(Some(date), Some(dim))
    case ByDate => GroupKey(Some(date), None)
    case ByDim => GroupKey(None, Some(dim))
  }

  predicate InRead(p: RunParams, bucket: int) {
    Midnight(p.dateFrom) <= bucket < Midnight(p.dateTo) + DAY
  }

  predicate PassesFilter(slug: Slug, p: RunParams, dim: string) {
    FilterOf(slug, p) == "" || dim == FilterOf(slug, p)
  }

  /** WHERE and SELECT of a report query. */
  function FromLabel(slug: Slug, p: RunParams): Label -> Option<GroupKey> {
    (l: Label) =>
      if l.slug == slug && l.window == p.window && l.metric == EventCount && l.dimKey == DimensionOf(slug)
         && InRead(p, l.bucket) && PassesFilter(slug, p, l.dim)
      then Some(KeyOf(ShapeOf(slug, p.breakdown), Midnight(l.bucket), l.dim))
      else None
  }

  /** The full ordered result, before LIMIT and OFFSET. */
  function FullResult(table: Table, slug: Slug, p: RunParams): seq<ResultRow> {
    Sort(OrderOf(ShapeOf(slug, p.breakdown)), Group(Project(table, FromLabel(slug, p))))
  }

  function RunQuery(table: Table, slug: Slug, p: RunParams): seq<ResultRow> {
    Page(FullResult(table, slug, p), p.limit, p.offset)
  }

  /** The dispatch on the report slug. */
  function ExecuteReport(table: Table, slug: Slug, p: RunParams): Result<seq<ResultRow>> {
    if Supported(slug) then Success(RunQuery(table, slug, p)) else Failure(NotFound)
  }

  /** The same selection on raw events, bucketed on the fly. */
  function FromStamp(slug: Slug, p: RunParams): Stamp -> Option<GroupKey> {
    (s: Stamp) =>
      if InRead(p, Trunc(p.window, s.at)) && PassesFilter(slug, p, s.dim)
      then Some(KeyOf(ShapeOf(slug, p.breakdown), Midnight(Trunc(p.window, s.at)), s.dim))
      else None
  }

  /** The naive report: group the raw events of the read range directly. */
  function RawResult(facts: seq<Rec<Stamp>>, slug: Slug, p: RunParams): seq<ResultRow> {
    Sort(OrderOf(ShapeOf(slug, p.breakdown)), Group(Project(facts, FromStamp(slug, p))))
  }

  function RawQuery(facts: seq<Rec<Stamp>>, slug: Slug, p: RunParams): seq<ResultRow> {
    Page(RawResult(facts, slug, p), p.limit, p.offset)
  }

  // ----- the read path refines the naive aggregate -----

  /** The read range lies inside the rebuilt range. */
  predicate RangeInside(q: Request, p: RunParams) {
    From(q) <= Midnight(p.dateFrom) && Midnight(p.dateTo) + DAY <= ToExclusive(q)
  }

  /** Every bucket that starts in the read range lies wholly inside the rebuilt range. */
  ghost predicate WholeBucketsInside(q: Request, p: RunParams) {
    forall b :: InRead(p, b) && Trunc(q.window, b) == b ==> From(q) <= b && b + Unit(q.window) <= ToExclusive(q)
  }

  /** For day windows the second condition follows from the first. */
  lemma DayBucketsInside(q: Request, p: RunParams)
    requires q.window == Day && RangeInside(q, p)
    ensures WholeBucketsInside(q, p)
  {
    forall b | InRead(p, b) && Trunc(q.window, b) == b ensures From(q) <= b && b + Unit(q.window) <= ToExclusive(q) {
      DayInside(q, p, b);
    }
  }

  lemma DayInside(q: Request, p: RunParams, b: int)
    requires RangeInside(q, p) && InRead(p, b) && Midnight(b) == b
    ensures From(q) <= b && b + DAY <= ToExclusive(q)
  {
    NextMidnight(b, Midnight(q.dateTo) + DAY);
  }

  /** A midnight before another midnight is a whole day before it. */
  lemma NextMidnight(b: int, c: int)
    requires Midnight(b) == b && Midnight(c) == c && b < c
    ensures b + DAY <= c
  {
    var i, j := b / DAY, c / DAY;
    assert b == DAY * i && c == DAY * j;
  }

  /** For day windows the bucketed selection is the plain half-open range on occurred_at. */
  lemma DayReadIsRawRange(p: RunParams, t: int)
    requires p.window == Day
    ensures InRead(p, Trunc(Day, t)) <==> Midnight(p.dateFrom) <= t < Midnight(p.dateTo) + DAY
  {
    DayRange(Midnight(p.dateFrom), Midnight(p.dateTo) + DAY, t);
  }

  lemma InsideIsCleared(q: Request, b: int)
    requires From(q) <= b < ToExclusive(q)
    ensures Cleared(q, b)
  {
    TruncIsFloor(q.window, From(q));
    TruncIsFloor(q.window, ToExclusive(q));
  }

  /** The rebuild deletes every row of the table that the read selects. */
  ghost predicate SelectedDeleted(table: Table, q: Request, p: RunParams) {
    forall i :: 0 <= i < |table| && FromLabel(q.slug, p)(table[i].key).Some? ==> Deleted(q, table[i].key)
  }

  /** It does so when the read range is inside the rebuilt one. */
  lemma InsideDeleted(table: Table, q: Request, p: RunParams)
    requires q.window == p.window && RangeInside(q, p)
    ensures SelectedDeleted(table, q, p)
  {
    forall i | 0 <= i < |table| && FromLabel(q.slug, p)(table[i].key).Some? ensures Deleted(q, table[i].key) {
      InsideIsCleared(q, table[i].key.bucket);
    }
  }

  /** And when every bucket of the read is, for a table of aligned buckets. */
  lemma AlignedDeleted(table: Table, q: Request, p: RunParams)
    requires q.window == p.window && WholeBucketsInside(q, p) && Aligned(table)
    ensures SelectedDeleted(table, q, p)
  {
    forall i | 0 <= i < |table| && FromLabel(q.slug, p)(table[i].key).Some? ensures Deleted(q, table[i].key) {
      InsideIsCleared(q, table[i].key.bucket);
    }
  }

  /** A raw event selected by the read is in the rebuilt range. */
  lemma SelectedInRange(q: Request, p: RunParams, t: int)
    requires WholeBucketsInside(q, p) && q.window == p.window && InRead(p, Trunc(p.window, t))
    ensures InRange(q, t)
  {
    TruncIsFloor(p.window, t);
    BucketOf(p.window, Trunc(p.window, t), Trunc(p.window, t));
  }

  /** The snapshot rows and the raw events of a read agree on every predicate of the result key. */
  lemma ReadTotals(table: Table, q: Request, facts: seq<Rec<Stamp>>, run: RunId, p: RunParams, g: GroupKey -> bool)
    requires q.window == p.window && SelectedDeleted(table, q, p) && WholeBucketsInside(q, p)
    ensures Total(Project(Rebuilt(table, q, facts, run), FromLabel(q.slug, p)), g)
            == Total(Project(facts, FromStamp(q.slug, p)), g)
  {
    var sel := FromLabel(q.slug, p);
    ProjectConcat(Kept(table, q), Inserted(q, facts, run), sel);
    KeptUnselected(table, q, p);
    assert Project(Rebuilt(table, q, facts, run), sel) == Project(Inserted(q, facts, run), sel);
    ProjectTotal(Inserted(q, facts, run), sel, g);
    InsertedTotals(q, facts, run, p, g);
    ProjectTotal(facts, FromStamp(q.slug, p), g);
  }

  /** No row that survives the delete is selected by the read. */
  lemma KeptUnselected(table: Table, q: Request, p: RunParams)
    requires SelectedDeleted(table, q, p)
    ensures Project(Kept(table, q), FromLabel(q.slug, p)) == []
  {
    var sel := FromLabel(q.slug, p);
    ProjectThen(table, KeepLabel(q), sel);
    ProjectNone(table, Then(KeepLabel(q), sel));
  }

  lemma InsertedTotals(q: Request, facts: seq<Rec<Stamp>>, run: RunId, p: RunParams, g: GroupKey -> bool)
    requires q.window == p.window && WholeBucketsInside(q, p)
    ensures Total(Inserted(q, facts, run), Pull(FromLabel(q.slug, p), g)) == Total(facts, Pull(FromStamp(q.slug, p), g))
  {
    var sel := FromLabel(q.slug, p);
    var pulled := Pull(ToLabel(q, run), Pull(sel, g));
    ProjectTotal(Cells(q, facts), ToLabel(q, run), Pull(sel, g));
    GroupKeepsTotals(Project(facts, ToCell(q)), pulled);
    ProjectTotal(facts, ToCell(q), pulled);
    forall i | 0 <= i < |facts|
      ensures Pull(ToCell(q), pulled)(facts[i].key) == Pull(FromStamp(q.slug, p), g)(facts[i].key)
    {
      StampSelected(q, run, p, g, facts[i].key);
    }
    TotalSame(facts, Pull(ToCell(q), pulled), Pull(FromStamp(q.slug, p), g));
  }

  /** One event reaches a result key through the snapshot exactly when it does so directly. */
  lemma StampSelected(q: Request, run: RunId, p: RunParams, g: GroupKey -> bool, s: Stamp)
    requires q.window == p.window && WholeBucketsInside(q, p)
    ensures Pull(ToCell(q), Pull(ToLabel(q, run), Pull(FromLabel(q.slug, p), g)))(s) == Pull(FromStamp(q.slug, p), g)(s)
  {
    if InRead(p, Trunc(p.window, s.at)) {
      SelectedInRange(q, p, s.at);
    }
    if InRange(q, s.at) {
      var l := ToLabel(q, run)(Cell(Trunc(q.window, s.at), s.dim)).value;
      assert FromLabel(q.slug, p)(l) == FromStamp(q.slug, p)(s);
    }
  }

  /** Every row that a read selects after the rebuild was inserted by it, so no count is zero. */
  lemma SelectedPositive(table: Table, q: Request, facts: seq<Rec<Stamp>>, run: RunId, p: RunParams)
    requires SelectedDeleted(table, q, p) && Positive(facts)
    ensures Positive(Project(Rebuilt(table, q, facts, run), FromLabel(q.slug, p)))
  {
    var sel := FromLabel(q.slug, p);
    ProjectConcat(Kept(table, q), Inserted(q, facts, run), sel);
    KeptUnselected(table, q, p);
    assert Project(Rebuilt(table, q, facts, run), sel) == Project(Inserted(q, facts, run), sel);
    CellsFacts(q, facts);
    ProjectPositive(Cells(q, facts), ToLabel(q, run));
    ProjectPositive(Inserted(q, facts, run), sel);
  }

  lemma DeletedRefinesRaw(table: Table, q: Request, facts: seq<Rec<Stamp>>, run: RunId, p: RunParams)
    requires Positive(facts) && q.window == p.window && SelectedDeleted(table, q, p) && WholeBucketsInside(q, p)
    ensures RunQuery(Rebuilt(table, q, facts, run), q.slug, p) == RawQuery(facts, q.slug, p)
  {
    var a := Project(Rebuilt(table, q, facts, run), FromLabel(q.slug, p));
    var b := Project(facts, FromStamp(q.slug, p));
    SelectedPositive(table, q, facts, run, p);
    ProjectPositive(facts, FromStamp(q.slug, p));
    forall k ensures Total(a, Is(k)) == Total(b, Is(k)) {
      ReadTotals(table, q, facts, run, p, Is(k));
    }
    SameGroups(a, b);
    GroupKeys(a);
    GroupKeys(b);
    SortUnique(OrderOf(ShapeOf(q.slug, p.breakdown)), Group(a), Group(b));
  }

  /**
   Right after a rebuild of any table of aligned buckets, every query whose buckets are
   whole rebuilt buckets returns the rows of the naive aggregate, in the same order, for any
   breakdown, filter, limit and offset. The read range itself may stick out of the rebuilt
   one. Rebuilds keep buckets aligned; see History.AlwaysAligned.
   */
  lemma ReadRefinesRaw(table: Table, q: Request, facts: seq<Rec<Stamp>>, run: RunId, p: RunParams)
    requires Positive(facts) && Aligned(table) && q.window == p.window && WholeBucketsInside(q, p)
    ensures RunQuery(Rebuilt(table, q, facts, run), q.slug, p) == RawQuery(facts, q.slug, p)
  {
    AlignedDeleted(table, q, p);
    DeletedRefinesRaw(table, q, facts, run, p);
  }

  /** For day windows it is enough that the read range is inside the rebuilt one, for any table. */
  lemma DayReadRefinesRaw(table: Table, q: Request, facts: seq<Rec<Stamp>>, run: RunId, p: RunParams)
    requires Positive(facts)
    requires q.window == p.window == Day && RangeInside(q, p)
    ensures RunQuery(Rebuilt(table, q, facts, run), q.slug, p) == RawQuery(facts, q.slug, p)
  {
    DayBucketsInside(q, p);
    InsideDeleted(table, q, p);
    DeletedRefinesRaw(table, q, facts, run, p);
  }

  /** A dimension value that the filter of the read lets through. */
  function Witness(slug: Slug, p: RunParams): (dim: string)
    ensures PassesFilter(slug, p, dim)
    ensures CanMatch(slug, p) ==> Storable(slug, dim)
  {
    if FilterOf(slug, p) == "" then "success" else FilterOf(slug, p)
  }

  /** One event outside the rebuilt range but inside a bucket of the read is missed. */
  lemma ReadGap(q: Request, run: RunId, p: RunParams, t: int)
    requires q.window == p.window && p.limit >= 1 && p.offset == 0
    requires InRead(p, Trunc(p.window, t)) && !InRange(q, t)
    ensures
      var facts := [Rec(Stamp(t, Witness(q.slug, p)), 1)];
      RunQuery(Rebuilt([], q, facts, run), q.slug, p) != RawQuery(facts, q.slug, p)
  {
    var facts := [Rec(Stamp(t, Witness(q.slug, p)), 1)];
    assert facts[..0] == [];
    ProjectNone(facts, ToCell(q));
    assert Rebuilt([], q, facts, run) == [];
    assert FullResult([], q.slug, p) == [];
    RawQueryNonEmpty(facts, q.slug, p);
  }

  /** A raw event in the read range shows up on the first page. */
  lemma RawQueryNonEmpty(facts: seq<Rec<Stamp>>, slug: Slug, p: RunParams)
    requires exists i :: 0 <= i < |facts| && FromStamp(slug, p)(facts[i].key).Some?
    requires p.limit >= 1 && p.offset == 0
    ensures RawQuery(facts, slug, p) != []
  {
    var raw, order := Project(facts, FromStamp(slug, p)), OrderOf(ShapeOf(slug, p.breakdown));
    var i :| 0 <= i < |facts| && FromStamp(slug, p)(facts[i].key).Some?;
    var j := ProjectImage(facts, FromStamp(slug, p), i);
    GroupKeys(raw);
    assert HasKey(raw, raw[j].key);
    assert HasKey(Group(raw), raw[j].key);
    SortSorts(order, Group(raw));
    assert |multiset(Sort(order, Group(raw)))| == |multiset(Group(raw))|;
  }

  function PageOf(p: RunParams, limit: nat, offset: nat): RunParams {
    p.(limit := limit, offset := offset)
  }

  /** The CHECK constraint on the status of an event; sources and entities are free text. */
  predicate Storable(slug: Slug, dim: string) {
    slug == StatusCounts ==> dim == "success" || dim == "failed" || dim == "pending"
  }

  ghost predicate StorableFacts(slug: Slug, facts: seq<Rec<Stamp>>) {
    forall i :: 0 <= i < |facts| ==> Storable(slug, facts[i].key.dim)
  }

  ghost predicate StorableTable(slug: Slug, table: Table) {
    forall i :: 0 <= i < |table| && table[i].key.slug == slug ==> Storable(slug, table[i].key.dim)
  }

  /** Some storable event passes the filter. */
  predicate CanMatch(slug: Slug, p: RunParams) {
    FilterOf(slug, p) == "" || Storable(slug, FilterOf(slug, p))
  }

  /** A rebuild from storable events keeps a table storable. */
  lemma RebuiltStorable(table: Table, q: Request, facts: seq<Rec<Stamp>>, run: RunId)
    requires StorableTable(q.slug, table) && StorableFacts(q.slug, facts)
    ensures StorableTable(q.slug, Rebuilt(table, q, facts, run))
  {
    var rebuilt, kept, ins := Rebuilt(table, q, facts, run), Kept(table, q), Inserted(q, facts, run);
    forall i | 0 <= i < |rebuilt| && rebuilt[i].key.slug == q.slug ensures Storable(q.slug, rebuilt[i].key.dim) {
      if i < |kept| {
        var k := ProjectOrigin(table, KeepLabel(q), i);
      } else {
        var k := ProjectOrigin(Cells(q, facts), ToLabel(q, run), i - |kept|);
        assert HasKey(Cells(q, facts), Cells(q, facts)[k].key);
        CellPresent(q, facts, Cells(q, facts)[k].key);
      }
    }
  }

  /** With a filter that no storable event passes, both sides are empty. */
  lemma NothingMatches(table: Table, facts: seq<Rec<Stamp>>, slug: Slug, p: RunParams)
    requires StorableTable(slug, table) && StorableFacts(slug, facts) && !CanMatch(slug, p)
    ensures RunQuery(table, slug, p) == RawQuery(facts, slug, p)
  {
    ProjectNone(table, FromLabel(slug, p));
    ProjectNone(facts, FromStamp(slug, p));
  }

  /** After a rebuild, all pages of a read agree with the raw events that the database can hold. */
  ghost predicate ReadAgrees(q: Request, run: RunId, p: RunParams) {
    forall table: Table, facts: seq<Rec<Stamp>>, limit: nat, offset: nat ::
      Aligned(table) && StorableTable(q.slug, table) && Positive(facts) && StorableFacts(q.slug, facts) ==>
      RunQuery(Rebuilt(table, q, facts, run), q.slug, PageOf(p, limit, offset))
      == RawQuery(facts, q.slug, PageOf(p, limit, offset))
  }

  /**
   The condition is exact: with its breakdown and filter, a read agrees with the raw events
   on every page, for every table and all events that the database can hold, if and only if
   its buckets are whole rebuilt buckets or no event can pass its filter.
   */
  lemma ReadExact(q: Request, run: RunId, p: RunParams)
    requires q.window == p.window
    ensures ReadAgrees(q, run, p) <==> WholeBucketsInside(q, p) || !CanMatch(q.slug, p)
  {
    if WholeBucketsInside(q, p) || !CanMatch(q.slug, p) {
      forall table: Table, facts: seq<Rec<Stamp>>, limit: nat, offset: nat
        | Aligned(table) && StorableTable(q.slug, table) && Positive(facts) && StorableFacts(q.slug, facts)
        ensures RunQuery(Rebuilt(table, q, facts, run), q.slug, PageOf(p, limit, offset))
                == RawQuery(facts, q.slug, PageOf(p, limit, offset))
      {
        if WholeBucketsInside(q, p) {
          ReadRefinesRaw(table, q, facts, run, PageOf(p, limit, offset));
        } else {
          RebuiltStorable(table, q, facts, run);
          NothingMatches(Rebuilt(table, q, facts, run), facts, q.slug, PageOf(p, limit, offset));
        }
      }
    } else {
      var b :| InRead(p, b) && Trunc(q.window, b) == b && !(From(q) <= b && b + Unit(q.window) <= ToExclusive(q));
      var t := if From(q) <= b then b + Unit(q.window) - 1 else b;
      BucketOf(q.window, b, t);
      GapShows(q, run, p, t);
    }
  }

  /** One event outside the rebuilt range but in the read refutes the agreement. */
  lemma GapShows(q: Request, run: RunId, p: RunParams, t: int)
    requires q.window == p.window && InRead(p, Trunc(p.window, t)) && !InRange(q, t) && CanMatch(q.slug, p)
    ensures !ReadAgrees(q, run, p)
  {
    var facts := [Rec(Stamp(t, Witness(q.slug, p)), 1)];
    ReadGap(q, run, PageOf(p, 1, 0), t);
    assert Aligned([]) && StorableTable(q.slug, []) && Positive(facts) && StorableFacts(q.slug, facts);
  }

  // ----- a read cell by cell -----

  /** The cell that a snapshot row of the read stands for, whatever the filter. */
  function ToReadCell(slug: Slug, p: RunParams): Label -> Option<Cell> {
    (l: Label) =>
      if l.slug == slug && l.window == p.window && l.metric == EventCount && l.dimKey == DimensionOf(slug)
         && InRead(p, l.bucket)
      then Some(Cell(l.bucket, l.dim))
      else None
  }

  /** The cell of an event that falls in the read. */
  function StampReadCell(p: RunParams): Stamp -> Option<Cell> {
    (s: Stamp) => if InRead(p, Trunc(p.window, s.at)) then Some(Cell(Trunc(p.window, s.at), s.dim)) else None
  }

  function CellKey(slug: Slug, p: RunParams): Cell -> Option<GroupKey> {
    (c: Cell) =>
      if PassesFilter(slug, p, c.dim) then Some(KeyOf(ShapeOf(slug, p.breakdown), Midnight(c.bucket), c.dim)) else None
  }

  /** A table that agrees with the events on every cell of the read answers it as the events do. */
  lemma CellsRefineRaw(table: Table, facts: seq<Rec<Stamp>>, slug: Slug, p: RunParams)
    requires Positive(facts) && Positive(Project(table, ToReadCell(slug, p)))
    requires forall c ::
               Total(Project(table, ToReadCell(slug, p)), Is(c)) == Total(Project(facts, StampReadCell(p)), Is(c))
    ensures RunQuery(table, slug, p) == RawQuery(facts, slug, p)
  {
    var cells, raw, key := Project(table, ToReadCell(slug, p)), Project(facts, StampReadCell(p)), CellKey(slug, p);
    var a, b := Project(cells, key), Project(raw, key);
    KeysThroughCells(table, facts, slug, p);
    ProjectPositive(facts, StampReadCell(p));
    ProjectPositive(cells, key);
    ProjectPositive(raw, key);
    forall k ensures Total(a, Is(k)) == Total(b, Is(k)) {
      ProjectTotal(cells, key, Is(k));
      ProjectTotal(raw, key, Is(k));
      KeysDetermineTotals(cells, raw, Pull(key, Is(k)));
    }
    SameGroups(a, b);
    GroupKeys(a);
    GroupKeys(b);
    SortUnique(OrderOf(ShapeOf(slug, p.breakdown)), Group(a), Group(b));
  }

  /** Both selections go through the cells of the read. */
  lemma KeysThroughCells(table: Table, facts: seq<Rec<Stamp>>, slug: Slug, p: RunParams)
    ensures Project(table, FromLabel(slug, p)) == Project(Project(table, ToReadCell(slug, p)), CellKey(slug, p))
    ensures Project(facts, FromStamp(slug, p)) == Project(Project(facts, StampReadCell(p)), CellKey(slug, p))
  {
    ProjectThen(table, ToReadCell(slug, p), CellKey(slug, p));
    ProjectThen(facts, StampReadCell(p), CellKey(slug, p));
    ProjectSame(table, FromLabel(slug, p), Then(ToReadCell(slug, p), CellKey(slug, p)));
    ProjectSame(facts, FromStamp(slug, p), Then(StampReadCell(p), CellKey(slug, p)));
  }

  // ----- ranking and paging -----

  /** The ordered result lists every group once, strictly ordered. */
  lemma FullResultSorted(table: Table, slug: Slug, p: RunParams)
    ensures
      var rs := FullResult(table, slug, p);
      && Sorted(OrderOf(ShapeOf(slug, p.breakdown)), rs)
      && (forall i, j :: 0 <= i < j < |rs| ==> rs[i].key != rs[j].key)
      && (forall r :: r in rs <==> HasKey(Project(table, FromLabel(slug, p)), r.key)
                                   && r.value == Total(table, Pull(FromLabel(slug, p), Is(r.key))))
  {
    var items := Project(table, FromLabel(slug, p));
    var rs := FullResult(table, slug, p);
    GroupKeys(items);
    SortSorts(OrderOf(ShapeOf(slug, p.breakdown)), Group(items));
    SameElements(rs, Group(items));
    forall r ensures r in rs <==> HasKey(items, r.key) && r.value == Total(table, Pull(FromLabel(slug, p), Is(r.key))) {
      GroupRow(items, r);
      ProjectTotal(table, FromLabel(slug, p), Is(r.key));
    }
    forall i, j | 0 <= i < j < |rs| ensures rs[i].key != rs[j].key {
      OrderIsTotal(OrderOf(ShapeOf(slug, p.breakdown)), rs[i], rs[j]);
      assert rs[i] in rs && rs[j] in rs;
    }
  }

  /** The pages of a query, n of them from offset zero. */
  function PagedResult(table: Table, slug: Slug, p: RunParams, n: nat): seq<ResultRow> {
    if n == 0 then []
    else PagedResult(table, slug, p, n - 1) + RunQuery(table, slug, p.(offset := PageStart(n - 1, p.limit)))
  }

  /** Consecutive pages concatenate to a prefix of the full result, and enough of them to all of it. */
  lemma {:induction false} PagingIsComplete(table: Table, slug: Slug, p: RunParams, n: nat)
    ensures PagedResult(table, slug, p, n)
            == FullResult(table, slug, p)[..Min(PageStart(n, p.limit), |FullResult(table, slug, p)|)]
    ensures p.limit >= 1 && n >= |FullResult(table, slug, p)| ==>
              PagedResult(table, slug, p, n) == FullResult(table, slug, p)
  {
    PagedIsPages(table, slug, p, n);
    PagesCover(FullResult(table, slug, p), p.limit, n);
    if p.limit >= 1 {
      PageStartGrows(n, p.limit);
    }
  }

  lemma {:induction false} PagedIsPages(table: Table, slug: Slug, p: RunParams, n: nat)
    ensures PagedResult(table, slug, p, n) == Pages(FullResult(table, slug, p), p.limit, n)
  {
    if n > 0 {
      PagedIsPages(table, slug, p, n - 1);
      PageAt(table, slug, p, PageStart(n - 1, p.limit));
    }
  }

  lemma PageAt(table: Table, slug: Slug, p: RunParams, offset: nat)
    ensures RunQuery(table, slug, p.(offset := offset)) == Page(FullResult(table, slug, p), p.limit, offset)
  {
    ProjectSame(table, FromLabel(slug, p.(offset := offset)), FromLabel(slug, p));
  }

  /** No entity outside a top-entities page prefix has a higher count than one inside it. */
  lemma TopPrefixDominates(table: Table, p: RunParams, n: nat, i: nat, j: nat)
    requires i < n <= j < |FullResult(table, TopEntities, p)|
    ensures FullResult(table, TopEntities, p)[i].value >= FullResult(table, TopEntities, p)[j].value
  {
    FullResultSorted(table, TopEntities, p);
  }

  // ----- row order, other reports, normalised parameters -----

  /** A query result does not depend on the physical order of the rows. */
  lemma QueryIgnoresRowOrder(a: Table, b: Table, slug: Slug, p: RunParams)
    requires multiset(a) == multiset(b)
    ensures RunQuery(a, slug, p) == RunQuery(b, slug, p)
  {
    var f := FromLabel(slug, p);
    var x, y := Project(a, f), Project(b, f);
    forall r ensures r in Group(x) <==> r in Group(y) {
      GroupRow(x, r);
      GroupRow(y, r);
      ProjectTotal(a, f, Is(r.key));
      ProjectTotal(b, f, Is(r.key));
      TotalPermuted(a, b, Pull(f, Is(r.key)));
      ProjectHasKey(a, f, r.key);
      ProjectHasKey(b, f, r.key);
      SameElements(a, b);
      SameElements(b, a);
      if i :| 0 <= i < |a| && f(a[i].key) == Some(r.key) {
        var j :| 0 <= j < |b| && b[j] == a[i];
      }
      if j :| 0 <= j < |b| && f(b[j].key) == Some(r.key) {
        var i :| 0 <= i < |a| && a[i] == b[j];
      }
    }
    GroupKeys(x);
    GroupKeys(y);
    SortUnique(OrderOf(ShapeOf(slug, p.breakdown)), Group(x), Group(y));
  }

  function OfSlug(slug: Slug): Label -> Option<Label> {
    (l: Label) => if l.slug == slug then Some(l) else None
  }

  /** The part of the table that a report can see. */
  function RowsOf(table: Table, slug: Slug): Table {
    Project(table, OfSlug(slug))
  }

  lemma QueryReadsOwnRows(a: Table, b: Table, slug: Slug, p: RunParams)
    requires RowsOf(a, slug) == RowsOf(b, slug)
    ensures ExecuteReport(a, slug, p) == ExecuteReport(b, slug, p)
  {
    var f, g := OfSlug(slug), FromLabel(slug, p);
    ProjectThen(a, f, g);
    ProjectThen(b, f, g);
    ProjectSame(a, Then(f, g), g);
    ProjectSame(b, Then(f, g), g);
  }

  /** A rebuild of one report leaves the rows of every other report as they were. */
  lemma RebuildKeepsOthers(table: Table, q: Request, facts: seq<Rec<Stamp>>, run: RunId, slug: Slug)
    requires slug != q.slug
    ensures RowsOf(Rebuilt(table, q, facts, run), slug) == RowsOf(table, slug)
  {
    var ins := Inserted(q, facts, run);
    InsertedIsCleared(q, facts, run);
    ProjectConcat(Kept(table, q), ins, OfSlug(slug));
    ProjectNone(ins, OfSlug(slug));
    ProjectThen(table, KeepLabel(q), OfSlug(slug));
    ProjectSame(table, Then(KeepLabel(q), OfSlug(slug)), OfSlug(slug));
  }

  /** The normal form that the cache key hashes: every field, with the dates cut to days. */
  function Normalize(p: RunParams): RunParams {
    p.(dateFrom := Midnight(p.dateFrom), dateTo := Midnight(p.dateTo))
  }

  /** Two parameter sets have the same normal form exactly when they differ only within their days. */
  lemma NormalFormExact(p: RunParams, p': RunParams)
    ensures Normalize(p) == Normalize(p')
            <==> p.dateFrom / DAY == p'.dateFrom / DAY && p.dateTo / DAY == p'.dateTo / DAY
                 && p.(dateFrom := 0, dateTo := 0) == p'.(dateFrom := 0, dateTo := 0)
  {
    SameMidnight(p.dateFrom, p'.dateFrom);
    SameMidnight(p.dateTo, p'.dateTo);
    var n, n' := Normalize(p), Normalize(p');
    assert n == n' <==> n.dateFrom == n'.dateFrom && n.dateTo == n'.dateTo
                        && n.(dateFrom := 0, dateTo := 0) == n'.(dateFrom := 0, dateTo := 0);
  }

  lemma SameMidnight(s: int, t: int)
    ensures Midnight(s) == Midnight(t) <==> s / DAY == t / DAY
  {
    assert s == DAY * (s / DAY) + s % DAY && t == DAY * (t / DAY) + t % DAY;
  }

  /** Parameters with the same normal form give the same result on every table. */
  lemma NormalFormIsSound(table: Table, slug: Slug, p: RunParams, p': RunParams)
    requires Normalize(p) == Normalize(p')
    ensures ExecuteReport(table, slug, p) == ExecuteReport(table, slug, p')
  {
    assert p.window == p'.window && p.breakdown == p'.breakdown && p.source == p'.source && p.status == p'.status;
    ProjectSame(table, FromLabel(slug, p), FromLabel(slug, p'));
  }

  // ----- breakdown coherence -----

  function OnDate(d: int): GroupKey -> bool {
    (k: GroupKey) => k.date == Some(d)
  }

  function OnDim(dim: string): GroupKey -> bool {
    (k: GroupKey) => k.dim == Some(dim)
  }

  lemma FullResultTotal(table: Table, slug: Slug, p: RunParams, g: GroupKey -> bool)
    ensures Total(FullResult(table, slug, p), g) == Total(table, Pull(FromLabel(slug, p), g))
  {
    var items := Project(table, FromLabel(slug, p));
    GroupKeys(items);
    SortSorts(OrderOf(ShapeOf(slug, p.breakdown)), Group(items));
    TotalPermuted(FullResult(table, slug, p), Group(items), g);
    GroupKeepsTotals(items, g);
    ProjectTotal(table, FromLabel(slug, p), g);
  }

  lemma FullResultKeys(table: Table, slug: Slug, p: RunParams, k: GroupKey)
    ensures HasKey(FullResult(table, slug, p), k)
            <==> exists i :: 0 <= i < |table| && FromLabel(slug, p)(table[i].key) == Some(k)
  {
    var items := Project(table, FromLabel(slug, p));
    GroupKeys(items);
    SortKeepsKey(OrderOf(ShapeOf(slug, p.breakdown)), Group(items), k);
    ProjectHasKey(table, FromLabel(slug, p), k);
  }

  /**
   Volume: the source rows of a date sum to the date's period row, and a date appears in
   one form exactly when it appears in the other.
   */
  lemma VolumeBreakdown(table: Table, p: RunParams, period: RunParams, d: int)
    requires EqualFold(p.breakdown, "source") && !EqualFold(period.breakdown, "source")
    requires period == p.(breakdown := period.breakdown)
    ensures Total(FullResult(table, VolumeByPeriod, p), OnDate(d))
            == Total(FullResult(table, VolumeByPeriod, period), Is(GroupKey(Some(d), None)))
    ensures HasKey(FullResult(table, VolumeByPeriod, period), GroupKey(Some(d), None))
            <==> exists dim :: HasKey(FullResult(table, VolumeByPeriod, p), GroupKey(Some(d), Some(dim)))
  {
    var f, g := FromLabel(VolumeByPeriod, p), FromLabel(VolumeByPeriod, period);
    FullResultTotal(table, VolumeByPeriod, p, OnDate(d));
    FullResultTotal(table, VolumeByPeriod, period, Is(GroupKey(Some(d), None)));
    TotalSame(table, Pull(f, OnDate(d)), Pull(g, Is(GroupKey(Some(d), None))));
    FullResultKeys(table, VolumeByPeriod, period, GroupKey(Some(d), None));
    forall dim
      ensures HasKey(FullResult(table, VolumeByPeriod, p), GroupKey(Some(d), Some(dim)))
              <==> exists i :: 0 <= i < |table| && f(table[i].key) == Some(GroupKey(Some(d), Some(dim)))
    {
      FullResultKeys(table, VolumeByPeriod, p, GroupKey(Some(d), Some(dim)));
    }
    if i :| 0 <= i < |table| && g(table[i].key) == Some(GroupKey(Some(d), None)) {
      assert f(table[i].key) == Some(GroupKey(Some(d), Some(table[i].key.dim)));
    }
    if dim, i :| 0 <= i < |table| && f(table[i].key) == Some(GroupKey(Some(d), Some(dim))) {
      assert g(table[i].key) == Some(GroupKey(Some(d), None));
    }
  }

  /**
   Status: the period rows of a status sum to the status's total row, and a status appears
   in one form exactly when it appears in the other.
   */
  lemma StatusBreakdown(table: Table, p: RunParams, total: RunParams, dim: string)
    requires EqualFold(p.breakdown, "period") && !EqualFold(total.breakdown, "period")
    requires total == p.(breakdown := total.breakdown)
    ensures Total(FullResult(table, StatusCounts, p), OnDim(dim))
            == Total(FullResult(table, StatusCounts, total), Is(GroupKey(None, Some(dim))))
    ensures HasKey(FullResult(table, StatusCounts, total), GroupKey(None, Some(dim)))
            <==> exists d :: HasKey(FullResult(table, StatusCounts, p), GroupKey(Some(d), Some(dim)))
  {
    var f, g := FromLabel(StatusCounts, p), FromLabel(StatusCounts, total);
    FullResultTotal(table, StatusCounts, p, OnDim(dim));
    FullResultTotal(table, StatusCounts, total, Is(GroupKey(None, Some(dim))));
    TotalSame(table, Pull(f, OnDim(dim)), Pull(g, Is(GroupKey(None, Some(dim)))));
    FullResultKeys(table, StatusCounts, total, GroupKey(None, Some(dim)));
    forall d
      ensures HasKey(FullResult(table, StatusCounts, p), GroupKey(Some(d), Some(dim)))
              <==> exists i :: 0 <= i < |table| && f(table[i].key) == Some(GroupKey(Some(d), Some(dim)))
    {
      FullResultKeys(table, StatusCounts, p, GroupKey(Some(d), Some(dim)));
    }
    if i :| 0 <= i < |table| && g(table[i].key) == Some(GroupKey(None, Some(dim))) {
      assert f(table[i].key) == Some(GroupKey(Some(Midnight(table[i].key.bucket)), Some(dim)));
    }
    if d, i :| 0 <= i < |table| && f(table[i].key) == Some(GroupKey(Some(d), Some(dim))) {
      assert g(table[i].key) == Some(GroupKey(None, Some(dim)));
    }
  }
}
