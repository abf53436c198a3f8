/**
 What the report queries return, on the columns of the snapshot rows: which rows are summed,
 under which key, in which order, and which page of them. Nothing here goes through the
 shapes, orders and projections of the statements.
 */
module QueryMeaning {
  import opened Common
  import opened Time
  import opened Aggregate
  import opened Ordering
  import opened Snapshots
  import opened Reports

  // ----- names -----

  /** x sorts before y by code points: it is a proper prefix, or smaller where they first differ. */
  ghost predicate Precedes(x: string, y: string) {
    exists k: nat :: Differs(x, y, k)
  }

  predicate Differs(x: string, y: string, k: nat) {
    k <= |x| && k < |y| && x[..k] == y[..k] && (k < |x| ==> x[k] < y[k])
  }

  lemma {:induction false} TextLessPrecedes(x: string, y: string)
    ensures TextLess(x, y) <==> Precedes(x, y)
  {
    if x != [] && y != [] && x[0] == y[0] {
      TextLessPrecedes(x[1..], y[1..]);
      if k: nat :| Differs(x[1..], y[1..], k) {
        assert x[..k + 1] == [x[0]] + x[1..][..k] && y[..k + 1] == [y[0]] + y[1..][..k];
        assert Differs(x, y, k + 1);
      }
      if k: nat :| Differs(x, y, k) {
        assert k > 0;
        assert x[1..][..k - 1] == x[..k][1..] && y[1..][..k - 1] == y[..k][1..];
        assert Differs(x[1..], y[1..], k - 1);
      }
    } else if TextLess(x, y) {
      assert Differs(x, y, 0);
    } else if k: nat :| Differs(x, y, k) {
      DiffersFirst(x, y, k);
    }
  }

  lemma DiffersFirst(x: string, y: string, k: nat)
    requires Differs(x, y, k)
    ensures y != [] && (x == [] || x[0] <= y[0])
  {
    if k > 0 {
      assert x[..k][0] == y[..k][0];
    }
  }

  /** strings.EqualFold(s, "source"), letter by letter; U+017F folds to s. */
  predicate SaysSource(s: string) {
    && |s| == 6 && s[0] in {'s', 'S', '\U{17F}'} && s[1] in {'o', 'O'} && s[2] in {'u', 'U'}
    && s[3] in {'r', 'R'} && s[4] in {'c', 'C'} && s[5] in {'e', 'E'}
  }

  predicate SaysPeriod(s: string) {
    && |s| == 6 && s[0] in {'p', 'P'} && s[1] in {'e', 'E'} && s[2] in {'r', 'R'}
    && s[3] in {'i', 'I'} && s[4] in {'o', 'O'} && s[5] in {'d', 'D'}
  }

  lemma FoldIs(c: char, lower: char)
    requires 'a' <= lower <= 'z'
    ensures Fold(c) == Fold(lower)
            <==> c == lower || c == lower - 32 as char || (lower == 's' && c == '\U{17F}')
                 || (lower == 'k' && c == '\U{212A}')
  {}

  lemma SourceFolds(s: string)
    ensures EqualFold(s, "source") <==> SaysSource(s)
  {
    var t := "source";
    if |s| == 6 {
      assert t[0] == 's' && t[1] == 'o' && t[2] == 'u' && t[3] == 'r' && t[4] == 'c' && t[5] == 'e';
      forall i | 0 <= i < 6
        ensures Fold(s[i]) == Fold(t[i])
                <==> s[i] == t[i] || s[i] == t[i] - 32 as char || (t[i] == 's' && s[i] == '\U{17F}')
      {
        FoldIs(s[i], t[i]);
      }
    }
  }

  lemma PeriodFolds(s: string)
    ensures EqualFold(s, "period") <==> SaysPeriod(s)
  {
    var t := "period";
    if |s| == 6 {
      assert t[0] == 'p' && t[1] == 'e' && t[2] == 'r' && t[3] == 'i' && t[4] == 'o' && t[5] == 'd';
      forall i | 0 <= i < 6 ensures Fold(s[i]) == Fold(t[i]) <==> s[i] == t[i] || s[i] == t[i] - 32 as char {
        FoldIs(s[i], t[i]);
      }
    }
  }

  // ----- WHERE, GROUP BY and SUM -----

  /** The calendar days of the read hold the bucket. */
  predicate OnDays(p: RunParams, bucket: int) {
    p.dateFrom / DAY <= bucket / DAY <= p.dateTo / DAY
  }

  /** WHERE, for each report. */
  predicate Selected(slug: Slug, p: RunParams, l: Label) {
    && l.slug == slug && l.window == p.window && l.metric == EventCount && OnDays(p, l.bucket)
    && match slug
       case VolumeByPeriod => l.dimKey == Source && (p.source == "" || l.dim == p.source)
       case StatusCounts => l.dimKey == Status && (p.status == "" || l.dim == p.status)
       case TopEntities => l.dimKey == EntityId
       case Unsupported(_) => false
  }

  /** The result has a date column. */
  predicate ByDates(slug: Slug, p: RunParams) {
    slug == VolumeByPeriod || (slug == StatusCounts && SaysPeriod(p.breakdown))
  }

  /** The result has a column for source, status or entity. */
  predicate ByNames(slug: Slug, p: RunParams) {
    slug == VolumeByPeriod ==> SaysSource(p.breakdown)
  }

  /** The row of the table belongs to the group of the result row. */
  predicate InGroup(slug: Slug, p: RunParams, l: Label, key: GroupKey) {
    && (if ByDates(slug, p) then key.date.Some? && key.date.value == (l.bucket / DAY) * DAY else key.date.None?)
    && (if ByNames(slug, p) then key.dim == Some(l.dim) else key.dim.None?)
  }

  function Summed(slug: Slug, p: RunParams, key: GroupKey): Label -> bool {
    (l: Label) => Selected(slug, p, l) && InGroup(slug, p, l, key)
  }

  lemma DayFloor(t: int)
    ensures Midnight(t) == (t / DAY) * DAY
  {
    assert t == DAY * (t / DAY) + t % DAY;
  }

  lemma ReadDays(p: RunParams, bucket: int)
    ensures InRead(p, bucket) <==> OnDays(p, bucket)
  {
    DayFloor(p.dateFrom);
    DayFloor(p.dateTo);
    DayFloor(bucket);
  }

  /** The statement's selection and grouping, on one row. */
  lemma LabelSummed(slug: Slug, p: RunParams, l: Label, key: GroupKey)
    requires Supported(slug)
    ensures FromLabel(slug, p)(l) == Some(key) <==> Summed(slug, p, key)(l)
  {
    ReadDays(p, l.bucket);
    DayFloor(l.bucket);
    SourceFolds(p.breakdown);
    PeriodFolds(p.breakdown);
  }

  /** The rows of a result before paging: one for each group of selected rows, with the sum of their values. */
  lemma QueryRows(table: Table, slug: Slug, p: RunParams, r: ResultRow)
    requires Supported(slug)
    ensures r in FullResult(table, slug, p)
            <==> (exists i :: 0 <= i < |table| && Summed(slug, p, r.key)(table[i].key))
                 && r.value == Total(table, Summed(slug, p, r.key))
  {
    var select := FromLabel(slug, p);
    FullResultSorted(table, slug, p);
    ProjectHasKey(table, select, r.key);
    forall i | 0 <= i < |table|
      ensures Pull(select, Is(r.key))(table[i].key) == Summed(slug, p, r.key)(table[i].key)
      ensures select(table[i].key) == Some(r.key) <==> Summed(slug, p, r.key)(table[i].key)
    {
      LabelSummed(slug, p, table[i].key, r.key);
    }
    TotalSame(table, Pull(select, Is(r.key)), Summed(slug, p, r.key));
  }

  // ----- ORDER BY -----

  /** Dates first, oldest first; then names. */
  ghost predicate DateOrder(a: ResultRow, b: ResultRow) {
    && a.key.date.Some? && b.key.date.Some? && a.key.date.value <= b.key.date.value
    && (a.key.date == b.key.date ==> NameOrder(a, b))
  }

  /** Greatest counts first; then names. */
  ghost predicate CountOrder(a: ResultRow, b: ResultRow) {
    a.value >= b.value && (a.value == b.value ==> NameOrder(a, b))
  }

  ghost predicate NameOrder(a: ResultRow, b: ResultRow) {
    a.key.dim.Some? && b.key.dim.Some? && Precedes(a.key.dim.value, b.key.dim.value)
  }

  /** Every row of a result has the columns of its query. */
  lemma RowColumns(table: Table, slug: Slug, p: RunParams, i: nat)
    requires Supported(slug) && i < |FullResult(table, slug, p)|
    ensures FullResult(table, slug, p)[i].key.date.Some? <==> ByDates(slug, p)
    ensures FullResult(table, slug, p)[i].key.dim.Some? <==> ByNames(slug, p)
  {
    var r := FullResult(table, slug, p)[i];
    assert r in FullResult(table, slug, p);
    QueryRows(table, slug, p, r);
  }

  /**
   The order of a result: by date and then by name where the query has a date column, and
   else by falling count and then by name. No two rows tie.
   */
  lemma QueryOrder(table: Table, slug: Slug, p: RunParams, i: nat, j: nat)
    requires Supported(slug) && i < j < |FullResult(table, slug, p)|
    ensures
      var a, b := FullResult(table, slug, p)[i], FullResult(table, slug, p)[j];
      if ByDates(slug, p) then DateOrder(a, b) else CountOrder(a, b)
  {
    var a, b := FullResult(table, slug, p)[i], FullResult(table, slug, p)[j];
    FullResultSorted(table, slug, p);
    RowColumns(table, slug, p, i);
    RowColumns(table, slug, p, j);
    SourceFolds(p.breakdown);
    PeriodFolds(p.breakdown);
    if a.key.dim.Some? && b.key.dim.Some? {
      TextLessPrecedes(a.key.dim.value, b.key.dim.value);
    }
  }

  // ----- LIMIT and OFFSET -----

  /** A page holds the rows of the result from the offset on, at most limit of them. */
  lemma QueryPage(table: Table, slug: Slug, p: RunParams)
    ensures
      var full, page := FullResult(table, slug, p), RunQuery(table, slug, p);
      && |page| <= p.limit && (|page| < p.limit ==> p.offset + |page| >= |full|)
      && (forall i :: 0 <= i < |page| ==> p.offset + i < |full| && page[i] == full[p.offset + i])
  {}
}
