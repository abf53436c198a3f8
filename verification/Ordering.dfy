/**
 Result rows, the two ORDER BY clauses of the report queries, sorting, and
 LIMIT/OFFSET. Text is compared by code point.
 */
module Ordering {
  import opened Common
  import opened Aggregate

  /** The grouping columns of a result row; a query leaves out the ones it does not select. */
  datatype GroupKey = GroupKey(date: Option<int>, dim: Option<string>)

  type ResultRow = Rec<GroupKey>

  /** ByKey: bucket_date ASC, dimension ASC. ByCount: event_count DESC, dimension ASC. */
  datatype Order = ByKey | ByCount

  predicate TextLess(a: string, b: string) {
    if b == [] then false
    else if a == [] then true
    else if a[0] != b[0] then a[0] < b[0]
    else TextLess(a[1..], b[1..])
  }

  predicate DimLess(a: Option<string>, b: Option<string>) {
    match (a, b)
    case (_, None) => false
    case (None, Some(_)) => true
    case (Some(x), Some(y)) => TextLess(x, y)
  }

  predicate DateLess(a: Option<int>, b: Option<int>) {
    match (a, b)
    case (_, None) => false
    case (None, Some(_)) => true
    case (Some(x), Some(y)) => x < y
  }

  predicate KeyLess(a: GroupKey, b: GroupKey) {
    DateLess(a.date, b.date) || (a.date == b.date && DimLess(a.dim, b.dim))
  }

  predicate Less(o: Order, a: ResultRow, b: ResultRow) {
    match o
    case ByKey => KeyLess(a.key, b.key)
    case ByCount => a.value > b.value || (a.value == b.value && KeyLess(a.key, b.key))
  }

  function Insert(o: Order, r: ResultRow, rs: seq<ResultRow>): seq<ResultRow> {
    if rs == [] then [r]
    else if Less(o, r, rs[0]) then [r] + rs
    else [rs[0]] + Insert(o, r, rs[1..])
  }

  function Sort(o: Order, rs: seq<ResultRow>): seq<ResultRow> {
    if rs == [] then [] else Insert(o, rs[|rs| - 1], Sort(o, rs[..|rs| - 1]))
  }

  ghost predicate Sorted(o: Order, rs: seq<ResultRow>) {
    forall i, j :: 0 <= i < j < |rs| ==> Less(o, rs[i], rs[j])
  }

  function Min(a: int, b: int): int {
    if a < b then a else b
  }

  /** LIMIT limit OFFSET offset. */
  function Page<T>(rs: seq<T>, limit: nat, offset: nat): seq<T> {
    rs[Min(offset, |rs|)..Min(offset + limit, |rs|)]
  }

  /** The offset of page n: n times limit. */
  function PageStart(n: nat, limit: nat): nat {
    if n == 0 then 0 else PageStart(n - 1, limit) + limit
  }

  /** The first n pages of the given size, one after the other. */
  function Pages<T>(rs: seq<T>, limit: nat, n: nat): seq<T> {
    if n == 0 then [] else Pages(rs, limit, n - 1) + Page(rs, limit, PageStart(n - 1, limit))
  }

  // ----- both orders are strict total orders -----

  lemma {:induction false} TextTotal(a: string, b: string)
    ensures !(TextLess(a, b) && TextLess(b, a))
    ensures a == b <==> !TextLess(a, b) && !TextLess(b, a)
  {
    if a != [] && b != [] && a[0] == b[0] {
      TextTotal(a[1..], b[1..]);
      assert a == [a[0]] + a[1..] && b == [b[0]] + b[1..];
    }
  }

  lemma {:induction false} TextTransitive(a: string, b: string, c: string)
    requires TextLess(a, b) && TextLess(b, c)
    ensures TextLess(a, c)
  {
    if a != [] && a[0] == b[0] == c[0] {
      TextTransitive(a[1..], b[1..], c[1..]);
    }
  }

  lemma KeyTotal(a: GroupKey, b: GroupKey)
    ensures !(KeyLess(a, b) && KeyLess(b, a))
    ensures a == b <==> !KeyLess(a, b) && !KeyLess(b, a)
  {
    if a.dim.Some? && b.dim.Some? {
      TextTotal(a.dim.value, b.dim.value);
    }
  }

  lemma KeyTransitive(a: GroupKey, b: GroupKey, c: GroupKey)
    requires KeyLess(a, b) && KeyLess(b, c)
    ensures KeyLess(a, c)
  {
    if a.dim.Some? && b.dim.Some? && c.dim.Some?
       && TextLess(a.dim.value, b.dim.value) && TextLess(b.dim.value, c.dim.value) {
      TextTransitive(a.dim.value, b.dim.value, c.dim.value);
    }
  }

  /** ORDER BY leaves no ties: two rows that neither precede nor follow each other are the same row. */
  lemma OrderIsTotal(o: Order, a: ResultRow, b: ResultRow)
    ensures !(Less(o, a, b) && Less(o, b, a))
    ensures a.key != b.key ==> Less(o, a, b) || Less(o, b, a)
    ensures a == b ==> !Less(o, a, b)
  {
    KeyTotal(a.key, b.key);
  }

  lemma OrderIsTransitive(o: Order, a: ResultRow, b: ResultRow, c: ResultRow)
    requires Less(o, a, b) && Less(o, b, c)
    ensures Less(o, a, c)
  {
    if KeyLess(a.key, b.key) && KeyLess(b.key, c.key) {
      KeyTransitive(a.key, b.key, c.key);
    }
  }

  // ----- sorting -----

  lemma InsertKeepsLeast(o: Order, r: ResultRow, rs: seq<ResultRow>, rest: seq<ResultRow>)
    requires rs != [] && Sorted(o, rs) && Less(o, rs[0], r) && multiset(rest) == multiset(rs[1..]) + multiset{r}
    ensures forall j :: 0 <= j < |rest| ==> Less(o, rs[0], rest[j])
  {
    forall j | 0 <= j < |rest| ensures Less(o, rs[0], rest[j]) {
      assert rest[j] in multiset(rest);
      assert rest[j] == r || rest[j] in rs[1..];
    }
  }

  lemma {:induction false} InsertSorts(o: Order, r: ResultRow, rs: seq<ResultRow>)
    requires Sorted(o, rs)
    requires forall i :: 0 <= i < |rs| ==> rs[i].key != r.key
    ensures Sorted(o, Insert(o, r, rs))
    ensures multiset(Insert(o, r, rs)) == multiset(rs) + multiset{r}
  {
    if rs != [] {
      assert rs == [rs[0]] + rs[1..];
      if Less(o, r, rs[0]) {
        forall j | 0 <= j < |rs| ensures Less(o, r, rs[j]) {
          if j > 0 {
            OrderIsTransitive(o, r, rs[0], rs[j]);
          }
        }
      } else {
        InsertSorts(o, r, rs[1..]);
        OrderIsTotal(o, r, rs[0]);
        InsertKeepsLeast(o, r, rs, Insert(o, r, rs[1..]));
      }
    }
  }

  lemma SameElements<T>(a: seq<T>, b: seq<T>)
    requires multiset(a) == multiset(b)
    ensures forall x :: x in a <==> x in b
    ensures forall i :: 0 <= i < |a| ==> a[i] in b
  {
    forall x ensures x in a <==> x in b {
      assert x in a <==> x in multiset(a);
      assert x in b <==> x in multiset(b);
    }
  }

  lemma {:induction false} SortSorts(o: Order, rs: seq<ResultRow>)
    requires Distinct(rs)
    ensures Sorted(o, Sort(o, rs))
    ensures multiset(Sort(o, rs)) == multiset(rs)
  {
    if rs != [] {
      var init, last := rs[..|rs| - 1], rs[|rs| - 1];
      SortSorts(o, init);
      assert rs == init + [last];
      LastKeyIsNew(init, last, Sort(o, init));
      InsertSorts(o, last, Sort(o, init));
    }
  }

  lemma LastKeyIsNew(init: seq<ResultRow>, last: ResultRow, s: seq<ResultRow>)
    requires Distinct(init + [last]) && multiset(s) == multiset(init)
    ensures forall i :: 0 <= i < |s| ==> s[i].key != last.key
  {
    var rs := init + [last];
    SameElements(s, init);
    forall i | 0 <= i < |s| ensures s[i].key != last.key {
      var j :| 0 <= j < |init| && init[j] == s[i];
      assert rs[j] == init[j] && rs[|init|] == last;
    }
  }

  lemma SortKeepsKey(o: Order, rs: seq<ResultRow>, k: GroupKey)
    requires Distinct(rs)
    ensures HasKey(Sort(o, rs), k) <==> HasKey(rs, k)
  {
    var s := Sort(o, rs);
    SortSorts(o, rs);
    SameElements(s, rs);
    if i :| 0 <= i < |rs| && rs[i].key == k {
      assert rs[i] in s;
    }
    if i :| 0 <= i < |s| && s[i].key == k {
      assert s[i] in rs;
    }
  }

  /** A strictly sorted list is determined by its members. */
  lemma {:induction false} SortedUnique(o: Order, a: seq<ResultRow>, b: seq<ResultRow>)
    requires Sorted(o, a) && Sorted(o, b)
    requires forall r :: r in a <==> r in b
    ensures a == b
  {
    assert a != [] ==> a[0] in b;
    assert b != [] ==> b[0] in a;
    if a != [] {
      OrderIsTotal(o, a[0], b[0]);
      assert a[0] == b[0];
      forall r ensures r in a[1..] <==> r in b[1..] {
        assert r in a <==> r == a[0] || r in a[1..];
        assert r in b <==> r == b[0] || r in b[1..];
        OrderIsTotal(o, a[0], a[0]);
      }
      SortedUnique(o, a[1..], b[1..]);
      assert a == [a[0]] + a[1..] && b == [b[0]] + b[1..];
    }
  }

  /** Equal sets of groups sort to equal lists. */
  lemma SortUnique(o: Order, a: seq<ResultRow>, b: seq<ResultRow>)
    requires Distinct(a) && Distinct(b)
    requires forall r :: r in a <==> r in b
    ensures Sort(o, a) == Sort(o, b)
  {
    SortSorts(o, a);
    SortSorts(o, b);
    SameElements(Sort(o, a), a);
    SameElements(Sort(o, b), b);
    SortedUnique(o, Sort(o, a), Sort(o, b));
  }

  // ----- paging -----

  lemma {:induction false} PageStartGrows(n: nat, limit: nat)
    requires limit >= 1
    ensures PageStart(n, limit) >= n
  {
    if n > 0 {
      PageStartGrows(n - 1, limit);
    }
  }

  /** Consecutive pages of any size concatenate to a prefix of the full result, without gap or overlap. */
  lemma {:induction false} PagesCover<T>(rs: seq<T>, limit: nat, n: nat)
    ensures Pages(rs, limit, n) == rs[..Min(PageStart(n, limit), |rs|)]
  {
    if n > 0 {
      PagesCover(rs, limit, n - 1);
      var lo, hi := Min(PageStart(n - 1, limit), |rs|), Min(PageStart(n, limit), |rs|);
      assert rs[..lo] + rs[lo..hi] == rs[..hi];
    }
  }
}
