/**
 The Redis key strings and the calendar dates in them. Both formats determine their
 components for arbitrary report slugs, because they can be parsed from the right.
 */
module Keys {
  import opened Time
  import opened Snapshots

  // ----- calendar -----

  datatype Date = Date(year: nat, month: nat, day: nat)

  predicate Leap(y: nat) {
    y % 4 == 0 && (y % 100 != 0 || y % 400 == 0)
  }

  function DaysIn(y: nat, m: nat): (n: nat)
    ensures 28 <= n <= 31
  {
    if m == 2 then (if Leap(y) then 29 else 28)
    else if m in {4, 6, 9, 11} then 30
    else 31
  }

  predicate OnCalendar(d: Date) {
    1 <= d.month <= 12 && 1 <= d.day <= DaysIn(d.year, d.month)
  }

  function NextDay(d: Date): Date {
    if d.day < DaysIn(d.year, d.month) then d.(day := d.day + 1)
    else if d.month < 12 then Date(d.year, d.month + 1, 1)
    else Date(d.year + 1, 1, 1)
  }

  /** The date n days after 0000-01-01 of the proleptic Gregorian calendar. */
  function CivilDate(n: nat): (d: Date)
    ensures OnCalendar(d)
  {
    if n == 0 then Date(0, 1, 1) else NextDay(CivilDate(n - 1))
  }

  predicate Earlier(a: Date, b: Date) {
    a.year < b.year || (a.year == b.year && (a.month < b.month || (a.month == b.month && a.day < b.day)))
  }

  lemma {:induction false} CivilDatesIncrease(m: nat, n: nat)
    requires m < n
    ensures Earlier(CivilDate(m), CivilDate(n))
  {
    if m < n - 1 {
      CivilDatesIncrease(m, n - 1);
    }
  }

  /** The days before month m of a year. */
  function DaysBeforeMonth(leap: bool, m: nat): nat {
    (if m <= 1 then 0 else if m == 2 then 31 else if m == 3 then 59 else if m == 4 then 90 else if m == 5 then 120
     else if m == 6 then 151 else if m == 7 then 181 else if m == 8 then 212 else if m == 9 then 243
     else if m == 10 then 273 else if m == 11 then 304 else 334) + if leap && m > 2 then 1 else 0
  }

  /** The days before year y, from year 0 on. */
  function DaysBeforeYear(y: nat): nat {
    365 * y + (y + 3) / 4 - (y + 99) / 100 + (y + 399) / 400
  }

  lemma YearLength(y: nat)
    ensures DaysBeforeYear(y + 1) == DaysBeforeYear(y) + if Leap(y) then 366 else 365
  {
    Carry(y, 4);
    Carry(y, 100);
    Carry(y, 400);
    Centuries(y);
  }

  /** Every fourth century is a century, and every century is a fourth year. */
  lemma Centuries(y: nat)
    ensures y % 400 == 0 ==> y % 100 == 0
    ensures y % 100 == 0 ==> y % 4 == 0
  {
    if y % 400 == 0 {
      DivMod(y, 100, 4 * (y / 400), 0);
    }
    if y % 100 == 0 {
      DivMod(y, 4, 25 * (y / 100), 0);
    }
  }

  /** A quotient rounded up grows by one just after a multiple. */
  lemma Carry(y: nat, u: nat)
    requires u > 1
    ensures (y + 1 + (u - 1)) / u == (y + (u - 1)) / u + if y % u == 0 then 1 else 0
  {
    var q, r := y / u, y % u;
    assert y == u * q + r && y + u == u * (q + 1) + r;
    DivMod(y + u, u, q + 1, r);
    if r == 0 {
      DivMod(y + u - 1, u, q, u - 1);
    } else {
      DivMod(y + u - 1, u, q + 1, r - 1);
    }
  }

  /** The calendar in closed form: year, month and day of day n. */
  lemma {:induction false} CivilDateExact(n: nat)
    ensures
      var d := CivilDate(n);
      n == DaysBeforeYear(d.year) + DaysBeforeMonth(Leap(d.year), d.month) + d.day - 1
  {
    if n > 0 {
      CivilDateExact(n - 1);
      NextDayExact(CivilDate(n - 1));
    }
  }

  lemma NextDayExact(d: Date)
    requires OnCalendar(d)
    ensures
      var e := NextDay(d);
      DaysBeforeYear(e.year) + DaysBeforeMonth(Leap(e.year), e.month) + e.day
      == DaysBeforeYear(d.year) + DaysBeforeMonth(Leap(d.year), d.month) + d.day + 1
  {
    YearLength(d.year);
  }

  lemma {:induction false} YearsGrow(y: nat, z: nat)
    requires y <= z
    ensures DaysBeforeYear(y) <= DaysBeforeYear(z)
  {
    if y < z {
      YearsGrow(y, z - 1);
      YearLength(z - 1);
    }
  }

  /** Year 0 has 366 days, and instant zero is 0001-01-01. */
  function DayIndex(t: int): int {
    t / DAY + 366
  }

  /** DaysBeforeYear(10_000): the day after 9999-12-31. */
  const YEAR_TEN_THOUSAND: nat := 3_652_425

  /** The dates that the handlers accept: four-digit years. */
  predicate FourDigitYear(t: int) {
    0 <= DayIndex(t) < YEAR_TEN_THOUSAND
  }

  lemma FourDigits(t: int)
    requires DayIndex(t) >= 0
    ensures FourDigitYear(t) <==> CivilDate(DayIndex(t)).year <= 9999
  {
    var y := CivilDate(DayIndex(t)).year;
    CivilDateExact(DayIndex(t));
    assert DaysBeforeYear(10_000) == YEAR_TEN_THOUSAND;
    YearLength(y);
    if y <= 9999 {
      YearsGrow(y + 1, 10_000);
    } else {
      YearsGrow(10_000, y);
    }
  }

  // ----- digits -----

  predicate Digits(s: string) {
    forall i :: 0 <= i < |s| ==> '0' <= s[i] <= '9'
  }

  function Digit(n: nat): (c: char)
    requires n < 10
    ensures '0' <= c <= '9'
  {
    '0' + n as char
  }

  lemma DigitInjective(a: nat, b: nat)
    requires a < 10 && b < 10 && Digit(a) == Digit(b)
    ensures a == b
  {
    assert Digit(a) as int - '0' as int == a && Digit(b) as int - '0' as int == b;
  }

  function Decimal(n: nat): (s: string)
    ensures Digits(s) && s != []
  {
    if n < 10 then [Digit(n)] else Decimal(n / 10) + [Digit(n % 10)]
  }

  lemma {:induction false} DecimalInjective(a: nat, b: nat)
    requires Decimal(a) == Decimal(b)
    ensures a == b
  {
    var x, y := Decimal(a), Decimal(b);
    assert x[|x| - 1] == y[|y| - 1];
    DigitInjective(a % 10, b % 10);
    if a >= 10 && b >= 10 {
      assert Decimal(a / 10) == x[..|x| - 1] == y[..|y| - 1] == Decimal(b / 10);
      DecimalInjective(a / 10, b / 10);
    }
  }

  /** n in exactly k digits. */
  function Fixed(n: nat, k: nat): (s: string)
    ensures |s| == k
  {
    if k == 0 then "" else Fixed(n / 10, k - 1) + [Digit(n % 10)]
  }

  function Power(k: nat): nat {
    if k == 0 then 1 else 10 * Power(k - 1)
  }

  lemma {:induction false} FixedInjective(a: nat, b: nat, k: nat)
    requires a < Power(k) && b < Power(k) && Fixed(a, k) == Fixed(b, k)
    ensures a == b
  {
    if k > 0 {
      var x, y := Fixed(a, k), Fixed(b, k);
      assert x[k - 1] == y[k - 1];
      DigitInjective(a % 10, b % 10);
      assert Fixed(a / 10, k - 1) == x[..k - 1] == y[..k - 1] == Fixed(b / 10, k - 1);
      FixedInjective(a / 10, b / 10, k - 1);
    }
  }

  /** Format("20060102"). */
  function DateStamp(d: Date): (s: string)
    ensures |s| == 8
  {
    Fixed(d.year, 4) + Fixed(d.month, 2) + Fixed(d.day, 2)
  }

  lemma DateStampInjective(a: Date, b: Date)
    requires OnCalendar(a) && OnCalendar(b) && a.year <= 9999 && b.year <= 9999
    requires DateStamp(a) == DateStamp(b)
    ensures a == b
  {
    var x, y := DateStamp(a), DateStamp(b);
    assert Fixed(a.year, 4) == x[..4] == y[..4] == Fixed(b.year, 4);
    assert Fixed(a.month, 2) == x[4..6] == y[4..6] == Fixed(b.month, 2);
    assert Fixed(a.day, 2) == x[6..] == y[6..] == Fixed(b.day, 2);
    assert Power(1) == 10 && Power(2) == 100 && Power(3) == 1000 && Power(4) == 10000;
    FixedInjective(a.year, b.year, 4);
    FixedInjective(a.month, b.month, 2);
    FixedInjective(a.day, b.day, 2);
  }

  // ----- keys -----

  function SlugName(slug: Slug): string {
    match slug
    case VolumeByPeriod => "volume-by-period"
    case StatusCounts => "status-counts"
    case TopEntities => "top-entities"
    case Unsupported(name) => name
  }

  function WindowName(w: Window): string {
    match w
    case Day => "day"
    case Week => "week"
  }

  function LockKeyText(slug: string, window: string, from: string, to: string): string {
    "recompute:lock:" + slug + ":" + window + ":" + from + ":" + to
  }

  /** The report key: version in decimal, then a 64-character digest of the normal form. */
  function ReportKeyText(slug: string, version: nat, digest: string): string {
    "report:" + slug + ":v" + Decimal(version) + ":" + digest
  }

  function VersionKey(slug: string): string {
    "report:version:" + slug
  }

  /** The three kinds of Redis keys never collide: locks, versions, and entries of the served reports. */
  lemma KeySpacesDisjoint(slug: Slug, version: nat, digest: string, slug': string, w: string, from: string, to: string,
                          slug'': string)
    requires Supported(slug)
    ensures ReportKeyText(SlugName(slug), version, digest) != VersionKey(slug'')
    ensures LockKeyText(slug', w, from, to) != VersionKey(slug'')
    ensures LockKeyText(slug', w, from, to) != ReportKeyText(SlugName(slug), version, digest)
  {
    var lock, entry := LockKeyText(slug', w, from, to), ReportKeyText(SlugName(slug), version, digest);
    assert lock[..3] == "rec" && VersionKey(slug'')[..3] == "rep" && entry[..3] == "rep";
    assert lock[2] == 'c' && VersionKey(slug'')[2] == 'p' && entry[2] == 'p';
    assert VersionKey(slug'')[7] == 'v' && VersionKey(slug'')[8] == 'e';
    assert entry[7] == SlugName(slug)[0] && entry[8] == SlugName(slug)[1];
  }

  /** Two strings that end in a separator-free tail agree on the tail and on what precedes the separator. */
  lemma SplitFromRight(x: string, y: string, x': string, y': string, c: char)
    requires x + [c] + y == x' + [c] + y'
    requires c !in y && c !in y'
    ensures x == x' && y == y'
  {
    var s := x + [c] + y;
    assert s[|x|] == c && s[|x'|] == c;
    assert forall k :: |x| < k < |s| ==> s[k] == y[k - |x| - 1] && s[k] != c;
    assert forall k :: |x'| < k < |s| ==> s[k] == y'[k - |x'| - 1] && s[k] != c;
    assert x == s[..|x|] && x' == s[..|x'|];
    assert y == s[|x| + 1..] && y' == s[|x'| + 1..];
  }

  lemma SuffixEqual(a: string, b: string, a': string, b': string)
    requires a + b == a' + b' && |b| == |b'|
    ensures a == a' && b == b'
  {
    assert a == (a + b)[..|a|] && a' == (a' + b')[..|a'|];
    assert b == (a + b)[|a|..] && b' == (a' + b')[|a'|..];
  }

  lemma PrefixEqual(a: string, b: string, b': string)
    requires a + b == a + b'
    ensures b == b'
  {
    assert b == (a + b)[|a|..] && b' == (a + b')[|a|..];
  }

  /** The lock key determines slug, window and both dates, whatever characters the slug has. */
  lemma LockKeyInjective(slug: string, w: Window, from: string, to: string,
                         slug': string, w': Window, from': string, to': string)
    requires |from| == |to| == |from'| == |to'| == 8
    requires LockKeyText(slug, WindowName(w), from, to) == LockKeyText(slug', WindowName(w'), from', to')
    ensures slug == slug' && w == w' && from == from' && to == to'
  {
    var p := "recompute:lock:";
    var tail, tail' := ":" + from + ":" + to, ":" + from' + ":" + to';
    var head, head' := p + slug + ":" + WindowName(w), p + slug' + ":" + WindowName(w');
    assert LockKeyText(slug, WindowName(w), from, to) == head + tail;
    assert LockKeyText(slug', WindowName(w'), from', to') == head' + tail';
    SuffixEqual(head, tail, head', tail');
    assert from == tail[1..9] && from' == tail'[1..9] && to == tail[10..] && to' == tail'[10..];
    assert head == (p + slug) + [':'] + WindowName(w) && head' == (p + slug') + [':'] + WindowName(w');
    SplitFromRight(p + slug, WindowName(w), p + slug', WindowName(w'), ':');
    PrefixEqual(p, slug, slug');
    assert |WindowName(w)| == |WindowName(w')|;
  }

  /** The report key determines slug, version and digest, so distinct queries never share an entry. */
  lemma ReportKeyInjective(slug: string, version: nat, digest: string, slug': string, version': nat, digest': string)
    requires |digest| == |digest'| == 64
    requires ReportKeyText(slug, version, digest) == ReportKeyText(slug', version', digest')
    ensures slug == slug' && version == version' && digest == digest'
  {
    var p, d, d' := "report:", Decimal(version), Decimal(version');
    var tail, tail' := ":" + digest, ":" + digest';
    var head, head' := p + slug + ":v" + d, p + slug' + ":v" + d';
    assert ReportKeyText(slug, version, digest) == head + tail;
    assert ReportKeyText(slug', version', digest') == head' + tail';
    SuffixEqual(head, tail, head', tail');
    assert digest == tail[1..] && digest' == tail'[1..];
    assert head == (p + slug + ":") + ['v'] + d && head' == (p + slug' + ":") + ['v'] + d';
    SplitFromRight(p + slug + ":", d, p + slug' + ":", d', 'v');
    DecimalInjective(version, version');
    SuffixEqual(p + slug, ":", p + slug', ":");
    PrefixEqual(p, slug, slug');
  }

  predicate KnownSlug(slug: Slug) {
    slug.Unsupported? ==> slug.name !in ["volume-by-period", "status-counts", "top-entities"]
  }

  predicate Dated(q: Request) {
    KnownSlug(q.slug) && FourDigitYear(q.dateFrom) && FourDigitYear(q.dateTo)
  }

  /** The lock key of a recompute request. */
  function LockKey(q: Request): string
    requires Dated(q)
  {
    LockKeyText(SlugName(q.slug), WindowName(q.window),
                DateStamp(CivilDate(DayIndex(q.dateFrom))), DateStamp(CivilDate(DayIndex(q.dateTo))))
  }

  /** What a lock protects: a report, a window and a range of calendar days. */
  datatype Scope = Scope(slug: Slug, window: Window, fromDay: int, toDay: int)

  function ScopeOf(q: Request): Scope {
    Scope(q.slug, q.window, q.dateFrom / DAY, q.dateTo / DAY)
  }

  /** Two requests share a lock exactly when they share a scope. */
  lemma LockKeyIsScope(q: Request, q': Request)
    requires Dated(q) && Dated(q')
    ensures LockKey(q) == LockKey(q') <==> ScopeOf(q) == ScopeOf(q')
  {
    if LockKey(q) == LockKey(q') {
      var f, t := CivilDate(DayIndex(q.dateFrom)), CivilDate(DayIndex(q.dateTo));
      var f', t' := CivilDate(DayIndex(q'.dateFrom)), CivilDate(DayIndex(q'.dateTo));
      LockKeyInjective(SlugName(q.slug), q.window, DateStamp(f), DateStamp(t),
                       SlugName(q'.slug), q'.window, DateStamp(f'), DateStamp(t'));
      FourDigits(q.dateFrom);
      FourDigits(q.dateTo);
      FourDigits(q'.dateFrom);
      FourDigits(q'.dateTo);
      DateStampInjective(f, f');
      DateStampInjective(t, t');
      SameDay(q.dateFrom, q'.dateFrom);
      SameDay(q.dateTo, q'.dateTo);
      SlugNames(q.slug, q'.slug);
    }
  }

  lemma SlugNames(a: Slug, b: Slug)
    requires KnownSlug(a) && KnownSlug(b) && SlugName(a) == SlugName(b)
    ensures a == b
  {
    assert |SlugName(VolumeByPeriod)| == 16 && |SlugName(StatusCounts)| == 13 && |SlugName(TopEntities)| == 12;
  }

  lemma SameDay(s: int, t: int)
    requires FourDigitYear(s) && FourDigitYear(t) && CivilDate(DayIndex(s)) == CivilDate(DayIndex(t))
    ensures s / DAY == t / DAY
  {
    if DayIndex(s) < DayIndex(t) {
      CivilDatesIncrease(DayIndex(s), DayIndex(t));
    } else if DayIndex(t) < DayIndex(s) {
      CivilDatesIncrease(DayIndex(t), DayIndex(s));
    }
  }
}
