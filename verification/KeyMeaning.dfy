/**
 The Redis keys as texts: names, separators, decimal numbers and Gregorian dates, read back
 from the characters.
 */
module KeyMeaning {
  import opened Time
  import opened Snapshots
  import opened Keys

  // ----- numbers -----

  /** The value of a string of digits. */
  function Number(s: string): nat
    requires Digits(s)
  {
    if s == [] then 0 else 10 * Number(s[..|s| - 1]) + (s[|s| - 1] as int - '0' as int)
  }

  lemma DigitValue(n: nat)
    requires n < 10
    ensures Digit(n) as int - '0' as int == n
  {}

  /** A decimal number has its value, and no leading zero unless it is zero. */
  lemma {:induction false} DecimalNumber(n: nat)
    ensures Number(Decimal(n)) == n && (n > 0 ==> Decimal(n)[0] != '0')
  {
    var s := Decimal(n);
    DigitValue(n % 10);
    if n >= 10 {
      assert s[..|s| - 1] == Decimal(n / 10) && s[0] == Decimal(n / 10)[0];
      DecimalNumber(n / 10);
    } else {
      assert s[..0] == [];
    }
  }

  lemma {:induction false} FixedNumber(n: nat, k: nat)
    requires n < Power(k)
    ensures Digits(Fixed(n, k)) && Number(Fixed(n, k)) == n
  {
    if k > 0 {
      var s := Fixed(n, k);
      DigitValue(n % 10);
      assert s[..|s| - 1] == Fixed(n / 10, k - 1);
      FixedNumber(n / 10, k - 1);
    }
  }

  lemma {:induction false} NumberConcat(a: string, b: string)
    requires Digits(a) && Digits(b)
    ensures Digits(a + b) && Number(a + b) == Number(a) * Power(|b|) + Number(b)
  {
    if b == [] {
      assert a + b == a;
    } else {
      var init := b[..|b| - 1];
      assert (a + b)[..|a + b| - 1] == a + init;
      NumberConcat(a, init);
      assert Number(a) * Power(|b|) == 10 * (Number(a) * Power(|init|));
    }
  }

  lemma DateStampNumber(d: Date)
    requires OnCalendar(d) && d.year <= 9999
    ensures Digits(DateStamp(d)) && Number(DateStamp(d)) == 10_000 * d.year + 100 * d.month + d.day
  {
    assert Power(1) == 10 && Power(2) == 100 && Power(3) == 1000 && Power(4) == 10_000;
    FixedNumber(d.year, 4);
    FixedNumber(d.month, 2);
    FixedNumber(d.day, 2);
    NumberConcat(Fixed(d.year, 4), Fixed(d.month, 2));
    NumberConcat(Fixed(d.year, 4) + Fixed(d.month, 2), Fixed(d.day, 2));
  }

  // ----- dates -----

  /** The days from 0001-01-01 to a date of the Gregorian calendar. */
  function DaysSince(d: Date): int {
    DaysBeforeYear(d.year) + DaysBeforeMonth(Leap(d.year), d.month) + d.day - 1 - 366
  }

  lemma DatesDiffer(a: Date, b: Date)
    requires OnCalendar(a) && OnCalendar(b) && Earlier(a, b)
    ensures DaysSince(a) < DaysSince(b)
  {
    DayInYear(a);
    DayInYear(b);
    if a.year < b.year {
      YearLength(a.year);
      YearsGrow(a.year + 1, b.year);
    }
  }

  lemma DayInYear(d: Date)
    requires OnCalendar(d)
    ensures DaysBeforeMonth(Leap(d.year), d.month) + d.day <= (if Leap(d.year) then 366 else 365)
    ensures forall m :: d.month < m <= 12 ==>
              DaysBeforeMonth(Leap(d.year), d.month) + d.day <= DaysBeforeMonth(Leap(d.year), m)
  {}

  /** The calendar date of an instant, exactly: the one that is as many days after 0001-01-01. */
  lemma DateOfInstant(t: int, d: Date)
    requires DayIndex(t) >= 0 && OnCalendar(d)
    ensures CivilDate(DayIndex(t)) == d <==> t / DAY == DaysSince(d)
  {
    var c := CivilDate(DayIndex(t));
    CivilDateExact(DayIndex(t));
    if c != d {
      if Earlier(c, d) {
        DatesDiffer(c, d);
      } else {
        DatesDiffer(d, c);
      }
    }
  }

  /** The origin of the instants is a Monday of that calendar: so is 2024-01-01. */
  lemma MondayOrigin(t: int)
    requires DayIndex(t) >= 0 && CivilDate(DayIndex(t)) == Date(2024, 1, 1)
    ensures Trunc(Week, t) == Midnight(t)
  {
    DateOfInstant(t, Date(2024, 1, 1));
    NewYear2024();
    WholeWeeks(t);
  }

  lemma NewYear2024()
    ensures DaysSince(Date(2024, 1, 1)) == 7 * 105_555
  {
    assert DaysBeforeYear(2024) == 739_251;
  }

  lemma WholeWeeks(t: int)
    requires t / DAY == 7 * 105_555
    ensures Trunc(Week, t) == Midnight(t)
  {
    var r := t % DAY;
    assert t == WEEK * 105_555 + r;
    DivMod(t, WEEK, 105_555, r);
  }

  // ----- keys -----

  predicate Named(slug: Slug, name: string) {
    match slug
    case VolumeByPeriod => name == "volume-by-period"
    case StatusCounts => name == "status-counts"
    case TopEntities => name == "top-entities"
    case Unsupported(other) => name == other
  }

  predicate NamesWindow(w: Window, name: string) {
    (w == Day && name == "day") || (w == Week && name == "week")
  }

  /** Eight digits, year, month and day, of the calendar day of t. */
  predicate Dates(s: string, t: int) {
    && |s| == 8 && Digits(s)
    && (var d := Date(Number(s) / 10_000, Number(s) / 100 % 100, Number(s) % 100);
        OnCalendar(d) && t / DAY == DaysSince(d))
  }

  lemma StampDates(t: int)
    requires FourDigitYear(t)
    ensures Dates(DateStamp(CivilDate(DayIndex(t))), t)
  {
    var d := CivilDate(DayIndex(t));
    FourDigits(t);
    DateStampNumber(d);
    DateOfInstant(t, d);
    var n := Number(DateStamp(d));
    DivMod(n, 10_000, d.year, 100 * d.month + d.day);
    DivMod(n, 100, 100 * d.year + d.month, d.day);
    DivMod(100 * d.year + d.month, 100, d.year, d.month);
  }

  /** The text of a lock key: prefix, report, window and the two dates, with colons. */
  lemma LockKeyReads(q: Request) returns (name: string, window: string, from: string, to: string)
    requires Dated(q)
    ensures LockKey(q) == "recompute:lock:" + name + ":" + window + ":" + from + ":" + to
    ensures Named(q.slug, name) && NamesWindow(q.window, window) && Dates(from, q.dateFrom) && Dates(to, q.dateTo)
  {
    name, window := SlugName(q.slug), WindowName(q.window);
    from, to := DateStamp(CivilDate(DayIndex(q.dateFrom))), DateStamp(CivilDate(DayIndex(q.dateTo)));
    StampDates(q.dateFrom);
    StampDates(q.dateTo);
  }

  /** The text of a version key. */
  lemma VersionKeyReads(slug: Slug) returns (name: string)
    ensures Named(slug, name) && VersionKey(SlugName(slug)) == "report:version:" + name
  {
    name := SlugName(slug);
  }
}
