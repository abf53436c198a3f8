/**
 Instants are microseconds since Monday 0001-01-01T00:00Z, read in a UTC session.
 With that origin both truncations of date_trunc are a floor to a multiple.
 */
module Time {
  const HOUR: int := 3_600_000_000
  const DAY: int := 24 * HOUR
  const WEEK: int := 7 * DAY

  datatype Window = Day | Week

  function Unit(w: Window): (u: int)
    ensures u == DAY || u == WEEK
  {
    match w
    case Day => DAY
    case Week => WEEK
  }

  /** Midnight of the day of t: time.Date(y, m, d, 0, ...) in Go and ::date in SQL. */
  function Midnight(t: int): int {
    t - t % DAY
  }

  /** date_trunc(window, t). */
  function Trunc(w: Window, t: int): int {
    match w
    case Day => Midnight(t)
    case Week => t - t % WEEK
  }

  lemma TruncIsFloor(w: Window, t: int)
    ensures Trunc(w, t) <= t < Trunc(w, t) + Unit(w)
    ensures Trunc(w, t) % Unit(w) == 0
    ensures Midnight(Trunc(w, t)) == Trunc(w, t)
  {
    var k := t / Unit(w);
    assert t == Unit(w) * k + t % Unit(w);
    DivMod(Unit(w) * k, Unit(w), k, 0);
    if w == Week {
      DivMod(WEEK * k, DAY, 7 * k, 0);
    }
  }

  lemma {:induction false} TimesOne(u: nat, k: nat)
    requires k > 0
    ensures u <= u * k
  {
    if k > 1 {
      TimesOne(u, k - 1);
      assert u * k == u * (k - 1) + u;
    }
  }

  /** Quotient and remainder are unique. */
  lemma DivMod(t: int, u: nat, q: int, r: nat)
    requires r < u && t == u * q + r
    ensures t / u == q && t % u == r
  {
    var q', r' := t / u, t % u;
    assert t == u * q' + r';
    if q > q' {
      TimesOne(u, q - q');
    } else if q < q' {
      TimesOne(u, q' - q);
    }
  }

  lemma QuotientMonotone(u: nat, s: int, t: int)
    requires u > 0 && s <= t
    ensures s / u <= t / u && u * (s / u) <= u * (t / u)
  {
    var i, j := s / u, t / u;
    assert s == u * i + s % u && t == u * j + t % u;
    if i > j {
      TimesOne(u, i - j);
    } else if i < j {
      TimesOne(u, j - i);
    }
  }

  lemma TruncMonotone(w: Window, s: int, t: int)
    requires s <= t
    ensures Trunc(w, s) <= Trunc(w, t)
  {
    QuotientMonotone(Unit(w), s, t);
  }

  /** An aligned instant b is the bucket of exactly the instants in [b, b + unit). */
  lemma BucketOf(w: Window, b: int, t: int)
    requires Trunc(w, b) == b
    ensures Trunc(w, t) == b <==> b <= t < b + Unit(w)
  {
    var u := Unit(w);
    TruncIsFloor(w, t);
    if b <= t < b + u {
      assert b == u * (b / u) + b % u && b % u == 0;
      DivMod(t, u, b / u, t - b);
    }
  }

  /** Week truncation absorbs day truncation. */
  lemma WeekAbsorbsDay(t: int)
    ensures Trunc(Week, Trunc(Day, t)) == Trunc(Week, t)
  {
    var w, r := t / WEEK, t % WEEK;
    var d, x := r / DAY, r % DAY;
    assert t == WEEK * w + r && r == DAY * d + x;
    DivMod(t, DAY, 7 * w + d, x);
    assert Trunc(Day, t) == WEEK * w + DAY * d;
    DivMod(Trunc(Day, t), WEEK, w, DAY * d);
  }

  /** A range whose ends are midnights contains an instant iff it contains its day. */
  lemma DayRange(lo: int, hi: int, t: int)
    requires Midnight(lo) == lo && Midnight(hi) == hi
    ensures lo <= t < hi <==> lo <= Midnight(t) < hi
  {}
}
