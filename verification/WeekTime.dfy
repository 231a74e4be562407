/** Arithmetic of the week: seconds since Sunday 00:00, days, and two day boundaries at once. */
module WeekTime {
  const DAY := 86400
  const WEEK := 604800

  // Go's remainder, truncated toward zero.
  function Rem(a: int, b: int): int
    requires b > 0
  {
    if a >= 0 then a % b else -((-a) % b)
  }

  // The idiom (a%b+b)%b: the remainder that is never negative.
  function Wrap(a: int, b: int): int
    requires b > 0
  {
    Rem(Rem(a, b) + b, b)
  }

  lemma WrapWeek(a: int)
    ensures Wrap(a, WEEK) == a % WEEK
  {
    if a < 0 {
      var q, r := (-a) / 604800, (-a) % 604800;
      assert -a == q * 604800 + r;
      assert r > 0 ==> a == (-q - 1) * 604800 + (604800 - r);
    }
  }

  lemma WrapDay(a: int)
    ensures Wrap(a, DAY) == a % DAY
  {
    if a < 0 {
      var q, r := (-a) / 86400, (-a) % 86400;
      assert -a == q * 86400 + r;
      assert r > 0 ==> a == (-q - 1) * 86400 + (86400 - r);
    }
  }

  // Weekday and second of the day of a second of the week.
  function DayOf(t: int): int { t / DAY }
  function SecondOf(t: int): int { t % DAY }

  // The seconds from the week second `from` to t, going forward round the week.
  function Ahead(from: int, t: int): int { (t - from) % WEEK }

  // A window of len seconds that starts on day d at second s holds t, told by weekday and clock.
  lemma AheadByClock(d: int, s: int, len: int, t: int)
    requires 0 <= d < 7 && 0 <= s < DAY && 0 <= t < WEEK && 0 < len <= DAY
    ensures Ahead(d * DAY + s, t) < len <==>
            || (DayOf(t) == d && s <= SecondOf(t) < s + len)
            || (DayOf(t) == (d + 1) % 7 && SecondOf(t) < s + len - DAY)
  {
    var w, x := DayOf(t), SecondOf(t);
    assert t == w * 86400 + x && 0 <= w < 7;
    var diff := (w - d) * 86400 + x - s;
    assert t - (d * DAY + s) == diff;
    if w < d {
      assert Ahead(d * DAY + s, t) == if diff < 0 then diff + 604800 else diff;
    }
  }

  // The same distance in UTC and in local time.
  lemma AheadShift(start: int, t: int, off: int)
    ensures Ahead((start - off) % WEEK, t) == Ahead(start, (t + off) % WEEK)
  {
    var a, l := (start - off) % 604800, (t + off) % 604800;
    var qa, ql := (start - off) / 604800, (t + off) / 604800;
    assert start - off == qa * 604800 + a;
    assert t + off == ql * 604800 + l;
    assert t - a == (l - start) + (qa + ql) * 604800;
    ModAddWeeks(l - start, qa + ql);
  }

  lemma ModAddWeeks(a: int, k: int)
    ensures (a + k * 604800) % 604800 == a % 604800
  {
    var q, r := a / 604800, a % 604800;
    assert a + k * 604800 == (q + k) * 604800 + r;
  }

  // Membership in [a, a+len), wrapped at the end of the week.
  lemma AheadInInterval(a: int, len: int, t: int)
    requires 0 <= a < WEEK && 0 <= t < WEEK && 0 <= len <= WEEK
    ensures Ahead(a, t) < len <==> a <= t < a + len || t < a + len - WEEK
  {
    assert Ahead(a, t) == if t >= a then t - a else t - a + 604800;
  }

  function KernelDay(t: int, mw: int): int { DayOf((t - mw * 60) % WEEK) }

  // The second of the UTC day at which the kernel's day begins.
  function KernelOffset(mw: int): int { (mw * 60) % DAY }

  lemma DayOfWeekSecond(x: int)
    ensures DayOf(x % WEEK) == (x / DAY) % 7
  {
  }

  // [p, q) stays within one UTC day and one kernel day.
  predicate Piece(p: int, q: int, mw: int) {
    && 0 <= p < q <= WEEK
    && q <= (p / DAY + 1) * DAY
    && q <= p - (p - KernelOffset(mw)) % DAY + DAY
  }

  // Kernel days counted from some kernel midnight, not wrapped at the week.
  function KernelCount(t: int, mw: int): int { (t - KernelOffset(mw)) / DAY }

  lemma KernelDayByCount(t: int, mw: int)
    ensures KernelDay(t, mw) == (KernelCount(t, mw) - (mw * 60) / DAY) % 7
  {
    DayOfWeekSecond(t - mw * 60);
    var m, k := (mw * 60) / 86400, (mw * 60) % 86400;
    assert mw * 60 == m * 86400 + k;
    assert (t - mw * 60) / 86400 == (t - k) / 86400 - m;
  }

  lemma SameKernelDay(p: int, q: int, mw: int, t: int)
    requires Piece(p, q, mw) && p <= t < q
    ensures KernelDay(t, mw) == KernelDay(p, mw)
    ensures p % DAY <= t % DAY <= (q - 1) % DAY
  {
    KernelDayByCount(t, mw);
    KernelDayByCount(p, mw);
    SameDayCount(p - KernelOffset(mw), t - KernelOffset(mw));
    SameDayOrder(p, t, q - 1);
  }

  lemma SameDayCount(a: int, b: int)
    requires a <= b < a - a % DAY + DAY
    ensures a / DAY == b / DAY
  {
    var m := a / 86400;
    assert a == m * 86400 + a % 86400;
    assert m * 86400 <= b < m * 86400 + 86400;
  }

  lemma SameDayOrder(a: int, b: int, c: int)
    requires 0 <= a <= b <= c < (a / DAY + 1) * DAY
    ensures a % DAY <= b % DAY <= c % DAY
  {
    var m := a / 86400;
    assert b == m * 86400 + (b - m * 86400) && c == m * 86400 + (c - m * 86400);
  }

  /** A piece is told from every other second of the week by its hours and its kernel weekday. */
  lemma PieceIsExact(p: int, q: int, mw: int, t: int)
    requires Piece(p, q, mw) && 0 <= t < WEEK
    ensures (p % DAY <= t % DAY <= (q - 1) % DAY && KernelDay(t, mw) == KernelDay(p, mw)) <==> p <= t < q
  {
    if p <= t < q {
      SameKernelDay(p, q, mw, t);
    } else if p % DAY <= t % DAY <= (q - 1) % DAY {
      var j := SameHours(p, q, mw, t);
      SameKernelDay(p, q, mw, t - j * DAY);
      OtherKernelDay(t - j * DAY, j, mw);
    }
  }

  // A second outside the piece with hours inside it is some days away from one in the piece.
  lemma SameHours(p: int, q: int, mw: int, t: int) returns (j: int)
    requires Piece(p, q, mw) && 0 <= t < WEEK && !(p <= t < q) && p % DAY <= t % DAY <= (q - 1) % DAY
    ensures p <= t - j * DAY < q && j != 0 && -7 < j < 7
  {
    var m, n := p / 86400, t / 86400;
    j := n - m;
    assert p == m * 86400 + p % 86400 && t == n * 86400 + t % 86400;
    assert q - 1 == m * 86400 + (q - 1) % 86400;
  }

  lemma OtherKernelDay(t: int, j: int, mw: int)
    requires j != 0 && -7 < j < 7
    ensures KernelDay(t + j * DAY, mw) != KernelDay(t, mw)
  {
    KernelDayByCount(t, mw);
    KernelDayByCount(t + j * DAY, mw);
    DaysLater(t - KernelOffset(mw), j);
    OtherDayOfWeek(KernelCount(t, mw) - (mw * 60) / DAY, j);
  }

  lemma OtherDayOfWeek(c: int, j: int)
    requires j != 0 && -7 < j < 7
    ensures (c + j) % 7 != c % 7
  {
  }

  lemma DaysLater(a: int, j: int)
    ensures (a + j * 86400) / 86400 == a / 86400 + j
  {
    var m, r := a / 86400, a % 86400;
    assert a + j * 86400 == (m + j) * 86400 + r;
  }
}
