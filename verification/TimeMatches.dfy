/** Weekly windows in local time, compiled to what the kernel can match: a range of UTC seconds of the
    day and a set of weekdays in the kernel's own time zone. */
module TimeMatches {
  import opened Wrappers
  import opened WeekTime

  // A schedule entry as configured: day names (none = every day) and "HH:MM-HH:MM" ("" = all day).
  datatype Entry = Entry(days: seq<string>, time: string)

  datatype Clock = Clock(localOff: int, kernelMW: int)  // seconds east of UTC; kernel minutes west

  // One nft expression: `meta day` and `meta hour`, each optional.
  datatype Match = Match(days: Option<set<int>>, hours: Option<(int, int)>)

  // ---- what an entry means ----

  const DAY_NAMES := ["sun", "mon", "tue", "wed", "thu", "fri", "sat"]
  const DIGITS := "0123456789"

  // The entry names weekday w, or no day at all.
  predicate Named(e: Entry, w: int) {
    (0 <= w < 7 && DAY_NAMES[w] in e.days) || forall d :: d in DAY_NAMES ==> d !in e.days
  }

  function TwoDigits(n: nat): string
    requires n < 100
  {
    [DIGITS[n / 10], DIGITS[n % 10]]
  }

  // A window from one time of the day to another; 24:00 can be its end.
  predicate Times(h: nat, m: nat, h2: nat, m2: nat) {
    h < 24 && m < 60 && m2 < 60 && (h2 < 24 || (h2 == 24 && m2 == 0))
  }

  function WindowText(h: nat, m: nat, h2: nat, m2: nat): string
    requires Times(h, m, h2, m2)
  {
    TwoDigits(h) + ":" + TwoDigits(m) + "-" + TwoDigits(h2) + ":" + TwoDigits(m2)
  }

  // Weekday w and second x of the day lie in a window from s to f. A window that does not end after it
  // starts runs into the next day.
  predicate InSpan(e: Entry, s: int, f: int, w: int, x: int) {
    if s < f then Named(e, w) && s <= x < f
    else (Named(e, w) && s <= x) || (Named(e, (w + 6) % 7) && x < f)
  }

  // They lie in the entry's window: all day without a time, never with a text that is no window.
  ghost predicate InWindow(e: Entry, w: int, x: int) {
    if e.time == "" then Named(e, w)
    else exists h: nat, m: nat, h2: nat, m2: nat :: Times(h, m, h2, m2) && e.time == WindowText(h, m, h2, m2)
                                                    && InSpan(e, h * 3600 + m * 60, h2 * 3600 + m2 * 60, w, x)
  }

  ghost predicate Scheduled(sch: seq<Entry>, clk: Clock, t: int) {
    var l := (t + clk.localOff) % WEEK;
    sch == [] || exists e :: e in sch && InWindow(e, DayOf(l), SecondOf(l))
  }

  // ---- how an entry is read ----

  function DayNum(d: string): Option<int> {
    match d
    case "sun" => Some(0)
    case "mon" => Some(1)
    case "tue" => Some(2)
    case "wed" => Some(3)
    case "thu" => Some(4)
    case "fri" => Some(5)
    case "sat" => Some(6)
    case _ => None
  }

  function Digit(c: char): Option<int> {
    if '0' <= c <= '9' then Some(c as int - '0' as int) else None
  }

  // "HH:MM" at position i, hours up to maxHour.
  function ClockAt(s: string, i: nat, maxHour: int): (r: Option<int>)
    requires i + 5 <= |s| && 0 <= maxHour
    ensures r.Some? ==> 0 <= r.value <= maxHour * 3600 + 59 * 60
  {
    var h1, h2, m1, m2 := Digit(s[i]), Digit(s[i + 1]), Digit(s[i + 3]), Digit(s[i + 4]);
    if h1.Some? && h2.Some? && m1.Some? && m2.Some? && s[i + 2] == ':'
       && h1.value * 10 + h2.value <= maxHour && m1.value <= 5
    then Some((h1.value * 10 + h2.value) * 3600 + (m1.value * 10 + m2.value) * 60)
    else None
  }

  function ParseWindow(s: string): (r: Option<(int, int)>)
    ensures r.Some? ==> 0 <= r.value.0 < DAY && 0 <= r.value.1 <= DAY
  {
    if |s| != 11 || s[5] != '-' then None
    else
      var a, b := ClockAt(s, 0, 23), ClockAt(s, 6, 24);
      if a.Some? && b.Some? && b.value <= DAY then Some((a.value, b.value)) else None
  }

  function DaySet(days: seq<string>): set<int> {
    set d | d in days && DayNum(d).Some? :: DayNum(d).value
  }

  // The days an entry names; names that are none do not count, and naming none is every day.
  function DaysOf(e: Entry): set<int> {
    if DaySet(e.days) == {} then {0, 1, 2, 3, 4, 5, 6} else DaySet(e.days)
  }

  // The entry's window as read.
  ghost predicate ReadIn(e: Entry, w: int, x: int) {
    if e.time == "" then w in DaysOf(e)
    else
      var p := ParseWindow(e.time);
      p.Some? &&
      if p.value.0 < p.value.1 then w in DaysOf(e) && p.value.0 <= x < p.value.1
      else (w in DaysOf(e) && p.value.0 <= x) || ((w + 6) % 7 in DaysOf(e) && x < p.value.1)
  }

  /** The seven day names, in order, and no others. */
  lemma DayNames(d: string)
    ensures DayNum(d).Some? <==> d in DAY_NAMES
    ensures DayNum(d).Some? ==> 0 <= DayNum(d).value < 7 && DAY_NAMES[DayNum(d).value] == d
    ensures forall w :: 0 <= w < 7 ==> DayNum(DAY_NAMES[w]) == Some(w)
  {
    assert DAY_NAMES[0] == "sun" && DAY_NAMES[1] == "mon" && DAY_NAMES[2] == "tue" && DAY_NAMES[3] == "wed";
    assert DAY_NAMES[4] == "thu" && DAY_NAMES[5] == "fri" && DAY_NAMES[6] == "sat";
  }

  lemma DaysAreNamed(e: Entry, w: int)
    requires 0 <= w < 7
    ensures w in DaysOf(e) <==> Named(e, w)
  {
    forall d
      ensures DayNum(d).Some? <==> d in DAY_NAMES
      ensures DayNum(d).Some? ==> 0 <= DayNum(d).value < 7 && DAY_NAMES[DayNum(d).value] == d
    {
      DayNames(d);
    }
    DayNames(DAY_NAMES[w]);
    if d :| d in DAY_NAMES && d in e.days {
      assert DayNum(d).value in DaySet(e.days);
    }
  }

  lemma DigitsRead(n: nat)
    requires n < 10
    ensures Digit(DIGITS[n]) == Some(n)
  {
  }

  lemma ClockReads(s: string, i: nat, h: nat, m: nat, maxHour: nat)
    requires h < 100 && m < 60 && i + 5 <= |s|
    requires s[i] == DIGITS[h / 10] && s[i + 1] == DIGITS[h % 10] && s[i + 2] == ':'
    requires s[i + 3] == DIGITS[m / 10] && s[i + 4] == DIGITS[m % 10]
    ensures ClockAt(s, i, maxHour) == if h <= maxHour then Some(h * 3600 + m * 60) else None
  {
    DigitsRead(h / 10);
    DigitsRead(h % 10);
    DigitsRead(m / 10);
    DigitsRead(m % 10);
  }

  /** A window that is printed is read as its seconds. */
  lemma PrintedIsRead(h: nat, m: nat, h2: nat, m2: nat)
    requires Times(h, m, h2, m2)
    ensures ParseWindow(WindowText(h, m, h2, m2)) == Some((h * 3600 + m * 60, h2 * 3600 + m2 * 60))
  {
    var s := WindowText(h, m, h2, m2);
    assert s == [DIGITS[h / 10], DIGITS[h % 10], ':', DIGITS[m / 10], DIGITS[m % 10], '-',
                 DIGITS[h2 / 10], DIGITS[h2 % 10], ':', DIGITS[m2 / 10], DIGITS[m2 % 10]];
    ClockReads(s, 0, h, m, 23);
    ClockReads(s, 6, h2, m2, 24);
  }

  lemma DigitIs(c: char)
    requires Digit(c).Some?
    ensures 0 <= Digit(c).value < 10 && DIGITS[Digit(c).value] == c
  {
    var n := Digit(c).value;
    DigitsRead(n);
  }

  lemma ClockIs(s: string, i: nat, maxHour: nat) returns (h: nat, m: nat)
    requires i + 5 <= |s| && ClockAt(s, i, maxHour).Some? && maxHour < 100
    ensures h <= maxHour && m < 60 && ClockAt(s, i, maxHour) == Some(h * 3600 + m * 60)
    ensures s[i..i + 5] == TwoDigits(h) + ":" + TwoDigits(m)
  {
    DigitIs(s[i]);
    DigitIs(s[i + 1]);
    DigitIs(s[i + 3]);
    DigitIs(s[i + 4]);
    h, m := Digit(s[i]).value * 10 + Digit(s[i + 1]).value, Digit(s[i + 3]).value * 10 + Digit(s[i + 4]).value;
    assert h / 10 == Digit(s[i]).value && h % 10 == Digit(s[i + 1]).value;
    assert m / 10 == Digit(s[i + 3]).value && m % 10 == Digit(s[i + 4]).value;
  }

  /** Only printed windows are read. */
  lemma ReadIsPrinted(s: string) returns (h: nat, m: nat, h2: nat, m2: nat)
    requires ParseWindow(s).Some?
    ensures Times(h, m, h2, m2) && s == WindowText(h, m, h2, m2)
  {
    h, m := ClockIs(s, 0, 23);
    h2, m2 := ClockIs(s, 6, 24);
    assert s == s[0..5] + [s[5]] + s[6..11];
    Joined(TwoDigits(h), TwoDigits(m), TwoDigits(h2), TwoDigits(m2));
  }

  lemma Joined(a: string, b: string, c: string, d: string)
    ensures a + ":" + b + ['-'] + (c + ":" + d) == a + ":" + b + "-" + c + ":" + d
  {
  }

  /** An entry is read as it is meant. */
  lemma ReadAsMeant(e: Entry, w: int, x: int)
    requires 0 <= w < 7
    ensures ReadIn(e, w, x) <==> InWindow(e, w, x)
  {
    DaysAreNamed(e, w);
    DaysAreNamed(e, (w + 6) % 7);
    if e.time != "" {
      if ReadIn(e, w, x) {
        ReadIsMeant(e, w, x);
      }
      if InWindow(e, w, x) {
        MeantIsRead(e, w, x);
      }
    }
  }

  lemma ReadIsMeant(e: Entry, w: int, x: int)
    requires e.time != "" && ParseWindow(e.time).Some?
    requires InSpan(e, ParseWindow(e.time).value.0, ParseWindow(e.time).value.1, w, x)
    ensures InWindow(e, w, x)
  {
    var h, m, h2, m2 := ReadIsPrinted(e.time);
    PrintedIsRead(h, m, h2, m2);
  }

  lemma MeantIsRead(e: Entry, w: int, x: int)
    requires e.time != "" && InWindow(e, w, x)
    ensures ParseWindow(e.time).Some? && InSpan(e, ParseWindow(e.time).value.0, ParseWindow(e.time).value.1, w, x)
  {
    var h: nat, m: nat, h2: nat, m2: nat :|
      Times(h, m, h2, m2) && e.time == WindowText(h, m, h2, m2)
      && InSpan(e, h * 3600 + m * 60, h2 * 3600 + m2 * 60, w, x);
    PrintedIsRead(h, m, h2, m2);
  }

  // ---- what an expression means to the kernel ----

  ghost predicate Satisfies(m: Match, mw: int, t: int) {
    && (m.days.Some? ==> KernelDay(t, mw) in m.days.value)
    && (m.hours.Some? ==> m.hours.value.0 <= SecondOf(t) <= m.hours.value.1)
  }

  ghost predicate Matched(ms: seq<Match>, mw: int, t: int) {
    exists m :: m in ms && Satisfies(m, mw, t)
  }

  // ---- intervals of UTC seconds of the week ----

  datatype Interval = Interval(a: int, b: int)

  ghost predicate Within(x: Interval, t: int) { x.a <= t < x.b }

  ghost predicate Covered(ivs: seq<Interval>, t: int) {
    exists x :: x in ivs && Within(x, t)
  }

  ghost predicate InWeek(ivs: seq<Interval>) {
    forall x :: x in ivs ==> 0 <= x.a < x.b <= WEEK
  }

  // Seconds from the start of the entry's window to its end, and where in the day it starts.
  function SpanOf(e: Entry): Option<(int, int)> {
    if e.time == "" then Some((0, DAY))
    else
      var p := ParseWindow(e.time);
      if p.None? then None
      else Some((p.value.0, if p.value.1 <= p.value.0 then p.value.1 + DAY - p.value.0 else p.value.1 - p.value.0))
  }

  lemma SpanLength(e: Entry)
    requires SpanOf(e).Some?
    ensures 0 <= SpanOf(e).value.0 < DAY && 0 < SpanOf(e).value.1 <= DAY
  {
  }

  lemma DayNumRange(days: seq<string>)
    ensures forall d :: d in DaySet(days) ==> 0 <= d < 7
  {
  }

  ghost predicate OnDay(d: int, s: int, len: int, w: int, x: int) {
    (w == d && s <= x < s + len) || (w == (d + 1) % 7 && x < s + len - DAY)
  }

  lemma WindowByDay(e: Entry, w: int, x: int)
    requires 0 <= w < 7 && 0 <= x < DAY && SpanOf(e).Some?
    ensures ReadIn(e, w, x) <==> exists d :: d in DaysOf(e) && OnDay(d, SpanOf(e).value.0, SpanOf(e).value.1, w, x)
  {
    DayNumRange(e.days);
    SpanLength(e);
    var s, len, prev := SpanOf(e).value.0, SpanOf(e).value.1, (w + 6) % 7;
    assert (prev + 1) % 7 == w;
    assert forall d :: 0 <= d < 7 && OnDay(d, s, len, w, x) ==> d == w || d == prev;
    if ReadIn(e, w, x) {
      if w in DaysOf(e) && s <= x < s + len {
        assert OnDay(w, s, len, w, x);
      } else {
        assert OnDay(prev, s, len, w, x);
      }
    }
  }

  lemma DayStart(d: int, s: int, len: int, off: int, t: int)
    requires 0 <= t < WEEK && 0 <= d < 7 && 0 <= s < DAY && 0 < len <= DAY
    ensures var l := (t + off) % WEEK;
            Ahead((d * DAY + s - off) % WEEK, t) < len <==> OnDay(d, s, len, DayOf(l), SecondOf(l))
  {
    AheadShift(d * DAY + s, t, off);
    AheadByClock(d, s, len, (t + off) % WEEK);
  }

  // The windows of an entry, started on each of its days, hold exactly the seconds it means.
  lemma EntryMeans(e: Entry, clk: Clock, t: int)
    requires 0 <= t < WEEK
    ensures var l := (t + clk.localOff) % WEEK;
            ReadIn(e, DayOf(l), SecondOf(l)) <==>
            SpanOf(e).Some? && exists d :: d in DaysOf(e) && Holds(d, SpanOf(e).value, clk, t)
  {
    var l := (t + clk.localOff) % WEEK;
    if SpanOf(e).Some? {
      DayNumRange(e.days);
      SpanLength(e);
      WindowByDay(e, DayOf(l), SecondOf(l));
      forall d | d in DaysOf(e)
        ensures Holds(d, SpanOf(e).value, clk, t) <==>
                OnDay(d, SpanOf(e).value.0, SpanOf(e).value.1, DayOf(l), SecondOf(l))
      {
        DayStart(d, SpanOf(e).value.0, SpanOf(e).value.1, clk.localOff, t);
      }
    }
  }

  // The window started on day d holds t.
  ghost predicate Holds(d: int, span: (int, int), clk: Clock, t: int) {
    Ahead((d * DAY + span.0 - clk.localOff) % WEEK, t) < span.1
  }

  // ---- the compiler ----

  method DayList(days: seq<string>) returns (ds: seq<int>)
    ensures ds != []
    ensures forall d :: d in ds <==> d in DaysOf(Entry(days, ""))
  {
    ds := [];
    for i := 0 to |days|
      invariant forall d :: d in ds <==> d in DaySet(days[..i])
    {
      assert days[..i + 1] == days[..i] + [days[i]];
      if DayNum(days[i]).Some? {
        ds := ds + [DayNum(days[i]).value];
      }
    }
    assert days[..|days|] == days;
    if ds == [] {
      ds := [0, 1, 2, 3, 4, 5, 6];
      assert DaySet(days) == {};
    } else {
      var d := ds[0];
      assert d in ds;
      assert d in DaySet(days[..|days|]);
      assert DaySet(days) != {};
    }
  }

  ghost predicate EntryHolds(e: Entry, clk: Clock, t: int) {
    var l := (t + clk.localOff) % WEEK; ReadIn(e, DayOf(l), SecondOf(l))
  }

  // One entry's windows as intervals, cut at the end of the week.
  method EntryIntervals(e: Entry, clk: Clock) returns (ivs: seq<Interval>)
    ensures InWeek(ivs)
    ensures forall t :: 0 <= t < WEEK ==> (Covered(ivs, t) <==> EntryHolds(e, clk, t))
  {
    ivs := [];
    var s, len := 0, DAY;
    if e.time != "" {
      var p := ParseWindow(e.time);
      if p.None? {
        NoSpan(e, clk);
        return;
      }
      s, len := p.value.0, if p.value.1 <= p.value.0 then p.value.1 + DAY - p.value.0 else p.value.1 - p.value.0;
    }
    var days := DayList(e.days);
    DayNumRange(e.days);
    for i := 0 to |days|
      invariant Laid(ivs, days, i, (s, len), clk)
    {
      var d := days[i];
      var a := Wrap(d * DAY + s - clk.localOff, WEEK);
      WrapWeek(d * DAY + s - clk.localOff);
      LaysNext(ivs, days, i, (s, len), clk, a);
      ivs := ivs + CutAtWeek(a, a + len);
    }
    assert days[..|days|] == days;
    assert DaysOf(e) == DaysOf(Entry(e.days, ""));
    forall t | 0 <= t < WEEK
      ensures Covered(ivs, t) <==> EntryHolds(e, clk, t)
    {
      EntryMeans(e, clk, t);
    }
  }

  lemma HeldNext(days: seq<int>, i: nat, span: (int, int), clk: Clock, t: int)
    requires i < |days|
    ensures (exists d :: d in days[..i + 1] && Holds(d, span, clk, t)) <==>
            (exists d :: d in days[..i] && Holds(d, span, clk, t)) || Holds(days[i], span, clk, t)
  {
    assert days[..i + 1] == days[..i] + [days[i]];
    assert days[i] in days[..i + 1];
  }

  function CutAtWeek(a: int, b: int): seq<Interval> {
    if b > WEEK then [Interval(a, WEEK), Interval(0, b - WEEK)] else [Interval(a, b)]
  }

  // The windows started on the first i of the days, as intervals.
  ghost predicate Laid(ivs: seq<Interval>, days: seq<int>, i: nat, span: (int, int), clk: Clock)
    requires i <= |days|
  {
    InWeek(ivs) && forall t :: 0 <= t < WEEK ==>
      (Covered(ivs, t) <==> exists d :: d in days[..i] && Holds(d, span, clk, t))
  }

  lemma LaysNext(ivs: seq<Interval>, days: seq<int>, i: nat, span: (int, int), clk: Clock, a: int)
    requires i < |days| && Laid(ivs, days, i, span, clk) && 0 < span.1 <= DAY
    requires a == (days[i] * DAY + span.0 - clk.localOff) % WEEK
    ensures Laid(ivs + CutAtWeek(a, a + span.1), days, i + 1, span, clk)
  {
    var cut := CutAtWeek(a, a + span.1);
    forall t | 0 <= t < WEEK
      ensures Covered(ivs + cut, t) <==> exists d :: d in days[..i + 1] && Holds(d, span, clk, t)
    {
      CutCovers(a, span.1, t);
      CoveredAppend(ivs, cut, t);
      HeldNext(days, i, span, clk, t);
    }
  }

  lemma CutCovers(a: int, len: int, t: int)
    requires 0 <= a < WEEK && 0 <= t < WEEK && 0 < len <= DAY
    ensures Covered(CutAtWeek(a, a + len), t) <==> Ahead(a, t) < len
  {
    AheadInInterval(a, len, t);
    var cut := CutAtWeek(a, a + len);
    assert cut[0] in cut;
    if a + len > WEEK {
      assert cut[1] in cut;
    }
  }

  lemma NoSpan(e: Entry, clk: Clock)
    requires SpanOf(e).None?
    ensures forall t :: 0 <= t < WEEK ==> !EntryHolds(e, clk, t)
  {
  }

  lemma CoveredAppend(a: seq<Interval>, b: seq<Interval>, t: int)
    ensures Covered(a + b, t) <==> Covered(a, t) || Covered(b, t)
  {
    if Covered(a, t) {
      var x :| x in a && Within(x, t);
      assert x in a + b;
    }
    if Covered(b, t) {
      var x :| x in b && Within(x, t);
      assert x in a + b;
    }
  }

  method Windows(sch: seq<Entry>, clk: Clock) returns (ivs: seq<Interval>)
    ensures InWeek(ivs)
    ensures forall t :: 0 <= t < WEEK ==> (Covered(ivs, t) <==> exists e :: e in sch && EntryHolds(e, clk, t))
  {
    ivs := [];
    for i := 0 to |sch|
      invariant InWeek(ivs)
      invariant forall t :: 0 <= t < WEEK ==> (Covered(ivs, t) <==> exists e :: e in sch[..i] && EntryHolds(e, clk, t))
    {
      assert sch[..i + 1] == sch[..i] + [sch[i]];
      var more := EntryIntervals(sch[i], clk);
      forall t | 0 <= t < WEEK
        ensures Covered(ivs + more, t) <==> exists e :: e in sch[..i + 1] && EntryHolds(e, clk, t)
      {
        CoveredAppend(ivs, more, t);
        assert EntryHolds(sch[i], clk, t) ==> sch[i] in sch[..i + 1];
      }
      ivs := ivs + more;
    }
    assert sch[..|sch|] == sch;
  }

  ghost predicate SortedByStart(ivs: seq<Interval>) {
    forall i, j :: 0 <= i < j < |ivs| ==> ivs[i].a <= ivs[j].a
  }

  // Sorted, and with a gap before each interval.
  ghost predicate Apart(ivs: seq<Interval>) {
    forall i, j :: 0 <= i < j < |ivs| ==> ivs[i].b < ivs[j].a
  }

  method SortByStart(ivs: seq<Interval>) returns (sorted: seq<Interval>)
    ensures SortedByStart(sorted)
    ensures forall x :: x in sorted <==> x in ivs
  {
    sorted := [];
    for i := 0 to |ivs|
      invariant SortedByStart(sorted)
      invariant forall x :: x in sorted <==> x in ivs[..i]
    {
      assert ivs[..i + 1] == ivs[..i] + [ivs[i]];
      var k := |sorted|;
      while k > 0 && sorted[k - 1].a > ivs[i].a
        invariant 0 <= k <= |sorted|
        invariant forall j :: k <= j < |sorted| ==> sorted[j].a > ivs[i].a
      {
        k := k - 1;
      }
      Inserted(sorted, k, ivs[i]);
      sorted := sorted[..k] + [ivs[i]] + sorted[k..];
    }
    assert ivs[..|ivs|] == ivs;
  }

  lemma Inserted(s: seq<Interval>, k: nat, x: Interval)
    requires SortedByStart(s) && k <= |s|
    requires k > 0 ==> s[k - 1].a <= x.a
    requires forall j :: k <= j < |s| ==> s[j].a > x.a
    ensures SortedByStart(s[..k] + [x] + s[k..])
    ensures forall y :: y in s[..k] + [x] + s[k..] <==> y in s || y == x
  {
    var r := s[..k] + [x] + s[k..];
    forall y
      ensures y in r <==> y in s || y == x
    {
      assert r[k] == x && (y in s ==> y in s[..k] || y in s[k..]);
    }
    forall i, j | 0 <= i < j < |r|
      ensures r[i].a <= r[j].a
    {
      assert r[i] == if i < k then s[i] else if i == k then x else s[i - 1];
      assert r[j] == if j < k then s[j] else if j == k then x else s[j - 1];
    }
  }

  // The union of sorted intervals, as intervals apart.
  method Merge(ivs: seq<Interval>) returns (merged: seq<Interval>)
    requires SortedByStart(ivs) && InWeek(ivs)
    ensures Apart(merged) && InWeek(merged)
    ensures forall t :: Covered(merged, t) <==> Covered(ivs, t)
  {
    merged := [];
    for i := 0 to |ivs|
      invariant MergedTo(ivs, i, merged)
    {
      var x, n := ivs[i], |merged|;
      if n > 0 && x.a <= merged[n - 1].b {
        TakesIn(ivs, i, merged);
        merged := merged[n - 1 := Widened(merged[n - 1], x)];
      } else {
        PutsBehind(ivs, i, merged);
        merged := merged + [x];
      }
    }
    assert ivs[..|ivs|] == ivs;
  }

  function Widened(l: Interval, x: Interval): Interval {
    Interval(l.a, if x.b > l.b then x.b else l.b)
  }

  // The first i intervals merged, before the next one.
  ghost predicate MergedTo(ivs: seq<Interval>, i: nat, merged: seq<Interval>)
    requires i <= |ivs|
  {
    && Apart(merged) && InWeek(merged)
    && (i < |ivs| ==> forall x :: x in merged ==> x.a <= ivs[i].a)
    && forall t :: Covered(merged, t) <==> Covered(ivs[..i], t)
  }

  lemma CoveredNext(ivs: seq<Interval>, i: nat, t: int)
    requires i < |ivs|
    ensures Covered(ivs[..i + 1], t) <==> Covered(ivs[..i], t) || Within(ivs[i], t)
  {
    assert ivs[..i + 1] == ivs[..i] + [ivs[i]];
    CoveredMore(ivs[..i], ivs[i], t);
  }

  lemma CoveredMore(s: seq<Interval>, x: Interval, t: int)
    ensures Covered(s + [x], t) <==> Covered(s, t) || Within(x, t)
  {
    CoveredAppend(s, [x], t);
    assert [x][0] in [x];
  }

  lemma TakesIn(ivs: seq<Interval>, i: nat, was: seq<Interval>)
    requires SortedByStart(ivs) && InWeek(ivs) && i < |ivs| && MergedTo(ivs, i, was)
    requires was != [] && ivs[i].a <= was[|was| - 1].b
    ensures MergedTo(ivs, i + 1, was[|was| - 1 := Widened(was[|was| - 1], ivs[i])])
  {
    var x, l := ivs[i], was[|was| - 1];
    var now := was[|was| - 1 := Widened(l, x)];
    assert x in ivs && l in was;
    forall y | y in now
      ensures y in was || y == Widened(l, x)
    {
    }
    forall t
      ensures Covered(now, t) <==> Covered(ivs[..i + 1], t)
    {
      Extends(was, now, x, t);
      CoveredNext(ivs, i, t);
    }
  }

  lemma PutsBehind(ivs: seq<Interval>, i: nat, was: seq<Interval>)
    requires SortedByStart(ivs) && InWeek(ivs) && i < |ivs| && MergedTo(ivs, i, was)
    requires was != [] ==> was[|was| - 1].b < ivs[i].a
    ensures MergedTo(ivs, i + 1, was + [ivs[i]])
  {
    var x := ivs[i];
    assert x in ivs;
    forall t
      ensures Covered(was + [x], t) <==> Covered(ivs[..i + 1], t)
    {
      CoveredMore(was, x, t);
      CoveredNext(ivs, i, t);
    }
    LastIsApart(was, x);
  }

  lemma LastIsApart(was: seq<Interval>, x: Interval)
    requires Apart(was) && InWeek(was) && (was != [] ==> was[|was| - 1].b < x.a)
    ensures Apart(was + [x])
  {
    if was != [] {
      assert was[|was| - 1] in was;
    }
  }

  // The last interval takes x in.
  lemma Extends(was: seq<Interval>, now: seq<Interval>, x: Interval, t: int)
    requires was != [] && |now| == |was| && now[..|was| - 1] == was[..|was| - 1]
    requires var l := was[|was| - 1];
             && l.a <= x.a <= l.b && l.a < l.b && x.a < x.b
             && now[|was| - 1] == Interval(l.a, if x.b > l.b then x.b else l.b)
    ensures Covered(now, t) <==> Covered(was, t) || Within(x, t)
  {
    var n := |was| - 1;
    assert was == was[..n] + [was[n]] && now == was[..n] + [now[n]];
    CoveredAppend(was[..n], [was[n]], t);
    CoveredAppend(was[..n], [now[n]], t);
    assert Covered([was[n]], t) <==> Within(was[n], t) by { assert [was[n]][0] in [was[n]]; }
    assert Covered([now[n]], t) <==> Within(now[n], t) by { assert [now[n]][0] in [now[n]]; }
  }

  // ---- hour ranges and the kernel weekdays they hold on ----

  type Groups = map<(int, int), set<int>>

  ghost predicate InGroup(k: (int, int), days: set<int>, mw: int, t: int) {
    k.0 <= SecondOf(t) <= k.1 && KernelDay(t, mw) in days
  }

  ghost predicate Grouped(g: Groups, mw: int, t: int) {
    exists k :: k in g && InGroup(k, g[k], mw, t)
  }

  ghost predicate ProperGroups(g: Groups) {
    forall k :: k in g ==> 0 <= k.0 <= k.1 < DAY && g[k] != {} && g[k] <= {0, 1, 2, 3, 4, 5, 6}
  }

  function AddTo(g: Groups, k: (int, int), day: int): Groups {
    g[k := (if k in g then g[k] else {}) + {day}]
  }

  // Adding a piece adds its seconds and no others.
  lemma AddPiece(g: Groups, p: int, q: int, mw: int, t: int)
    requires Piece(p, q, mw) && 0 <= t < WEEK
    ensures Grouped(AddTo(g, (p % DAY, (q - 1) % DAY), KernelDay(p, mw)), mw, t) <==> Grouped(g, mw, t) || p <= t < q
  {
    var k, d := (p % DAY, (q - 1) % DAY), KernelDay(p, mw);
    var g' := AddTo(g, k, d);
    PieceIsExact(p, q, mw, t);
    if Grouped(g, mw, t) {
      var j :| j in g && InGroup(j, g[j], mw, t);
      assert j in g' && InGroup(j, g'[j], mw, t);
    }
    if p <= t < q {
      assert k in g' && InGroup(k, g'[k], mw, t);
    }
    if Grouped(g', mw, t) {
      var j :| j in g' && InGroup(j, g'[j], mw, t);
      if j != k {
        assert j in g && InGroup(j, g[j], mw, t);
      } else if KernelDay(t, mw) != d {
        assert j in g && InGroup(j, g[j], mw, t);
      }
    }
  }

  method SplitOne(x: Interval, mw: int, g0: Groups) returns (g: Groups)
    requires 0 <= x.a < x.b <= WEEK && ProperGroups(g0)
    ensures ProperGroups(g)
    ensures forall t :: 0 <= t < WEEK ==> (Grouped(g, mw, t) <==> Grouped(g0, mw, t) || Within(x, t))
  {
    g := g0;
    var kOff := Wrap(mw * 60, DAY);
    WrapDay(mw * 60);
    var p := x.a;
    while p < x.b
      invariant x.a <= p <= x.b
      invariant ProperGroups(g)
      invariant forall t :: 0 <= t < WEEK ==> (Grouped(g, mw, t) <==> Grouped(g0, mw, t) || x.a <= t < p)
    {
      var q := (p / DAY + 1) * DAY;
      WrapDay(p - kOff);
      var kb := p - Wrap(p - kOff, DAY) + DAY;
      if kb < q {
        q := kb;
      }
      if x.b < q {
        q := x.b;
      }
      var kday := Wrap(p - mw * 60, WEEK) / DAY;
      WrapWeek(p - mw * 60);
      var k := (p % DAY, (q - 1) % DAY);
      PieceBounds(p, q, mw);
      forall t | 0 <= t < WEEK
        ensures Grouped(AddTo(g, k, kday), mw, t) <==> Grouped(g, mw, t) || p <= t < q
      {
        AddPiece(g, p, q, mw, t);
      }
      g := AddTo(g, k, kday);
      p := q;
    }
  }

  lemma PieceBounds(p: int, q: int, mw: int)
    requires Piece(p, q, mw)
    ensures 0 <= p % DAY <= (q - 1) % DAY < DAY
    ensures 0 <= KernelDay(p, mw) < 7
  {
  }

  method Split(ivs: seq<Interval>, mw: int) returns (g: Groups)
    requires InWeek(ivs)
    ensures ProperGroups(g)
    ensures forall t :: 0 <= t < WEEK ==> (Grouped(g, mw, t) <==> Covered(ivs, t))
  {
    g := map[];
    for i := 0 to |ivs|
      invariant ProperGroups(g)
      invariant forall t :: 0 <= t < WEEK ==> (Grouped(g, mw, t) <==> Covered(ivs[..i], t))
    {
      assert ivs[..i + 1] == ivs[..i] + [ivs[i]];
      assert ivs[i] in ivs;
      g := SplitOne(ivs[i], mw, g);
      forall t | 0 <= t < WEEK
        ensures Covered(ivs[..i + 1], t) <==> Covered(ivs[..i], t) || Within(ivs[i], t)
      {
        CoveredAppend(ivs[..i], [ivs[i]], t);
        assert Covered([ivs[i]], t) <==> Within(ivs[i], t) by { assert [ivs[i]][0] in [ivs[i]]; }
      }
    }
    assert ivs[..|ivs|] == ivs;
  }

  // ---- expressions ----

  function Expression(k: (int, int), days: set<int>): Match {
    Match(if |days| < 7 then Some(days) else None, if k == (0, DAY - 1) then None else Some(k))
  }

  lemma AllSeven(days: set<int>)
    requires days <= {0, 1, 2, 3, 4, 5, 6} && |days| >= 7
    ensures days == {0, 1, 2, 3, 4, 5, 6}
  {
    var rest := {0, 1, 2, 3, 4, 5, 6} - days;
    assert |{0, 1, 2, 3, 4, 5, 6}| == 7;
    assert {0, 1, 2, 3, 4, 5, 6} == days + rest;
  }

  lemma ExpressionMeans(k: (int, int), days: set<int>, mw: int, t: int)
    requires 0 <= t < WEEK && days <= {0, 1, 2, 3, 4, 5, 6}
    ensures Satisfies(Expression(k, days), mw, t) <==> InGroup(k, days, mw, t)
  {
    if |days| >= 7 {
      AllSeven(days);
    }
  }

  // The range of hours that comes first.
  method FirstKey(keys: set<(int, int)>) returns (k: (int, int))
    requires keys != {}
    ensures k in keys && forall j :: j in keys ==> k.0 < j.0 || (k.0 == j.0 && k.1 <= j.1)
  {
    k :| k in keys;
    var todo := keys - {k};
    while todo != {}
      invariant k in keys && todo <= keys
      invariant forall j :: j in keys - todo ==> k.0 < j.0 || (k.0 == j.0 && k.1 <= j.1)
    {
      var j :| j in todo;
      if j.0 < k.0 || (j.0 == k.0 && j.1 < k.1) {
        k := j;
      }
      todo := todo - {j};
    }
  }

  method Emit(g: Groups, mw: int) returns (out: seq<Match>)
    requires ProperGroups(g)
    ensures forall t :: 0 <= t < WEEK ==> (Matched(out, mw, t) <==> Grouped(g, mw, t))
    ensures Match(None, None) in out ==> out == [Match(None, None)]
    ensures forall m :: m in out && m.days.Some? ==> m.days.value != {}
  {
    out := [];
    var todo := g.Keys;
    while todo != {}
      invariant todo <= g.Keys && Match(None, None) !in out
      invariant forall m :: m in out <==> exists k :: k in g.Keys - todo && m == Expression(k, g[k])
      invariant forall m :: m in out && m.days.Some? ==> m.days.value != {}
    {
      var k := FirstKey(todo);
      var m := Expression(k, g[k]);
      if m == Match(None, None) {
        AllSeven(g[k]);
        forall t | 0 <= t < WEEK
          ensures Matched([m], mw, t) && Grouped(g, mw, t)
        {
          assert [m][0] in [m] && Satisfies(m, mw, t);
          assert InGroup(k, g[k], mw, t);
        }
        return [m];
      }
      out := out + [m];
      todo := todo - {k};
    }
    forall t | 0 <= t < WEEK
      ensures Matched(out, mw, t) <==> Grouped(g, mw, t)
    {
      if Matched(out, mw, t) {
        var m :| m in out && Satisfies(m, mw, t);
        var k :| k in g.Keys && m == Expression(k, g[k]);
        ExpressionMeans(k, g[k], mw, t);
      }
      if Grouped(g, mw, t) {
        var k :| k in g && InGroup(k, g[k], mw, t);
        ExpressionMeans(k, g[k], mw, t);
        assert Expression(k, g[k]) in out;
      }
    }
  }

  lemma ScheduledAsRead(sch: seq<Entry>, clk: Clock, t: int)
    requires sch != []
    ensures Scheduled(sch, clk, t) <==> exists e :: e in sch && EntryHolds(e, clk, t)
  {
    var l := (t + clk.localOff) % WEEK;
    forall e
      ensures EntryHolds(e, clk, t) <==> InWindow(e, DayOf(l), SecondOf(l))
    {
      ReadAsMeant(e, DayOf(l), SecondOf(l));
    }
  }

  /** The compiled expressions match exactly the scheduled seconds, whatever the schedule, the local
      offset and the kernel's time zone. An expression without a condition stands alone. */
  method FwTimeMatches(sch: seq<Entry>, clk: Clock) returns (out: seq<Match>)
    ensures forall t :: 0 <= t < WEEK ==> (Matched(out, clk.kernelMW, t) <==> Scheduled(sch, clk, t))
    ensures Match(None, None) in out ==> out == [Match(None, None)]
    ensures forall m :: m in out && m.days.Some? ==> m.days.value != {}
  {
    var always := [Match(None, None)];
    assert forall t :: Matched(always, clk.kernelMW, t) by {
      forall t
        ensures Matched(always, clk.kernelMW, t)
      {
        assert always[0] in always && Satisfies(always[0], clk.kernelMW, t);
      }
    }
    if sch == [] {
      return always;
    }
    var ivs := Windows(sch, clk);
    var sorted := SortByStart(ivs);
    forall t
      ensures Covered(sorted, t) <==> Covered(ivs, t)
    {
    }
    var merged := Merge(sorted);
    forall t | 0 <= t < WEEK
      ensures Covered(merged, t) <==> Scheduled(sch, clk, t)
    {
      ScheduledAsRead(sch, clk, t);
    }
    if |merged| == 1 && merged[0].a == 0 && merged[0].b == WEEK {
      forall t | 0 <= t < WEEK
        ensures Covered(merged, t)
      {
        assert merged[0] in merged && Within(merged[0], t);
      }
      return always;
    }
    var groups := Split(merged, clk.kernelMW);
    out := Emit(groups, clk.kernelMW);
  }
}
