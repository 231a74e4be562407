/** The web login throttle: what it grants a source in any stretch of time, how long its locks last, and
    that forgetting idle sources changes nothing. */
module LoginThrottle {
  const MAX_FAILS := 5
  const BASE_NANOS := 30_000_000_000
  const NANOS := 1_000_000_000
  const MAX_LOCK := 3600
  const FORGET := 900
  const DAY := 86400
  const SOURCES := 1024

  datatype Rec = Rec(fails: nat, until: int, locks: nat, seen: int)

  const FRESH := Rec(0, 0, 0, 0)

  // locked: the seconds of the lock this attempt starts; 0: none.
  datatype Outcome = Denied(wait: int) | Granted(fails: nat, locked: int)

  // ---- lock lengths ----

  function Pow2(k: nat): (p: nat)
    ensures p >= 1
  {
    if k == 0 then 1 else 2 * Pow2(k - 1)
  }

  const WORD := 0x1_0000_0000_0000_0000

  // A 64-bit signed value.
  function Wrap(x: int): int {
    var m := x % WORD;
    if m >= WORD / 2 then m - WORD else m
  }

  // The next lock in seconds, as computed in 64-bit nanoseconds.
  function LockSeconds(locks: nat): int {
    var d := Wrap(BASE_NANOS * Pow2(locks));
    if d > MAX_LOCK * NANOS || d <= 0 then MAX_LOCK else d / NANOS
  }

  function Doubled(locks: nat): int {
    if 30 * Pow2(locks) > MAX_LOCK then MAX_LOCK else 30 * Pow2(locks)
  }

  lemma {:induction false} Pow2Adds(a: nat, b: nat)
    ensures Pow2(a + b) == Pow2(a) * Pow2(b)
    decreases b
  {
    if b > 0 {
      Pow2Adds(a, b - 1);
    }
  }

  lemma {:induction false} Pow2Grows(a: nat, b: nat)
    requires a <= b
    ensures Pow2(a) <= Pow2(b)
    decreases b - a
  {
    if a < b {
      Pow2Grows(a + 1, b);
    }
  }

  lemma Powers()
    ensures Pow2(8) == 256 && Pow2(10) == 1024 && Pow2(16) == 0x1_0000 && Pow2(32) == 0x1_0000_0000 &&
            Pow2(42) == 0x400_0000_0000
    ensures Pow2(22) == 0x40_0000
  {
    Pow2Adds(8, 8);
    Pow2Adds(16, 16);
    Pow2Adds(16, 6);
    Pow2Adds(32, 10);
  }

  // What is left of a multiple of 2^42 is zero, negative or far above the longest lock.
  lemma LateWrap(a: int)
    ensures var d := Wrap(0x400_0000_0000 * a); d <= 0 || d > MAX_LOCK * NANOS
  {
    var x := 0x400_0000_0000 * a;
    var h := x / WORD;
    var m := x % WORD;
    assert x == WORD * h + m;
    var c := a - 0x40_0000 * h;
    assert m == 0x400_0000_0000 * c;
    assert Wrap(x) == 0x400_0000_0000 * (if m >= WORD / 2 then c - 0x40_0000 else c);
  }

  lemma LateLocks(locks: nat)
    requires 32 <= locks
    ensures var d := Wrap(BASE_NANOS * Pow2(locks)); d <= 0 || d > MAX_LOCK * NANOS
  {
    Powers();
    Pow2Adds(32, locks - 32);
    var a := 29_296_875 * Pow2(locks - 32);
    assert BASE_NANOS * Pow2(locks) == 0x400_0000_0000 * a;
    LateWrap(a);
  }

  // While nothing wraps.
  lemma SmallLock(locks: nat)
    requires Pow2(locks) <= 0x1000_0000
    ensures LockSeconds(locks) == Doubled(locks)
  {
    var p := Pow2(locks);
    assert 0 <= BASE_NANOS * p < WORD / 2;
    assert Wrap(BASE_NANOS * p) == NANOS * (30 * p);
  }

  // The last three shifts that leave anything below 2^42.
  lemma WrappingLock(p: nat)
    requires p in {0x2000_0000, 0x4000_0000, 0x8000_0000}
    ensures var d := Wrap(BASE_NANOS * p); d <= 0 || d > MAX_LOCK * NANOS
  {
  }

  lemma EarlyLocks(locks: nat)
    requires locks < 32
    ensures LockSeconds(locks) == Doubled(locks)
  {
    Powers();
    if locks <= 16 {
      Pow2Grows(locks, 16);
      SmallLock(locks);
    } else {
      Pow2Adds(16, locks - 16);
      UpTo15(locks - 16);
      if locks <= 28 {
        SmallLock(locks);
      } else {
        WrappingLock(Pow2(locks));
      }
    }
  }

  lemma UpTo15(k: nat)
    requires k <= 15
    ensures 1 <= Pow2(k) && (k <= 12 ==> Pow2(k) <= 4096)
    ensures (k == 13 ==> Pow2(k) == 8192) && (k == 14 ==> Pow2(k) == 16384) && (k == 15 ==> Pow2(k) == 32768)
  {
    assert Pow2(4) == 16;
    Pow2Adds(8, 4);
    Pow2Adds(8, 5);
    Pow2Adds(8, 6);
    Pow2Adds(8, 7);
    assert Pow2(5) == 32 && Pow2(6) == 64 && Pow2(7) == 128 && Pow2(8) == 256;
    if k <= 12 {
      Pow2Grows(k, 12);
    } else {
      Pow2Grows(0, k);
    }
  }

  /** The lock after n locks in a row lasts 30 * 2^n seconds, an hour at most, for every n: the 64-bit
      shift wraps, but never to a value in between. */
  lemma LocksDouble(locks: nat)
    ensures LockSeconds(locks) == Doubled(locks) && 30 <= LockSeconds(locks) <= MAX_LOCK
  {
    Pow2Grows(0, locks);
    if locks < 32 {
      EarlyLocks(locks);
    } else {
      Powers();
      Pow2Grows(10, locks);
      LateLocks(locks);
    }
  }

  // ---- one attempt ----

  // The record once the forget rules have been applied to an attempt at now.
  function Rested(r: Rec, now: int): Rec {
    r.(fails := if now - r.seen > FORGET then 0 else r.fails,
       locks := if r.until != 0 && now - r.until > MAX_LOCK then 0 else r.locks)
  }

  function Attempt(r: Rec, now: int): (Rec, Outcome) {
    if now < r.until then (r, Denied(r.until - now))
    else
      var q := Rested(r, now);
      if q.fails + 1 >= MAX_FAILS then
        (Rec(0, now + LockSeconds(q.locks), q.locks + 1, now), Granted(q.fails + 1, LockSeconds(q.locks)))
      else (Rec(q.fails + 1, q.until, q.locks, now), Granted(q.fails + 1, 0))
  }

  /** What an attempt is told to wait is exact: a denied one changes nothing, and from it on, or from one
      that starts a lock, every attempt is denied with the seconds left, and granted once they are over. */
  lemma WaitsAreExact(r: Rec, now: int, later: int)
    requires now <= later
    ensures var (q, o) := Attempt(r, now);
            var free := now + if o.Denied? then o.wait else o.locked;
            && (o.Denied? ==> o.wait > 0 && q == r)
            && (later < free ==> Attempt(q, later) == (q, Denied(free - later)))
            && (later >= free ==> Attempt(q, later).1.Granted?)
  {
    LocksDouble(Rested(r, now).locks);
  }

  /** The records of all sources. */
  class Throttle {
    var recs: map<string, Rec>

    function RecOf(key: string): Rec
      reads this
    {
      RecIn(recs, key)
    }

    method Begin(key: string, now: int) returns (o: Outcome)
      modifies this
      ensures o == Attempt(old(RecOf(key)), now).1
      ensures Stored(old(recs), key, Attempt(old(RecOf(key)), now).0, now, recs)
    {
      var r := RecOf(key);
      r, o := Count(r, now);
      Store(key, r, now);
    }

    static method Count(rec: Rec, now: int) returns (r: Rec, o: Outcome)
      ensures (r, o) == Attempt(rec, now)
    {
      r := rec;
      if now < r.until {
        return r, Denied(r.until - now);
      }
      if now - r.seen > FORGET {
        r := r.(fails := 0);
      }
      if r.until != 0 && now - r.until > MAX_LOCK {
        r := r.(locks := 0);
      }
      r := r.(seen := now, fails := r.fails + 1);
      var fails, locked := r.fails, 0;
      if r.fails >= MAX_FAILS {
        locked := NextLock(r.locks);
        r := r.(until := now + locked, fails := 0, locks := r.locks + 1);
      }
      o := Granted(fails, locked);
    }

    static method NextLock(locks: nat) returns (seconds: int)
      ensures seconds == LockSeconds(locks)
    {
      var d := Wrap(BASE_NANOS * Pow2(locks));
      if d > MAX_LOCK * NANOS || d <= 0 {
        d := MAX_LOCK * NANOS;
      }
      seconds := d / NANOS;
    }

    method Succeeded(key: string, now: int)
      modifies this
      ensures Stored(old(recs), key, FRESH, now, recs)
    {
      Store(key, FRESH, now);
    }

    method Store(key: string, r: Rec, now: int)
      modifies this
      ensures Stored(old(recs), key, r, now, recs)
    {
      recs := if r == FRESH then recs - {key} else recs[key := r];
      recs := map k | k in recs && !Idle(recs[k], now) :: recs[k];
      ghost var all := recs;
      while |recs| > SOURCES
        invariant Newest(all, recs)
        invariant |recs| >= SOURCES || recs == all
        invariant |all| <= SOURCES ==> recs == all
        decreases |recs|
      {
        var k := Oldest(recs);
        recs := recs - {k};
      }
    }
  }

  function RecIn(recs: map<string, Rec>, key: string): Rec {
    if key in recs then recs[key] else FRESH
  }

  predicate Idle(r: Rec, now: int) {
    now - r.seen > DAY && r.until < now
  }

  // Some of the records, none of the others seen later.
  predicate Newest(all: map<string, Rec>, kept: map<string, Rec>) {
    && kept.Keys <= all.Keys
    && (forall k :: k in kept ==> kept[k] == all[k])
    && forall k, g :: k in kept && g in all && g !in kept ==> all[g].seen <= kept[k].seen
  }

  // The records once one was changed and the idle sources are forgotten.
  function Awake(was: map<string, Rec>, key: string, r: Rec, now: int): map<string, Rec> {
    var changed := if r == FRESH then was - {key} else was[key := r];
    map k | k in changed && !Idle(changed[k], now) :: changed[k]
  }

  // The file after a record was changed: idle sources forgotten, and the newest of the others kept.
  ghost predicate Stored(was: map<string, Rec>, key: string, r: Rec, now: int, recs: map<string, Rec>) {
    var awake := Awake(was, key, r, now);
    Newest(awake, recs) && if |awake| <= SOURCES then recs == awake else |recs| == SOURCES
  }

  method Oldest(m: map<string, Rec>) returns (key: string)
    requires m != map[]
    ensures key in m && forall k :: k in m ==> m[key].seen <= m[k].seen
  {
    var todo := m.Keys;
    key :| key in todo;
    todo := todo - {key};
    while todo != {}
      invariant todo <= m.Keys && key in m
      invariant forall k :: k in m && k !in todo ==> m[key].seen <= m[k].seen
    {
      var k :| k in todo;
      if m[k].seen < m[key].seen {
        key := k;
      }
      todo := todo - {k};
    }
  }

  // ---- a source's attempts ----

  predicate Clock(ts: seq<int>) {
    forall i, j :: 0 <= i <= j < |ts| ==> ts[i] <= ts[j]
  }

  // The record after the first n attempts.
  function After(r: Rec, ts: seq<int>, n: nat): Rec
    requires n <= |ts|
  {
    if n == 0 then r else Attempt(After(r, ts, n - 1), ts[n - 1]).0
  }

  predicate GrantedAt(r: Rec, ts: seq<int>, i: nat)
    requires i < |ts|
  {
    Attempt(After(r, ts, i), ts[i]).1.Granted?
  }

  predicate LockedAt(r: Rec, ts: seq<int>, i: nat)
    requires i < |ts|
  {
    var o := Attempt(After(r, ts, i), ts[i]).1;
    o.Granted? && o.locked > 0
  }

  function Grants(r: Rec, ts: seq<int>, n: nat): nat
    requires n <= |ts|
  {
    if n == 0 then 0 else Grants(r, ts, n - 1) + if GrantedAt(r, ts, n - 1) then 1 else 0
  }

  function Locks(r: Rec, ts: seq<int>, n: nat): nat
    requires n <= |ts|
  {
    if n == 0 then 0 else Locks(r, ts, n - 1) + if LockedAt(r, ts, n - 1) then 1 else 0
  }

  // Counts thrown away between two granted attempts.
  predicate ForgotAt(r: Rec, ts: seq<int>, i: nat)
    requires i < |ts|
  {
    GrantedAt(r, ts, i) && Grants(r, ts, i) > 0 && ts[i] - After(r, ts, i).seen > FORGET
  }

  function Forgets(r: Rec, ts: seq<int>, n: nat): nat
    requires n <= |ts|
  {
    if n == 0 then 0 else Forgets(r, ts, n - 1) + if ForgotAt(r, ts, n - 1) then 1 else 0
  }

  /** Four failures lock nobody out: from a record without failures, or after a quarter of an hour without
      any, the next four attempts are granted and start no lock, at whatever times. */
  lemma {:induction false} FourAreFree(r: Rec, ts: seq<int>, n: nat)
    requires n <= 4 && n <= |ts| && Clock(ts)
    requires n > 0 ==> ts[0] >= r.until && (r.fails == 0 || ts[0] - r.seen > 900)
    ensures Grants(r, ts, n) == n && Locks(r, ts, n) == 0
    ensures n > 0 ==> After(r, ts, n).fails <= n && After(r, ts, n).until == r.until
  {
    if n > 0 {
      FourAreFree(r, ts, n - 1);
      assert ts[0] <= ts[n - 1];
    }
  }

  lemma {:induction false} Counted(r: Rec, ts: seq<int>, n: nat)
    requires n <= |ts| && r.fails < MAX_FAILS
    ensures After(r, ts, n).fails < MAX_FAILS
    ensures Grants(r, ts, n) <= 5 * Locks(r, ts, n) + 4 * Forgets(r, ts, n) + After(r, ts, n).fails
    ensures Grants(r, ts, n) == 0 ==> Locks(r, ts, n) == 0 && Forgets(r, ts, n) == 0
  {
    if n > 0 {
      Counted(r, ts, n - 1);
      LocksDouble(Rested(After(r, ts, n - 1), ts[n - 1]).locks);
    }
  }

  // Each lock takes half a minute, each forgotten count a quarter of an hour.
  lemma {:induction false} Timed(r: Rec, ts: seq<int>, n: nat)
    requires 0 < n <= |ts| && Clock(ts)
    ensures Locks(r, ts, n) > 0 ==>
              After(r, ts, n).until >= ts[0] + 30 * Locks(r, ts, n) && ts[n - 1] >= ts[0] + 30 * (Locks(r, ts, n) - 1)
    ensures Grants(r, ts, n) == 0 ==> Forgets(r, ts, n) == 0
    ensures Grants(r, ts, n) > 0 ==> ts[0] + 900 * Forgets(r, ts, n) <= After(r, ts, n).seen <= ts[n - 1]
    decreases n
  {
    LocksDouble(Rested(After(r, ts, n - 1), ts[n - 1]).locks);
    if n > 1 {
      Timed(r, ts, n - 1);
      assert ts[n - 2] <= ts[n - 1];
    } else {
      assert After(r, ts, 0) == r && Grants(r, ts, 0) == 0 && Locks(r, ts, 0) == 0 && Forgets(r, ts, 0) == 0;
    }
  }

  /** The rate bound: attempts of one source within T seconds are granted at most 5 times per started
      half minute and 4 times per started quarter of an hour, from any record on. */
  lemma RateBound(r: Rec, ts: seq<int>, T: nat)
    requires ts != [] && Clock(ts) && ts[|ts| - 1] - ts[0] <= T && r.fails < MAX_FAILS
    ensures Grants(r, ts, |ts|) <= 5 * (T / 30 + 1) + 4 * (T / 900 + 1)
  {
    var n := |ts|;
    Counted(r, ts, n);
    Timed(r, ts, n);
    var l, f := Locks(r, ts, n), Forgets(r, ts, n);
    Quotas(l, f, T);
  }

  lemma Quotas(l: nat, f: nat, T: nat)
    requires (l > 0 ==> 30 * (l - 1) <= T) && 900 * f <= T
    ensures 5 * l + 4 * f + 4 <= 5 * (T / 30 + 1) + 4 * (T / 900 + 1)
  {
    if l > 0 {
      Per30(l - 1, T);
    }
    Per900(f, T);
  }

  lemma Per30(n: nat, T: nat)
    requires 30 * n <= T
    ensures n <= T / 30
  {
  }

  lemma Per900(n: nat, T: nat)
    requires 900 * n <= T
    ensures n <= T / 900
  {
  }

  // ---- a streak of locks ----

  // No attempt comes late enough for the locks or the failures to be forgotten.
  predicate Streak(r: Rec, ts: seq<int>) {
    forall i :: 0 <= i < |ts| && GrantedAt(r, ts, i) ==>
      var q := After(r, ts, i); Rested(q, ts[i]) == q
  }

  function LockTime(k: nat): nat {
    if k == 0 then 0 else LockTime(k - 1) + Doubled(k - 1)
  }

  // The record on the way, after granted attempts and locks since start.
  predicate OnStreak(q: Rec, granted: nat, locks: nat, start: int, now: int) {
    && q.locks == locks && q.fails < MAX_FAILS && granted == 5 * locks + q.fails
    && (locks > 0 ==> q.until >= start + LockTime(locks) && now >= start + LockTime(locks - 1))
  }

  // An attempt at now, if granted, finds nothing to forget.
  predicate Unpaused(q: Rec, now: int) {
    now >= q.until ==> Rested(q, now) == q
  }

  lemma StreakAt(r: Rec, ts: seq<int>, i: nat)
    requires Streak(r, ts) && i < |ts|
    ensures Unpaused(After(r, ts, i), ts[i])
  {
    assert GrantedAt(r, ts, i) <==> ts[i] >= After(r, ts, i).until;
  }

  lemma StreakStep(q: Rec, granted: nat, locks: nat, start: int, now: int, later: int)
    requires OnStreak(q, granted, locks, start, now) && start <= now <= later
    requires Unpaused(q, later)
    ensures var (r, o) := Attempt(q, later);
            OnStreak(r, granted + if o.Granted? then 1 else 0, locks + if o.Granted? && o.locked > 0 then 1 else 0,
                     start, later)
  {
    LocksDouble(q.locks);
  }

  // After the first n attempts of a streak, the last of them at now.
  ghost predicate StreakAfter(ts: seq<int>, n: nat, now: int)
    requires n <= |ts| && ts != []
  {
    OnStreak(After(FRESH, ts, n), Grants(FRESH, ts, n), Locks(FRESH, ts, n), ts[0], now)
  }

  lemma StreakNext(ts: seq<int>, n: nat, now: int)
    requires n < |ts| && Streak(FRESH, ts) && ts[0] <= now <= ts[n] && StreakAfter(ts, n, now)
    ensures StreakAfter(ts, n + 1, ts[n])
  {
    StreakAt(FRESH, ts, n);
    StreakStep(After(FRESH, ts, n), Grants(FRESH, ts, n), Locks(FRESH, ts, n), ts[0], now, ts[n]);
  }

  lemma {:induction false} StreakCounts(ts: seq<int>, n: nat)
    requires 0 < n <= |ts| && Clock(ts) && Streak(FRESH, ts)
    ensures StreakAfter(ts, n, ts[n - 1])
  {
    if n > 1 {
      StreakCounts(ts, n - 1);
      StreakNext(ts, n - 1, ts[n - 2]);
    } else {
      StreakNext(ts, 0, ts[0]);
    }
  }

  /** Guessing on without a pause: 5k granted attempts take at least as long as the first k - 1 locks,
      and the k-th lock lasts what LocksDouble says. */
  lemma StreakCosts(ts: seq<int>, k: nat)
    requires ts != [] && Clock(ts) && Streak(FRESH, ts) && k > 0
    requires Grants(FRESH, ts, |ts|) >= 5 * k
    ensures ts[|ts| - 1] - ts[0] >= LockTime(k - 1)
  {
    var n := |ts|;
    StreakCounts(ts, n);
    StreakEnds(After(FRESH, ts, n), Grants(FRESH, ts, n), Locks(FRESH, ts, n), ts[0], ts[n - 1], k);
  }

  lemma StreakEnds(q: Rec, granted: nat, locks: nat, start: int, now: int, k: nat)
    requires OnStreak(q, granted, locks, start, now) && granted >= 5 * k && k > 0
    ensures now - start >= LockTime(k - 1)
  {
    LockTimeGrows(k - 1, locks - 1);
  }

  lemma {:induction false} LockTimeGrows(a: nat, b: nat)
    requires a <= b
    ensures LockTime(a) <= LockTime(b)
    decreases b - a
  {
    if a < b {
      LockTimeGrows(a, b - 1);
    }
  }

  // ---- forgetting ----

  // So old that nothing in it matters any more.
  predicate Spent(r: Rec, now: int) {
    now - r.seen > FORGET && r.until <= now && (r.until == 0 || now - r.until > MAX_LOCK || r.locks == 0)
  }

  // No attempt from now on can tell the two records apart.
  predicate Alike(r: Rec, q: Rec, now: int) {
    || r == q
    || (Spent(r, now) && Spent(q, now) && (r.until == 0 ==> r.locks == 0) && (q.until == 0 ==> q.locks == 0))
    || (r.fails == q.fails && r.seen == q.seen && r.locks == 0 && q.locks == 0 && r.until <= now && q.until <= now)
  }

  lemma AlikeStep(r: Rec, q: Rec, now: int, later: int)
    requires Alike(r, q, now) && now <= later
    ensures Attempt(r, later).1 == Attempt(q, later).1 && Alike(Attempt(r, later).0, Attempt(q, later).0, later)
  {
  }

  lemma {:induction false} AlikeRun(r: Rec, q: Rec, now: int, ts: seq<int>, n: nat)
    requires Alike(r, q, now) && Clock(ts) && n <= |ts| && (ts != [] ==> now <= ts[0])
    ensures Alike(After(r, ts, n), After(q, ts, n), if n == 0 then now else ts[n - 1])
  {
    if n > 0 {
      AlikeRun(r, q, now, ts, n - 1);
      AlikeStep(After(r, ts, n - 1), After(q, ts, n - 1), if n == 1 then now else ts[n - 2], ts[n - 1]);
    }
  }

  // A lock starts at the last attempt seen and lasts an hour at most; without one none is counted.
  predicate Sane(r: Rec) {
    r.until <= r.seen + MAX_LOCK && (r.until == 0 ==> r.locks == 0)
  }

  lemma SaneStep(r: Rec, now: int)
    requires Sane(r) && r.seen <= now && 0 <= now
    ensures Sane(Attempt(r, now).0) && Attempt(r, now).0.seen <= now
  {
    LocksDouble(Rested(r, now).locks);
  }

  lemma ForgetStep(r: Rec, q: Rec, was: int, now: int)
    requires Sane(r) && Sane(q) && Alike(r, q, was) && was <= now && Idle(r, now) && now > DAY
    ensures Alike(FRESH, q, now)
  {
  }

  // ---- runs of the file ----

  // What the sources do to the file: attempts, and logins that clear a record.
  datatype Event = Try(key: string, now: int) | Success(key: string, now: int)

  function Changed(recs: map<string, Rec>, e: Event): Rec {
    if e.Try? then Attempt(RecIn(recs, e.key), e.now).0 else FRESH
  }

  // Files in a row from an empty one, as Begin and Succeeded leave them; no source is ever dropped
  // because too many others are newer.
  ghost predicate FileRun(files: seq<map<string, Rec>>, events: seq<Event>) {
    && |files| == |events| + 1 && files[0] == map[]
    && (forall i :: 0 <= i < |events| ==> Happens(files[i], events[i], files[i + 1]))
    && (forall i, j :: 0 <= i <= j < |events| ==> events[i].now <= events[j].now)
    && (forall i :: 0 <= i < |events| ==> events[i].now > DAY)
  }

  ghost predicate Happens(was: map<string, Rec>, e: Event, recs: map<string, Rec>) {
    Stored(was, e.key, Changed(was, e), e.now, recs) && |Awake(was, e.key, Changed(was, e), e.now)| <= SOURCES
  }

  // The source never logs in.
  predicate OnlyTries(events: seq<Event>, key: string) {
    forall i :: 0 <= i < |events| && events[i].key == key ==> events[i].Try?
  }

  function Times(events: seq<Event>, key: string): seq<int> {
    if events == [] then []
    else
      var rest, e := Times(events[..|events| - 1], key), events[|events| - 1];
      if e.key == key then rest + [e.now] else rest
  }

  function NowAt(events: seq<Event>, n: nat): int
    requires n <= |events|
  {
    if n == 0 then DAY + 1 else events[n - 1].now
  }

  // What the source's record would be if nothing idle were ever forgotten.
  function Unforgotten(events: seq<Event>, key: string, n: nat): Rec
    requires n <= |events|
  {
    After(FRESH, Times(events[..n], key), |Times(events[..n], key)|)
  }

  lemma RecordAfter(was: map<string, Rec>, e: Event, recs: map<string, Rec>, key: string)
    requires Happens(was, e, recs)
    ensures var r := if e.key == key then Changed(was, e) else RecIn(was, key);
            RecIn(recs, key) == if Idle(r, e.now) then FRESH else r
  {
  }

  lemma {:induction false} AfterPrefix(r: Rec, ts: seq<int>, us: seq<int>, n: nat)
    requires n <= |ts|
    ensures After(r, ts + us, n) == After(r, ts, n)
  {
    if n > 0 {
      AfterPrefix(r, ts, us, n - 1);
    }
  }

  lemma UnforgottenStep(events: seq<Event>, key: string, n: nat)
    requires n < |events|
    ensures Times(events[..n + 1], key) ==
            Times(events[..n], key) + if events[n].key == key then [events[n].now] else []
    ensures Unforgotten(events, key, n + 1) ==
            if events[n].key == key then Attempt(Unforgotten(events, key, n), events[n].now).0
            else Unforgotten(events, key, n)
  {
    assert events[..n + 1][..n] == events[..n];
    AfterPrefix(FRESH, Times(events[..n], key), [events[n].now], |Times(events[..n], key)|);
  }

  lemma AlikeLater(r: Rec, q: Rec, now: int, later: int)
    requires Alike(r, q, now) && now <= later
    ensures Alike(r, q, later)
  {
  }

  ghost predicate Tracks(files: seq<map<string, Rec>>, events: seq<Event>, key: string, n: nat)
    requires n <= |events| && n < |files|
  {
    var r, q, now := RecIn(files[n], key), Unforgotten(events, key, n), NowAt(events, n);
    Sane(r) && r.seen <= now && Sane(q) && q.seen <= now && Alike(r, q, now)
  }

  lemma {:induction false} FileTracks(files: seq<map<string, Rec>>, events: seq<Event>, key: string, n: nat)
    requires FileRun(files, events) && OnlyTries(events, key) && n <= |events|
    ensures Tracks(files, events, key, n)
  {
    if n > 0 {
      FileTracks(files, events, key, n - 1);
      UnforgottenStep(events, key, n - 1);
      var e := events[n - 1];
      var r, q := RecIn(files[n - 1], key), Unforgotten(events, key, n - 1);
      assert NowAt(events, n - 1) <= e.now;
      RecordAfter(files[n - 1], e, files[n], key);
      if e.key == key {
        AlikeStep(r, q, NowAt(events, n - 1), e.now);
        SaneStep(r, e.now);
        SaneStep(q, e.now);
      } else {
        AlikeLater(r, q, NowAt(events, n - 1), e.now);
      }
      KeptOrForgotten(if e.key == key then Attempt(r, e.now).0 else r, Unforgotten(events, key, n), e.now);
    }
  }

  lemma KeptOrForgotten(r: Rec, q: Rec, now: int)
    requires Sane(r) && r.seen <= now && Sane(q) && Alike(r, q, now) && now > DAY
    ensures var kept := if Idle(r, now) then FRESH else r; Sane(kept) && kept.seen <= now && Alike(kept, q, now)
  {
    if Idle(r, now) {
      ForgetStep(r, q, now, now);
    }
  }

  // An attempt of the source at event n has the outcome it would have if nothing were forgotten.
  predicate FaresUnforgotten(files: seq<map<string, Rec>>, events: seq<Event>, key: string, n: nat)
    requires n < |events| < |files|
  {
    Attempt(RecIn(files[n], key), events[n].now).1 == Attempt(Unforgotten(events, key, n), events[n].now).1
  }

  /** Forgetting sources idle for a day is unobservable, over every run of the file: each attempt of a
      source fares as if its record had never been dropped. */
  lemma ForgettingIsUnseen(files: seq<map<string, Rec>>, events: seq<Event>, key: string, n: nat)
    requires FileRun(files, events) && OnlyTries(events, key) && n < |events|
    ensures FaresUnforgotten(files, events, key, n)
  {
    FileTracks(files, events, key, n);
    assert n > 0 ==> events[n - 1].now <= events[n].now;
    AlikeStep(RecIn(files[n], key), Unforgotten(events, key, n), NowAt(events, n), events[n].now);
  }

  // The attempts of the source that the file grants from event a to event b.
  function GrantsIn(files: seq<map<string, Rec>>, events: seq<Event>, key: string, a: nat, b: nat): nat
    requires a <= b <= |events| < |files|
  {
    if a == b then 0
    else
      var e := events[b - 1];
      GrantsIn(files, events, key, a, b - 1)
      + if e.key == key && Attempt(RecIn(files[b - 1], key), e.now).1.Granted? then 1 else 0
  }

  lemma {:induction false} GrantsPrefix(r: Rec, ts: seq<int>, us: seq<int>, n: nat)
    requires n <= |ts|
    ensures Grants(r, ts + us, n) == Grants(r, ts, n)
  {
    if n > 0 {
      GrantsPrefix(r, ts, us, n - 1);
      AfterPrefix(r, ts, us, n - 1);
    }
  }

  lemma OneMoreGrant(r: Rec, ts: seq<int>, now: int)
    ensures var n := |ts|;
            && After(r, ts + [now], n + 1) == Attempt(After(r, ts, n), now).0
            && Grants(r, ts + [now], n + 1) ==
               Grants(r, ts, n) + if Attempt(After(r, ts, n), now).1.Granted? then 1 else 0
  {
    AfterPrefix(r, ts, [now], |ts|);
    GrantsPrefix(r, ts, [now], |ts|);
  }

  // The source's attempts from a to b, from the record it would have at a.
  lemma {:induction false} GrantsMatch(files: seq<map<string, Rec>>, events: seq<Event>, key: string, a: nat, b: nat)
    requires a <= b <= |events| < |files|
    requires forall n :: a <= n < b ==> FaresUnforgotten(files, events, key, n)
    ensures Matching(files, events, key, a, b)
    decreases b - a
  {
    if a < b {
      GrantsMatch(files, events, key, a, b - 1);
      MatchingMore(files, events, key, a, b);
    } else {
      assert events[a..b] == [];
    }
  }

  lemma AllFareUnforgotten(files: seq<map<string, Rec>>, events: seq<Event>, key: string)
    requires FileRun(files, events) && OnlyTries(events, key)
    ensures forall n :: 0 <= n < |events| ==> FaresUnforgotten(files, events, key, n)
  {
    forall n | 0 <= n < |events|
      ensures FaresUnforgotten(files, events, key, n)
    {
      ForgettingIsUnseen(files, events, key, n);
    }
  }

  ghost predicate Matching(files: seq<map<string, Rec>>, events: seq<Event>, key: string, a: nat, b: nat)
    requires a <= b <= |events| < |files|
  {
    var r, ts := Unforgotten(events, key, a), Times(events[a..b], key);
    GrantsIn(files, events, key, a, b) == Grants(r, ts, |ts|) && Unforgotten(events, key, b) == After(r, ts, |ts|)
  }

  lemma MatchingMore(files: seq<map<string, Rec>>, events: seq<Event>, key: string, a: nat, b: nat)
    requires a < b <= |events| < |files| && Matching(files, events, key, a, b - 1)
    requires FaresUnforgotten(files, events, key, b - 1)
    ensures Matching(files, events, key, a, b)
  {
    var was := Times(events[a..b - 1], key);
    TimesMore(events, key, a, b);
    UnforgottenStep(events, key, b - 1);
    if events[b - 1].key == key {
      OneMoreGrant(Unforgotten(events, key, a), was, events[b - 1].now);
    } else {
      assert was + [] == was;
    }
  }

  lemma TimesMore(events: seq<Event>, key: string, a: nat, b: nat)
    requires a < b <= |events|
    ensures var e := events[b - 1];
            Times(events[a..b], key) == Times(events[a..b - 1], key) + if e.key == key then [e.now] else []
  {
    assert events[a..b][..b - 1 - a] == events[a..b - 1];
  }

  lemma {:induction false} TimesInOrder(events: seq<Event>, key: string, lo: int, hi: int)
    requires forall i, j :: 0 <= i <= j < |events| ==> events[i].now <= events[j].now
    requires forall i :: 0 <= i < |events| ==> lo <= events[i].now <= hi
    ensures Clock(Times(events, key)) && forall t :: t in Times(events, key) ==> lo <= t <= hi
  {
    if events != [] {
      var rest, e := events[..|events| - 1], events[|events| - 1];
      TimesInOrder(rest, key, lo, e.now);
      InOrderWith(Times(rest, key), e.now);
    }
  }

  lemma InOrderWith(ts: seq<int>, t: int)
    requires Clock(ts) && forall u :: u in ts ==> u <= t
    ensures Clock(ts + [t])
  {
    assert forall i :: 0 <= i < |ts| ==> ts[i] in ts;
  }

  /** The rate bound, over every run of the file: in any T seconds a source that does not log in is
      granted at most 5 attempts per started half minute and 4 per started quarter of an hour. */
  lemma FileRateBound(files: seq<map<string, Rec>>, events: seq<Event>, key: string, a: nat, b: nat, T: nat)
    requires FileRun(files, events) && OnlyTries(events, key) && a < b <= |events|
    requires events[b - 1].now - events[a].now <= T
    ensures GrantsIn(files, events, key, a, b) <= 5 * (T / 30 + 1) + 4 * (T / 900 + 1)
  {
    AllFareUnforgotten(files, events, key);
    GrantsMatch(files, events, key, a, b);
    var r, ts := Unforgotten(events, key, a), Times(events[a..b], key);
    Counted(FRESH, Times(events[..a], key), |Times(events[..a], key)|);
    TimesInOrder(events[a..b], key, events[a].now, events[b - 1].now);
    if ts != [] {
      assert ts[0] in ts && ts[|ts| - 1] in ts;
      RateBound(r, ts, T);
    } else {
      assert Grants(r, ts, 0) == 0;
    }
  }

  /** The cost of guessing on, over every run of the file: 5k granted attempts of a source that never
      pauses long enough take at least as long as the first k - 1 locks. */
  lemma FileStreakCosts(files: seq<map<string, Rec>>, events: seq<Event>, key: string, n: nat, k: nat)
    requires FileRun(files, events) && OnlyTries(events, key) && n <= |events| && k > 0
    requires Streak(FRESH, Times(events[..n], key))
    requires GrantsIn(files, events, key, 0, n) >= 5 * k
    ensures var ts := Times(events[..n], key); ts != [] && ts[|ts| - 1] - ts[0] >= LockTime(k - 1)
  {
    AllFareUnforgotten(files, events, key);
    GrantsMatch(files, events, key, 0, n);
    var ts := Times(events[..n], key);
    assert events[0..n] == events[..n] && Unforgotten(events, key, 0) == FRESH;
    if n > 0 {
      TimesInOrder(events[..n], key, events[0].now, events[n - 1].now);
    }
    StreakCosts(ts, k);
  }
}
