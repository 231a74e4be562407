/** The IPv6 relay's reconciliation: LAN hosts in a WAN's on-link prefix are proxied on that WAN, with a
    record of what was set in the kernel last time. */
module RelaySync {
  type Addr = nat
  type Dev = string

  const MAX_PROXIES := 64
  const PROXY_GRACE := 3
  const PREFIX_SIZE := 0x1_0000_0000_0000_0000

  datatype Prefix = Prefix(wan: string, dev: Dev, net: nat, addr: Addr)
  datatype Proxy = Proxy(addr: Addr, dev: Dev)
  datatype Route = Route(addr: Addr, dev: Dev)
  datatype PrefixRoute = PrefixRoute(net: nat, dev: Dev)

  datatype Record = Record(prefixes: seq<Prefix>, proxies: seq<Proxy>, routes: seq<Route>, misses: map<Proxy, nat>,
                           lanAddrs: seq<Addr>)

  datatype Finding = Free | Occupied
  datatype Verdict = Verdict(finding: Finding, at: int, ttl: int)

  // What a run reads: the prefixes it should serve, the neighbour tables, its own addresses, the verdicts.
  datatype World = World(
    bridge: Dev, prefixes: seq<Prefix>, neighbours: seq<Addr>, local: set<Addr>,
    onWan: map<Dev, set<Addr>>, verdicts: map<Proxy, Verdict>, now: int)

  predicate Contains(net: nat, addr: Addr) {
    addr / PREFIX_SIZE == net
  }

  // The prefix is the upper 64 bits; the lower ones are the host's.
  lemma PrefixHolds(net: nat, addr: Addr)
    ensures Contains(net, addr) <==> net * PREFIX_SIZE <= addr < (net + 1) * PREFIX_SIZE
  {
    assert addr == addr / PREFIX_SIZE * PREFIX_SIZE + addr % PREFIX_SIZE;
  }

  predicate FoundFree(w: World, x: Proxy) {
    x in w.verdicts && var v := w.verdicts[x]; v.finding == Free && v.at <= w.now < v.at + v.ttl
  }

  predicate KnownOnWan(w: World, x: Proxy) {
    x.dev in w.onWan && x.addr in w.onWan[x.dev]
  }

  predicate Serves(p: Prefix, x: Proxy) {
    p.dev == x.dev && Contains(p.net, x.addr) && p.addr != x.addr
  }

  predicate Served(prefixes: seq<Prefix>, x: Proxy) {
    exists p :: p in prefixes && Serves(p, x)
  }

  // Nothing speaks against proxying the host.
  predicate MayProxy(w: World, x: Proxy) {
    Served(w.prefixes, x) && FoundFree(w, x) && x.addr !in w.local && !KnownOnWan(w, x)
  }

  // And it is in the LAN neighbour table.
  predicate Heard(w: World, x: Proxy) {
    x.addr in w.neighbours && MayProxy(w, x)
  }

  predicate Distinct(xs: seq<Proxy>) {
    forall i, j :: 0 <= i < j < |xs| ==> xs[i] != xs[j]
  }

  function MissesOf(r: Record, x: Proxy): nat {
    if x in r.misses then r.misses[x] else 0
  }

  // What a run of the reconciliation makes of the record.
  ghost predicate Synced(r: Record, w: World, t: Record) {
    && SoundProxies(w, t.proxies)
    && KeptProxies(r, w, t.proxies)
    && CountedMisses(r, w, t)
    && (forall x :: x in t.routes <==> ServedRoute(w, t.proxies, x))
    && t.prefixes == w.prefixes
    && (forall a :: a in t.lanAddrs <==> exists p :: p in w.prefixes && p.addr == a)
  }

  ghost predicate SoundProxies(w: World, xs: seq<Proxy>) {
    |xs| <= MAX_PROXIES && Distinct(xs) && forall x :: x in xs ==> MayProxy(w, x)
  }

  // Heard hosts come first, those already proxied before others; then the silent ones in their grace.
  ghost predicate KeptProxies(r: Record, w: World, xs: seq<Proxy>) {
    && (forall x :: x in r.proxies && Heard(w, x) ==> x in xs)
    && (forall x :: Heard(w, x) && x !in xs ==> |xs| == MAX_PROXIES)
    && (forall x :: x in r.proxies && MayProxy(w, x) && MissesOf(r, x) < PROXY_GRACE && x !in xs ==>
          |xs| == MAX_PROXIES)
    && (forall x :: x in xs ==> Heard(w, x) || (x in r.proxies && MissesOf(r, x) < PROXY_GRACE))
  }

  ghost predicate CountedMisses(r: Record, w: World, t: Record) {
    && (forall x :: x in t.misses <==> x in t.proxies && !Heard(w, x))
    && (forall x :: x in t.misses ==> t.misses[x] == MissesOf(r, x) + 1)
  }

  predicate ServedRoute(w: World, proxies: seq<Proxy>, x: Route) {
    x.dev == w.bridge &&
    ((exists p :: p in proxies && p.addr == x.addr) || (exists p :: p in w.prefixes && p.addr == x.addr))
  }

  function DevsOf(prefixes: seq<Prefix>): set<Dev> {
    set p | p in prefixes :: p.dev
  }

  function RoutesOf(prefixes: seq<Prefix>): set<PrefixRoute> {
    set p | p in prefixes :: PrefixRoute(p.net, p.dev)
  }

  function SetOf<T>(xs: seq<T>): set<T> {
    set x | x in xs
  }

  predicate WellKept(r: Record) {
    |r.proxies| <= MAX_PROXIES && Distinct(r.proxies)
  }

  lemma DistinctCounts(xs: seq<Proxy>)
    requires Distinct(xs)
    ensures |SetOf(xs)| == |xs|
  {
    if xs != [] {
      var init, last := xs[..|xs| - 1], xs[|xs| - 1];
      DistinctCounts(init);
      assert SetOf(xs) == SetOf(init) + {last};
      assert last !in SetOf(init);
    } else {
      assert SetOf(xs) == {};
    }
  }

  lemma SetCounts(xs: seq<Proxy>)
    ensures |SetOf(xs)| <= |xs|
  {
    if xs != [] {
      var init, last := xs[..|xs| - 1], xs[|xs| - 1];
      SetCounts(init);
      assert SetOf(xs) == SetOf(init) + {last};
    } else {
      assert SetOf(xs) == {};
    }
  }

  // Sixty-four distinct old proxies leave no other old one.
  lemma NoRoomNeeded(cur: seq<Proxy>, were: seq<Proxy>, x: Proxy)
    requires Distinct(cur) && |were| <= MAX_PROXIES && (forall y :: y in cur ==> y in were)
    requires x in were && x !in cur
    ensures |cur| < MAX_PROXIES
  {
    DistinctCounts(cur);
    SetCounts(were);
    SubsetCounts(SetOf(cur) + {x}, SetOf(were));
  }

  lemma SubsetCounts(a: set<Proxy>, b: set<Proxy>)
    requires a <= b
    ensures |a| <= |b|
  {
    assert a + (b - a) == b;
  }

  lemma DistinctMore(xs: seq<Proxy>, x: Proxy)
    requires Distinct(xs) && x !in xs
    ensures Distinct(xs + [x])
  {
  }

  // ---- runs ----

  ghost predicate Runs(rs: seq<Record>, ws: seq<World>) {
    |rs| == |ws| + 1 && forall i :: 0 <= i < |ws| ==> Synced(rs[i], ws[i], rs[i + 1])
  }

  lemma {:induction false} MissesCount(rs: seq<Record>, ws: seq<World>, i: nat, j: nat, x: Proxy)
    requires Runs(rs, ws) && i < j < |rs|
    requires forall k :: i <= k < j ==> !Heard(ws[k], x)
    requires x in rs[j].proxies
    ensures x in rs[i].proxies && j - i <= MissesOf(rs[j], x) <= PROXY_GRACE
    decreases j
  {
    assert Synced(rs[j - 1], ws[j - 1], rs[j]);
    assert x in rs[j - 1].proxies && x in rs[j].misses;
    if i < j - 1 {
      MissesCount(rs, ws, i, j - 1, x);
    }
  }

  // In a prefix served on that WAN and not the relay's own there, found free not long ago, and known neither
  // as an address of the router nor on the WAN.
  predicate ProxySafe(w: World, x: Proxy) {
    && (exists p :: p in w.prefixes && p.dev == x.dev && p.addr != x.addr
                    && p.net * PREFIX_SIZE <= x.addr < (p.net + 1) * PREFIX_SIZE)
    && x in w.verdicts && w.verdicts[x].finding == Free
    && w.verdicts[x].at <= w.now && w.now - w.verdicts[x].at < w.verdicts[x].ttl
    && x.addr !in w.local && (x.dev in w.onWan ==> x.addr !in w.onWan[x.dev])
  }

  lemma MayProxyIsSafe(w: World, x: Proxy)
    ensures MayProxy(w, x) <==> ProxySafe(w, x)
  {
    forall p | p in w.prefixes
      ensures Contains(p.net, x.addr) <==> p.net * PREFIX_SIZE <= x.addr < (p.net + 1) * PREFIX_SIZE
    {
      PrefixHolds(p.net, x.addr);
    }
  }

  /** In every run of reconciliations, from any record: what is proxied may be proxied, at most
      sixty-four hosts; a heard host that was proxied stays; and a host silent for longer than the
      grace is gone - after four runs or more it is proxied only if one of the last four heard it. */
  lemma ProxiesStaySound(rs: seq<Record>, ws: seq<World>, j: nat, x: Proxy)
    requires Runs(rs, ws) && 0 < j < |rs|
    ensures SoundProxies(ws[j - 1], rs[j].proxies)
    ensures x in rs[j].proxies ==> ProxySafe(ws[j - 1], x)
    ensures x in rs[j - 1].proxies && Heard(ws[j - 1], x) ==> x in rs[j].proxies
    ensures x in rs[j].proxies && j > PROXY_GRACE ==> exists k :: j - PROXY_GRACE - 1 <= k < j && Heard(ws[k], x)
  {
    assert Synced(rs[j - 1], ws[j - 1], rs[j]);
    MayProxyIsSafe(ws[j - 1], x);
    if x in rs[j].proxies && j > PROXY_GRACE && forall k :: j - PROXY_GRACE - 1 <= k < j ==> !Heard(ws[k], x) {
      MissesCount(rs, ws, j - PROXY_GRACE - 1, j, x);
    }
  }

  /** A router's kernel tables as far as the relay sets them, and its record of them. */
  class Relay {
    var record: Record
    var proxies: set<Proxy>
    var hostRoutes: set<Route>
    var prefixRoutes: set<PrefixRoute>
    var ndp: set<Dev>
    var preferred: set<Addr>

    constructor ()
      ensures record == Record([], [], [], map[], []) && proxies == {} && hostRoutes == {} && prefixRoutes == {}
      ensures ndp == {} && preferred == {}
    {
      record := Record([], [], [], map[], []);
      proxies, hostRoutes, prefixRoutes, ndp, preferred := {}, {}, {}, {}, {};
    }

    // The relay's own addresses on the bridge; a failing one ends the run.
    method AddAddresses(w: World, addrFails: set<Addr>) returns (ok: bool, lan: seq<Addr>)
      modifies `preferred, `hostRoutes
      ensures ok ==> forall a :: a in lan <==> exists p :: p in w.prefixes && p.addr == a
      ensures ok ==> hostRoutes == old(hostRoutes) + (set p | p in w.prefixes :: Route(p.addr, w.bridge))
      ensures old(hostRoutes) <= hostRoutes <= old(hostRoutes) + (set p | p in w.prefixes :: Route(p.addr, w.bridge))
      ensures ok ==> preferred == old(preferred) + (SetOf(lan) - SetOf(record.lanAddrs))
      ensures ok <==> forall p :: p in w.prefixes && p.addr !in record.lanAddrs ==> p.addr !in addrFails
    {
      lan := [];
      for i := 0 to |w.prefixes|
        invariant forall a :: a in lan <==> exists p :: p in w.prefixes[..i] && p.addr == a
        invariant hostRoutes == old(hostRoutes) + (set p | p in w.prefixes[..i] :: Route(p.addr, w.bridge))
        invariant preferred == old(preferred) + (SetOf(lan) - SetOf(record.lanAddrs))
        invariant forall p :: p in w.prefixes[..i] && p.addr !in record.lanAddrs ==> p.addr !in addrFails
      {
        var p := w.prefixes[i];
        assert w.prefixes[..i + 1] == w.prefixes[..i] + [p];
        if p.addr !in record.lanAddrs {
          if p.addr in addrFails {
            assert p in w.prefixes;
            return false, lan;
          }
          preferred := preferred + {p.addr};
        }
        hostRoutes := hostRoutes + {Route(p.addr, w.bridge)};
        lan := lan + [p.addr];
      }
      assert w.prefixes[..|w.prefixes|] == w.prefixes;
      ok := true;
    }

    method RetireAddresses(lan: seq<Addr>)
      modifies `preferred
      ensures preferred == old(preferred) - (SetOf(record.lanAddrs) - SetOf(lan))
    {
      for i := 0 to |record.lanAddrs|
        invariant preferred == old(preferred) - (SetOf(record.lanAddrs[..i]) - SetOf(lan))
      {
        assert record.lanAddrs[..i + 1] == record.lanAddrs[..i] + [record.lanAddrs[i]];
        if record.lanAddrs[i] !in lan {
          preferred := preferred - {record.lanAddrs[i]};
        }
      }
      assert record.lanAddrs[..|record.lanAddrs|] == record.lanAddrs;
    }

    // Routes the prefixes to their WANs and lists the hosts heard in them.
    method ServePrefixes(w: World, ndpFails: set<Dev>) returns (ok: bool, eligible: seq<Proxy>)
      modifies `prefixRoutes, `ndp
      ensures ok ==> forall x :: x in eligible <==> Heard(w, x)
      ensures ok ==> prefixRoutes == old(prefixRoutes) + RoutesOf(w.prefixes) && ndp == old(ndp) + DevsOf(w.prefixes)
      ensures old(prefixRoutes) <= prefixRoutes <= old(prefixRoutes) + RoutesOf(w.prefixes)
      ensures old(ndp) <= ndp <= old(ndp) + DevsOf(w.prefixes)
      ensures ok <==> forall p :: p in w.prefixes ==> p.dev !in ndpFails
    {
      eligible := [];
      for i := 0 to |w.prefixes|
        invariant forall x :: x in eligible <==> x.addr in w.neighbours && HeardIn(w, w.prefixes[..i], x)
        invariant prefixRoutes == old(prefixRoutes) + RoutesOf(w.prefixes[..i]) &&
                  ndp == old(ndp) + DevsOf(w.prefixes[..i])
        invariant forall p :: p in w.prefixes[..i] ==> p.dev !in ndpFails
      {
        var p := w.prefixes[i];
        assert w.prefixes[..i + 1] == w.prefixes[..i] + [p];
        prefixRoutes := prefixRoutes + {PrefixRoute(p.net, p.dev)};
        if p.dev in ndpFails {
          assert p in w.prefixes;
          return false, eligible;
        }
        ndp := ndp + {p.dev};
        var here := HostsIn(w, p);
        eligible := eligible + here;
      }
      assert w.prefixes[..|w.prefixes|] == w.prefixes;
      ok := true;
    }

    static predicate HeardIn(w: World, prefixes: seq<Prefix>, x: Proxy) {
      Served(prefixes, x) && FoundFree(w, x) && x.addr !in w.local && !KnownOnWan(w, x)
    }

    static method HostsIn(w: World, p: Prefix) returns (hosts: seq<Proxy>)
      ensures forall x :: x in hosts <==> x.addr in w.neighbours && HeardIn(w, [p], x)
    {
      hosts := [];
      for i := 0 to |w.neighbours|
        invariant forall x :: x in hosts <==> x.addr in w.neighbours[..i] && HeardIn(w, [p], x)
      {
        var x := Proxy(w.neighbours[i], p.dev);
        assert w.neighbours[..i + 1] == w.neighbours[..i] + [w.neighbours[i]];
        assert HeardIn(w, [p], x) <==> Serves(p, x) && x.addr !in w.local && !KnownOnWan(w, x) && FoundFree(w, x) by {
          assert p in [p];
        }
        assert forall y :: HeardIn(w, [p], y) ==> y.dev == p.dev;
        if Contains(p.net, x.addr) && x.addr != p.addr && x.addr !in w.local && !KnownOnWan(w, x) && FoundFree(w, x) {
          hosts := hosts + [x];
        }
      }
      assert w.neighbours[..|w.neighbours|] == w.neighbours;
    }

    // Hosts already proxied first, otherwise in their order.
    static method OldFirst(xs: seq<Proxy>, were: seq<Proxy>) returns (sorted: seq<Proxy>)
      ensures forall x :: x in sorted <==> x in xs
      ensures forall i, j :: 0 <= i < j < |sorted| && sorted[j] in were ==> sorted[i] in were
    {
      var first, others: seq<Proxy> := [], [];
      for i := 0 to |xs|
        invariant forall x :: x in first <==> x in xs[..i] && x in were
        invariant forall x :: x in others <==> x in xs[..i] && x !in were
      {
        assert xs[..i + 1] == xs[..i] + [xs[i]];
        if xs[i] in were {
          first := first + [xs[i]];
        } else {
          others := others + [xs[i]];
        }
      }
      assert xs[..|xs|] == xs;
      sorted := first + others;
      assert forall k :: 0 <= k < |first| ==> sorted[k] in first;
      assert forall k :: |first| <= k < |sorted| ==> sorted[k] in others;
    }

    // The first sixty-four distinct ones: every old one among them.
    static method Capped(sorted: seq<Proxy>, were: seq<Proxy>) returns (cur: seq<Proxy>)
      requires |were| <= MAX_PROXIES
      requires forall i, j :: 0 <= i < j < |sorted| && sorted[j] in were ==> sorted[i] in were
      ensures |cur| <= MAX_PROXIES && Distinct(cur) && forall x :: x in cur ==> x in sorted
      ensures forall x :: x in sorted && (x in were || |cur| < MAX_PROXIES) ==> x in cur
    {
      cur := [];
      for i := 0 to |sorted|
        invariant |cur| <= MAX_PROXIES && Distinct(cur) && forall x :: x in cur ==> x in sorted[..i]
        invariant forall k :: 0 <= k < i && (sorted[k] in were || |cur| < MAX_PROXIES) ==> sorted[k] in cur
      {
        var x := sorted[i];
        assert sorted[..i + 1] == sorted[..i] + [x];
        if x in were && x !in cur {
          forall y | y in cur
            ensures y in were
          {
            var k :| 0 <= k < i && sorted[k] == y;
          }
          NoRoomNeeded(cur, were, x);
        }
        if |cur| < MAX_PROXIES && x !in cur {
          DistinctMore(cur, x);
          cur := cur + [x];
        }
      }
      assert sorted[..|sorted|] == sorted;
    }

    // Hosts that fell silent keep their entry for a few runs; the others' entries go.
    method Grace(w: World, heard: seq<Proxy>) returns (cur: seq<Proxy>, misses: map<Proxy, nat>)
      requires Distinct(record.proxies) && |heard| <= MAX_PROXIES && Distinct(heard)
      modifies `proxies
      ensures |cur| <= MAX_PROXIES && Distinct(cur) && heard <= cur
      ensures forall x :: x in cur ==> x in heard || MayStay(w, record, x)
      ensures forall x :: MayStay(w, record, x) && x !in cur ==> |cur| == MAX_PROXIES
      ensures forall x :: x in misses <==> x in cur && x !in heard
      ensures forall x :: x in misses ==> misses[x] == MissesOf(record, x) + 1
      ensures proxies == old(proxies) - (SetOf(record.proxies) - SetOf(cur))
    {
      cur, misses := heard, map[];
      ghost var were := record.proxies;
      for i := 0 to |record.proxies|
        invariant Graced(w, record, heard, were[..i], cur, misses)
        invariant proxies == old(proxies) - (SetOf(were[..i]) - SetOf(cur))
      {
        var p := record.proxies[i];
        NextOf(were, i);
        GoneNext(old(proxies), SetOf(were[..i]), p, SetOf(cur));
        if p !in cur {
          if MayProxy(w, p) && |cur| < MAX_PROXIES && MissesOf(record, p) < PROXY_GRACE {
            GraceGiven(w, record, heard, were[..i], p, cur, misses);
            cur := cur + [p];
            misses := misses[p := MissesOf(record, p) + 1];
          } else {
            GraceDone(w, record, heard, were[..i], p, cur, misses);
            proxies := proxies - {p};
          }
        } else {
          GraceDone(w, record, heard, were[..i], p, cur, misses);
        }
      }
      assert were[..|were|] == were;
    }

    static lemma NextOf(were: seq<Proxy>, i: nat)
      requires i < |were| && Distinct(were)
      ensures were[..i + 1] == were[..i] + [were[i]] && were[i] !in were[..i]
      ensures SetOf(were[..i + 1]) == SetOf(were[..i]) + {were[i]}
    {
    }

    static lemma GoneNext(all: set<Proxy>, done: set<Proxy>, p: Proxy, cur: set<Proxy>)
      ensures p in cur ==> all - (done + {p} - cur) == all - (done - cur)
      ensures p !in cur ==> all - (done + {p} - cur) == all - (done - cur) - {p}
      ensures p !in done ==> all - (done + {p} - (cur + {p})) == all - (done - cur)
    {
    }

    // The grace after the recorded proxies in done.
    static ghost predicate Graced(w: World, r: Record, heard: seq<Proxy>, done: seq<Proxy>, cur: seq<Proxy>,
                                  misses: map<Proxy, nat>)
    {
      && |cur| <= MAX_PROXIES && Distinct(cur) && heard <= cur
      && (forall x :: x in cur ==> x in heard || (MayStay(w, r, x) && x in done))
      && (forall x :: MayStay(w, r, x) && x in done && x !in cur ==> |cur| == MAX_PROXIES)
      && (forall x :: x in misses <==> x in cur && x !in heard)
      && (forall x :: x in misses ==> misses[x] == MissesOf(r, x) + 1)
    }

    static lemma GraceGiven(w: World, r: Record, heard: seq<Proxy>, done: seq<Proxy>, p: Proxy, cur: seq<Proxy>,
                            misses: map<Proxy, nat>)
      requires Graced(w, r, heard, done, cur, misses) && p in r.proxies && p !in cur && |cur| < MAX_PROXIES
      requires MayProxy(w, p) && MissesOf(r, p) < PROXY_GRACE
      ensures Graced(w, r, heard, done + [p], cur + [p], misses[p := MissesOf(r, p) + 1])
      ensures SetOf(cur + [p]) == SetOf(cur) + {p}
    {
      DistinctMore(cur, p);
    }

    static lemma GraceDone(w: World, r: Record, heard: seq<Proxy>, done: seq<Proxy>, p: Proxy, cur: seq<Proxy>,
                           misses: map<Proxy, nat>)
      requires Graced(w, r, heard, done, cur, misses)
      requires p in cur || !MayStay(w, r, p) || |cur| == MAX_PROXIES
      ensures Graced(w, r, heard, done + [p], cur, misses)
    {
    }

    static predicate MayStay(w: World, r: Record, x: Proxy) {
      x in r.proxies && MayProxy(w, x) && MissesOf(r, x) < PROXY_GRACE
    }

    static method RoutesFor(w: World, cur: seq<Proxy>) returns (routes: seq<Route>)
      ensures forall x :: x in routes <==> ServedRoute(w, cur, x)
    {
      routes := [];
      for i := 0 to |cur|
        invariant forall x :: x in routes <==> x.dev == w.bridge && exists p :: p in cur[..i] && p.addr == x.addr
      {
        assert cur[..i + 1] == cur[..i] + [cur[i]];
        routes := routes + [Route(cur[i].addr, w.bridge)];
      }
      assert cur[..|cur|] == cur;
      for i := 0 to |w.prefixes|
        invariant forall x :: x in routes <==>
                              x.dev == w.bridge && ((exists p :: p in cur && p.addr == x.addr) ||
                                                    (exists p :: p in w.prefixes[..i] && p.addr == x.addr))
      {
        assert w.prefixes[..i + 1] == w.prefixes[..i] + [w.prefixes[i]];
        routes := routes + [Route(w.prefixes[i].addr, w.bridge)];
      }
      assert w.prefixes[..|w.prefixes|] == w.prefixes;
    }

    method RetirePrefixes(w: World)
      modifies `prefixRoutes
      ensures prefixRoutes == old(prefixRoutes) - set p | p in record.prefixes && p !in w.prefixes ::
                PrefixRoute(p.net, p.dev)
    {
      for i := 0 to |record.prefixes|
        invariant prefixRoutes == old(prefixRoutes) - set p | p in record.prefixes[..i] && p !in w.prefixes ::
                    PrefixRoute(p.net, p.dev)
      {
        var p := record.prefixes[i];
        assert record.prefixes[..i + 1] == record.prefixes[..i] + [p];
        if p !in w.prefixes {
          prefixRoutes := prefixRoutes - {PrefixRoute(p.net, p.dev)};
        }
      }
      assert record.prefixes[..|record.prefixes|] == record.prefixes;
    }

    method SetRoutes(routes: seq<Route>)
      modifies `hostRoutes
      ensures hostRoutes == old(hostRoutes) - (SetOf(record.routes) - SetOf(routes)) +
              (SetOf(routes) - SetOf(record.routes))
    {
      for i := 0 to |record.routes|
        invariant hostRoutes == old(hostRoutes) - (SetOf(record.routes[..i]) - SetOf(routes))
      {
        assert record.routes[..i + 1] == record.routes[..i] + [record.routes[i]];
        if record.routes[i] !in routes {
          hostRoutes := hostRoutes - {record.routes[i]};
        }
      }
      assert record.routes[..|record.routes|] == record.routes;
      ghost var less := hostRoutes;
      for i := 0 to |routes|
        invariant hostRoutes == less + (SetOf(routes[..i]) - SetOf(record.routes))
      {
        assert routes[..i + 1] == routes[..i] + [routes[i]];
        if routes[i] !in record.routes {
          hostRoutes := hostRoutes + {routes[i]};
        }
      }
      assert routes[..|routes|] == routes;
    }

    method RetireDevs(w: World)
      modifies `ndp
      ensures ndp == old(ndp) - (DevsOf(record.prefixes) - DevsOf(w.prefixes))
    {
      for i := 0 to |record.prefixes|
        invariant ndp == old(ndp) - (DevsOf(record.prefixes[..i]) - DevsOf(w.prefixes))
      {
        assert record.prefixes[..i + 1] == record.prefixes[..i] + [record.prefixes[i]];
        if record.prefixes[i].dev !in DevsOf(w.prefixes) {
          ndp := ndp - {record.prefixes[i].dev};
        }
      }
      assert record.prefixes[..|record.prefixes|] == record.prefixes;
    }

    method AddProxies(cur: seq<Proxy>)
      modifies `proxies
      ensures proxies == old(proxies) + (SetOf(cur) - SetOf(record.proxies))
    {
      for i := 0 to |cur|
        invariant proxies == old(proxies) + (SetOf(cur[..i]) - SetOf(record.proxies))
      {
        assert cur[..i + 1] == cur[..i] + [cur[i]];
        if cur[i] !in record.proxies {
          proxies := proxies + {cur[i]};
        }
      }
      assert cur[..|cur|] == cur;
    }

    // The kernel has what the record says.
    ghost predicate Matches()
      reads this
    {
      && proxies == SetOf(record.proxies) && hostRoutes == SetOf(record.routes)
      && ndp == DevsOf(record.prefixes) && preferred == SetOf(record.lanAddrs)
    }

    ghost predicate PrefixRoutesMatch()
      reads this
    {
      prefixRoutes == RoutesOf(record.prefixes)
    }

    /** One run.  If the kernel had what the record said, it has what the new record says; the prefix
        routes too, unless a prefix that stays on its WAN device changed its WAN's name or LAN address.
        A run that fails leaves the record and the proxies as they were. */
    method Sync(w: World, addrFails: set<Addr>, ndpFails: set<Dev>) returns (ok: bool)
      requires WellKept(record)
      modifies this
      ensures WellKept(record)
      ensures ok ==> Synced(old(record), w, record)
      ensures ok && old(Matches()) ==> Matches()
      ensures ok && old(Matches()) && old(PrefixRoutesMatch()) ==>
                (PrefixRoutesMatch() <==> !Renamed(old(record).prefixes, w.prefixes))
      ensures ok <==> !Fails(old(record), w, addrFails, ndpFails)
      ensures !ok ==> record == old(record) && proxies == old(proxies)
      ensures !ok ==>
                old(hostRoutes) <= hostRoutes <= old(hostRoutes) + set p | p in w.prefixes :: Route(p.addr, w.bridge)
      ensures !ok ==> old(prefixRoutes) <= prefixRoutes <= old(prefixRoutes) + RoutesOf(w.prefixes)
    {
      var lan: seq<Addr>;
      ok, lan := AddAddresses(w, addrFails);
      if !ok {
        return;
      }
      RetireAddresses(lan);
      var eligible: seq<Proxy>;
      ok, eligible := ServePrefixes(w, ndpFails);
      if !ok {
        return;
      }
      var sorted := OldFirst(eligible, record.proxies);
      var heard := Capped(sorted, record.proxies);
      var cur, misses := Grace(w, heard);
      var routes := RoutesFor(w, cur);
      RetirePrefixes(w);
      SetRoutes(routes);
      RetireDevs(w);
      AddProxies(cur);
      OwnRoutesServed(w, cur, routes);
      HeardAreKept(record, w, heard, cur, misses);
      PrefixRoutesAfter(record.prefixes, w.prefixes);
      if old(Matches()) {
        Exchanged(SetOf(record.proxies), SetOf(cur));
        Moved(SetOf(record.routes), set p | p in w.prefixes :: Route(p.addr, w.bridge), SetOf(routes));
        Renewed(DevsOf(record.prefixes), DevsOf(w.prefixes));
        Replaced(SetOf(record.lanAddrs), SetOf(lan));
      }
      record := Record(w.prefixes, cur, routes, misses, lan);
    }

    static ghost predicate Fails(r: Record, w: World, addrFails: set<Addr>, ndpFails: set<Dev>) {
      || (exists p :: p in w.prefixes && p.addr !in r.lanAddrs && p.addr in addrFails)
      || (exists p :: p in w.prefixes && p.dev in ndpFails)
    }

    // A prefix still served on its device, under another WAN name or with another LAN address.
    static ghost predicate Renamed(were: seq<Prefix>, now: seq<Prefix>) {
      exists p, q :: p in were && p !in now && q in now && p.net == q.net && p.dev == q.dev
    }

    static lemma PrefixRoutesAfter(were: seq<Prefix>, now: seq<Prefix>)
      ensures RoutesOf(were) + RoutesOf(now) - (set p | p in were && p !in now :: PrefixRoute(p.net, p.dev)) ==
              RoutesOf(now)
              <==> !Renamed(were, now)
    {
      var gone := set p | p in were && p !in now :: PrefixRoute(p.net, p.dev);
      var after := RoutesOf(were) + RoutesOf(now) - gone;
      if Renamed(were, now) {
        var p, q :| p in were && p !in now && q in now && p.net == q.net && p.dev == q.dev;
        assert PrefixRoute(p.net, p.dev) in gone && PrefixRoute(q.net, q.dev) in RoutesOf(now);
      } else {
        forall x
          ensures x in after <==> x in RoutesOf(now)
        {
          if x in RoutesOf(now) {
            var q :| q in now && PrefixRoute(q.net, q.dev) == x;
            assert x !in gone;
          } else if x in RoutesOf(were) {
            var p :| p in were && PrefixRoute(p.net, p.dev) == x;
            assert p !in now && x in gone;
          }
        }
      }
    }

    static lemma Exchanged<T>(were: set<T>, now: set<T>)
      ensures were - (were - now) + (now - were) == now
    {
    }

    static lemma Moved<T>(were: set<T>, early: set<T>, now: set<T>)
      requires early <= now
      ensures were + early - (were - now) + (now - were) == now
    {
    }

    static lemma Renewed<T>(were: set<T>, now: set<T>)
      ensures were + now - (were - now) == now
    {
    }

    static lemma Replaced<T>(were: set<T>, now: set<T>)
      ensures were + (now - were) - (were - now) == now
    {
    }

    static lemma OwnRoutesServed(w: World, cur: seq<Proxy>, routes: seq<Route>)
      requires forall x :: x in routes <==> ServedRoute(w, cur, x)
      ensures (set p | p in w.prefixes :: Route(p.addr, w.bridge)) <= SetOf(routes)
    {
    }

    static lemma HeardAreKept(r: Record, w: World, heard: seq<Proxy>, cur: seq<Proxy>, misses: map<Proxy, nat>)
      requires |cur| <= MAX_PROXIES && Distinct(cur) && heard <= cur
      requires forall x :: x in heard ==> Heard(w, x)
      requires forall x :: Heard(w, x) && (x in r.proxies || |heard| < MAX_PROXIES) ==> x in heard
      requires forall x :: x in cur ==> x in heard || MayStay(w, r, x)
      requires forall x :: MayStay(w, r, x) && x !in cur ==> |cur| == MAX_PROXIES
      requires forall x :: x in misses <==> x in cur && x !in heard
      requires forall x :: x in misses ==> misses[x] == MissesOf(r, x) + 1
      ensures SoundProxies(w, cur) && KeptProxies(r, w, cur)
      ensures forall x :: x in misses <==> x in cur && !Heard(w, x)
    {
      assert forall x :: x in heard ==> x in cur;
      assert forall x :: x in cur && Heard(w, x) && x !in heard ==> x in r.proxies;
    }
  }
}
