/** The record of the IPv6 addresses last advertised on the LAN, and which of them are announced as stale
    (section 3.5 of RFC 9096). */
module LanRenumber {
  import opened Wrappers

  // A WAN and a bridge it delegates to.
  datatype Key = Key(wan: string, bridge: string)

  type Addrs = map<Key, seq<string>>

  // The canonical form of an address with its prefix length, if it is a global one.
  type Canon = string -> Option<string>

  function ListAt(m: Addrs, k: Key): seq<string> {
    if k in m then m[k] else []
  }

  // Advertised now, on whatever bridge for whatever WAN.
  ghost predicate Current(cur: Addrs, a: string) {
    exists k :: k in cur && a in cur[k]
  }

  ghost predicate Recorded(record: Addrs, a: string) {
    exists k :: k in record && a in record[k]
  }

  // The WAN delegates again, or is gone for good.
  predicate Settled(cur: Addrs, k: Key, retire: bool) {
    if k in cur then cur[k] != [] else retire
  }

  function NextAt(prev: Addrs, cur: Addrs, retire: bool, k: Key): seq<string> {
    if k in cur && cur[k] != [] then cur[k] else if k !in cur && retire then [] else ListAt(prev, k)
  }

  predicate IsCanonOf(canon: Canon, raw: seq<string>, a: string) {
    exists r :: r in raw && canon(r) == Some(a)
  }

  predicate NoTwice(xs: seq<string>) {
    forall i, j :: 0 <= i < j < |xs| ==> xs[i] != xs[j]
  }

  ghost predicate StaleAt(prev: Addrs, cur: Addrs, retire: bool, canon: Canon, k: Key, stale: seq<string>) {
    && NoTwice(stale)
    && forall a :: a in stale <==> Settled(cur, k, retire) && IsCanonOf(canon, ListAt(prev, k), a) && !Current(cur, a)
  }

  // What a plan makes of the record: the next record, and what each WAN's clients are told to drop.
  ghost predicate Planned(prev: Addrs, cur: Addrs, retire: bool, canon: Canon, stale: Addrs, next: Addrs) {
    && (forall k :: ListAt(next, k) == NextAt(prev, cur, retire, k))
    && (forall k :: StaleAt(prev, cur, retire, canon, k, ListAt(stale, k)))
  }

  function CurrentSet(cur: Addrs): set<string> {
    set k, a | k in cur && a in cur[k] :: a
  }

  // The canonical forms of a recorded list that are advertised nowhere, each once.
  method Gone(were: seq<string>, now: seq<string>, current: set<string>, canon: Canon) returns (gone: seq<string>)
    requires forall a :: a in now ==> a in current
    ensures NoTwice(gone) && forall a :: a in gone <==> IsCanonOf(canon, were, a) && a !in current
  {
    gone := [];
    for i := 0 to |were|
      invariant NoTwice(gone) && forall a :: a in gone <==> IsCanonOf(canon, were[..i], a) && a !in current
    {
      assert were[..i + 1] == were[..i] + [were[i]];
      var s := canon(were[i]);
      if s.Some? && s.value !in current && s.value !in now && s.value !in gone {
        gone := gone + [s.value];
      }
    }
    assert were[..|were|] == were;
  }

  ghost predicate PlannedAt(prev: Addrs, cur: Addrs, retire: bool, canon: Canon, stale: Addrs, next: Addrs, k: Key) {
    ListAt(next, k) == NextAt(prev, cur, retire, k) && StaleAt(prev, cur, retire, canon, k, ListAt(stale, k))
  }

  method Plan(prev: Addrs, cur: Addrs, retire: bool, canon: Canon) returns (stale: Addrs, next: Addrs)
    ensures Planned(prev, cur, retire, canon, stale, next)
  {
    stale, next := PlanPresent(prev, cur, retire, canon);
    stale, next := PlanMissing(prev, cur, retire, canon, stale, next);
    PlannedEverywhere(prev, cur, retire, canon, stale, next);
  }

  lemma PlannedEverywhere(prev: Addrs, cur: Addrs, retire: bool, canon: Canon, stale: Addrs, next: Addrs)
    requires next.Keys <= cur.Keys + prev.Keys && stale.Keys <= cur.Keys + prev.Keys
    requires forall k :: k in cur || k in prev ==> PlannedAt(prev, cur, retire, canon, stale, next, k)
    ensures Planned(prev, cur, retire, canon, stale, next)
  {
    forall k
      ensures PlannedAt(prev, cur, retire, canon, stale, next, k)
    {
      if k !in cur && k !in prev {
        assert ListAt(next, k) == [] && ListAt(stale, k) == [] && ListAt(prev, k) == [];
      }
    }
  }

  // The keys there are now.
  method PlanPresent(prev: Addrs, cur: Addrs, retire: bool, canon: Canon) returns (stale: Addrs, next: Addrs)
    ensures next.Keys <= cur.Keys && stale.Keys <= cur.Keys
    ensures forall k :: k in cur ==> PlannedAt(prev, cur, retire, canon, stale, next, k)
  {
    stale, next := map[], map[];
    var current := CurrentSet(cur);
    var todo := cur.Keys;
    while todo != {}
      invariant todo <= cur.Keys && next.Keys <= cur.Keys - todo && stale.Keys <= cur.Keys - todo
      invariant forall k :: k in cur && k !in todo ==> PlannedAt(prev, cur, retire, canon, stale, next, k)
    {
      var k :| k in todo;
      todo := todo - {k};
      if |cur[k]| == 0 {
        if |ListAt(prev, k)| > 0 {
          next := next[k := ListAt(prev, k)];
        }
      } else {
        next := next[k := cur[k]];
        var gone := Gone(ListAt(prev, k), cur[k], current, canon);
        stale := stale[k := gone];
      }
    }
  }

  // The keys that disappeared from cur.
  method PlanMissing(prev: Addrs, cur: Addrs, retire: bool, canon: Canon, stale0: Addrs, next0: Addrs)
    returns (stale: Addrs, next: Addrs)
    requires next0.Keys <= cur.Keys && stale0.Keys <= cur.Keys
    requires forall k :: k in cur ==> PlannedAt(prev, cur, retire, canon, stale0, next0, k)
    ensures next.Keys <= cur.Keys + prev.Keys && stale.Keys <= cur.Keys + prev.Keys
    ensures forall k :: k in cur || k in prev ==> PlannedAt(prev, cur, retire, canon, stale, next, k)
  {
    stale, next := stale0, next0;
    var current := CurrentSet(cur);
    var todo := prev.Keys - cur.Keys;
    while todo != {}
      invariant todo <= prev.Keys - cur.Keys
      invariant next.Keys <= cur.Keys + prev.Keys - todo && stale.Keys <= cur.Keys + prev.Keys - todo
      invariant forall k :: k in cur || (k in prev && k !in todo) ==>
                  PlannedAt(prev, cur, retire, canon, stale, next, k)
    {
      var k :| k in todo;
      todo := todo - {k};
      if retire {
        var gone := Gone(prev[k], [], current, canon);
        stale := stale[k := gone];
      } else {
        next := next[k := prev[k]];
      }
    }
  }

  // ---- filing the bridges' addresses under their WANs ----

  // A WAN delegated a prefix that holds the address.
  predicate Holds(pds: map<string, seq<nat>>, holds: (nat, string) -> bool, wan: string, a: string) {
    wan in pds && exists p :: p in pds[wan] && holds(p, a)
  }

  ghost predicate FiledAt(cur: map<string, seq<string>>, pds: map<string, seq<nat>>, holds: (nat, string) -> bool,
                          k: Key, filed: seq<string>)
    requires k.bridge in cur
  {
    forall a :: a in filed <==> a in cur[k.bridge] && Holds(pds, holds, k.wan, a)
  }

  // Every pair of a WAN and a bridge has a list; an address is in those of the WANs whose prefix holds it.
  method ByWan(cur: map<string, seq<string>>, wans: seq<string>, pds: map<string, seq<nat>>,
               holds: (nat, string) -> bool)
    returns (out: Addrs)
    ensures forall k :: k in out <==> k.wan in wans && k.bridge in cur
    ensures forall k :: k in out ==> FiledAt(cur, pds, holds, k, out[k])
  {
    out := map[];
    var todo := cur.Keys;
    while todo != {}
      invariant todo <= cur.Keys
      invariant forall k :: k in out <==> k.wan in wans && k.bridge in cur && k.bridge !in todo
      invariant forall k :: k in out ==> FiledAt(cur, pds, holds, k, out[k])
    {
      var br :| br in todo;
      todo := todo - {br};
      for i := 0 to |wans|
        invariant forall k :: k in out <==>
                              (k.wan in wans && k.bridge in cur && k.bridge !in todo && k.bridge != br) ||
                              (k.bridge == br && k.wan in wans[..i])
        invariant forall k :: k in out ==> FiledAt(cur, pds, holds, k, out[k])
      {
        assert wans[..i + 1] == wans[..i] + [wans[i]];
        var filed := Filed(cur[br], pds, holds, wans[i]);
        out := out[Key(wans[i], br) := filed];
      }
      assert wans[..|wans|] == wans;
    }
  }

  method Filed(addrs: seq<string>, pds: map<string, seq<nat>>, holds: (nat, string) -> bool, wan: string)
    returns (filed: seq<string>)
    ensures forall a :: a in filed <==> a in addrs && Holds(pds, holds, wan, a)
  {
    filed := [];
    for i := 0 to |addrs|
      invariant forall a :: a in filed <==> a in addrs[..i] && Holds(pds, holds, wan, a)
    {
      assert addrs[..i + 1] == addrs[..i] + [addrs[i]];
      if Holds(pds, holds, wan, addrs[i]) {
        filed := filed + [addrs[i]];
      }
    }
    assert addrs[..|addrs|] == addrs;
  }

  // ---- conservation ----

  ghost predicate Announced(stale: Addrs, a: string) {
    exists k :: k in stale && a in stale[k]
  }

  lemma KeepsOrAnnounces(prev: Addrs, cur: Addrs, retire: bool, canon: Canon, stale: Addrs, next: Addrs, a: string)
    requires Planned(prev, cur, retire, canon, stale, next)
    requires Recorded(prev, a) && canon(a) == Some(a)
    ensures Recorded(next, a) || (Announced(stale, a) && !Current(cur, a))
  {
    var k :| k in prev && a in prev[k];
    assert ListAt(next, k) == NextAt(prev, cur, retire, k);
    if Current(cur, a) {
      var c :| c in cur && a in cur[c];
      assert ListAt(next, c) == NextAt(prev, cur, retire, c);
      assert c in next && a in next[c];
    } else if Settled(cur, k, retire) {
      assert StaleAt(prev, cur, retire, canon, k, ListAt(stale, k));
      assert a in ListAt(stale, k);
      assert k in stale && a in stale[k];
    } else {
      assert k in next && a in next[k];
    }
  }

  /** What the next record holds for a WAN and a bridge: what is advertised now, and nothing else if that is
      anything; else what was recorded, unless the WAN is gone for good. What is told to be dropped there was
      recorded there. */
  lemma RecordedAfter(prev: Addrs, cur: Addrs, retire: bool, canon: Canon, stale: Addrs, next: Addrs, k: Key, a: string)
    requires Planned(prev, cur, retire, canon, stale, next)
    ensures a in ListAt(next, k) <==>
              a in ListAt(cur, k) || (ListAt(cur, k) == [] && a in ListAt(prev, k) && (k in cur || !retire))
    ensures a in ListAt(stale, k) ==>
              && (exists r :: r in ListAt(prev, k) && canon(r) == Some(a))
              && (ListAt(cur, k) != [] || ListAt(next, k) == [])
  {
    assert ListAt(next, k) == NextAt(prev, cur, retire, k);
    assert StaleAt(prev, cur, retire, canon, k, ListAt(stale, k));
  }

  lemma NeverAnnouncesCurrent(prev: Addrs, cur: Addrs, retire: bool, canon: Canon, stale: Addrs, next: Addrs, a: string)
    requires Planned(prev, cur, retire, canon, stale, next)
    ensures Announced(stale, a) ==> !Current(cur, a) && exists r :: Recorded(prev, r) && canon(r) == Some(a)
    ensures Current(cur, a) ==> Recorded(next, a)
  {
    if Announced(stale, a) {
      var k :| k in stale && a in stale[k];
      assert StaleAt(prev, cur, retire, canon, k, ListAt(stale, k));
      var r :| r in ListAt(prev, k) && canon(r) == Some(a);
      assert Recorded(prev, r);
    }
    if Current(cur, a) {
      var c :| c in cur && a in cur[c];
      assert ListAt(next, c) == NextAt(prev, cur, retire, c);
      assert c in next && a in next[c];
    }
  }

  // Plans in a row: each record follows from the one before, whatever the bridges have.
  ghost predicate Runs(records: seq<Addrs>, curs: seq<Addrs>, retires: seq<bool>, stales: seq<Addrs>, canon: Canon) {
    && |records| == |curs| + 1 && |retires| == |curs| && |stales| == |curs|
    && forall i :: 0 <= i < |curs| ==> Planned(records[i], curs[i], retires[i], canon, stales[i], records[i + 1])
  }

  // Announced as stale at some plan from i to j, at which it was advertised nowhere.
  ghost predicate AnnouncedBetween(curs: seq<Addrs>, stales: seq<Addrs>, i: nat, j: nat, a: string)
    requires j <= |curs| && |stales| == |curs|
  {
    exists m :: i <= m < j && Announced(stales[m], a) && !Current(curs[m], a)
  }

  /** Conservation: in every run of plans a recorded address is still recorded later, or was announced as
      stale in between, when no bridge advertised it. */
  lemma {:induction false} NothingIsLost(records: seq<Addrs>, curs: seq<Addrs>, retires: seq<bool>,
                                         stales: seq<Addrs>, canon: Canon, i: nat, j: nat, a: string)
    requires Runs(records, curs, retires, stales, canon) && i <= j < |records|
    requires Recorded(records[i], a) && canon(a) == Some(a)
    ensures Recorded(records[j], a) || AnnouncedBetween(curs, stales, i, j, a)
    decreases j - i
  {
    if i < j {
      NothingIsLost(records, curs, retires, stales, canon, i, j - 1, a);
      if Recorded(records[j - 1], a) {
        KeepsOrAnnounces(records[j - 1], curs[j - 1], retires[j - 1], canon, stales[j - 1], records[j], a);
      } else {
        var m :| i <= m < j - 1 && Announced(stales[m], a) && !Current(curs[m], a);
      }
    }
  }

  /** Whatever a bridge advertised once is recorded then, so that it is told to the clients when it goes. */
  lemma AdvertisedIsRemembered(records: seq<Addrs>, curs: seq<Addrs>, retires: seq<bool>, stales: seq<Addrs>,
                               canon: Canon, i: nat, j: nat, a: string)
    requires Runs(records, curs, retires, stales, canon) && i < j < |records|
    requires Current(curs[i], a) && canon(a) == Some(a)
    ensures Recorded(records[j], a) || AnnouncedBetween(curs, stales, i + 1, j, a)
  {
    NeverAnnouncesCurrent(records[i], curs[i], retires[i], canon, stales[i], records[i + 1], a);
    NothingIsLost(records, curs, retires, stales, canon, i + 1, j, a);
  }

  /** With retiring off, a WAN that vanished or delegates nothing for now keeps its record. */
  lemma VanishedIsKept(prev: Addrs, cur: Addrs, canon: Canon, stale: Addrs, next: Addrs, k: Key)
    requires Planned(prev, cur, false, canon, stale, next)
    requires k !in cur || cur[k] == []
    ensures ListAt(next, k) == ListAt(prev, k) && ListAt(stale, k) == []
  {
    assert ListAt(next, k) == NextAt(prev, cur, false, k);
    assert StaleAt(prev, cur, false, canon, k, ListAt(stale, k));
    assert ListAt(stale, k) != [] ==> ListAt(stale, k)[0] in ListAt(stale, k);
  }
}
