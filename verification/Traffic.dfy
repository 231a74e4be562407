/** Traffic accounting: what each poll of the connection table credits to the devices, and the monthly
    totals. */
module Traffic {
  const MAX_ENTRIES := 30000
  const MAX_DEVICES := 256

  // Bytes sent by the side that opened the flow, and by the other.
  datatype Count = Count(sent: nat, back: nat)

  datatype Side = Opened(device: string) | Answered(device: string) | Foreign

  datatype Flow = Flow(key: nat, count: Count, side: Side)

  datatype Bytes = Bytes(up: nat, down: nat)

  type Snapshot = map<nat, Count>

  function Plus(a: Bytes, b: Bytes): Bytes {
    Bytes(a.up + b.up, a.down + b.down)
  }

  // The bytes of a flow since the snapshot.
  function Delta(prev: Snapshot, f: Flow): Count {
    if f.key in prev then
      var p := prev[f.key];
      if f.count.sent >= p.sent && f.count.back >= p.back then Count(f.count.sent - p.sent, f.count.back - p.back)
      else f.count
    else if |prev| >= MAX_ENTRIES then Count(0, 0)
    else f.count
  }

  // As the device sees them.
  function Credit(prev: Snapshot, f: Flow): Bytes {
    var d := Delta(prev, f);
    if f.side.Answered? then Bytes(d.back, d.sent) else Bytes(d.sent, d.back)
  }

  function SumOf(prev: Snapshot, flows: seq<Flow>): nat {
    if flows == [] then 0
    else SumOf(prev, flows[..|flows| - 1]) + Delta(prev, flows[|flows| - 1]).sent + Delta(prev, flows[|flows| - 1]).back
  }

  function CreditOf(prev: Snapshot, flows: seq<Flow>, device: string): Bytes {
    if flows == [] then Bytes(0, 0)
    else
      var f, rest := flows[|flows| - 1], CreditOf(prev, flows[..|flows| - 1], device);
      if OwnedBy(f, device) then Plus(rest, Credit(prev, f)) else rest
  }

  ghost function Total(devs: map<string, Bytes>): nat {
    if devs == map[] then 0
    else
      var d :| d in devs;
      devs[d].up + devs[d].down + Total(devs - {d})
  }

  lemma {:induction false} TotalWithout(devs: map<string, Bytes>, d: string)
    requires d in devs
    ensures Total(devs) == devs[d].up + devs[d].down + Total(devs - {d})
    decreases |devs|
  {
    var e :| e in devs && Total(devs) == devs[e].up + devs[e].down + Total(devs - {e});
    if e != d {
      TotalWithout(devs - {e}, d);
      TotalWithout(devs - {d}, e);
      assert devs - {e} - {d} == devs - {d} - {e};
    }
  }

  lemma TotalWith(devs: map<string, Bytes>, d: string, b: Bytes)
    ensures Total(devs[d := b]) == Total(devs - {d}) + b.up + b.down
    ensures d in devs ==> Total(devs[d := b]) == Total(devs) - devs[d].up - devs[d].down + b.up + b.down
    ensures d !in devs ==> Total(devs[d := b]) == Total(devs) + b.up + b.down
  {
    TotalWithout(devs[d := b], d);
    assert devs[d := b] - {d} == devs - {d};
    if d in devs {
      TotalWithout(devs, d);
    } else {
      assert devs - {d} == devs;
    }
  }

  function SnapshotOf(flows: seq<Flow>): Snapshot {
    if flows == [] then map[]
    else SnapshotOf(flows[..|flows| - 1])[flows[|flows| - 1].key := flows[|flows| - 1].count]
  }

  function BytesAt(devs: map<string, Bytes>, d: string): Bytes {
    if d in devs then devs[d] else Bytes(0, 0)
  }

  predicate OwnedBy(f: Flow, d: string) {
    !f.side.Foreign? && f.side.device == d
  }

  function Owners(flows: seq<Flow>): set<string> {
    set f | f in flows && !f.side.Foreign? :: f.side.device
  }

  lemma PollMore(prev: Snapshot, flows: seq<Flow>, i: nat)
    requires i < |flows|
    ensures var f := flows[i];
            && SumOf(prev, flows[..i + 1]) == SumOf(prev, flows[..i]) + Delta(prev, f).sent + Delta(prev, f).back
            && SnapshotOf(flows[..i + 1]) == SnapshotOf(flows[..i])[f.key := f.count]
            && Owners(flows[..i + 1]) == Owners(flows[..i]) + if f.side.Foreign? then {} else {f.side.device}
  {
    assert flows[..i + 1] == flows[..i] + [flows[i]];
    assert flows[..i + 1][..i] == flows[..i];
  }

  lemma CreditMore(prev: Snapshot, flows: seq<Flow>, i: nat, d: string)
    requires i < |flows|
    ensures var rest := CreditOf(prev, flows[..i], d);
            CreditOf(prev, flows[..i + 1], d) ==
            if OwnedBy(flows[i], d) then Plus(rest, Credit(prev, flows[i])) else rest
  {
    assert flows[..i + 1][..i] == flows[..i];
  }

  ghost predicate AllCredited(prev: Snapshot, flows: seq<Flow>, devs: map<string, Bytes>) {
    forall d :: BytesAt(devs, d) == CreditOf(prev, flows, d)
  }

  ghost predicate CreditsFlow(prev: Snapshot, f: Flow, devs: map<string, Bytes>, more: map<string, Bytes>) {
    forall d :: BytesAt(more, d) == if OwnedBy(f, d) then Plus(BytesAt(devs, d), Credit(prev, f)) else BytesAt(devs, d)
  }

  lemma AllCreditedMore(prev: Snapshot, flows: seq<Flow>, i: nat, devs: map<string, Bytes>, more: map<string, Bytes>)
    requires i < |flows| && AllCredited(prev, flows[..i], devs) && CreditsFlow(prev, flows[i], devs, more)
    ensures AllCredited(prev, flows[..i + 1], more)
  {
    forall d: string
      ensures BytesAt(more, d) == CreditOf(prev, flows[..i + 1], d)
    {
      CreditMore(prev, flows, i, d);
      assert BytesAt(devs, d) == CreditOf(prev, flows[..i], d);
    }
  }

  /** One poll: each device is credited the bytes of its own flows, and all of them with the foreign ones
      make up the bytes of all flows. */
  method Poll(prev: Snapshot, flows: seq<Flow>) returns (devs: map<string, Bytes>, other: Bytes, next: Snapshot)
    ensures devs.Keys == Owners(flows)
    ensures AllCredited(prev, flows, devs)
    ensures Total(devs) + other.up + other.down == SumOf(prev, flows)
    ensures next == SnapshotOf(flows)
  {
    devs, other, next := map[], Bytes(0, 0), map[];
    for i := 0 to |flows|
      invariant devs.Keys == Owners(flows[..i])
      invariant AllCredited(prev, flows[..i], devs)
      invariant Total(devs) + other.up + other.down == SumOf(prev, flows[..i])
      invariant next == SnapshotOf(flows[..i])
    {
      PollMore(prev, flows, i);
      next := next[flows[i].key := flows[i].count];
      ghost var before := devs;
      devs, other := AddFlow(prev, flows[i], devs, other);
      AllCreditedMore(prev, flows, i, before, devs);
    }
    assert flows[..|flows|] == flows;
  }

  method AddFlow(prev: Snapshot, f: Flow, devs: map<string, Bytes>, other: Bytes)
    returns (more: map<string, Bytes>, others: Bytes)
    ensures more.Keys == devs.Keys + if f.side.Foreign? then {} else {f.side.device}
    ensures CreditsFlow(prev, f, devs, more)
    ensures Total(more) + others.up + others.down ==
            Total(devs) + other.up + other.down + Delta(prev, f).sent + Delta(prev, f).back
  {
    more, others := devs, other;
    if f.side.Foreign? {
      others := Plus(other, Credit(prev, f));
    } else {
      var id := f.side.device;
      TotalWith(devs, id, Plus(BytesAt(devs, id), Credit(prev, f)));
      more := devs[id := Plus(BytesAt(devs, id), Credit(prev, f))];
    }
  }

  // ---- over a run ----

  // A flow in the kernel's table: which use of its tuple, and its counters.
  datatype Entry = Entry(life: nat, count: Count)

  type Table = map<nat, Entry>

  // What a poll parses: the table, or as much of it as fits.
  ghost predicate Parsed(table: Table, flows: seq<Flow>) {
    && (forall i, j :: 0 <= i < j < |flows| ==> flows[i].key != flows[j].key)
    && (forall f :: f in flows ==> f.key in table && f.count == table[f.key].count)
    && (|flows| < MAX_ENTRIES ==> forall k :: k in table ==> exists f :: f in flows && f.key == k)
  }

  // Counters only grow while a tuple is in the same use.
  predicate Grows(before: Table, after: Table) {
    forall k :: k in before && k in after && before[k].life == after[k].life ==>
      before[k].count.sent <= after[k].count.sent && before[k].count.back <= after[k].count.back
  }

  // What the kernel counted of a tuple between two tables.
  function Counted(before: Table, after: Table, k: nat): int {
    if k !in after then 0
    else
      var now := after[k].count.sent + after[k].count.back;
      if k in before && before[k].life == after[k].life then now - before[k].count.sent - before[k].count.back else now
  }

  // What a poll credits for a tuple.
  function CreditedFor(prev: Snapshot, flows: seq<Flow>, k: nat): nat {
    if flows == [] then 0
    else
      var f := flows[|flows| - 1];
      CreditedFor(prev, flows[..|flows| - 1], k) + if f.key == k then Delta(prev, f).sent + Delta(prev, f).back else 0
  }

  lemma {:induction false} SnapshotIs(flows: seq<Flow>, k: nat)
    requires forall i, j :: 0 <= i < j < |flows| ==> flows[i].key != flows[j].key
    ensures |SnapshotOf(flows)| == |flows|
    ensures k in SnapshotOf(flows) <==> exists f :: f in flows && f.key == k
    ensures forall f :: f in flows && f.key == k ==> k in SnapshotOf(flows) && SnapshotOf(flows)[k] == f.count
    decreases |flows|
  {
    if flows != [] {
      var init, last := flows[..|flows| - 1], flows[|flows| - 1];
      SnapshotIs(init, k);
      SnapshotIs(init, last.key);
      assert flows == init + [last];
      assert last.key !in SnapshotOf(init);
    }
  }

  lemma {:induction false} CreditedOnce(prev: Snapshot, flows: seq<Flow>, k: nat)
    requires forall i, j :: 0 <= i < j < |flows| ==> flows[i].key != flows[j].key
    ensures (forall f :: f in flows ==> f.key != k) ==> CreditedFor(prev, flows, k) == 0
    ensures forall f :: f in flows && f.key == k ==>
              CreditedFor(prev, flows, k) == Delta(prev, f).sent + Delta(prev, f).back
    decreases |flows|
  {
    if flows != [] {
      var init, last := flows[..|flows| - 1], flows[|flows| - 1];
      CreditedOnce(prev, init, k);
      assert flows == init + [last];
      assert forall f :: f in init ==> f.key != last.key;
    }
  }

  // Twice in a row in the snapshot, or not: what the flow is credited and what it moved.
  lemma FlowCredits(before: Table, prev: Snapshot, after: Table, f: Flow)
    requires f.key in after && f.count == after[f.key].count && Grows(before, after)
    requires f.key in prev ==> f.key in before && prev[f.key] == before[f.key].count
    requires |prev| < MAX_ENTRIES && f.key in before ==> f.key in prev
    ensures var credited, counted := Delta(prev, f).sent + Delta(prev, f).back, Counted(before, after, f.key);
            && credited <= counted
            && (|prev| < MAX_ENTRIES && (f.key in before ==> before[f.key].life == after[f.key].life) ==>
                  credited == counted)
  {
  }

  // What the kernel counted of one direction of a tuple between two tables.
  function SentOn(before: Table, after: Table, k: nat): int
    requires k in after
  {
    if k in before && before[k].life == after[k].life then after[k].count.sent - before[k].count.sent
    else after[k].count.sent
  }

  function BackOn(before: Table, after: Table, k: nat): int
    requires k in after
  {
    if k in before && before[k].life == after[k].life then after[k].count.back - before[k].count.back
    else after[k].count.back
  }

  // What the device sent: on the flows it opened the opener's side, on those it answered the other's.
  function UpOf(before: Table, after: Table, flows: seq<Flow>, device: string): int
    requires forall f :: f in flows ==> f.key in after
  {
    if flows == [] then 0
    else
      var f := flows[|flows| - 1];
      UpOf(before, after, flows[..|flows| - 1], device) +
      if f.side == Opened(device) then SentOn(before, after, f.key)
      else if f.side == Answered(device) then BackOn(before, after, f.key)
      else 0
  }

  function DownOf(before: Table, after: Table, flows: seq<Flow>, device: string): int
    requires forall f :: f in flows ==> f.key in after
  {
    if flows == [] then 0
    else
      var f := flows[|flows| - 1];
      DownOf(before, after, flows[..|flows| - 1], device) +
      if f.side == Opened(device) then BackOn(before, after, f.key)
      else if f.side == Answered(device) then SentOn(before, after, f.key)
      else 0
  }

  // The device's tuples are in the use they were in at the last poll.
  predicate SameUse(before: Table, after: Table, flows: seq<Flow>, device: string) {
    forall f :: f in flows && OwnedBy(f, device) && f.key in before && f.key in after ==>
      before[f.key].life == after[f.key].life
  }

  ghost predicate Watched(before: Table, prev: Snapshot, after: Table, flows: seq<Flow>) {
    && Grows(before, after)
    && (forall f :: f in flows ==> f.key in after && f.count == after[f.key].count)
    && (forall f :: f in flows && f.key in prev ==> f.key in before && prev[f.key] == before[f.key].count)
    && (|prev| < MAX_ENTRIES ==> forall f :: f in flows && f.key in before ==> f.key in prev)
  }

  lemma FlowSides(before: Table, prev: Snapshot, after: Table, f: Flow)
    requires Watched(before, prev, after, [f])
    ensures var d := Delta(prev, f);
            && d.sent <= SentOn(before, after, f.key) && d.back <= BackOn(before, after, f.key)
            && (|prev| < MAX_ENTRIES && (f.key in before ==> before[f.key].life == after[f.key].life) ==>
                  d.sent == SentOn(before, after, f.key) && d.back == BackOn(before, after, f.key))
  {
    assert f in [f];
  }

  lemma {:induction false} WatchedSides(before: Table, prev: Snapshot, after: Table, flows: seq<Flow>, device: string)
    requires Watched(before, prev, after, flows)
    ensures var c := CreditOf(prev, flows, device);
            && c.up <= UpOf(before, after, flows, device) && c.down <= DownOf(before, after, flows, device)
            && (|prev| < MAX_ENTRIES && SameUse(before, after, flows, device) ==>
                  c.up == UpOf(before, after, flows, device) && c.down == DownOf(before, after, flows, device))
    decreases |flows|
  {
    if flows != [] {
      var init, last := flows[..|flows| - 1], flows[|flows| - 1];
      assert flows == init + [last];
      WatchedSides(before, prev, after, init, device);
      FlowSides(before, prev, after, last);
    }
  }

  /** Each side gets its own: what a poll credits a device as sent and as received never exceeds what the
      kernel counted of its flows in that direction since the poll before, and is exactly that when nothing
      was cut and none of their tuples was used anew. */
  lemma DeviceSides(before: Table, seen: seq<Flow>, after: Table, flows: seq<Flow>, device: string)
    requires Parsed(before, seen) && Parsed(after, flows) && Grows(before, after)
    ensures var c := CreditOf(SnapshotOf(seen), flows, device);
            && c.up <= UpOf(before, after, flows, device) && c.down <= DownOf(before, after, flows, device)
            && (|seen| < MAX_ENTRIES && SameUse(before, after, flows, device) ==>
                  c.up == UpOf(before, after, flows, device) && c.down == DownOf(before, after, flows, device))
  {
    SnapshotIs(seen, 0);
    forall f | f in flows
      ensures f.key in SnapshotOf(seen) ==> f.key in before && SnapshotOf(seen)[f.key] == before[f.key].count
      ensures |SnapshotOf(seen)| < MAX_ENTRIES && f.key in before ==> f.key in SnapshotOf(seen)
    {
      SnapshotIs(seen, f.key);
    }
    WatchedSides(before, SnapshotOf(seen), after, flows, device);
  }

  lemma PollCredits(before: Table, seen: seq<Flow>, after: Table, flows: seq<Flow>, k: nat)
    requires Parsed(before, seen) && Parsed(after, flows) && Grows(before, after)
    ensures var prev := SnapshotOf(seen);
            && CreditedFor(prev, flows, k) <= Counted(before, after, k)
            && (|seen| < MAX_ENTRIES && |flows| < MAX_ENTRIES &&
                (k in before && k in after ==> before[k].life == after[k].life) ==>
                  CreditedFor(prev, flows, k) == Counted(before, after, k))
  {
    var prev := SnapshotOf(seen);
    SnapshotIs(seen, k);
    CreditedOnce(prev, flows, k);
    if f :| f in flows && f.key == k {
      FlowCredits(before, prev, after, f);
    }
  }

  // Polls in a row: the table at each, what was parsed of it, each snapshot saved.
  ghost predicate Polls(tables: seq<Table>, flows: seq<seq<Flow>>) {
    && |tables| == |flows|
    && (forall i :: 0 <= i < |tables| ==> Parsed(tables[i], flows[i]))
    && (forall i :: 0 < i < |tables| ==> Grows(tables[i - 1], tables[i]))
  }

  function CreditedBy(flows: seq<seq<Flow>>, n: nat, k: nat): nat
    requires n <= |flows|
  {
    if n == 0 then 0
    else CreditedBy(flows, n - 1, k) + CreditedFor(if n == 1 then map[] else SnapshotOf(flows[n - 2]), flows[n - 1], k)
  }

  function CountedBy(tables: seq<Table>, n: nat, k: nat): int
    requires n <= |tables|
  {
    if n == 0 then 0
    else CountedBy(tables, n - 1, k) + Counted(if n == 1 then map[] else tables[n - 2], tables[n - 1], k)
  }

  // Nothing was cut and the tuple had one use.
  predicate Whole(tables: seq<Table>, flows: seq<seq<Flow>>, k: nat) {
    && (forall i :: 0 <= i < |flows| ==> |flows[i]| < MAX_ENTRIES)
    && forall i :: 0 < i < |tables| && k in tables[i - 1] && k in tables[i] ==>
         tables[i - 1][k].life == tables[i][k].life
  }

  /** Conservation, over every run of polls with saved snapshots: for no flow is more credited than the
      kernel counted, even when the table was cut short, and exactly that when nothing was cut and the
      tuple was not used anew while it was watched. */
  lemma {:induction false} NeverOverCredited(tables: seq<Table>, flows: seq<seq<Flow>>, n: nat, k: nat)
    requires Polls(tables, flows) && n <= |tables|
    ensures CreditedBy(flows, n, k) <= CountedBy(tables, n, k)
    ensures Whole(tables, flows, k) ==> CreditedBy(flows, n, k) == CountedBy(tables, n, k)
  {
    if n > 0 {
      NeverOverCredited(tables, flows, n - 1, k);
      if n == 1 {
        PollCredits(map[], [], tables[0], flows[0], k);
      } else {
        PollCredits(tables[n - 2], flows[n - 2], tables[n - 1], flows[n - 1], k);
      }
    }
  }

  lemma {:induction false} SumByKeys(prev: Snapshot, flows: seq<Flow>, keys: seq<nat>)
    requires forall i, j :: 0 <= i < j < |keys| ==> keys[i] != keys[j]
    requires forall f :: f in flows ==> f.key in keys
    ensures SumOf(prev, flows) == SumFor(prev, flows, keys)
    decreases |flows|
  {
    if flows == [] {
      NothingFor(prev, keys);
    } else {
      var init, last := flows[..|flows| - 1], flows[|flows| - 1];
      assert flows == init + [last];
      SumByKeys(prev, init, keys);
      OneMoreFor(prev, flows, keys);
    }
  }

  function SumFor(prev: Snapshot, flows: seq<Flow>, keys: seq<nat>): nat {
    if keys == [] then 0 else SumFor(prev, flows, keys[1..]) + CreditedFor(prev, flows, keys[0])
  }

  lemma {:induction false} NothingFor(prev: Snapshot, keys: seq<nat>)
    ensures SumFor(prev, [], keys) == 0
  {
    if keys != [] {
      NothingFor(prev, keys[1..]);
    }
  }

  lemma {:induction false} OneMoreFor(prev: Snapshot, flows: seq<Flow>, keys: seq<nat>)
    requires flows != [] && forall i, j :: 0 <= i < j < |keys| ==> keys[i] != keys[j]
    ensures var last := flows[|flows| - 1];
            SumFor(prev, flows, keys) ==
            SumFor(prev, flows[..|flows| - 1], keys)
            + if last.key in keys then Delta(prev, last).sent + Delta(prev, last).back else 0
    decreases |keys|
  {
    if keys != [] {
      OneMoreFor(prev, flows, keys[1..]);
      var last := flows[|flows| - 1];
      assert last.key in keys <==> last.key == keys[0] || last.key in keys[1..];
      assert forall i :: 1 <= i < |keys| ==> keys[1..][i - 1] == keys[i];
    }
  }

  // ---- all flows of a run ----

  // The snapshot that poll n is credited against.
  function PrevOf(flows: seq<seq<Flow>>, n: nat): Snapshot
    requires n < |flows|
  {
    if n == 0 then map[] else SnapshotOf(flows[n - 1])
  }

  // The bytes of all flows over the first n polls.
  function MovedBy(flows: seq<seq<Flow>>, n: nat): nat
    requires n <= |flows|
  {
    if n == 0 then 0 else MovedBy(flows, n - 1) + SumOf(PrevOf(flows, n - 1), flows[n - 1])
  }

  function CreditedOver(flows: seq<seq<Flow>>, n: nat, keys: seq<nat>): nat
    requires n <= |flows|
  {
    if keys == [] then 0 else CreditedOver(flows, n, keys[1..]) + CreditedBy(flows, n, keys[0])
  }

  function CountedOver(tables: seq<Table>, n: nat, keys: seq<nat>): int
    requires n <= |tables|
  {
    if keys == [] then 0 else CountedOver(tables, n, keys[1..]) + CountedBy(tables, n, keys[0])
  }

  lemma {:induction false} CreditedOverNone(flows: seq<seq<Flow>>, keys: seq<nat>)
    ensures CreditedOver(flows, 0, keys) == 0
  {
    if keys != [] {
      CreditedOverNone(flows, keys[1..]);
    }
  }

  lemma {:induction false} CreditedOverMore(flows: seq<seq<Flow>>, n: nat, keys: seq<nat>)
    requires n < |flows|
    ensures CreditedOver(flows, n + 1, keys) == CreditedOver(flows, n, keys) + SumFor(PrevOf(flows, n), flows[n], keys)
  {
    if keys != [] {
      CreditedOverMore(flows, n, keys[1..]);
      assert CreditedBy(flows, n + 1, keys[0]) ==
             CreditedBy(flows, n, keys[0]) + CreditedFor(PrevOf(flows, n), flows[n], keys[0]);
    }
  }

  // The tuples that show up, each once.
  ghost predicate ListsAll(flows: seq<seq<Flow>>, keys: seq<nat>) {
    && (forall i, j :: 0 <= i < j < |keys| ==> keys[i] != keys[j])
    && forall i :: 0 <= i < |flows| ==> forall f :: f in flows[i] ==> f.key in keys
  }

  lemma {:induction false} MovedIsCredited(flows: seq<seq<Flow>>, n: nat, keys: seq<nat>)
    requires n <= |flows| && ListsAll(flows, keys)
    ensures MovedBy(flows, n) == CreditedOver(flows, n, keys)
  {
    if n == 0 {
      CreditedOverNone(flows, keys);
    } else {
      MovedIsCredited(flows, n - 1, keys);
      SumByKeys(PrevOf(flows, n - 1), flows[n - 1], keys);
      CreditedOverMore(flows, n - 1, keys);
    }
  }

  lemma {:induction false} OverNeverOverCredited(tables: seq<Table>, flows: seq<seq<Flow>>, n: nat, keys: seq<nat>)
    requires Polls(tables, flows) && n <= |tables|
    ensures CreditedOver(flows, n, keys) <= CountedOver(tables, n, keys)
    ensures (forall k :: k in keys ==> Whole(tables, flows, k)) ==>
              CreditedOver(flows, n, keys) == CountedOver(tables, n, keys)
  {
    if keys != [] {
      OverNeverOverCredited(tables, flows, n, keys[1..]);
      NeverOverCredited(tables, flows, n, keys[0]);
    }
  }

  // What each poll credited to the devices and to the rest.
  ghost predicate PollsOf(flows: seq<seq<Flow>>, devs: seq<map<string, Bytes>>, others: seq<Bytes>) {
    && |devs| == |others| == |flows|
    && forall i :: 0 <= i < |flows| ==> PollOf(flows, i, devs[i], others[i])
  }

  // What Poll promises.
  ghost predicate PollOf(flows: seq<seq<Flow>>, i: nat, devs: map<string, Bytes>, other: Bytes)
    requires i < |flows|
  {
    Total(devs) + other.up + other.down == SumOf(PrevOf(flows, i), flows[i])
  }

  ghost function CreditedToAll(devs: seq<map<string, Bytes>>, others: seq<Bytes>, n: nat): nat
    requires n <= |devs| == |others|
  {
    if n == 0 then 0
    else CreditedToAll(devs, others, n - 1) + Total(devs[n - 1]) + others[n - 1].up + others[n - 1].down
  }

  lemma {:induction false} AllIsMoved(flows: seq<seq<Flow>>, devs: seq<map<string, Bytes>>, others: seq<Bytes>, n: nat)
    requires PollsOf(flows, devs, others) && n <= |flows|
    ensures CreditedToAll(devs, others, n) == MovedBy(flows, n)
  {
    if n > 0 {
      AllIsMoved(flows, devs, others, n - 1);
      assert PollOf(flows, n - 1, devs[n - 1], others[n - 1]);
    }
  }

  /** Conservation for all flows together, over every run of polls: what the devices and the rest are
      credited never exceeds what the kernel counted of all tuples, and is exactly that when nothing was
      cut and no tuple was used anew. */
  lemma RunConserves(tables: seq<Table>, flows: seq<seq<Flow>>, devs: seq<map<string, Bytes>>, others: seq<Bytes>,
                     n: nat, keys: seq<nat>)
    requires Polls(tables, flows) && PollsOf(flows, devs, others) && n <= |tables| && ListsAll(flows, keys)
    ensures CreditedToAll(devs, others, n) <= CountedOver(tables, n, keys)
    ensures (forall k :: k in keys ==> Whole(tables, flows, k)) ==>
              CreditedToAll(devs, others, n) == CountedOver(tables, n, keys)
  {
    AllIsMoved(flows, devs, others, n);
    MovedIsCredited(flows, n, keys);
    OverNeverOverCredited(tables, flows, n, keys);
  }

  // ---- the month ----

  /** A month's totals by device. */
  class Month {
    var dev: map<string, Bytes>

    constructor ()
      ensures dev == map[]
    {
      dev := map[];
    }

    // Adds a poll's credits; a new device that had no bytes, or does not fit any more, is left out.
    method Account(devs: map<string, Bytes>)
      modifies this
      ensures Adds(old(dev), devs, dev)
    {
      var todo := devs.Keys;
      ghost var was, rest := dev, devs;
      assert forall d :: AccountedAt(was, devs, todo, dev, d);
      while todo != {}
        invariant todo <= devs.Keys && Accounted(was, devs, todo, dev)
        invariant rest.Keys == todo && forall d :: d in todo ==> rest[d] == devs[d]
        invariant Total(dev) + Total(rest) <= Total(was) + Total(devs)
      {
        var d :| d in todo;
        ghost var before := dev;
        TotalWithout(rest, d);
        rest := rest - {d};
        AccountOne(d, devs[d]);
        AddsOneTotal(before, d, devs[d], dev);
        AccountedMore(was, devs, todo, d, before, dev);
        todo := todo - {d};
      }
    }

    method AccountOne(d: string, b: Bytes)
      modifies this
      ensures AddsOne(old(dev), d, b, dev)
    {
      if d in dev {
        assert dev[d := Plus(dev[d], b)].Keys == dev.Keys;
        dev := dev[d := Plus(dev[d], b)];
      } else if |dev| < MAX_DEVICES && b.up + b.down != 0 {
        assert b == Plus(BytesAt(dev, d), b);
        dev := dev[d := b];
      }
    }
  }

  predicate AddsOne(before: map<string, Bytes>, d: string, b: Bytes, after: map<string, Bytes>) {
    && |before| <= |after| <= (if |before| < MAX_DEVICES then MAX_DEVICES else |before|)
    && after ==
       if d in before || (|before| < MAX_DEVICES && b != Bytes(0, 0)) then before[d := Plus(BytesAt(before, d), b)]
       else before
  }

  lemma AddsOneTotal(before: map<string, Bytes>, d: string, b: Bytes, after: map<string, Bytes>)
    requires AddsOne(before, d, b, after)
    ensures Total(after) <= Total(before) + b.up + b.down
  {
    TotalWith(before, d, Plus(BytesAt(before, d), b));
  }

  // A device's total once the credits of all but some devices were added.
  predicate AccountedAt(was: map<string, Bytes>, devs: map<string, Bytes>, todo: set<string>, now: map<string, Bytes>,
                        d: string) {
    if d in now then
      && (d in was || (d in devs && d !in todo && |was| < MAX_DEVICES))
      && now[d] == Plus(BytesAt(was, d), if d in todo then Bytes(0, 0) else BytesAt(devs, d))
    else
      d !in was && (d in devs && d !in todo ==> devs[d] == Bytes(0, 0) || |now| >= MAX_DEVICES)
  }

  ghost predicate Accounted(was: map<string, Bytes>, devs: map<string, Bytes>, todo: set<string>,
                            now: map<string, Bytes>) {
    && |was| <= |now| <= (if |was| < MAX_DEVICES then MAX_DEVICES else |was|)
    && forall d :: AccountedAt(was, devs, todo, now, d)
  }

  lemma AccountedMore(was: map<string, Bytes>, devs: map<string, Bytes>, todo: set<string>, d: string,
                      before: map<string, Bytes>, after: map<string, Bytes>)
    requires d in todo && d in devs && Accounted(was, devs, todo, before) && AddsOne(before, d, devs[d], after)
    ensures Accounted(was, devs, todo - {d}, after)
  {
    forall e
      ensures AccountedAt(was, devs, todo - {d}, after, e)
    {
      assert AccountedAt(was, devs, todo, before, e);
    }
  }

  // ---- a month's polls ----

  // The totals after each poll of a month, from none on.
  ghost predicate MonthRun(months: seq<map<string, Bytes>>, polls: seq<map<string, Bytes>>) {
    && |months| == |polls| + 1 && months[0] == map[]
    && forall i {:trigger Adds(months[i], polls[i], months[i + 1])} :: 0 <= i < |polls| ==>
         Adds(months[i], polls[i], months[i + 1])
  }

  // What Account promises.
  ghost predicate Adds(was: map<string, Bytes>, devs: map<string, Bytes>, now: map<string, Bytes>) {
    Accounted(was, devs, {}, now) && Total(now) <= Total(was) + Total(devs)
  }

  lemma MonthStep(months: seq<map<string, Bytes>>, polls: seq<map<string, Bytes>>, i: nat, d: string)
    requires MonthRun(months, polls) && i < |polls|
    ensures var was, now, b := months[i], months[i + 1], BytesAt(polls[i], d);
            && |was| <= |now| && (|was| <= MAX_DEVICES ==> |now| <= MAX_DEVICES)
            && (d in now ==> now[d] == Plus(BytesAt(was, d), b) && (d !in was ==> |was| < MAX_DEVICES))
            && (d !in now ==> d !in was && (b == Bytes(0, 0) || |now| >= MAX_DEVICES))
            && Total(now) <= Total(was) + Total(polls[i])
  {
    assert Adds(months[i], polls[i], months[i + 1]);
    AddsAt(months[i], polls[i], months[i + 1], d);
  }

  lemma AddsAt(was: map<string, Bytes>, devs: map<string, Bytes>, now: map<string, Bytes>, d: string)
    requires Adds(was, devs, now)
    ensures |was| <= |now| && (|was| <= MAX_DEVICES ==> |now| <= MAX_DEVICES)
    ensures d in now ==> now[d] == Plus(BytesAt(was, d), BytesAt(devs, d)) && (d !in was ==> |was| < MAX_DEVICES)
    ensures d !in now ==> d !in was && (BytesAt(devs, d) == Bytes(0, 0) || |now| >= MAX_DEVICES)
    ensures Total(now) <= Total(was) + Total(devs)
  {
    assert AccountedAt(was, devs, {}, now, d);
  }

  function SumOver(polls: seq<map<string, Bytes>>, n: nat, d: string): Bytes
    requires n <= |polls|
  {
    if n == 0 then Bytes(0, 0) else Plus(SumOver(polls, n - 1, d), BytesAt(polls[n - 1], d))
  }

  lemma {:induction false} NothingOver(polls: seq<map<string, Bytes>>, n: nat, d: string)
    requires n <= |polls| && forall i :: 0 <= i < n ==> BytesAt(polls[i], d) == Bytes(0, 0)
    ensures SumOver(polls, n, d) == Bytes(0, 0)
  {
    if n > 0 {
      NothingOver(polls, n - 1, d);
    }
  }

  lemma {:induction false} MonthGrows(months: seq<map<string, Bytes>>, polls: seq<map<string, Bytes>>, i: nat, n: nat)
    requires MonthRun(months, polls) && i <= n <= |polls|
    ensures |months[i]| <= |months[n]|
    decreases n - i
  {
    if i < n {
      MonthGrows(months, polls, i, n - 1);
      MonthStep(months, polls, n - 1, "");
    }
  }

  // A device without a total so far: its bytes, if any, came when there was no room.
  ghost predicate LeftOut(months: seq<map<string, Bytes>>, polls: seq<map<string, Bytes>>, n: nat, d: string)
    requires n <= |polls| < |months|
  {
    forall i :: 0 <= i < n && |months[i + 1]| < MAX_DEVICES ==> BytesAt(polls[i], d) == Bytes(0, 0)
  }

  lemma LeftOutSums(months: seq<map<string, Bytes>>, polls: seq<map<string, Bytes>>, n: nat, d: string)
    requires MonthRun(months, polls) && n <= |polls| && LeftOut(months, polls, n, d) && |months[n]| < MAX_DEVICES
    ensures SumOver(polls, n, d) == Bytes(0, 0)
  {
    forall i | 0 <= i < n
      ensures BytesAt(polls[i], d) == Bytes(0, 0)
    {
      MonthGrows(months, polls, i + 1, n);
    }
    NothingOver(polls, n, d);
  }

  // What a device's total says of the first n polls.
  ghost predicate SummedUp(months: seq<map<string, Bytes>>, polls: seq<map<string, Bytes>>, n: nat, d: string)
    requires n <= |polls| < |months|
  {
    if d in months[n] then months[n][d] == SumOver(polls, n, d)
    else LeftOut(months, polls, n, d)
  }

  // One poll more, from what it adds.
  lemma SummedUpMore(months: seq<map<string, Bytes>>, polls: seq<map<string, Bytes>>, i: nat, d: string)
    requires i < |polls| < |months| && SummedUp(months, polls, i, d)
    requires d !in months[i] && |months[i]| < MAX_DEVICES ==> SumOver(polls, i, d) == Bytes(0, 0)
    requires d in months[i + 1] ==>
               && months[i + 1][d] == Plus(BytesAt(months[i], d), BytesAt(polls[i], d))
               && (d !in months[i] ==> |months[i]| < MAX_DEVICES)
    requires d !in months[i + 1] ==>
               d !in months[i] && (BytesAt(polls[i], d) == Bytes(0, 0) || |months[i + 1]| >= MAX_DEVICES)
    ensures SummedUp(months, polls, i + 1, d)
  {
    if d in months[i + 1] {
      assert SumOver(polls, i + 1, d) == Plus(SumOver(polls, i, d), BytesAt(polls[i], d));
    }
  }

  lemma SummedUpStep(months: seq<map<string, Bytes>>, polls: seq<map<string, Bytes>>, i: nat, d: string)
    requires MonthRun(months, polls) && i < |polls| && SummedUp(months, polls, i, d)
    ensures SummedUp(months, polls, i + 1, d)
  {
    MonthStep(months, polls, i, d);
    if d !in months[i] && |months[i]| < MAX_DEVICES {
      LeftOutSums(months, polls, i, d);
    }
    SummedUpMore(months, polls, i, d);
  }

  lemma {:induction false} AllSummedUp(months: seq<map<string, Bytes>>, polls: seq<map<string, Bytes>>, n: nat,
                                       d: string)
    requires MonthRun(months, polls) && n <= |polls|
    ensures SummedUp(months, polls, n, d)
  {
    if n > 0 {
      AllSummedUp(months, polls, n - 1, d);
      SummedUpStep(months, polls, n - 1, d);
    }
  }

  lemma {:induction false} MonthFits(months: seq<map<string, Bytes>>, polls: seq<map<string, Bytes>>, n: nat)
    requires MonthRun(months, polls) && n <= |polls|
    ensures |months[n]| <= MAX_DEVICES
  {
    if n > 0 {
      MonthFits(months, polls, n - 1);
      MonthStep(months, polls, n - 1, "");
    }
  }

  /** A month's totals, over every run of polls: a device that has one has exactly the sum of its credits;
      one that has none had no bytes as long as there was room; there are 256 at most. */
  lemma MonthIsSum(months: seq<map<string, Bytes>>, polls: seq<map<string, Bytes>>, n: nat, d: string)
    requires MonthRun(months, polls) && n <= |polls|
    ensures |months[n]| <= MAX_DEVICES
    ensures d in months[n] ==> months[n][d] == SumOver(polls, n, d)
    ensures d !in months[n] ==> LeftOut(months, polls, n, d)
  {
    AllSummedUp(months, polls, n, d);
    MonthFits(months, polls, n);
  }

  lemma {:induction false} MonthWithinPolls(months: seq<map<string, Bytes>>, polls: seq<map<string, Bytes>>,
                                            others: seq<Bytes>, n: nat)
    requires MonthRun(months, polls) && |others| == |polls| && n <= |polls|
    ensures Total(months[n]) <= CreditedToAll(polls, others, n)
  {
    if n > 0 {
      MonthWithinPolls(months, polls, others, n - 1);
      MonthStep(months, polls, n - 1, "");
    }
  }

  /** So a month's totals together never exceed what the kernel counted while it was polled. */
  lemma MonthConserves(months: seq<map<string, Bytes>>, tables: seq<Table>, flows: seq<seq<Flow>>,
                       devs: seq<map<string, Bytes>>, others: seq<Bytes>, n: nat, keys: seq<nat>)
    requires MonthRun(months, devs) && Polls(tables, flows) && PollsOf(flows, devs, others)
    requires n <= |tables| && ListsAll(flows, keys)
    ensures Total(months[n]) <= CountedOver(tables, n, keys)
  {
    MonthWithinPolls(months, devs, others, n);
    RunConserves(tables, flows, devs, others, n, keys);
  }
}
