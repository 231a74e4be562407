/** The walk that writes the change list, and its helpers, as the code runs them. */
module TreeDiffWalk {
  import opened Wrappers
  import opened TreeDiff

  /** The list the walk appends to. */
  class ChangeList {
    var lines: seq<Line>

    constructor ()
      ensures lines == []
    {
      lines := [];
    }
  }

  lemma ValueOfMore(entries: seq<Entry>, i: nat, key: string)
    requires i < |entries|
    ensures ValueOf(entries[..i + 1], key) ==
            if entries[i].key == key then Some(entries[i].node) else ValueOf(entries[..i], key)
  {
    assert entries[..i + 1][..i] == entries[..i];
  }

  ghost predicate Indexes(m: map<string, Node>, entries: seq<Entry>) {
    forall k :: ValueOf(entries, k) == if k in m then Some(m[k]) else None
  }

  method MapIndex(n: Node) returns (m: map<string, Node>)
    ensures Indexes(m, EntriesOf(n))
  {
    m := map[];
    if n.Mapping? {
      for i := 0 to |n.entries|
        invariant Indexes(m, n.entries[..i])
      {
        ghost var was := m;
        m := m[n.entries[i].key := n.entries[i].node];
        forall k: string
          ensures ValueOf(n.entries[..i + 1], k) == if k in m then Some(m[k]) else None
        {
          ValueOfMore(n.entries, i, k);
          assert ValueOf(n.entries[..i], k) == if k in was then Some(was[k]) else None;
        }
      }
      assert n.entries[..|n.entries|] == n.entries;
    }
  }

  lemma IdentifiesMore(key: string, items: seq<Node>, i: nat)
    requires i < |items| && Identifies(key, items[..i])
    ensures Identifies(key, items[..i + 1]) <==>
            HasName(items[i], key) && NameOf(items[i], key) !in NamesOf(items[..i], key)
  {
    var more, names := items[..i + 1], NamesOf(items[..i], key);
    assert more == items[..i] + [items[i]];
    assert forall j :: 0 <= j < i ==> names[j] == NameOf(more[j], key);
    assert forall j :: 0 <= j < i ==> HasName(more[j], key);
    assert forall j, k :: 0 <= j < k < i ==> NameOf(more[j], key) != NameOf(more[k], key);
    assert NameOf(items[i], key) !in names <==> forall j :: 0 <= j < i ==> NameOf(more[j], key) != NameOf(more[i], key);
  }

  lemma IdentifiesPart(key: string, items: seq<Node>, i: nat)
    requires i <= |items|
    ensures Identifies(key, items) ==> Identifies(key, items[..i])
  {
  }

  method NameIn(item: Node, key: string) returns (name: Option<string>)
    ensures name == if HasName(item, key) then Some(NameOf(item, key)) else None
  {
    var index := MapIndex(item);
    assert ValueOf(EntriesOf(item), key) == if key in index then Some(index[key]) else None;
    name := if key in index && index[key].Scalar? then Some(index[key].value) else None;
  }

  // Whether the key names every item of the list, no two alike.
  method NamesAll(key: string, items: seq<Node>) returns (ok: bool)
    ensures ok <==> Identifies(key, items)
  {
    var seen: seq<string> := [];
    for i := 0 to |items|
      invariant Identifies(key, items[..i])
      invariant seen == NamesOf(items[..i], key)
    {
      var name := NameIn(items[i], key);
      IdentifiesMore(key, items, i);
      if name.None? || name.value in seen {
        IdentifiesPart(key, items, i + 1);
        return false;
      }
      NamesMore(items, i, key);
      seen := seen + [name.value];
    }
    assert items[..|items|] == items;
    ok := true;
  }

  lemma NamesMore(items: seq<Node>, i: nat, key: string)
    requires i < |items|
    ensures NamesOf(items[..i + 1], key) == NamesOf(items[..i], key) + [NameOf(items[i], key)]
  {
  }

  method FindListId(a: seq<Node>, b: seq<Node>) returns (id: string)
    ensures id == ListId(0, a, b)
  {
    for k := 0 to |ID_KEYS|
      invariant ListId(0, a, b) == ListId(k, a, b)
    {
      var ok := NamesAll(ID_KEYS[k], a);
      if ok {
        ok := NamesAll(ID_KEYS[k], b);
      }
      if ok {
        return ID_KEYS[k];
      }
    }
    id := "";
  }

  method KeepThose(xs: seq<string>, ys: seq<string>) returns (out: seq<string>)
    ensures out == Keep(xs, ys)
  {
    out := [];
    for i := 0 to |xs|
      invariant Keep(xs, ys) == out + Keep(xs[i..], ys)
    {
      assert xs[i..][1..] == xs[i + 1..];
      if xs[i] in ys {
        out := out + [xs[i]];
      }
    }
    assert xs[|xs|..] == [];
  }

  lemma {:induction false} DiffConcat(xs: seq<Pair>, ys: seq<Pair>, bound: nat)
    requires Lighter(xs, bound) && Lighter(ys, bound)
    ensures Lighter(xs + ys, bound) && DiffAll(xs + ys, bound) == DiffAll(xs, bound) + DiffAll(ys, bound)
    decreases |xs|
  {
    if xs == [] {
      assert xs + ys == ys;
    } else {
      assert (xs + ys)[1..] == xs[1..] + ys;
      DiffConcat(xs[1..], ys, bound);
    }
  }

  method DiffNode(path: seq<PathPart>, a: Option<Node>, b: Option<Node>, out: ChangeList)
    modifies out
    ensures out.lines == old(out.lines) + Diff(path, a, b)
    decreases Weight(a) + Weight(b), 2
  {
    if a == b {
    } else if a.None? && b.value.Scalar? {
      out.lines := out.lines + [Changed(path, a, b)];
    } else if b.None? && a.value.Scalar? {
      out.lines := out.lines + [Changed(path, a, b)];
    } else if a.None? {
      out.lines := out.lines + [Added(path)];
    } else if b.None? {
      out.lines := out.lines + [Removed(path)];
    } else if a.value.Mapping? && b.value.Mapping? {
      DiffMappings(path, a.value.entries, b.value.entries, out);
    } else if a.value.List? && b.value.List? {
      if IsInline(a.value) && IsInline(b.value) {
        out.lines := out.lines + [Changed(path, a, b)];
        return;
      }
      var id := FindListId(a.value.items, b.value.items);
      if id != "" {
        Regroup(out.lines, NameDiff(path, id, a.value.items, b.value.items),
                OrderLines(path, id, a.value.items, b.value.items));
        DiffNamed(path, id, a.value.items, b.value.items, out);
      } else {
        DiffPlaced(path, a.value.items, b.value.items, out);
      }
    } else {
      out.lines := out.lines + [Changed(path, a, b)];
    }
  }

  lemma LighterParts(xs: seq<Pair>, ys: seq<Pair>, n: nat)
    requires Lighter(xs + ys, n)
    ensures Lighter(xs, n) && Lighter(ys, n)
  {
    assert forall i :: 0 <= i < |xs| ==> (xs + ys)[i] == xs[i];
    assert forall i :: 0 <= i < |ys| ==> (xs + ys)[|xs| + i] == ys[i];
  }

  method DiffMappings(path: seq<PathPart>, a: seq<Entry>, b: seq<Entry>, out: ChangeList)
    modifies out
    ensures out.lines == old(out.lines) + MappingDiff(path, a, b)
    decreases Size(Mapping(a)) + Size(Mapping(b)), 1, 1
  {
    MappingParts(path, a, b);
    Regroup(out.lines, DiffAll(FoundKeys(path, a, b), Size(Mapping(a)) + Size(Mapping(b))),
            DiffAll(LostKeys(path, a, b), Size(Mapping(a)) + Size(Mapping(b))));
    DiffFoundKeys(path, a, b, out);
    DiffLostKeys(path, a, b, out);
  }

  lemma SplitAll(xs: seq<Pair>, ys: seq<Pair>, n: nat)
    requires Lighter(xs + ys, n)
    ensures Lighter(xs, n) && Lighter(ys, n) && DiffAll(xs + ys, n) == DiffAll(xs, n) + DiffAll(ys, n)
  {
    LighterParts(xs, ys, n);
    DiffConcat(xs, ys, n);
  }

  lemma MappingIsAll(path: seq<PathPart>, a: seq<Entry>, b: seq<Entry>)
    ensures var n := Size(Mapping(a)) + Size(Mapping(b));
            Lighter(KeyPairs(path, a, b), n) && MappingDiff(path, a, b) == DiffAll(KeyPairs(path, a, b), n)
  {
    KeyPairsAreLighter(path, a, b);
  }

  lemma MappingParts(path: seq<PathPart>, a: seq<Entry>, b: seq<Entry>)
    ensures var found, lost, n := FoundKeys(path, a, b), LostKeys(path, a, b), Size(Mapping(a)) + Size(Mapping(b));
            Lighter(found, n) && Lighter(lost, n) && MappingDiff(path, a, b) == DiffAll(found, n) + DiffAll(lost, n)
  {
    var found, lost := FoundKeys(path, a, b), LostKeys(path, a, b);
    MappingIsAll(path, a, b);
    assert KeyPairs(path, a, b) == found + lost;
    SplitAll(found, lost, Size(Mapping(a)) + Size(Mapping(b)));
  }

  lemma FoundKeyIs(path: seq<PathPart>, a: seq<Entry>, b: seq<Entry>, i: nat)
    requires i < |b|
    ensures FoundKeys(path, a, b[i..]) == [FoundKey(path, a, b[i])] + FoundKeys(path, a, b[i + 1..])
  {
    assert b[i..][1..] == b[i + 1..];
  }

  method DiffFoundKeys(path: seq<PathPart>, a: seq<Entry>, b: seq<Entry>, out: ChangeList)
    requires Lighter(FoundKeys(path, a, b), Size(Mapping(a)) + Size(Mapping(b)))
    modifies out
    ensures out.lines == old(out.lines) + DiffAll(FoundKeys(path, a, b), Size(Mapping(a)) + Size(Mapping(b)))
    decreases Size(Mapping(a)) + Size(Mapping(b)), 1, 0
  {
    ghost var n := Size(Mapping(a)) + Size(Mapping(b));
    ghost var total := out.lines + DiffAll(FoundKeys(path, a, b), n);
    var am := MapIndex(Mapping(a));
    assert EntriesOf(Mapping(a)) == a && b[0..] == b;
    for i := 0 to |b|
      invariant Lighter(FoundKeys(path, a, b[i..]), n)
      invariant total == out.lines + DiffAll(FoundKeys(path, a, b[i..]), n)
    {
      var k := b[i].key;
      var v := if k in am then Some(am[k]) else None;
      assert v == ValueOf(a, k);
      FoundKeyIs(path, a, b, i);
      FirstOf(FoundKeys(path, a, b[i..]), FoundKeys(path, a, b[i + 1..]), FoundKey(path, a, b[i]), n, out.lines);
      DiffNode(path + [Field(k)], v, Some(b[i].node), out);
    }
    assert b[|b|..] == [];
    NothingLeft(out.lines, n);
  }

  method DiffLostKeys(path: seq<PathPart>, a: seq<Entry>, b: seq<Entry>, out: ChangeList)
    requires Lighter(LostKeys(path, a, b), Size(Mapping(a)) + Size(Mapping(b)))
    modifies out
    ensures out.lines == old(out.lines) + DiffAll(LostKeys(path, a, b), Size(Mapping(a)) + Size(Mapping(b)))
    decreases Size(Mapping(a)) + Size(Mapping(b)), 1, 0
  {
    ghost var n := Size(Mapping(a)) + Size(Mapping(b));
    ghost var total := out.lines + DiffAll(LostKeys(path, a, b), n);
    var bm := MapIndex(Mapping(b));
    assert EntriesOf(Mapping(b)) == b && a[0..] == a;
    for i := 0 to |a|
      invariant Lighter(LostKeys(path, a[i..], b), n)
      invariant total == out.lines + DiffAll(LostKeys(path, a[i..], b), n)
    {
      ghost var left, was := LostKeys(path, a[i..], b), out.lines;
      assert a[i..][1..] == a[i + 1..];
      assert ValueOf(b, a[i].key) == if a[i].key in bm then Some(bm[a[i].key]) else None;
      if a[i].key !in bm {
        FirstOf(left, LostKeys(path, a[i + 1..], b), Pair(path + [Field(a[i].key)], Some(a[i].node), None), n, was);
        DiffNode(path + [Field(a[i].key)], Some(a[i].node), None, out);
      } else {
        assert left == LostKeys(path, a[i + 1..], b);
      }
    }
    assert a[|a|..] == [];
    NothingLeft(out.lines, n);
  }

  lemma NothingLeft(was: seq<Line>, n: nat)
    ensures was + DiffAll([], n) == was
  {
  }

  lemma KeepFirst(done: seq<string>, x: string, rest: seq<string>, ys: seq<string>)
    ensures done + Keep([x] + rest, ys) == (if x in ys then done + [x] else done) + Keep(rest, ys)
  {
    assert ([x] + rest)[1..] == rest;
  }

  // What is left to write is the first pair's lines and then the others'.
  lemma FirstOf(left: seq<Pair>, rest: seq<Pair>, p: Pair, n: nat, was: seq<Line>)
    requires left == [p] + rest && Lighter(left, n)
    ensures Lighter(rest, n) && PairWeight(p) < n
    ensures was + DiffAll(left, n) == was + Diff(p.path, p.a, p.b) + DiffAll(rest, n)
  {
    assert left[0] == p && left[1..] == rest;
    assert was + (Diff(p.path, p.a, p.b) + DiffAll(rest, n)) == was + Diff(p.path, p.a, p.b) + DiffAll(rest, n);
  }

  method DiffNamed(path: seq<PathPart>, id: string, a: seq<Node>, b: seq<Node>, out: ChangeList)
    modifies out
    ensures out.lines == old(out.lines) + NameDiff(path, id, a, b) + OrderLines(path, id, a, b)
    decreases Size(List(a)) + Size(List(b)), 1, 1
  {
    NamedParts(path, id, a, b);
    Regroup(out.lines, DiffAll(FoundItems(path, id, a, b), Size(List(a)) + Size(List(b))),
            DiffAll(LostItems(path, id, a, b), Size(List(a)) + Size(List(b))));
    var bo := DiffFoundItems(path, id, a, b, out);
    var ao := DiffLostItems(path, id, a, b, bo, out);
    WriteOrder(path, id, a, b, ao, bo, out);
  }

  lemma Regroup(x: seq<Line>, y: seq<Line>, z: seq<Line>)
    ensures x + y + z == x + (y + z)
  {
  }

  method WriteOrder(path: seq<PathPart>, id: string, a: seq<Node>, b: seq<Node>, ao: seq<string>, bo: seq<string>,
                    out: ChangeList)
    requires bo == NamesOf(b, id) && ao == Keep(NamesOf(a, id), bo)
    modifies out
    ensures out.lines == old(out.lines) + OrderLines(path, id, a, b)
  {
    var kept := KeepThose(bo, ao);
    if JoinNul(ao) != JoinNul(kept) {
      out.lines := out.lines + [Reordered(path, ao, kept)];
    }
  }

  lemma NamedIsAll(path: seq<PathPart>, id: string, a: seq<Node>, b: seq<Node>)
    ensures var n := Size(List(a)) + Size(List(b));
            Lighter(NamePairs(path, id, a, b), n) && NameDiff(path, id, a, b) == DiffAll(NamePairs(path, id, a, b), n)
  {
    NamePairsAreLighter(path, id, a, b);
  }

  lemma NamedParts(path: seq<PathPart>, id: string, a: seq<Node>, b: seq<Node>)
    ensures var found, lost, n := FoundItems(path, id, a, b), LostItems(path, id, a, b), Size(List(a)) + Size(List(b));
            Lighter(found, n) && Lighter(lost, n) && NameDiff(path, id, a, b) == DiffAll(found, n) + DiffAll(lost, n)
  {
    NamedIsAll(path, id, a, b);
    SplitAll(FoundItems(path, id, a, b), LostItems(path, id, a, b), Size(List(a)) + Size(List(b)));
  }

  lemma FoundItemIs(path: seq<PathPart>, id: string, a: seq<Node>, b: seq<Node>, i: nat)
    requires i < |b|
    ensures FoundItems(path, id, a, b[i..]) == [FoundItem(path, id, a, b[i])] + FoundItems(path, id, a, b[i + 1..])
  {
    assert b[i..][1..] == b[i + 1..];
  }

  method DiffFoundItems(path: seq<PathPart>, id: string, a: seq<Node>, b: seq<Node>, out: ChangeList)
    returns (bo: seq<string>)
    requires Lighter(FoundItems(path, id, a, b), Size(List(a)) + Size(List(b)))
    modifies out
    ensures bo == NamesOf(b, id)
    ensures out.lines == old(out.lines) + DiffAll(FoundItems(path, id, a, b), Size(List(a)) + Size(List(b)))
    decreases Size(List(a)) + Size(List(b)), 1, 0
  {
    ghost var n := Size(List(a)) + Size(List(b));
    ghost var total := out.lines + DiffAll(FoundItems(path, id, a, b), n);
    bo := [];
    assert b[0..] == b;
    for i := 0 to |b|
      invariant bo == NamesOf(b[..i], id)
      invariant Lighter(FoundItems(path, id, a, b[i..]), n)
      invariant total == out.lines + DiffAll(FoundItems(path, id, a, b[i..]), n)
    {
      var nm := NameOf(b[i], id);
      NamesMore(b, i, id);
      bo := bo + [nm];
      FoundItemIs(path, id, a, b, i);
      FirstOf(FoundItems(path, id, a, b[i..]), FoundItems(path, id, a, b[i + 1..]), FoundItem(path, id, a, b[i]), n,
              out.lines);
      DiffNode(path + [Named(nm)], ItemNamed(a, id, nm), Some(b[i]), out);
    }
    assert b[..|b|] == b && b[|b|..] == [];
    NothingLeft(out.lines, n);
  }

  lemma LostItemIs(path: seq<PathPart>, id: string, a: seq<Node>, b: seq<Node>, i: nat)
    requires i < |a|
    ensures var nm, rest := NameOf(a[i], id), LostItems(path, id, a[i + 1..], b);
            LostItems(path, id, a[i..], b) ==
            if nm in NamesOf(b, id) then rest else [Pair(path + [Named(nm)], Some(a[i]), None)] + rest
  {
    assert a[i..][1..] == a[i + 1..];
  }

  lemma NamesFrom(a: seq<Node>, id: string, i: nat)
    requires i < |a|
    ensures NamesOf(a, id)[i..] == [NameOf(a[i], id)] + NamesOf(a, id)[i + 1..]
  {
  }

  method DiffLostItems(path: seq<PathPart>, id: string, a: seq<Node>, b: seq<Node>, bo: seq<string>, out: ChangeList)
    returns (ao: seq<string>)
    requires Lighter(LostItems(path, id, a, b), Size(List(a)) + Size(List(b))) && bo == NamesOf(b, id)
    modifies out
    ensures ao == Keep(NamesOf(a, id), bo)
    ensures out.lines == old(out.lines) + DiffAll(LostItems(path, id, a, b), Size(List(a)) + Size(List(b)))
    decreases Size(List(a)) + Size(List(b)), 1, 0
  {
    ghost var n, names := Size(List(a)) + Size(List(b)), NamesOf(a, id);
    ghost var total := out.lines + DiffAll(LostItems(path, id, a, b), n);
    ao := [];
    assert a[0..] == a && names[0..] == names;
    for i := 0 to |a|
      invariant Lighter(LostItems(path, id, a[i..], b), n)
      invariant Keep(names, bo) == ao + Keep(names[i..], bo)
      invariant total == out.lines + DiffAll(LostItems(path, id, a[i..], b), n)
    {
      var nm := NameOf(a[i], id);
      LostItemIs(path, id, a, b, i);
      NamesFrom(a, id, i);
      KeepFirst(ao, nm, names[i + 1..], bo);
      if nm in bo {
        ao := ao + [nm];
      } else {
        FirstOf(LostItems(path, id, a[i..], b), LostItems(path, id, a[i + 1..], b),
                Pair(path + [Named(nm)], Some(a[i]), None), n, out.lines);
        DiffNode(path + [Named(nm)], Some(a[i]), None, out);
      }
    }
    assert names[|a|..] == [] && a[|a|..] == [];
    NothingLeft(out.lines, n);
  }

  method DiffPlaced(path: seq<PathPart>, a: seq<Node>, b: seq<Node>, out: ChangeList)
    modifies out
    ensures out.lines == old(out.lines) + PlaceDiff(path, a, b)
    decreases Size(List(a)) + Size(List(b)), 1, 0
  {
    ghost var n := Size(List(a)) + Size(List(b));
    PlacePairsAreLighter(path, a, b);
    ghost var total := out.lines + DiffAll(PlacePairs(path, a, b, 0), n);
    var i := 0;
    while i < |a| || i < |b|
      invariant 0 <= i <= Longer(a, b)
      invariant Lighter(PlacePairs(path, a, b, i), n)
      invariant total == out.lines + DiffAll(PlacePairs(path, a, b, i), n)
      decreases |a| + |b| - i
    {
      FirstOf(PlacePairs(path, a, b, i), PlacePairs(path, a, b, i + 1), PlacePair(path, a, b, i), n, out.lines);
      DiffNode(path + [Nth(i)], ItemAt(a, i), ItemAt(b, i), out);
      i := i + 1;
    }
    NothingLeft(out.lines, n);
  }
}
