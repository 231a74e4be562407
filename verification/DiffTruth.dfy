/** What the lines of a tree diff say is so: each one names a place, and what the two trees have there; and
    wherever the trees differ some line says so. Places are looked up in the trees, apart from the diff. */
module DiffTruth {
  import opened Wrappers
  import opened TreeDiff
  import opened DiffLaws

  // ---- places ----

  ghost function FieldOf(n: Option<Node>, key: string): Option<Node> {
    if n.Some? && n.value.Mapping? && exists v :: Entry(key, v) in n.value.entries then
      var v :| Entry(key, v) in n.value.entries;
      Some(v)
    else None
  }

  // The item has this name under the key.
  ghost predicate Bears(item: Node, id: string, name: string) {
    item.Mapping? && exists tag :: Entry(id, Scalar(tag, name)) in item.entries
  }

  ghost function NamedOf(n: Option<Node>, id: string, name: string): Option<Node> {
    if n.Some? && n.value.List? && exists item :: item in n.value.items && Bears(item, id, name) then
      var item :| item in n.value.items && Bears(item, id, name);
      Some(item)
    else None
  }

  function NthOf(n: Option<Node>, i: nat): Option<Node> {
    if n.Some? && n.value.List? && i < |n.value.items| then Some(n.value.items[i]) else None
  }

  ghost predicate BearsSome(item: Node, id: string) {
    exists name :: Bears(item, id, name)
  }

  ghost predicate BearAlike(x: Node, y: Node, id: string) {
    exists name :: Bears(x, id, name) && Bears(y, id, name)
  }

  // Each item has a name under the key, and no two have the same.
  ghost predicate Distinguishes(id: string, items: seq<Node>) {
    && (forall i :: 0 <= i < |items| ==> BearsSome(items[i], id))
    && (forall i, j :: 0 <= i < j < |items| ==> !BearAlike(items[i], items[j], id))
  }

  ghost predicate TellsApart(id: string, a: seq<Node>, b: seq<Node>) {
    Distinguishes(id, a) && Distinguishes(id, b)
  }

  const NAMING := ["name", "phy", "ssid", "mac"]

  ghost function FirstTelling(ids: seq<string>, a: seq<Node>, b: seq<Node>): Option<string> {
    if ids == [] then None else if TellsApart(ids[0], a, b) then Some(ids[0]) else FirstTelling(ids[1..], a, b)
  }

  // The key the items of two lists go by: the first that tells apart those of either.
  ghost function IdOf(a: Option<Node>, b: Option<Node>): Option<string> {
    if a.Some? && b.Some? && a.value.List? && b.value.List? then FirstTelling(NAMING, a.value.items, b.value.items)
    else None
  }

  // One step down; items go by their names where a key tells them apart, else by their places.
  ghost function Child(n: Option<Node>, id: Option<string>, part: PathPart): Option<Node> {
    match part
    case Field(key) => FieldOf(n, key)
    case Named(name) => if id.Some? then NamedOf(n, id.value, name) else None
    case Nth(i) => if id.None? then NthOf(n, i) else None
  }

  // What the two trees have at a path.
  ghost function Look(a: Option<Node>, b: Option<Node>, path: seq<PathPart>): (Option<Node>, Option<Node>) {
    if path == [] then (a, b)
    else
      var (x, y) := Look(a, b, path[..|path| - 1]);
      var id, part := IdOf(x, y), path[|path| - 1];
      (Child(x, id, part), Child(y, id, part))
  }

  lemma LookDown(a: Option<Node>, b: Option<Node>, path: seq<PathPart>, part: PathPart)
    ensures var (x, y) := Look(a, b, path);
            Look(a, b, path + [part]) == (Child(x, IdOf(x, y), part), Child(y, IdOf(x, y), part))
  {
    assert (path + [part])[..|path|] == path;
  }

  // ---- what lines say ----

  // The names the items of both lists have, in the order of the first.
  ghost predicate CommonNames(names: seq<string>, id: string, xs: seq<Node>, ys: seq<Node>) {
    && (forall s :: s in names <==>
          (exists x :: x in xs && Bears(x, id, s)) && (exists y :: y in ys && Bears(y, id, s)))
    && (forall i, j :: 0 <= i < j < |names| ==> BearsBefore(xs, id, names[i], names[j]))
  }

  ghost predicate BearsBefore(xs: seq<Node>, id: string, s: string, t: string) {
    exists p, q :: 0 <= p < q < |xs| && Bears(xs[p], id, s) && Bears(xs[q], id, t)
  }

  predicate OfScalars(n: Node) {
    n.List? && forall i :: 0 <= i < |n.items| ==> n.items[i].Scalar?
  }

  // There is no going further down: scalars, lists of scalars, or values of two kinds.
  predicate ShownWhole(x: Option<Node>, y: Option<Node>) {
    if x.Some? && y.Some? then
      && !(x.value.Mapping? && y.value.Mapping?)
      && (x.value.List? && y.value.List? ==> OfScalars(x.value) && OfScalars(y.value))
    else (x.Some? ==> x.value.Scalar?) && (y.Some? ==> y.value.Scalar?)
  }

  ghost predicate TrueLine(a: Option<Node>, b: Option<Node>, l: Line) {
    var (x, y) := Look(a, b, l.path);
    match l
    case Added(_) => x == None && y.Some? && !y.value.Scalar?
    case Removed(_) => y == None && x.Some? && !x.value.Scalar?
    case Changed(_, before, after) => before == x && after == y && x != y && ShownWhole(x, y)
    case Reordered(_, was, now) =>
      && was != now && IdOf(x, y).Some? && x.Some? && y.Some? && x.value.List? && y.value.List?
      && CommonNames(was, IdOf(x, y).value, x.value.items, y.value.items)
      && CommonNames(now, IdOf(x, y).value, y.value.items, x.value.items)
  }

  ghost predicate Unique(a: Option<Node>) {
    a.Some? ==> UniqueKeys(a.value)
  }

  // ---- the diff looks places up, too ----

  lemma FieldIsValue(entries: seq<Entry>, key: string)
    requires DistinctKeys(entries)
    ensures FieldOf(Some(Mapping(entries)), key) == ValueOf(entries, key)
  {
    if ValueOf(entries, key).Some? {
      var i := ValueFrom(entries, key);
      assert Entry(key, entries[i].node) in entries;
    }
    if exists v :: Entry(key, v) in entries {
      var v :| Entry(key, v) in entries && FieldOf(Some(Mapping(entries)), key) == Some(v);
      var i :| 0 <= i < |entries| && entries[i] == Entry(key, v);
      OwnValue(entries, i);
    }
  }

  lemma BearsIsNamed(item: Node, id: string, name: string)
    requires UniqueKeys(item)
    ensures Bears(item, id, name) <==> HasName(item, id) && NameOf(item, id) == name
  {
    if Bears(item, id, name) {
      var tag :| Entry(id, Scalar(tag, name)) in item.entries;
      var i :| 0 <= i < |item.entries| && item.entries[i] == Entry(id, Scalar(tag, name));
      OwnValue(item.entries, i);
    }
    if HasName(item, id) && NameOf(item, id) == name {
      var i := ValueFrom(EntriesOf(item), id);
      assert item.entries[i] == Entry(id, Scalar(item.entries[i].node.tag, name));
    }
  }

  lemma DistinguishesIff(id: string, items: seq<Node>)
    requires UniqueKeys(List(items))
    ensures Distinguishes(id, items) <==> Identifies(id, items)
  {
    forall i, name | 0 <= i < |items|
      ensures Bears(items[i], id, name) <==> HasName(items[i], id) && NameOf(items[i], id) == name
    {
      BearsIsNamed(items[i], id, name);
    }
    if Identifies(id, items) {
      IdentifiedIsDistinct(id, items);
    }
    if Distinguishes(id, items) {
      DistinctIsIdentified(id, items);
    }
  }

  lemma IdentifiedIsDistinct(id: string, items: seq<Node>)
    requires forall i, name :: 0 <= i < |items| ==>
               (Bears(items[i], id, name) <==> HasName(items[i], id) && NameOf(items[i], id) == name)
    requires Identifies(id, items)
    ensures Distinguishes(id, items)
  {
    forall i | 0 <= i < |items|
      ensures BearsSome(items[i], id)
    {
      assert Bears(items[i], id, NameOf(items[i], id));
    }
    forall i, j | 0 <= i < j < |items|
      ensures !BearAlike(items[i], items[j], id)
    {
      assert NameOf(items[i], id) != NameOf(items[j], id);
    }
  }

  lemma DistinctIsIdentified(id: string, items: seq<Node>)
    requires forall i, name :: 0 <= i < |items| ==>
               (Bears(items[i], id, name) <==> HasName(items[i], id) && NameOf(items[i], id) == name)
    requires Distinguishes(id, items)
    ensures Identifies(id, items)
  {
    forall i | 0 <= i < |items|
      ensures HasName(items[i], id)
    {
      assert BearsSome(items[i], id);
    }
    forall i, j | 0 <= i < j < |items|
      ensures NameOf(items[i], id) != NameOf(items[j], id)
    {
      assert Bears(items[i], id, NameOf(items[i], id)) && !BearAlike(items[i], items[j], id);
    }
  }

  lemma ListIdStep(k: nat, a: seq<Node>, b: seq<Node>)
    requires UniqueKeys(List(a)) && UniqueKeys(List(b)) && k < |ID_KEYS|
    ensures ListId(k, a, b) == if TellsApart(ID_KEYS[k], a, b) then ID_KEYS[k] else ListId(k + 1, a, b)
  {
    DistinguishesIff(ID_KEYS[k], a);
    DistinguishesIff(ID_KEYS[k], b);
  }

  lemma {:induction false} FirstIsListId(k: nat, a: seq<Node>, b: seq<Node>)
    requires UniqueKeys(List(a)) && UniqueKeys(List(b)) && k <= |ID_KEYS|
    ensures FirstTelling(ID_KEYS[k..], a, b) == if ListId(k, a, b) == "" then None else Some(ListId(k, a, b))
    decreases |ID_KEYS| - k
  {
    if k < |ID_KEYS| {
      ListIdStep(k, a, b);
      FirstIsListId(k + 1, a, b);
      assert ID_KEYS[k..][1..] == ID_KEYS[k + 1..];
      assert ID_KEYS[k] != "";
    }
  }

  lemma IdIsListId(a: seq<Node>, b: seq<Node>)
    requires UniqueKeys(List(a)) && UniqueKeys(List(b))
    ensures IdOf(Some(List(a)), Some(List(b))) == if ListId(0, a, b) == "" then None else Some(ListId(0, a, b))
  {
    FirstIsListId(0, a, b);
    assert ID_KEYS[0..] == NAMING;
  }

  lemma NamedIsItem(items: seq<Node>, id: string, name: string)
    requires UniqueKeys(List(items)) && Identifies(id, items)
    ensures NamedOf(Some(List(items)), id, name) == ItemNamed(items, id, name)
  {
    NamesBorne(items, id, name);
    if ItemNamed(items, id, name).Some? {
      var i := ItemFrom(items, id, name);
      assert items[i] in items;
      TheItem(items, id, name, i);
    } else if NamedOf(Some(List(items)), id, name).Some? {
      var item := ItemBearing(items, id, name);
      var j :| 0 <= j < |items| && items[j] == item;
      HasItem(items, id, j);
    }
  }

  lemma NamesBorne(items: seq<Node>, id: string, name: string)
    requires UniqueKeys(List(items)) && Identifies(id, items)
    ensures forall i :: 0 <= i < |items| ==> (Bears(items[i], id, name) <==> NameOf(items[i], id) == name)
  {
    forall i | 0 <= i < |items|
      ensures Bears(items[i], id, name) <==> NameOf(items[i], id) == name
    {
      BearsIsNamed(items[i], id, name);
    }
  }

  lemma ItemBearing(items: seq<Node>, id: string, name: string) returns (item: Node)
    requires NamedOf(Some(List(items)), id, name).Some?
    ensures item in items && Bears(item, id, name) && NamedOf(Some(List(items)), id, name) == Some(item)
  {
    item := NamedOf(Some(List(items)), id, name).value;
  }

  lemma TheItem(items: seq<Node>, id: string, name: string, i: nat)
    requires UniqueKeys(List(items)) && Identifies(id, items) && i < |items| && Bears(items[i], id, name)
    ensures NamedOf(Some(List(items)), id, name) == Some(items[i])
  {
    assert items[i] in items;
    var item := ItemBearing(items, id, name);
    var j :| 0 <= j < |items| && items[j] == item;
    NamesBorne(items, id, name);
    SameName(items, id, i, j);
  }

  lemma SameName(items: seq<Node>, id: string, i: nat, j: nat)
    requires Identifies(id, items) && i < |items| && j < |items| && NameOf(items[i], id) == NameOf(items[j], id)
    ensures i == j
  {
  }

  // ---- pairs, and the places they are at ----

  // A pair of the recursion is at its path in the two trees.
  ghost predicate Placed(a: Option<Node>, b: Option<Node>, path: seq<PathPart>, p: Pair) {
    && path < p.path && Look(a, b, p.path) == (p.a, p.b)
    && Unique(p.a) && Unique(p.b)
  }

  lemma {:induction false} LostKeyIs(path: seq<PathPart>, a: seq<Entry>, b: seq<Entry>, p: Pair) returns (i: nat)
    requires p in LostKeys(path, a, b)
    ensures i < |a| && p == Pair(path + [Field(a[i].key)], Some(a[i].node), None) && ValueOf(b, a[i].key).None?
  {
    if ValueOf(b, a[0].key).None? && p == Pair(path + [Field(a[0].key)], Some(a[0].node), None) {
      i := 0;
    } else {
      var k := LostKeyIs(path, a[1..], b, p);
      i := k + 1;
    }
  }

  lemma {:induction false} FoundKeyIn(path: seq<PathPart>, a: seq<Entry>, b: seq<Entry>, p: Pair) returns (i: nat)
    requires p in FoundKeys(path, a, b)
    ensures i < |b| && p == FoundKey(path, a, b[i])
  {
    i :| 0 <= i < |FoundKeys(path, a, b)| && FoundKeys(path, a, b)[i] == p;
    FoundKeyAt(path, a, b, i);
  }

  lemma KeyPairIs(path: seq<PathPart>, a: seq<Entry>, b: seq<Entry>, p: Pair) returns (key: string)
    requires DistinctKeys(a) && DistinctKeys(b) && p in KeyPairs(path, a, b)
    ensures p == Pair(path + [Field(key)], ValueOf(a, key), ValueOf(b, key))
  {
    if p in FoundKeys(path, a, b) {
      var i := FoundKeyIn(path, a, b, p);
      key := b[i].key;
      OwnValue(b, i);
    } else {
      var i := LostKeyIs(path, a, b, p);
      key := a[i].key;
      OwnValue(a, i);
    }
  }

  lemma ValueIsUnique(entries: seq<Entry>, key: string)
    requires UniqueKeys(Mapping(entries))
    ensures Unique(ValueOf(entries, key))
  {
    if ValueOf(entries, key).Some? {
      var i := ValueFrom(entries, key);
      assert UniqueKeys(entries[i].node);
    }
  }

  lemma KeyPairPlaced(a0: Option<Node>, b0: Option<Node>, path: seq<PathPart>, a: seq<Entry>, b: seq<Entry>, p: Pair)
    requires Look(a0, b0, path) == (Some(Mapping(a)), Some(Mapping(b)))
    requires UniqueKeys(Mapping(a)) && UniqueKeys(Mapping(b)) && p in KeyPairs(path, a, b)
    ensures Placed(a0, b0, path, p)
  {
    var key := KeyPairIs(path, a, b, p);
    LookDown(a0, b0, path, Field(key));
    FieldIsValue(a, key);
    FieldIsValue(b, key);
    ValueIsUnique(a, key);
    ValueIsUnique(b, key);
  }

  lemma {:induction false} LostItemIs(path: seq<PathPart>, id: string, a: seq<Node>, b: seq<Node>, p: Pair)
    returns (i: nat)
    requires p in LostItems(path, id, a, b)
    ensures i < |a| && p == Pair(path + [Named(NameOf(a[i], id))], Some(a[i]), None)
    ensures NameOf(a[i], id) !in NamesOf(b, id)
  {
    if NameOf(a[0], id) !in NamesOf(b, id) && p == Pair(path + [Named(NameOf(a[0], id))], Some(a[0]), None) {
      i := 0;
    } else {
      var k := LostItemIs(path, id, a[1..], b, p);
      i := k + 1;
    }
  }

  lemma {:induction false} FoundItemIn(path: seq<PathPart>, id: string, a: seq<Node>, b: seq<Node>, p: Pair)
    returns (i: nat)
    requires p in FoundItems(path, id, a, b)
    ensures i < |b| && p == FoundItem(path, id, a, b[i])
  {
    i :| 0 <= i < |FoundItems(path, id, a, b)| && FoundItems(path, id, a, b)[i] == p;
    FoundItemAt(path, id, a, b, i);
  }

  lemma NameFound(items: seq<Node>, id: string, name: string)
    requires ItemNamed(items, id, name).Some?
    ensures name in NamesOf(items, id)
  {
    var i := ItemFrom(items, id, name);
    assert NamesOf(items, id)[i] == name;
  }

  lemma NamePairIs(path: seq<PathPart>, id: string, a: seq<Node>, b: seq<Node>, p: Pair) returns (name: string)
    requires Identifies(id, a) && Identifies(id, b) && p in NamePairs(path, id, a, b)
    ensures p == Pair(path + [Named(name)], ItemNamed(a, id, name), ItemNamed(b, id, name))
  {
    if p in FoundItems(path, id, a, b) {
      var i := FoundItemIn(path, id, a, b, p);
      name := NameOf(b[i], id);
      OwnItem(b, id, i);
    } else {
      var i := LostItemIs(path, id, a, b, p);
      name := NameOf(a[i], id);
      OwnItem(a, id, i);
      if ItemNamed(b, id, name).Some? {
        NameFound(b, id, name);
      }
    }
  }

  lemma ItemIsUnique(items: seq<Node>, id: string, name: string)
    requires UniqueKeys(List(items))
    ensures Unique(ItemNamed(items, id, name))
  {
    if ItemNamed(items, id, name).Some? {
      var i := ItemFrom(items, id, name);
      assert UniqueKeys(items[i]);
    }
  }

  lemma NamePairPlaced(a0: Option<Node>, b0: Option<Node>, path: seq<PathPart>, id: string, a: seq<Node>, b: seq<Node>,
                       p: Pair)
    requires Look(a0, b0, path) == (Some(List(a)), Some(List(b)))
    requires UniqueKeys(List(a)) && UniqueKeys(List(b)) && Identifies(id, a) && Identifies(id, b)
    requires IdOf(Some(List(a)), Some(List(b))) == Some(id) && p in NamePairs(path, id, a, b)
    ensures Placed(a0, b0, path, p)
  {
    var name := NamePairIs(path, id, a, b, p);
    LookDown(a0, b0, path, Named(name));
    NamedIsItem(a, id, name);
    NamedIsItem(b, id, name);
    ItemIsUnique(a, id, name);
    ItemIsUnique(b, id, name);
  }

  lemma PlacePairPlaced(a0: Option<Node>, b0: Option<Node>, path: seq<PathPart>, a: seq<Node>, b: seq<Node>, i: nat)
    requires Look(a0, b0, path) == (Some(List(a)), Some(List(b)))
    requires UniqueKeys(List(a)) && UniqueKeys(List(b)) && IdOf(Some(List(a)), Some(List(b))) == None
    ensures Placed(a0, b0, path, PlacePair(path, a, b, i))
  {
    LookDown(a0, b0, path, Nth(i));
    if i < |a| {
      assert UniqueKeys(a[i]);
    }
    if i < |b| {
      assert UniqueKeys(b[i]);
    }
  }

  ghost predicate AllPlaced(a: Option<Node>, b: Option<Node>, path: seq<PathPart>, pairs: seq<Pair>) {
    forall i :: 0 <= i < |pairs| ==> Placed(a, b, path, pairs[i])
  }

  lemma KeyPairsPlaced(a0: Option<Node>, b0: Option<Node>, path: seq<PathPart>, a: seq<Entry>, b: seq<Entry>)
    requires Look(a0, b0, path) == (Some(Mapping(a)), Some(Mapping(b)))
    requires UniqueKeys(Mapping(a)) && UniqueKeys(Mapping(b))
    ensures AllPlaced(a0, b0, path, KeyPairs(path, a, b))
  {
    forall i | 0 <= i < |KeyPairs(path, a, b)|
      ensures Placed(a0, b0, path, KeyPairs(path, a, b)[i])
    {
      KeyPairPlaced(a0, b0, path, a, b, KeyPairs(path, a, b)[i]);
    }
  }

  lemma NamePairsPlaced(a0: Option<Node>, b0: Option<Node>, path: seq<PathPart>, id: string, a: seq<Node>, b: seq<Node>)
    requires Look(a0, b0, path) == (Some(List(a)), Some(List(b)))
    requires UniqueKeys(List(a)) && UniqueKeys(List(b)) && Identifies(id, a) && Identifies(id, b)
    requires IdOf(Some(List(a)), Some(List(b))) == Some(id)
    ensures AllPlaced(a0, b0, path, NamePairs(path, id, a, b))
  {
    forall i | 0 <= i < |NamePairs(path, id, a, b)|
      ensures Placed(a0, b0, path, NamePairs(path, id, a, b)[i])
    {
      NamePairPlaced(a0, b0, path, id, a, b, NamePairs(path, id, a, b)[i]);
    }
  }

  lemma PlacePairsPlaced(a0: Option<Node>, b0: Option<Node>, path: seq<PathPart>, a: seq<Node>, b: seq<Node>)
    requires Look(a0, b0, path) == (Some(List(a)), Some(List(b)))
    requires UniqueKeys(List(a)) && UniqueKeys(List(b)) && IdOf(Some(List(a)), Some(List(b))) == None
    ensures AllPlaced(a0, b0, path, PlacePairs(path, a, b, 0))
  {
    forall i | 0 <= i < Longer(a, b)
      ensures Placed(a0, b0, path, PlacePairs(path, a, b, 0)[i])
    {
      PlacePairAt(path, a, b, 0, i);
      PlacePairPlaced(a0, b0, path, a, b, i);
    }
  }

  lemma KeyDiffIs(path: seq<PathPart>, a: seq<Entry>, b: seq<Entry>)
    ensures Lighter(KeyPairs(path, a, b), Size(Mapping(a)) + Size(Mapping(b)))
    ensures MappingDiff(path, a, b) == DiffAll(KeyPairs(path, a, b), Size(Mapping(a)) + Size(Mapping(b)))
  {
    KeyPairsAreLighter(path, a, b);
  }

  lemma NameDiffIs(path: seq<PathPart>, id: string, a: seq<Node>, b: seq<Node>)
    ensures Lighter(NamePairs(path, id, a, b), Size(List(a)) + Size(List(b)))
    ensures NameDiff(path, id, a, b) == DiffAll(NamePairs(path, id, a, b), Size(List(a)) + Size(List(b)))
  {
    NamePairsAreLighter(path, id, a, b);
  }

  lemma PlaceDiffIs(path: seq<PathPart>, a: seq<Node>, b: seq<Node>)
    ensures Lighter(PlacePairs(path, a, b, 0), Size(List(a)) + Size(List(b)))
    ensures PlaceDiff(path, a, b) == DiffAll(PlacePairs(path, a, b, 0), Size(List(a)) + Size(List(b)))
  {
    PlacePairsAreLighter(path, a, b);
  }

  // ---- every line is true ----

  ghost predicate Truthful(a: Option<Node>, b: Option<Node>, path: seq<PathPart>, lines: seq<Line>) {
    forall l :: l in lines ==> TrueLine(a, b, l) && path <= l.path
  }

  lemma {:induction false} DiffIsTrue(a0: Option<Node>, b0: Option<Node>, path: seq<PathPart>, a: Option<Node>,
                                      b: Option<Node>)
    requires Look(a0, b0, path) == (a, b) && Unique(a) && Unique(b)
    ensures Truthful(a0, b0, path, Diff(path, a, b))
    decreases Weight(a) + Weight(b), 2, 0
  {
    if a != b && a.Some? && b.Some? {
      if a.value.Mapping? && b.value.Mapping? {
        KeyPairsPlaced(a0, b0, path, a.value.entries, b.value.entries);
      MappingIsTrue(a0, b0, path, a.value.entries, b.value.entries);
      } else if a.value.List? && b.value.List? && !(IsInline(a.value) && IsInline(b.value)) {
        ListIsTrue(a0, b0, path, a.value.items, b.value.items);
      }
    }
  }

  lemma {:induction false} MappingIsTrue(a0: Option<Node>, b0: Option<Node>, path: seq<PathPart>, a: seq<Entry>,
                                         b: seq<Entry>)
    requires AllPlaced(a0, b0, path, KeyPairs(path, a, b))
    ensures Truthful(a0, b0, path, MappingDiff(path, a, b))
    decreases Size(Mapping(a)) + Size(Mapping(b)), 1, 1
  {
    KeyDiffIs(path, a, b);
    PairsAreTrue(a0, b0, path, KeyPairs(path, a, b), Size(Mapping(a)) + Size(Mapping(b)), MappingDiff(path, a, b));
  }

  lemma {:induction false} ListIsTrue(a0: Option<Node>, b0: Option<Node>, path: seq<PathPart>, a: seq<Node>,
                                      b: seq<Node>)
    requires Look(a0, b0, path) == (Some(List(a)), Some(List(b)))
    requires UniqueKeys(List(a)) && UniqueKeys(List(b))
    ensures Truthful(a0, b0, path, ListDiff(path, a, b))
    decreases Size(List(a)) + Size(List(b)), 1, 1
  {
    var id := ListId(0, a, b);
    IdIsListId(a, b);
    if id != "" {
      NamePairsPlaced(a0, b0, path, id, a, b);
      NamedAreTrue(a0, b0, path, id, a, b);
      OrderIsTrue(a0, b0, path, id, a, b);
    } else {
      PlacePairsPlaced(a0, b0, path, a, b);
      PlacedAreTrue(a0, b0, path, a, b);
    }
  }

  lemma {:induction false} NamedAreTrue(a0: Option<Node>, b0: Option<Node>, path: seq<PathPart>, id: string,
                                        a: seq<Node>, b: seq<Node>)
    requires AllPlaced(a0, b0, path, NamePairs(path, id, a, b))
    ensures Truthful(a0, b0, path, NameDiff(path, id, a, b))
    decreases Size(List(a)) + Size(List(b)), 1, 0
  {
    NameDiffIs(path, id, a, b);
    PairsAreTrue(a0, b0, path, NamePairs(path, id, a, b), Size(List(a)) + Size(List(b)), NameDiff(path, id, a, b));
  }

  lemma {:induction false} PlacedAreTrue(a0: Option<Node>, b0: Option<Node>, path: seq<PathPart>, a: seq<Node>,
                                         b: seq<Node>)
    requires AllPlaced(a0, b0, path, PlacePairs(path, a, b, 0))
    ensures Truthful(a0, b0, path, PlaceDiff(path, a, b))
    decreases Size(List(a)) + Size(List(b)), 1, 0
  {
    PlaceDiffIs(path, a, b);
    PairsAreTrue(a0, b0, path, PlacePairs(path, a, b, 0), Size(List(a)) + Size(List(b)), PlaceDiff(path, a, b));
  }

  lemma {:induction false} PairsAreTrue(a0: Option<Node>, b0: Option<Node>, path: seq<PathPart>, pairs: seq<Pair>,
                                        bound: nat, lines: seq<Line>)
    requires Lighter(pairs, bound) && AllPlaced(a0, b0, path, pairs) && lines == DiffAll(pairs, bound)
    ensures Truthful(a0, b0, path, lines)
    decreases bound, 0, |pairs|
  {
    if pairs != [] {
      var p := pairs[0];
      assert Placed(a0, b0, path, p);
      DiffIsTrue(a0, b0, p.path, p.a, p.b);
      PairsAreTrue(a0, b0, path, pairs[1..], bound, DiffAll(pairs[1..], bound));
    }
  }

  // ---- the order of names ----

  lemma {:induction false} KeepHas(xs: seq<string>, ys: seq<string>)
    ensures forall s :: s in Keep(xs, ys) <==> s in xs && s in ys
  {
    if xs != [] {
      KeepHas(xs[1..], ys);
      assert xs == [xs[0]] + xs[1..];
    }
  }

  predicate Before(xs: seq<string>, s: string, t: string) {
    exists p, q :: 0 <= p < q < |xs| && xs[p] == s && xs[q] == t
  }

  ghost predicate InOrderOf(xs: seq<string>, names: seq<string>) {
    forall i, j :: 0 <= i < j < |names| ==> Before(xs, names[i], names[j])
  }

  lemma BeforeFirst(xs: seq<string>, t: string)
    requires xs != [] && t in xs[1..]
    ensures Before(xs, xs[0], t)
  {
    var q :| 0 <= q < |xs[1..]| && xs[1..][q] == t;
    assert xs[q + 1] == t;
  }

  lemma BeforeLater(xs: seq<string>, s: string, t: string)
    requires xs != [] && Before(xs[1..], s, t)
    ensures Before(xs, s, t)
  {
    var p, q :| 0 <= p < q < |xs[1..]| && xs[1..][p] == s && xs[1..][q] == t;
    assert xs[p + 1] == s && xs[q + 1] == t;
  }

  lemma {:induction false} KeepInOrder(xs: seq<string>, ys: seq<string>)
    ensures InOrderOf(xs, Keep(xs, ys))
  {
    if xs != [] {
      KeepInOrder(xs[1..], ys);
      KeepHas(xs[1..], ys);
      OneMoreInOrder(xs, Keep(xs[1..], ys));
    }
  }

  lemma OneMoreInOrder(xs: seq<string>, rest: seq<string>)
    requires xs != [] && InOrderOf(xs[1..], rest) && forall s :: s in rest ==> s in xs[1..]
    ensures InOrderOf(xs, rest) && InOrderOf(xs, [xs[0]] + rest)
  {
    forall i, j | 0 <= i < j < |rest|
      ensures Before(xs, rest[i], rest[j])
    {
      BeforeLater(xs, rest[i], rest[j]);
    }
    forall j | 0 <= j < |rest|
      ensures Before(xs, xs[0], rest[j])
    {
      BeforeFirst(xs, rest[j]);
    }
  }

  lemma NamesAreBorne(items: seq<Node>, id: string, s: string)
    requires UniqueKeys(List(items)) && Identifies(id, items)
    ensures s in NamesOf(items, id) <==> exists x :: x in items && Bears(x, id, s)
  {
    NamesBorne(items, id, s);
    if s in NamesOf(items, id) {
      var i :| 0 <= i < |items| && NamesOf(items, id)[i] == s;
      assert items[i] in items && Bears(items[i], id, s);
    }
    if x :| x in items && Bears(x, id, s) {
      var i :| 0 <= i < |items| && items[i] == x;
      assert NamesOf(items, id)[i] == s;
    }
  }

  lemma BorneBefore(items: seq<Node>, id: string, s: string, t: string)
    requires UniqueKeys(List(items)) && Identifies(id, items) && Before(NamesOf(items, id), s, t)
    ensures BearsBefore(items, id, s, t)
  {
    var p, q :| 0 <= p < q < |items| && NamesOf(items, id)[p] == s && NamesOf(items, id)[q] == t;
    NamesBorne(items, id, s);
    NamesBorne(items, id, t);
  }

  lemma KeptAreCommon(names: seq<string>, id: string, xs: seq<Node>, ys: seq<Node>)
    requires UniqueKeys(List(xs)) && UniqueKeys(List(ys)) && Identifies(id, xs) && Identifies(id, ys)
    requires forall s :: s in names <==> s in NamesOf(xs, id) && s in NamesOf(ys, id)
    requires InOrderOf(NamesOf(xs, id), names)
    ensures CommonNames(names, id, xs, ys)
  {
    forall s
      ensures s in names <==> (exists x :: x in xs && Bears(x, id, s)) && (exists y :: y in ys && Bears(y, id, s))
    {
      NamesAreBorne(xs, id, s);
      NamesAreBorne(ys, id, s);
    }
    forall i, j | 0 <= i < j < |names|
      ensures BearsBefore(xs, id, names[i], names[j])
    {
      BorneBefore(xs, id, names[i], names[j]);
    }
  }

  lemma WasIsCommon(id: string, a: seq<Node>, b: seq<Node>)
    requires UniqueKeys(List(a)) && UniqueKeys(List(b)) && Identifies(id, a) && Identifies(id, b)
    ensures CommonNames(Keep(NamesOf(a, id), NamesOf(b, id)), id, a, b)
  {
    KeepHas(NamesOf(a, id), NamesOf(b, id));
    KeepInOrder(NamesOf(a, id), NamesOf(b, id));
    KeptAreCommon(Keep(NamesOf(a, id), NamesOf(b, id)), id, a, b);
  }

  lemma NowIsCommon(id: string, a: seq<Node>, b: seq<Node>)
    requires UniqueKeys(List(a)) && UniqueKeys(List(b)) && Identifies(id, a) && Identifies(id, b)
    ensures CommonNames(Keep(NamesOf(b, id), Keep(NamesOf(a, id), NamesOf(b, id))), id, b, a)
  {
    var ao := Keep(NamesOf(a, id), NamesOf(b, id));
    KeepHas(NamesOf(a, id), NamesOf(b, id));
    KeepHas(NamesOf(b, id), ao);
    KeepInOrder(NamesOf(b, id), ao);
    KeptAreCommon(Keep(NamesOf(b, id), ao), id, b, a);
  }

  lemma OrderIsTrue(a0: Option<Node>, b0: Option<Node>, path: seq<PathPart>, id: string, a: seq<Node>, b: seq<Node>)
    requires Look(a0, b0, path) == (Some(List(a)), Some(List(b)))
    requires UniqueKeys(List(a)) && UniqueKeys(List(b)) && Identifies(id, a) && Identifies(id, b)
    requires IdOf(Some(List(a)), Some(List(b))) == Some(id)
    ensures Truthful(a0, b0, path, OrderLines(path, id, a, b))
  {
    var ao := Keep(NamesOf(a, id), NamesOf(b, id));
    var bo := Keep(NamesOf(b, id), ao);
    WasIsCommon(id, a, b);
    NowIsCommon(id, a, b);
    if ao != bo {
      ReorderedIsTrue(a0, b0, path, id, a, b, ao, bo);
    }
  }

  lemma ReorderedIsTrue(a0: Option<Node>, b0: Option<Node>, path: seq<PathPart>, id: string, a: seq<Node>, b: seq<Node>,
                        was: seq<string>, now: seq<string>)
    requires Look(a0, b0, path) == (Some(List(a)), Some(List(b))) && IdOf(Some(List(a)), Some(List(b))) == Some(id)
    requires was != now && CommonNames(was, id, a, b) && CommonNames(now, id, b, a)
    ensures TrueLine(a0, b0, Reordered(path, was, now))
  {
  }

  /** Each line of the change list is true: what it adds or removes, what it changes from what to what, and
      the order it tells. */
  lemma EveryLineIsTrue(a: Option<Node>, b: Option<Node>, l: Line)
    requires Unique(a) && Unique(b) && l in Diff([], a, b)
    ensures TrueLine(a, b, l)
  {
    DiffIsTrue(a, b, [], a, b);
  }

  // ---- every difference is told ----

  ghost predicate Sound(n: Option<Node>) {
    n.Some? ==> Canonical(n.value)
  }

  lemma ChildIsSound(n: Option<Node>, id: Option<string>, part: PathPart)
    requires Sound(n)
    ensures Sound(Child(n, id, part))
  {
    var c := Child(n, id, part);
    if c.Some? {
      match part
      case Field(key) =>
        var v :| Entry(key, v) in n.value.entries && c == Some(v);
        var i :| 0 <= i < |n.value.entries| && n.value.entries[i] == Entry(key, v);
        assert UniqueKeys(n.value.entries[i].node) && NulFree(n.value.entries[i].node);
      case Named(name) =>
        var item :| item in n.value.items && c == Some(item);
        var i :| 0 <= i < |n.value.items| && n.value.items[i] == item;
        assert UniqueKeys(n.value.items[i]) && NulFree(n.value.items[i]);
      case Nth(i) =>
        assert UniqueKeys(n.value.items[i]) && NulFree(n.value.items[i]);
    }
  }

  lemma {:induction false} LookIsSound(a: Option<Node>, b: Option<Node>, path: seq<PathPart>)
    requires Sound(a) && Sound(b)
    ensures Sound(Look(a, b, path).0) && Sound(Look(a, b, path).1)
  {
    if path != [] {
      var last := |path| - 1;
      LookIsSound(a, b, path[..last]);
      var (x, y) := Look(a, b, path[..last]);
      ChildIsSound(x, IdOf(x, y), path[last]);
      ChildIsSound(y, IdOf(x, y), path[last]);
    }
  }

  // Below a place where the trees agree, they agree.
  lemma {:induction false} EqualBelow(a: Option<Node>, b: Option<Node>, path: seq<PathPart>, rest: seq<PathPart>)
    requires Look(a, b, path).0 == Look(a, b, path).1
    ensures Look(a, b, path + rest).0 == Look(a, b, path + rest).1
  {
    if rest == [] {
      assert path + rest == path;
    } else {
      var front, last := rest[..|rest| - 1], rest[|rest| - 1];
      EqualBelow(a, b, path, front);
      LookDown(a, b, path + front, last);
      assert path + rest == path + front + [last];
    }
  }

  lemma EqualIsSimilar(a: Option<Node>, b: Option<Node>, path: seq<PathPart>, rest: seq<PathPart>)
    requires Sound(a) && Sound(b) && Look(a, b, path).0 == Look(a, b, path).1
    ensures SimilarOrNone(Look(a, b, path + rest).0, Look(a, b, path + rest).1)
  {
    EqualBelow(a, b, path, rest);
    LookIsSound(a, b, path + rest);
    var (x, y) := Look(a, b, path + rest);
    if x.Some? {
      SimilarSelf(x.value);
    }
  }

  lemma {:induction false} LostKeyIn(path: seq<PathPart>, a: seq<Entry>, b: seq<Entry>, i: nat)
    requires i < |a| && ValueOf(b, a[i].key).None?
    ensures Pair(path + [Field(a[i].key)], Some(a[i].node), None) in LostKeys(path, a, b)
  {
    if i > 0 {
      LostKeyIn(path, a[1..], b, i - 1);
    }
  }

  lemma {:induction false} LostItemIn(path: seq<PathPart>, id: string, a: seq<Node>, b: seq<Node>, i: nat)
    requires i < |a| && NameOf(a[i], id) !in NamesOf(b, id)
    ensures Pair(path + [Named(NameOf(a[i], id))], Some(a[i]), None) in LostItems(path, id, a, b)
  {
    if i > 0 {
      LostItemIn(path, id, a[1..], b, i - 1);
    }
  }

  lemma KeyPairFor(path: seq<PathPart>, a: seq<Entry>, b: seq<Entry>, key: string) returns (i: nat)
    requires ValueOf(a, key).Some? || ValueOf(b, key).Some?
    ensures i < |KeyPairs(path, a, b)|
    ensures KeyPairs(path, a, b)[i] == Pair(path + [Field(key)], ValueOf(a, key), ValueOf(b, key))
  {
    if ValueOf(b, key).Some? {
      i := ValueFrom(b, key);
      FoundKeyAt(path, a, b, i);
    } else {
      var j := ValueFrom(a, key);
      LostKeyIn(path, a, b, j);
      var lost := LostKeys(path, a, b);
      var k :| 0 <= k < |lost| && lost[k] == Pair(path + [Field(key)], ValueOf(a, key), None);
      i := |FoundKeys(path, a, b)| + k;
    }
  }

  lemma NamePairFor(path: seq<PathPart>, id: string, a: seq<Node>, b: seq<Node>, name: string) returns (i: nat)
    requires ItemNamed(a, id, name).Some? || ItemNamed(b, id, name).Some?
    ensures i < |NamePairs(path, id, a, b)|
    ensures NamePairs(path, id, a, b)[i] == Pair(path + [Named(name)], ItemNamed(a, id, name), ItemNamed(b, id, name))
  {
    if ItemNamed(b, id, name).Some? {
      i := ItemFrom(b, id, name);
      FoundItemAt(path, id, a, b, i);
    } else {
      var j := ItemFrom(a, id, name);
      forall k | 0 <= k < |b|
        ensures NameOf(b[k], id) != name
      {
        HasItem(b, id, k);
      }
      LostItemIn(path, id, a, b, j);
      var lost := LostItems(path, id, a, b);
      var k :| 0 <= k < |lost| && lost[k] == Pair(path + [Named(name)], ItemNamed(a, id, name), None);
      i := |FoundItems(path, id, a, b)| + k;
    }
  }

  // The part of the diff for one step down is in the whole.
  ghost predicate Includes(all: seq<Line>, part: seq<Line>) {
    forall l :: l in part ==> l in all
  }

  lemma {:induction false} AllIncluded(pairs: seq<Pair>, bound: nat, i: nat)
    requires Lighter(pairs, bound) && i < |pairs|
    ensures Includes(DiffAll(pairs, bound), Diff(pairs[i].path, pairs[i].a, pairs[i].b))
    decreases |pairs|
  {
    if i > 0 {
      AllIncluded(pairs[1..], bound, i - 1);
    }
  }

  lemma FieldIncluded(path: seq<PathPart>, a: seq<Entry>, b: seq<Entry>, key: string)
    requires ValueOf(a, key).Some? || ValueOf(b, key).Some?
    ensures Includes(MappingDiff(path, a, b), Diff(path + [Field(key)], ValueOf(a, key), ValueOf(b, key)))
  {
    var i := KeyPairFor(path, a, b, key);
    KeyDiffIs(path, a, b);
    AllIncluded(KeyPairs(path, a, b), Size(Mapping(a)) + Size(Mapping(b)), i);
  }

  lemma NameIncluded(path: seq<PathPart>, id: string, a: seq<Node>, b: seq<Node>, name: string)
    requires ItemNamed(a, id, name).Some? || ItemNamed(b, id, name).Some?
    ensures Includes(NameDiff(path, id, a, b),
                     Diff(path + [Named(name)], ItemNamed(a, id, name), ItemNamed(b, id, name)))
  {
    var i := NamePairFor(path, id, a, b, name);
    NameDiffIs(path, id, a, b);
    AllIncluded(NamePairs(path, id, a, b), Size(List(a)) + Size(List(b)), i);
  }

  lemma PlaceIncluded(path: seq<PathPart>, a: seq<Node>, b: seq<Node>, i: nat)
    requires i < Longer(a, b)
    ensures Includes(PlaceDiff(path, a, b), Diff(path + [Nth(i)], ItemAt(a, i), ItemAt(b, i)))
  {
    PlacePairAt(path, a, b, 0, i);
    PlaceDiffIs(path, a, b);
    AllIncluded(PlacePairs(path, a, b, 0), Size(List(a)) + Size(List(b)), i);
  }

  // Where the two trees differ one step down a pair the diff goes into, the diff has that step's lines.
  ghost predicate StepIncluded(path: seq<PathPart>, a: Option<Node>, b: Option<Node>, part: PathPart) {
    var id := IdOf(a, b);
    var (x, y) := (Child(a, id, part), Child(b, id, part));
    x != y ==> Includes(Diff(path, a, b), Diff(path + [part], x, y))
  }

  lemma MappingStep(path: seq<PathPart>, a: seq<Entry>, b: seq<Entry>, part: PathPart)
    requires UniqueKeys(Mapping(a)) && UniqueKeys(Mapping(b)) && a != b
    ensures StepIncluded(path, Some(Mapping(a)), Some(Mapping(b)), part)
  {
    if part.Field? {
      FieldIsValue(a, part.key);
      FieldIsValue(b, part.key);
      if ValueOf(a, part.key) != ValueOf(b, part.key) {
        FieldIncluded(path, a, b, part.key);
      }
    }
  }

  lemma ListStep(path: seq<PathPart>, a: seq<Node>, b: seq<Node>, part: PathPart)
    requires UniqueKeys(List(a)) && UniqueKeys(List(b)) && a != b && !(IsInline(List(a)) && IsInline(List(b)))
    ensures StepIncluded(path, Some(List(a)), Some(List(b)), part)
  {
    var id := ListId(0, a, b);
    IdIsListId(a, b);
    if id != "" && part.Named? {
      NamedStep(path, id, a, b, part.name);
    } else if id == "" && part.Nth? && part.index < Longer(a, b) {
      PlaceIncluded(path, a, b, part.index);
    }
  }

  lemma NamedStep(path: seq<PathPart>, id: string, a: seq<Node>, b: seq<Node>, name: string)
    requires UniqueKeys(List(a)) && UniqueKeys(List(b)) && Identifies(id, a) && Identifies(id, b)
    ensures var x, y := NamedOf(Some(List(a)), id, name), NamedOf(Some(List(b)), id, name);
            x != y ==> Includes(NameDiff(path, id, a, b), Diff(path + [Named(name)], x, y))
  {
    NamedIsItem(a, id, name);
    NamedIsItem(b, id, name);
    if ItemNamed(a, id, name) != ItemNamed(b, id, name) {
      NameIncluded(path, id, a, b, name);
    }
  }

  predicate Along(p: seq<PathPart>, q: seq<PathPart>) {
    p <= q || q <= p
  }

  ghost predicate ToldAlong(lines: seq<Line>, path: seq<PathPart>) {
    exists l :: l in lines && Along(l.path, path)
  }

  // A pair the diff does not go into is one line, at its path.
  predicate GoneInto(a: Option<Node>, b: Option<Node>) {
    && a.Some? && b.Some?
    && (|| (a.value.Mapping? && b.value.Mapping?)
        || (a.value.List? && b.value.List? && !(IsInline(a.value) && IsInline(b.value))))
  }

  lemma OneLine(path: seq<PathPart>, a: Option<Node>, b: Option<Node>, rest: seq<PathPart>)
    requires a != b && !GoneInto(a, b)
    ensures ToldAlong(Diff(path, a, b), path + rest)
  {
    var l := Diff(path, a, b)[0];
    assert l.path == path;
  }

  lemma StepIn(path: seq<PathPart>, a: Option<Node>, b: Option<Node>, part: PathPart)
    requires Sound(a) && Sound(b) && a != b && GoneInto(a, b)
    ensures StepIncluded(path, a, b, part)
  {
    if a.value.Mapping? {
      MappingStep(path, a.value.entries, b.value.entries, part);
    } else {
      ListStep(path, a.value.items, b.value.items, part);
    }
  }

  lemma Included(all: seq<Line>, part: seq<Line>, path: seq<PathPart>)
    requires Includes(all, part) && ToldAlong(part, path)
    ensures ToldAlong(all, path)
  {
  }

  lemma ToldHere(a0: Option<Node>, b0: Option<Node>, path: seq<PathPart>)
    requires Sound(a0) && Sound(b0) && var (a, b) := Look(a0, b0, path); !SimilarOrNone(a, b)
    ensures var (a, b) := Look(a0, b0, path); ToldAlong(Diff(path, a, b), path)
  {
    var (a, b) := Look(a0, b0, path);
    LookIsSound(a0, b0, path);
    if Diff(path, a, b) == [] {
      SilentIsSimilar(path, a, b);
    } else {
      DiffIsTrue(a0, b0, path, a, b);
      assert Along(Diff(path, a, b)[0].path, path);
    }
  }

  lemma StepsOn(path: seq<PathPart>, rest: seq<PathPart>)
    requires rest != []
    ensures path + rest == path + [rest[0]] + rest[1..]
  {
  }

  lemma {:induction false} ToldBelow(a0: Option<Node>, b0: Option<Node>, path: seq<PathPart>, rest: seq<PathPart>)
    requires Sound(a0) && Sound(b0)
    requires var (x, y) := Look(a0, b0, path + rest); !SimilarOrNone(x, y)
    ensures var (a, b) := Look(a0, b0, path); ToldAlong(Diff(path, a, b), path + rest)
    decreases |rest|
  {
    var (a, b) := Look(a0, b0, path);
    if rest == [] {
      assert path + rest == path;
      ToldHere(a0, b0, path);
    } else if a == b {
      EqualIsSimilar(a0, b0, path, rest);
    } else if !GoneInto(a, b) {
      OneLine(path, a, b, rest);
    } else {
      var part := rest[0];
      StepsOn(path, rest);
      ToldBelow(a0, b0, path + [part], rest[1..]);
      LookIsSound(a0, b0, path);
      LookDown(a0, b0, path, part);
      StepIn(path, a, b, part);
      var (x, y) := Look(a0, b0, path + [part]);
      if x == y {
        EqualIsSimilar(a0, b0, path + [part], rest[1..]);
      } else {
        Included(Diff(path, a, b), Diff(path + [part], x, y), path + rest);
      }
    }
  }

  lemma Told(lines: seq<Line>, path: seq<PathPart>)
    requires ToldAlong(lines, path)
    ensures exists l :: l in lines && (l.path <= path || path <= l.path)
  {
  }

  /** Wherever the two trees differ (by more than the order of mapping keys) the change list says so: a line
      names that place, one above it or one below it. */
  lemma EveryDifferenceIsTold(a: Option<Node>, b: Option<Node>, path: seq<PathPart>)
    requires (a.Some? ==> Canonical(a.value)) && (b.Some? ==> Canonical(b.value))
    requires var (x, y) := Look(a, b, path); !SimilarOrNone(x, y)
    ensures exists l :: l in Diff([], a, b) && (l.path <= path || path <= l.path)
  {
    assert [] + path == path;
    ToldBelow(a, b, [], path);
    Told(Diff([], a, b), path);
  }
}
