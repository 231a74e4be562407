/** What changes from one canonical config tree to another: the tree diff behind the change list. */
module TreeDiff {
  import opened Wrappers

  datatype Entry = Entry(key: string, node: Node)

  datatype Node = Scalar(tag: string, value: string) | List(items: seq<Node>) | Mapping(entries: seq<Entry>)

  datatype PathPart = Field(key: string) | Named(name: string) | Nth(index: nat)

  datatype Line =
    | Changed(path: seq<PathPart>, before: Option<Node>, after: Option<Node>)
    | Added(path: seq<PathPart>)
    | Removed(path: seq<PathPart>)
    | Reordered(path: seq<PathPart>, was: seq<string>, now: seq<string>)

  function Size(n: Node): nat {
    match n
    case Scalar(_, _) => 1
    case List(items) => 1 + SizeOfItems(items)
    case Mapping(entries) => 1 + SizeOfEntries(entries)
  }

  function SizeOfItems(items: seq<Node>): nat {
    if items == [] then 0 else Size(items[0]) + SizeOfItems(items[1..])
  }

  function SizeOfEntries(entries: seq<Entry>): nat {
    if entries == [] then 0 else Size(entries[0].node) + SizeOfEntries(entries[1..])
  }

  lemma {:induction false} ItemIsSmaller(items: seq<Node>, i: nat)
    requires i < |items|
    ensures Size(items[i]) <= SizeOfItems(items)
  {
    if i > 0 {
      ItemIsSmaller(items[1..], i - 1);
    }
  }

  lemma {:induction false} EntryIsSmaller(entries: seq<Entry>, i: nat)
    requires i < |entries|
    ensures Size(entries[i].node) <= SizeOfEntries(entries)
  {
    if i > 0 {
      EntryIsSmaller(entries[1..], i - 1);
    }
  }

  function Weight(a: Option<Node>): nat {
    if a.Some? then Size(a.value) else 0
  }

  // ---- lookups ----

  // The value of a key; the last entry counts.
  function ValueOf(entries: seq<Entry>, key: string): Option<Node> {
    if entries == [] then None
    else if entries[|entries| - 1].key == key then Some(entries[|entries| - 1].node)
    else ValueOf(entries[..|entries| - 1], key)
  }

  lemma {:induction false} ValueFrom(entries: seq<Entry>, key: string) returns (i: nat)
    requires ValueOf(entries, key).Some?
    ensures i < |entries| && entries[i] == Entry(key, ValueOf(entries, key).value)
  {
    var last := |entries| - 1;
    if entries[last].key == key {
      i := last;
    } else {
      i := ValueFrom(entries[..last], key);
    }
  }

  lemma {:induction false} HasValue(entries: seq<Entry>, i: nat)
    requires i < |entries|
    ensures ValueOf(entries, entries[i].key).Some?
  {
    if entries[|entries| - 1].key != entries[i].key {
      HasValue(entries[..|entries| - 1], i);
    }
  }

  lemma ValueIsSmaller(entries: seq<Entry>, key: string)
    ensures Weight(ValueOf(entries, key)) <= SizeOfEntries(entries)
  {
    if ValueOf(entries, key).Some? {
      var i := ValueFrom(entries, key);
      EntryIsSmaller(entries, i);
    }
  }

  function EntriesOf(n: Node): seq<Entry> {
    if n.Mapping? then n.entries else []
  }

  // The name of a list item: its scalar under the identifying key.
  predicate HasName(item: Node, id: string) {
    var v := ValueOf(EntriesOf(item), id);
    v.Some? && v.value.Scalar?
  }

  function NameOf(item: Node, id: string): string {
    var v := ValueOf(EntriesOf(item), id);
    if v.Some? && v.value.Scalar? then v.value.value else ""
  }

  function NamesOf(items: seq<Node>, id: string): seq<string> {
    seq(|items|, i requires 0 <= i < |items| => NameOf(items[i], id))
  }

  predicate Identifies(id: string, items: seq<Node>) {
    && (forall i :: 0 <= i < |items| ==> HasName(items[i], id))
    && forall i, j :: 0 <= i < j < |items| ==> NameOf(items[i], id) != NameOf(items[j], id)
  }

  const ID_KEYS := ["name", "phy", "ssid", "mac"]

  // The first key, from k on, that identifies the items of both lists; "" if none does.
  function ListId(k: nat, a: seq<Node>, b: seq<Node>): (id: string)
    ensures id != "" ==> id in ID_KEYS && Identifies(id, a) && Identifies(id, b)
    decreases |ID_KEYS| - k
  {
    if k >= |ID_KEYS| then ""
    else if Identifies(ID_KEYS[k], a) && Identifies(ID_KEYS[k], b) then ID_KEYS[k]
    else ListId(k + 1, a, b)
  }

  function ItemNamed(items: seq<Node>, id: string, name: string): Option<Node> {
    if items == [] then None
    else if NameOf(items[0], id) == name then Some(items[0])
    else ItemNamed(items[1..], id, name)
  }

  lemma {:induction false} ItemFrom(items: seq<Node>, id: string, name: string) returns (i: nat)
    requires ItemNamed(items, id, name).Some?
    ensures i < |items| && items[i] == ItemNamed(items, id, name).value && NameOf(items[i], id) == name
  {
    if NameOf(items[0], id) == name {
      i := 0;
    } else {
      var k := ItemFrom(items[1..], id, name);
      i := k + 1;
    }
  }

  lemma {:induction false} HasItem(items: seq<Node>, id: string, i: nat)
    requires i < |items|
    ensures ItemNamed(items, id, NameOf(items[i], id)).Some?
  {
    if NameOf(items[0], id) != NameOf(items[i], id) {
      HasItem(items[1..], id, i - 1);
    }
  }

  lemma NamedIsSmaller(items: seq<Node>, id: string, name: string)
    ensures Weight(ItemNamed(items, id, name)) <= SizeOfItems(items)
  {
    if ItemNamed(items, id, name).Some? {
      var i := ItemFrom(items, id, name);
      ItemIsSmaller(items, i);
    }
  }

  // The elements of xs that are also in ys.
  function Keep(xs: seq<string>, ys: seq<string>): seq<string> {
    if xs == [] then [] else (if xs[0] in ys then [xs[0]] else []) + Keep(xs[1..], ys)
  }

  const NUL := 0 as char

  function JoinNul(xs: seq<string>): string {
    if xs == [] then "" else if |xs| == 1 then xs[0] else xs[0] + [NUL] + JoinNul(xs[1..])
  }

  predicate IsInline(n: Node) {
    match n
    case Scalar(_, _) => true
    case List(items) => forall i :: 0 <= i < |items| ==> items[i].Scalar?
    case Mapping(entries) => entries == []
  }

  // ---- the diff ----

  datatype Pair = Pair(path: seq<PathPart>, a: Option<Node>, b: Option<Node>)

  function PairWeight(p: Pair): nat {
    Weight(p.a) + Weight(p.b)
  }

  // The keys of b against a's values, then the keys only a has.
  function KeyPairs(path: seq<PathPart>, a: seq<Entry>, b: seq<Entry>): seq<Pair> {
    FoundKeys(path, a, b) + LostKeys(path, a, b)
  }

  function FoundKeys(path: seq<PathPart>, a: seq<Entry>, b: seq<Entry>): (r: seq<Pair>)
    ensures |r| == |b|
  {
    if b == [] then [] else [FoundKey(path, a, b[0])] + FoundKeys(path, a, b[1..])
  }

  function FoundKey(path: seq<PathPart>, a: seq<Entry>, e: Entry): Pair {
    Pair(path + [Field(e.key)], ValueOf(a, e.key), Some(e.node))
  }

  lemma {:induction false} FoundKeyAt(path: seq<PathPart>, a: seq<Entry>, b: seq<Entry>, i: nat)
    requires i < |b|
    ensures FoundKeys(path, a, b)[i] == FoundKey(path, a, b[i])
  {
    if i > 0 {
      FoundKeyAt(path, a, b[1..], i - 1);
    }
  }

  function LostKeys(path: seq<PathPart>, a: seq<Entry>, b: seq<Entry>): seq<Pair> {
    if a == [] then []
    else
      (if ValueOf(b, a[0].key).None? then [Pair(path + [Field(a[0].key)], Some(a[0].node), None)] else [])
      + LostKeys(path, a[1..], b)
  }

  // The items of b against a's of the same name, then the items only a has.
  function NamePairs(path: seq<PathPart>, id: string, a: seq<Node>, b: seq<Node>): seq<Pair> {
    FoundItems(path, id, a, b) + LostItems(path, id, a, b)
  }

  function FoundItems(path: seq<PathPart>, id: string, a: seq<Node>, b: seq<Node>): (r: seq<Pair>)
    ensures |r| == |b|
  {
    if b == [] then [] else [FoundItem(path, id, a, b[0])] + FoundItems(path, id, a, b[1..])
  }

  function FoundItem(path: seq<PathPart>, id: string, a: seq<Node>, item: Node): Pair {
    Pair(path + [Named(NameOf(item, id))], ItemNamed(a, id, NameOf(item, id)), Some(item))
  }

  lemma {:induction false} FoundItemAt(path: seq<PathPart>, id: string, a: seq<Node>, b: seq<Node>, i: nat)
    requires i < |b|
    ensures FoundItems(path, id, a, b)[i] == FoundItem(path, id, a, b[i])
  {
    if i > 0 {
      FoundItemAt(path, id, a, b[1..], i - 1);
    }
  }

  function LostItems(path: seq<PathPart>, id: string, a: seq<Node>, b: seq<Node>): seq<Pair> {
    if a == [] then []
    else
      (if NameOf(a[0], id) !in NamesOf(b, id) then [Pair(path + [Named(NameOf(a[0], id))], Some(a[0]), None)] else [])
      + LostItems(path, id, a[1..], b)
  }

  function ItemAt(items: seq<Node>, i: nat): Option<Node> {
    if i < |items| then Some(items[i]) else None
  }

  function Longer(a: seq<Node>, b: seq<Node>): nat {
    if |a| > |b| then |a| else |b|
  }

  function PlacePair(path: seq<PathPart>, a: seq<Node>, b: seq<Node>, i: nat): Pair {
    Pair(path + [Nth(i)], ItemAt(a, i), ItemAt(b, i))
  }

  // The items at the same place, from place i on.
  function PlacePairs(path: seq<PathPart>, a: seq<Node>, b: seq<Node>, i: nat): (r: seq<Pair>)
    ensures |r| == if i < Longer(a, b) then Longer(a, b) - i else 0
    decreases Longer(a, b) - i
  {
    if i >= Longer(a, b) then [] else [PlacePair(path, a, b, i)] + PlacePairs(path, a, b, i + 1)
  }

  lemma {:induction false} PlacePairAt(path: seq<PathPart>, a: seq<Node>, b: seq<Node>, i: nat, k: nat)
    requires i + k < Longer(a, b)
    ensures PlacePairs(path, a, b, i)[k] == PlacePair(path, a, b, i + k)
    decreases k
  {
    if k > 0 {
      PlacePairAt(path, a, b, i + 1, k - 1);
    }
  }

  function OrderLines(path: seq<PathPart>, id: string, a: seq<Node>, b: seq<Node>): seq<Line> {
    var ao := Keep(NamesOf(a, id), NamesOf(b, id));
    var bo := Keep(NamesOf(b, id), ao);
    if JoinNul(ao) != JoinNul(bo) then [Reordered(path, ao, bo)] else []
  }

  function Diff(path: seq<PathPart>, a: Option<Node>, b: Option<Node>): seq<Line>
    decreases Weight(a) + Weight(b), 2, 0
  {
    if a == b then []
    else if a.None? then
      if b.value.Scalar? then [Changed(path, a, b)] else [Added(path)]
    else if b.None? then
      if a.value.Scalar? then [Changed(path, a, b)] else [Removed(path)]
    else if a.value.Mapping? && b.value.Mapping? then
      MappingDiff(path, a.value.entries, b.value.entries)
    else if a.value.List? && b.value.List? && !(IsInline(a.value) && IsInline(b.value)) then
      ListDiff(path, a.value.items, b.value.items)
    else [Changed(path, a, b)]
  }

  function MappingDiff(path: seq<PathPart>, a: seq<Entry>, b: seq<Entry>): seq<Line>
    decreases Size(Mapping(a)) + Size(Mapping(b)), 1, 1
  {
    KeyPairsAreLighter(path, a, b);
    DiffAll(KeyPairs(path, a, b), Size(Mapping(a)) + Size(Mapping(b)))
  }

  function ListDiff(path: seq<PathPart>, a: seq<Node>, b: seq<Node>): seq<Line>
    decreases Size(List(a)) + Size(List(b)), 1, 1
  {
    var id := ListId(0, a, b);
    if id != "" then NameDiff(path, id, a, b) + OrderLines(path, id, a, b) else PlaceDiff(path, a, b)
  }

  function NameDiff(path: seq<PathPart>, id: string, a: seq<Node>, b: seq<Node>): seq<Line>
    decreases Size(List(a)) + Size(List(b)), 1, 0
  {
    NamePairsAreLighter(path, id, a, b);
    DiffAll(NamePairs(path, id, a, b), Size(List(a)) + Size(List(b)))
  }

  function PlaceDiff(path: seq<PathPart>, a: seq<Node>, b: seq<Node>): seq<Line>
    decreases Size(List(a)) + Size(List(b)), 1, 0
  {
    PlacePairsAreLighter(path, a, b);
    DiffAll(PlacePairs(path, a, b, 0), Size(List(a)) + Size(List(b)))
  }

  function DiffAll(pairs: seq<Pair>, bound: nat): seq<Line>
    requires Lighter(pairs, bound)
    decreases bound, 0, |pairs|
  {
    if pairs == [] then []
    else Diff(pairs[0].path, pairs[0].a, pairs[0].b) + DiffAll(pairs[1..], bound)
  }

  predicate Lighter(pairs: seq<Pair>, bound: nat) {
    forall i :: 0 <= i < |pairs| ==> PairWeight(pairs[i]) < bound
  }

  lemma KeyPairsAreLighter(path: seq<PathPart>, a: seq<Entry>, b: seq<Entry>)
    ensures Lighter(KeyPairs(path, a, b), Size(Mapping(a)) + Size(Mapping(b)))
  {
    forall i | 0 <= i < |b|
      ensures PairWeight(FoundKeys(path, a, b)[i]) < Size(Mapping(a)) + Size(Mapping(b))
    {
      FoundKeyAt(path, a, b, i);
      ValueIsSmaller(a, b[i].key);
      EntryIsSmaller(b, i);
    }
    LostKeysAreLighter(path, a, b);
  }

  lemma {:induction false} LostKeysAreLighter(path: seq<PathPart>, a: seq<Entry>, b: seq<Entry>)
    ensures Lighter(LostKeys(path, a, b), 1 + SizeOfEntries(a))
  {
    if a != [] {
      LostKeysAreLighter(path, a[1..], b);
    }
  }

  lemma NamePairsAreLighter(path: seq<PathPart>, id: string, a: seq<Node>, b: seq<Node>)
    ensures Lighter(NamePairs(path, id, a, b), Size(List(a)) + Size(List(b)))
  {
    forall i | 0 <= i < |b|
      ensures PairWeight(FoundItems(path, id, a, b)[i]) < Size(List(a)) + Size(List(b))
    {
      FoundItemAt(path, id, a, b, i);
      NamedIsSmaller(a, id, NameOf(b[i], id));
      ItemIsSmaller(b, i);
    }
    LostItemsAreLighter(path, id, a, b);
  }

  lemma {:induction false} LostItemsAreLighter(path: seq<PathPart>, id: string, a: seq<Node>, b: seq<Node>)
    ensures Lighter(LostItems(path, id, a, b), 1 + SizeOfItems(a))
  {
    if a != [] {
      LostItemsAreLighter(path, id, a[1..], b);
    }
  }

  lemma PlacePairsAreLighter(path: seq<PathPart>, a: seq<Node>, b: seq<Node>)
    ensures Lighter(PlacePairs(path, a, b, 0), Size(List(a)) + Size(List(b)))
  {
    forall i | 0 <= i < Longer(a, b)
      ensures PairWeight(PlacePairs(path, a, b, 0)[i]) < Size(List(a)) + Size(List(b))
    {
      PlacePairAt(path, a, b, 0, i);
      if i < |a| {
        ItemIsSmaller(a, i);
      }
      if i < |b| {
        ItemIsSmaller(b, i);
      }
    }
  }
}
