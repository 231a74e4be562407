/** The tree diff hides nothing: it has no line exactly when the trees agree up to the order of mapping
    keys. */
module DiffLaws {
  import opened Wrappers
  import opened TreeDiff

  ghost predicate UniqueKeys(n: Node) {
    match n
    case Scalar(_, _) => true
    case List(items) => forall i :: 0 <= i < |items| ==> UniqueKeys(items[i])
    case Mapping(entries) =>
      (forall i :: 0 <= i < |entries| ==> UniqueKeys(entries[i].node)) && DistinctKeys(entries)
  }

  predicate DistinctKeys(entries: seq<Entry>) {
    forall i, j :: 0 <= i < j < |entries| ==> entries[i].key != entries[j].key
  }

  // The order of list items is told by their names joined with NUL characters, so no name may hold one.
  ghost predicate NulFree(n: Node) {
    match n
    case Scalar(_, _) => true
    case List(items) => forall i :: 0 <= i < |items| ==> NulFree(items[i]) && NamedWithoutNul(items[i])
    case Mapping(entries) => forall i :: 0 <= i < |entries| ==> NulFree(entries[i].node)
  }

  ghost predicate NamedWithoutNul(item: Node) {
    forall id :: id in ID_KEYS ==> NUL !in NameOf(item, id)
  }

  ghost predicate Canonical(n: Node) {
    UniqueKeys(n) && NulFree(n)
  }

  // Equal up to the order of mapping keys.
  ghost predicate Similar(a: Node, b: Node)
    decreases a
  {
    match (a, b)
    case (Scalar(_, _), Scalar(_, _)) => a == b
    case (List(xs), List(ys)) => |xs| == |ys| && forall i :: 0 <= i < |xs| ==> Similar(xs[i], ys[i])
    case (Mapping(xs), Mapping(ys)) =>
      && (forall i :: 0 <= i < |xs| ==>
            var v := ValueOf(ys, xs[i].key); v.Some? && Similar(xs[i].node, v.value))
      && (forall j :: 0 <= j < |ys| ==> ValueOf(xs, ys[j].key).Some?)
    case _ => false
  }

  ghost predicate SimilarOrNone(a: Option<Node>, b: Option<Node>) {
    if a.Some? && b.Some? then Similar(a.value, b.value) else a == b
  }

  lemma {:induction false} SimilarSelf(n: Node)
    requires UniqueKeys(n)
    ensures Similar(n, n)
  {
    match n
    case Scalar(_, _) =>
    case List(items) =>
      forall i | 0 <= i < |items|
        ensures Similar(items[i], items[i])
      {
        SimilarSelf(items[i]);
      }
    case Mapping(entries) =>
      forall i | 0 <= i < |entries|
        ensures ValueOf(entries, entries[i].key) == Some(entries[i].node) && Similar(entries[i].node, entries[i].node)
      {
        OwnValue(entries, i);
        SimilarSelf(entries[i].node);
      }
  }

  lemma OwnValue(entries: seq<Entry>, i: nat)
    requires DistinctKeys(entries) && i < |entries|
    ensures ValueOf(entries, entries[i].key) == Some(entries[i].node)
  {
    HasValue(entries, i);
    var j := ValueFrom(entries, entries[i].key);
  }

  lemma OwnItem(items: seq<Node>, id: string, i: nat)
    requires Identifies(id, items) && i < |items|
    ensures ItemNamed(items, id, NameOf(items[i], id)) == Some(items[i])
  {
    HasItem(items, id, i);
    var j := ItemFrom(items, id, NameOf(items[i], id));
  }

  // ---- lists of pairs ----

  ghost predicate Silent(p: Pair) {
    Diff(p.path, p.a, p.b) == []
  }

  lemma {:induction false} AllSilent(pairs: seq<Pair>, bound: nat)
    requires Lighter(pairs, bound)
    ensures DiffAll(pairs, bound) == [] <==> forall i :: 0 <= i < |pairs| ==> Silent(pairs[i])
    decreases |pairs|
  {
    if pairs != [] {
      AllSilent(pairs[1..], bound);
      assert forall i :: 0 <= i < |pairs| ==> pairs[i] == if i == 0 then pairs[0] else pairs[1..][i - 1];
    }
  }

  ghost predicate NoneSpeaks(pairs: seq<Pair>) {
    forall i :: 0 <= i < |pairs| ==> Silent(pairs[i])
  }

  lemma MappingSilent(path: seq<PathPart>, a: seq<Entry>, b: seq<Entry>)
    ensures MappingDiff(path, a, b) == [] <==> NoneSpeaks(KeyPairs(path, a, b))
  {
    var pairs, n := KeyPairs(path, a, b), Size(Mapping(a)) + Size(Mapping(b));
    KeyPairsAreLighter(path, a, b);
    assert MappingDiff(path, a, b) == DiffAll(pairs, n);
    AllSilent(pairs, n);
  }

  lemma NamesSilent(path: seq<PathPart>, id: string, a: seq<Node>, b: seq<Node>)
    ensures NameDiff(path, id, a, b) == [] <==> NoneSpeaks(NamePairs(path, id, a, b))
  {
    var pairs, n := NamePairs(path, id, a, b), Size(List(a)) + Size(List(b));
    NamePairsAreLighter(path, id, a, b);
    assert NameDiff(path, id, a, b) == DiffAll(pairs, n);
    AllSilent(pairs, n);
  }

  lemma PlacesSilent(path: seq<PathPart>, a: seq<Node>, b: seq<Node>)
    ensures PlaceDiff(path, a, b) == [] <==> NoneSpeaks(PlacePairs(path, a, b, 0))
  {
    var pairs, n := PlacePairs(path, a, b, 0), Size(List(a)) + Size(List(b));
    PlacePairsAreLighter(path, a, b);
    assert PlaceDiff(path, a, b) == DiffAll(pairs, n);
    AllSilent(pairs, n);
  }

  lemma OneSided(p: Pair)
    requires p.a.None? != p.b.None?
    ensures !Silent(p)
  {
  }

  lemma {:induction false} LostKeysAre(path: seq<PathPart>, a: seq<Entry>, b: seq<Entry>)
    ensures LostKeys(path, a, b) == [] <==> forall i :: 0 <= i < |a| ==> ValueOf(b, a[i].key).Some?
    ensures forall k :: 0 <= k < |LostKeys(path, a, b)| ==>
              LostKeys(path, a, b)[k].a.Some? && LostKeys(path, a, b)[k].b.None?
  {
    if a != [] {
      LostKeysAre(path, a[1..], b);
      assert forall i :: 0 <= i < |a| ==> a[i] == if i == 0 then a[0] else a[1..][i - 1];
    }
  }

  lemma {:induction false} LostItemsAre(path: seq<PathPart>, id: string, a: seq<Node>, b: seq<Node>)
    ensures LostItems(path, id, a, b) == [] <==> forall i :: 0 <= i < |a| ==> NameOf(a[i], id) in NamesOf(b, id)
    ensures forall k :: 0 <= k < |LostItems(path, id, a, b)| ==>
                          LostItems(path, id, a, b)[k].a.Some? && LostItems(path, id, a, b)[k].b.None?
  {
    if a != [] {
      LostItemsAre(path, id, a[1..], b);
      assert forall i :: 0 <= i < |a| ==> a[i] == if i == 0 then a[0] else a[1..][i - 1];
    }
  }

  // ---- names in order ----

  lemma {:induction false} KeepAll(xs: seq<string>, ys: seq<string>)
    requires forall i :: 0 <= i < |xs| ==> xs[i] in ys
    ensures Keep(xs, ys) == xs
  {
    if xs != [] {
      KeepAll(xs[1..], ys);
    }
  }

  function FirstNul(t: string): nat {
    if t == "" || t[0] == NUL then 0 else 1 + FirstNul(t[1..])
  }

  lemma {:induction false} FirstNulIs(x: string, r: string)
    requires NUL !in x
    ensures FirstNul(x + [NUL] + r) == |x|
    decreases |x|
  {
    var t := x + [NUL] + r;
    if x != "" {
      assert t[0] == x[0] && x[0] in x;
      assert t[1..] == x[1..] + [NUL] + r;
      FirstNulIs(x[1..], r);
    }
  }

  lemma SameHead(x: string, r: string, y: string, s: string)
    requires NUL !in x && NUL !in y && x + [NUL] + r == y + [NUL] + s
    ensures x == y && r == s
  {
    var t := x + [NUL] + r;
    FirstNulIs(x, r);
    FirstNulIs(y, s);
    assert x == t[..|x|] && y == t[..|y|];
    assert r == t[|x| + 1..] && s == t[|y| + 1..];
  }

  lemma JoinHasNul(xs: seq<string>)
    requires |xs| > 1
    ensures NUL in JoinNul(xs)
  {
    assert JoinNul(xs)[|xs[0]|] == NUL;
  }

  lemma {:induction false} JoinTells(xs: seq<string>, ys: seq<string>)
    requires xs != [] && ys != [] && JoinNul(xs) == JoinNul(ys)
    requires forall x :: x in xs || x in ys ==> NUL !in x
    ensures xs == ys
    decreases |xs|
  {
    assert xs[0] in xs && ys[0] in ys;
    if |xs| > 1 {
      JoinHasNul(xs);
    }
    if |ys| > 1 {
      JoinHasNul(ys);
    }
    if |xs| > 1 && |ys| > 1 {
      SameHead(xs[0], JoinNul(xs[1..]), ys[0], JoinNul(ys[1..]));
      JoinTells(xs[1..], ys[1..]);
      assert xs == [xs[0]] + xs[1..] && ys == [ys[0]] + ys[1..];
    }
  }

  lemma NamesAreNulFree(items: seq<Node>, id: string)
    requires NulFree(List(items)) && id in ID_KEYS
    ensures forall x :: x in NamesOf(items, id) ==> NUL !in x
  {
    assert forall i :: 0 <= i < |items| ==> NamedWithoutNul(items[i]);
  }

  // ---- no line: similar ----

  lemma {:induction false} SilentIsSimilar(path: seq<PathPart>, a: Option<Node>, b: Option<Node>)
    requires (a.Some? ==> Canonical(a.value)) && (b.Some? ==> Canonical(b.value))
    requires Diff(path, a, b) == []
    ensures SimilarOrNone(a, b)
    decreases Weight(a) + Weight(b), 2
  {
    if a == b {
      if a.Some? {
        SimilarSelf(a.value);
      }
    } else if a.Some? && b.Some? {
      if a.value.Mapping? && b.value.Mapping? {
        SilentMappings(path, a.value.entries, b.value.entries);
      } else if a.value.List? && b.value.List? {
        SilentLists(path, a.value.items, b.value.items);
      }
    }
  }

  lemma {:induction false} SilentMappings(path: seq<PathPart>, a: seq<Entry>, b: seq<Entry>)
    requires Canonical(Mapping(a)) && Canonical(Mapping(b))
    requires MappingDiff(path, a, b) == []
    ensures Similar(Mapping(a), Mapping(b))
    decreases Size(Mapping(a)) + Size(Mapping(b)), 1
  {
    var pairs := KeyPairs(path, a, b);
    MappingSilent(path, a, b);
    NoKeyLost(path, a, b);
    forall j | 0 <= j < |b|
      ensures ValueOf(a, b[j].key).Some? && Similar(ValueOf(a, b[j].key).value, b[j].node)
    {
      var p := pairs[j];
      assert Silent(p);
      KeyPairIs(path, a, b, j);
      if p.a.Some? {
        ValueIsCanonical(a, b[j].key);
        ValueIsSmaller(a, b[j].key);
        EntryIsSmaller(b, j);
        SilentIsSimilar(p.path, p.a, p.b);
      } else {
        OneSided(p);
      }
    }
    EachSimilar(a, b);
  }

  lemma EachSimilar(a: seq<Entry>, b: seq<Entry>)
    requires DistinctKeys(a)
    requires forall i :: 0 <= i < |a| ==> ValueOf(b, a[i].key).Some?
    requires forall j :: 0 <= j < |b| ==> ValueOf(a, b[j].key).Some? && Similar(ValueOf(a, b[j].key).value, b[j].node)
    ensures Similar(Mapping(a), Mapping(b))
  {
    forall i | 0 <= i < |a|
      ensures var v := ValueOf(b, a[i].key); v.Some? && Similar(a[i].node, v.value)
    {
      var j := ValueFrom(b, a[i].key);
      OwnValue(a, i);
    }
  }

  lemma ValueIsCanonical(a: seq<Entry>, key: string)
    requires Canonical(Mapping(a)) && ValueOf(a, key).Some?
    ensures Canonical(ValueOf(a, key).value)
  {
    var i := ValueFrom(a, key);
    assert UniqueKeys(a[i].node) && NulFree(a[i].node);
  }

  // Silent pairs name no key only a has.
  lemma NoKeyLost(path: seq<PathPart>, a: seq<Entry>, b: seq<Entry>)
    requires NoneSpeaks(KeyPairs(path, a, b))
    ensures forall i :: 0 <= i < |a| ==> ValueOf(b, a[i].key).Some?
  {
    LostKeysAre(path, a, b);
    if LostKeys(path, a, b) != [] {
      LostSpeaks(FoundKeys(path, a, b), LostKeys(path, a, b));
    }
  }

  lemma LostSpeaks(found: seq<Pair>, lost: seq<Pair>)
    requires lost != [] && lost[0].a.Some? && lost[0].b.None?
    ensures !NoneSpeaks(found + lost)
  {
    OneSided(lost[0]);
    assert (found + lost)[|found|] == lost[0];
  }

  lemma {:induction false} SilentLists(path: seq<PathPart>, a: seq<Node>, b: seq<Node>)
    requires Canonical(List(a)) && Canonical(List(b))
    requires ListDiff(path, a, b) == []
    ensures Similar(List(a), List(b))
    decreases Size(List(a)) + Size(List(b)), 1, 1
  {
    var id := ListId(0, a, b);
    if id != "" {
      SilentNamed(path, id, a, b);
    } else {
      SilentPlaced(path, a, b);
    }
  }

  lemma {:induction false} SilentNamed(path: seq<PathPart>, id: string, a: seq<Node>, b: seq<Node>)
    requires Canonical(List(a)) && Canonical(List(b)) && id in ID_KEYS && Identifies(id, a)
    requires NameDiff(path, id, a, b) == [] && OrderLines(path, id, a, b) == []
    ensures Similar(List(a), List(b))
    decreases Size(List(a)) + Size(List(b)), 1, 0
  {
    var pairs := NamePairs(path, id, a, b);
    NamesSilent(path, id, a, b);
    SilentNames(path, id, a, b);
    assert |a| == |NamesOf(a, id)| == |b|;
    forall i | 0 <= i < |a|
      ensures Similar(a[i], b[i])
    {
      assert Silent(pairs[i]);
      NamePairIs(path, id, a, b, i);
      ItemIsSmaller(a, i);
      ItemIsSmaller(b, i);
      SilentIsSimilar(pairs[i].path, Some(a[i]), Some(b[i]));
    }
  }

  lemma NamePairIs(path: seq<PathPart>, id: string, a: seq<Node>, b: seq<Node>, i: nat)
    requires Identifies(id, a) && NamesOf(a, id) == NamesOf(b, id) && i < |a|
    ensures |a| == |b| && i < |NamePairs(path, id, a, b)|
    ensures NamePairs(path, id, a, b)[i] == Pair(path + [Named(NameOf(b[i], id))], Some(a[i]), Some(b[i]))
  {
    assert |a| == |NamesOf(a, id)| == |b|;
    assert NamesOf(a, id)[i] == NamesOf(b, id)[i];
    OwnItem(a, id, i);
    FoundItemAt(path, id, a, b, i);
  }

  lemma {:induction false} SilentPlaced(path: seq<PathPart>, a: seq<Node>, b: seq<Node>)
    requires Canonical(List(a)) && Canonical(List(b)) && PlaceDiff(path, a, b) == []
    ensures Similar(List(a), List(b))
    decreases Size(List(a)) + Size(List(b)), 1, 0
  {
    var pairs := PlacePairs(path, a, b, 0);
    PlacesSilent(path, a, b);
    SilentPlaces(path, a, b);
    forall i | 0 <= i < |a|
      ensures Similar(a[i], b[i])
    {
      PlacePairAt(path, a, b, 0, i);
      assert Silent(pairs[i]);
      ItemIsSmaller(a, i);
      ItemIsSmaller(b, i);
      SilentIsSimilar(pairs[i].path, Some(a[i]), Some(b[i]));
    }
  }

  lemma SilentPlaces(path: seq<PathPart>, a: seq<Node>, b: seq<Node>)
    requires NoneSpeaks(PlacePairs(path, a, b, 0))
    ensures |a| == |b|
  {
    var k := if |a| < |b| then |a| else |b|;
    if |a| != |b| {
      PlacePairAt(path, a, b, 0, k);
      OneSided(PlacePairs(path, a, b, 0)[k]);
    }
  }

  // The same names in the same order.
  lemma SilentNames(path: seq<PathPart>, id: string, a: seq<Node>, b: seq<Node>)
    requires NulFree(List(a)) && NulFree(List(b)) && id in ID_KEYS
    requires NoneSpeaks(NamePairs(path, id, a, b))
    requires OrderLines(path, id, a, b) == []
    ensures NamesOf(a, id) == NamesOf(b, id)
  {
    var ao, bo := NamesOf(a, id), NamesOf(b, id);
    var pairs, lost := NamePairs(path, id, a, b), LostItems(path, id, a, b);
    LostItemsAre(path, id, a, b);
    if lost != [] {
      LostSpeaks(FoundItems(path, id, a, b), lost);
    }
    KeepAll(ao, bo);
    forall j | 0 <= j < |b|
      ensures bo[j] in ao
    {
      assert Silent(pairs[j]);
      FoundItemAt(path, id, a, b, j);
      if pairs[j].a.None? {
        OneSided(pairs[j]);
      }
      var i := ItemFrom(a, id, bo[j]);
      assert ao[i] == bo[j];
    }
    KeepAll(bo, ao);
    NamesAreNulFree(a, id);
    NamesAreNulFree(b, id);
    assert |a| > 0 ==> ao[0] in bo;
    assert |b| > 0 ==> bo[0] in ao;
    if ao != [] && bo != [] {
      JoinTells(ao, bo);
    }
  }

  // ---- similar: no line ----

  lemma {:induction false} SimilarIsSilent(path: seq<PathPart>, a: Node, b: Node)
    requires UniqueKeys(a) && UniqueKeys(b) && Similar(a, b)
    ensures Diff(path, Some(a), Some(b)) == []
    decreases Size(a) + Size(b), 2
  {
    if a != b {
      if a.Mapping? {
        SimilarMappings(path, a.entries, b.entries);
      } else if a.List? {
        SimilarInline(a.items, b.items);
        SimilarLists(path, a.items, b.items);
      }
    }
  }

  lemma SimilarInline(a: seq<Node>, b: seq<Node>)
    requires Similar(List(a), List(b))
    ensures IsInline(List(a)) && IsInline(List(b)) ==> a == b
  {
  }

  lemma {:induction false} SimilarMappings(path: seq<PathPart>, a: seq<Entry>, b: seq<Entry>)
    requires UniqueKeys(Mapping(a)) && UniqueKeys(Mapping(b)) && Similar(Mapping(a), Mapping(b))
    ensures MappingDiff(path, a, b) == []
    decreases Size(Mapping(a)) + Size(Mapping(b)), 1
  {
    var pairs := KeyPairs(path, a, b);
    LostKeysAre(path, a, b);
    forall j | 0 <= j < |pairs|
      ensures Silent(pairs[j])
    {
      var i := SimilarValue(a, b, j);
      assert UniqueKeys(a[i].node) && UniqueKeys(b[j].node);
      KeyPairIs(path, a, b, j);
      EntryIsSmaller(a, i);
      EntryIsSmaller(b, j);
      SimilarIsSilent(path + [Field(b[j].key)], a[i].node, b[j].node);
    }
    MappingSilent(path, a, b);
  }

  lemma KeyPairIs(path: seq<PathPart>, a: seq<Entry>, b: seq<Entry>, j: nat)
    requires j < |b|
    ensures j < |KeyPairs(path, a, b)|
    ensures KeyPairs(path, a, b)[j] == Pair(path + [Field(b[j].key)], ValueOf(a, b[j].key), Some(b[j].node))
  {
    FoundKeyAt(path, a, b, j);
  }

  lemma SimilarValue(a: seq<Entry>, b: seq<Entry>, j: nat) returns (i: nat)
    requires UniqueKeys(Mapping(b)) && Similar(Mapping(a), Mapping(b)) && j < |b|
    ensures i < |a| && ValueOf(a, b[j].key) == Some(a[i].node) && Similar(a[i].node, b[j].node)
  {
    i := ValueFrom(a, b[j].key);
    OwnValue(b, j);
  }

  lemma SimilarNames(a: Node, b: Node, id: string)
    requires Similar(a, b) && UniqueKeys(b) && HasName(a, id) && HasName(b, id)
    ensures NameOf(a, id) == NameOf(b, id)
  {
    var i := ValueFrom(a.entries, id);
    assert Similar(a.entries[i].node, ValueOf(b.entries, id).value);
  }

  lemma {:induction false} SimilarLists(path: seq<PathPart>, a: seq<Node>, b: seq<Node>)
    requires UniqueKeys(List(a)) && UniqueKeys(List(b)) && Similar(List(a), List(b))
    ensures ListDiff(path, a, b) == []
    decreases Size(List(a)) + Size(List(b)), 1, 1
  {
    var id := ListId(0, a, b);
    if id != "" {
      SameNames(a, b, id);
      NothingLost(path, id, a, b);
      SimilarNamed(path, id, a, b);
    } else {
      SimilarPlaced(path, a, b);
    }
  }

  lemma {:induction false} SimilarNamed(path: seq<PathPart>, id: string, a: seq<Node>, b: seq<Node>)
    requires UniqueKeys(List(a)) && UniqueKeys(List(b)) && Similar(List(a), List(b)) && Identifies(id, a)
    requires NamesOf(a, id) == NamesOf(b, id) && LostItems(path, id, a, b) == []
    ensures NameDiff(path, id, a, b) == []
    decreases Size(List(a)) + Size(List(b)), 1, 0
  {
    var pairs := NamePairs(path, id, a, b);
    forall i | 0 <= i < |pairs|
      ensures Silent(pairs[i])
    {
      NamePairIs(path, id, a, b, i);
      ItemIsSmaller(a, i);
      ItemIsSmaller(b, i);
      SimilarIsSilent(pairs[i].path, a[i], b[i]);
    }
    NamesSilent(path, id, a, b);
  }

  lemma {:induction false} SimilarPlaced(path: seq<PathPart>, a: seq<Node>, b: seq<Node>)
    requires UniqueKeys(List(a)) && UniqueKeys(List(b)) && Similar(List(a), List(b))
    ensures PlaceDiff(path, a, b) == []
    decreases Size(List(a)) + Size(List(b)), 1, 0
  {
    var pairs := PlacePairs(path, a, b, 0);
    forall i | 0 <= i < |pairs|
      ensures Silent(pairs[i])
    {
      PlacePairAt(path, a, b, 0, i);
      ItemIsSmaller(a, i);
      ItemIsSmaller(b, i);
      SimilarIsSilent(pairs[i].path, a[i], b[i]);
    }
    PlacesSilent(path, a, b);
  }

  lemma SameNames(a: seq<Node>, b: seq<Node>, id: string)
    requires Identifies(id, a) && Identifies(id, b) && UniqueKeys(List(b)) && Similar(List(a), List(b))
    ensures NamesOf(a, id) == NamesOf(b, id)
  {
    forall i | 0 <= i < |a|
      ensures NameOf(a[i], id) == NameOf(b[i], id)
    {
      SimilarNames(a[i], b[i], id);
    }
  }

  lemma NothingLost(path: seq<PathPart>, id: string, a: seq<Node>, b: seq<Node>)
    requires NamesOf(a, id) == NamesOf(b, id)
    ensures LostItems(path, id, a, b) == [] && OrderLines(path, id, a, b) == []
  {
    assert forall i :: 0 <= i < |a| ==> NamesOf(a, id)[i] == NameOf(a[i], id);
    LostItemsAre(path, id, a, b);
    KeepAll(NamesOf(a, id), NamesOf(b, id));
  }

  /** The diff of two trees has no line exactly when they are equal up to the order of mapping keys,
      through named lists (whose order counts), other lists, missing parts and changes of kind. */
  lemma DiffHidesNothing(a: Option<Node>, b: Option<Node>)
    requires (a.Some? ==> Canonical(a.value)) && (b.Some? ==> Canonical(b.value))
    ensures Diff([], a, b) == [] <==> SimilarOrNone(a, b)
  {
    if SimilarOrNone(a, b) {
      if a.Some? && b.Some? {
        SimilarIsSilent([], a.value, b.value);
      }
    } else if Diff([], a, b) == [] {
      SilentIsSimilar([], a, b);
    }
  }

  function Item(name: string): Node {
    Mapping([Entry("name", Scalar("!!str", name))])
  }

  /** Why NUL characters in names are excluded: with any name n, the items n and n NUL n change places
      unseen. */
  lemma NulHidesOrder(n: string)
    ensures var a, b := List([Item(n), Item(n + [NUL] + n)]), List([Item(n + [NUL] + n), Item(n)]);
            UniqueKeys(a) && UniqueKeys(b) && Diff([], Some(a), Some(b)) == [] && !Similar(a, b)
  {
    var m := n + [NUL] + n;
    var a, b := [Item(n), Item(m)], [Item(m), Item(n)];
    assert |m| != |n|;
    ItemsAreNamed(n, m);
    SwappedUnseen(n, m);
    SwappedDiffer(n, m);
    ListsDiffer([], a, b);
  }

  lemma ListsDiffer(path: seq<PathPart>, a: seq<Node>, b: seq<Node>)
    requires a != b && !IsInline(List(a))
    ensures Diff(path, Some(List(a)), Some(List(b))) == ListDiff(path, a, b)
  {
  }

  lemma SwappedUnseen(n: string, m: string)
    requires m == n + [NUL] + n && n != m
    ensures ListDiff([], [Item(n), Item(m)], [Item(m), Item(n)]) == []
  {
    var a, b := [Item(n), Item(m)], [Item(m), Item(n)];
    ItemsAreNamed(n, m);
    JoinedAlike(n, m);
    SwappedSilent(n, m);
    assert OrderLines([], "name", a, b) == [];
  }

  lemma SwappedDiffer(n: string, m: string)
    requires n != m
    ensures !Similar(List([Item(n), Item(m)]), List([Item(m), Item(n)]))
  {
    ItemName(n);
    ItemName(m);
    if Similar(List([Item(n), Item(m)]), List([Item(m), Item(n)])) {
      assert Similar([Item(n), Item(m)][0], [Item(m), Item(n)][0]);
      SimilarNames(Item(n), Item(m), "name");
    }
  }

  lemma ItemsAreNamed(n: string, m: string)
    requires n != m
    ensures var a, b := [Item(n), Item(m)], [Item(m), Item(n)];
            && UniqueKeys(List(a)) && UniqueKeys(List(b)) && ListId(0, a, b) == "name"
            && NamesOf(a, "name") == [n, m] && NamesOf(b, "name") == [m, n]
  {
    ItemName(n);
    ItemName(m);
    TwoNamed(n, m);
    TwoNamed(m, n);
    assert ID_KEYS[0] == "name";
  }

  lemma TwoNamed(n: string, m: string)
    requires n != m
    ensures var a := [Item(n), Item(m)]; Identifies("name", a) && NamesOf(a, "name") == [n, m]
  {
    ItemName(n);
    ItemName(m);
  }

  lemma ItemName(n: string)
    ensures HasName(Item(n), "name") && NameOf(Item(n), "name") == n && UniqueKeys(Item(n))
  {
  }

  lemma JoinedAlike(n: string, m: string)
    requires m == n + [NUL] + n
    ensures JoinNul(Keep([n, m], [m, n])) == JoinNul(Keep([m, n], Keep([n, m], [m, n])))
  {
    KeepAll([n, m], [m, n]);
    KeepAll([m, n], [n, m]);
    assert [n, m][1..] == [m] && [m, n][1..] == [n];
    assert n + [NUL] + m == m + [NUL] + n;
  }

  lemma SwappedSilent(n: string, m: string)
    requires n != m
    ensures NameDiff([], "name", [Item(n), Item(m)], [Item(m), Item(n)]) == []
  {
    var a, b := [Item(n), Item(m)], [Item(m), Item(n)];
    var pairs := NamePairs([], "name", a, b);
    ItemsAreNamed(n, m);
    ItemName(n);
    ItemName(m);
    LostItemsAre([], "name", a, b);
    OwnItem(a, "name", 0);
    OwnItem(a, "name", 1);
    FoundItemAt([], "name", a, b, 0);
    FoundItemAt([], "name", a, b, 1);
    NamesSilent([], "name", a, b);
  }
}
