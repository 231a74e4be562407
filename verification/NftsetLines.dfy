/** Policy domains compiled to dnsmasq's nftset= lines.  The engine uses only the most specific line for
    a query, so a domain's line must also name the sets of every policy that lists a parent of it. */
module NftsetLines {
  import opened Wrappers
  import opened DomainNames
  import opened StringSort

  // A policy with domains: its index, its domains without repeats, the families of its rule.
  datatype Policy = Policy(idx: nat, domains: seq<Name>, fams: seq<int>)

  // One nft set: of policy idx, for one address family.
  datatype Ref = Ref(idx: nat, fam: int)

  ghost predicate ValidPolicies(pds: seq<Policy>) {
    && (forall k :: 0 <= k < |pds| ==> NoRepeats(pds[k].domains) && pds[k].fams in [[4], [6], [4, 6]])
    && (forall j, k :: 0 <= j < k < |pds| ==> pds[j].idx < pds[k].idx)
  }

  // ---- meaning ----

  // The policy lists q or a parent of it.
  ghost predicate Lists(pd: Policy, q: Name) {
    exists p :: p in pd.domains && Under(q, p)
  }

  ghost predicate ListsSome(pds: seq<Policy>, q: Name) {
    exists k :: 0 <= k < |pds| && Lists(pds[k], q)
  }

  function Refs(pd: Policy): seq<Ref> {
    seq(|pd.fams|, i requires 0 <= i < |pd.fams| => Ref(pd.idx, pd.fams[i]))
  }

  // The sets of the first n policies that list q or a parent of it, each once, in policy order.
  ghost function RefsUpTo(pds: seq<Policy>, q: Name, n: nat): seq<Ref>
    requires n <= |pds|
  {
    if n == 0 then [] else RefsUpTo(pds, q, n - 1) + if Lists(pds[n - 1], q) then Refs(pds[n - 1]) else []
  }

  ghost function RefsOf(pds: seq<Policy>, q: Name): seq<Ref> {
    RefsUpTo(pds, q, |pds|)
  }

  ghost function Listed(pds: seq<Policy>): set<Name> {
    set k, d | 0 <= k < |pds| && d in pds[k].domains :: d
  }

  lemma {:induction false} RefsMean(pds: seq<Policy>, q: Name, n: nat, r: Ref)
    requires n <= |pds|
    ensures r in RefsUpTo(pds, q, n) <==> exists k :: 0 <= k < n && Lists(pds[k], q) && r in Refs(pds[k])
  {
    if n > 0 {
      RefsMean(pds, q, n - 1, r);
    }
  }

  lemma {:induction false} RefsOnce(pds: seq<Policy>, q: Name, n: nat)
    requires ValidPolicies(pds) && n <= |pds|
    ensures NoRepeats(RefsUpTo(pds, q, n))
    ensures forall r :: r in RefsUpTo(pds, q, n) ==> exists k :: 0 <= k < n && r.idx == pds[k].idx
  {
    if n > 0 {
      RefsOnce(pds, q, n - 1);
      assert NoRepeats(Refs(pds[n - 1])) && forall r :: r in Refs(pds[n - 1]) ==> r.idx == pds[n - 1].idx;
    }
  }

  // What is listed over q is listed over the most specific listed name of q.
  lemma RefsOfMostSpecific(pds: seq<Policy>, q: Name, m: Name, n: nat)
    requires n <= |pds| && MostSpecific(q, Listed(pds)) == Some(m)
    ensures RefsUpTo(pds, q, n) == RefsUpTo(pds, m, n)
  {
    forall k | 0 <= k < n
      ensures Lists(pds[k], q) <==> Lists(pds[k], m)
    {
      ListsAlike(pds, q, m, k);
    }
    RefsAlike(pds, q, m, n);
  }

  lemma {:induction false} RefsAlike(pds: seq<Policy>, q: Name, m: Name, n: nat)
    requires n <= |pds| && forall k :: 0 <= k < n ==> (Lists(pds[k], q) <==> Lists(pds[k], m))
    ensures RefsUpTo(pds, q, n) == RefsUpTo(pds, m, n)
  {
    if n > 0 {
      RefsAlike(pds, q, m, n - 1);
    }
  }

  lemma ListsAlike(pds: seq<Policy>, q: Name, m: Name, k: nat)
    requires k < |pds| && MostSpecific(q, Listed(pds)) == Some(m)
    ensures Lists(pds[k], q) <==> Lists(pds[k], m)
  {
    if Lists(pds[k], q) {
      var p :| p in pds[k].domains && Under(q, p);
      assert p in Listed(pds);
      assert Under(m, p);
    }
    if Lists(pds[k], m) {
      var p :| p in pds[k].domains && Under(m, p);
      UnderTransitive(q, m, p);
    }
  }

  // ---- set lists as text ----

  function Decimal(n: nat): (s: string)
    ensures s != ""
  {
    if n < 10 then [(n + '0' as int) as char] else Decimal(n / 10) + [(n % 10 + '0' as int) as char]
  }

  lemma {:induction false} DecimalInjective(m: nat, n: nat)
    requires Decimal(m) == Decimal(n)
    ensures m == n
  {
    var a, b := Decimal(m), Decimal(n);
    assert a[|a| - 1] == ((m % 10) + '0' as int) as char && b[|b| - 1] == ((n % 10) + '0' as int) as char;
    if m >= 10 && n >= 10 {
      assert a[..|a| - 1] == Decimal(m / 10) && b[..|b| - 1] == Decimal(n / 10);
      DecimalInjective(m / 10, n / 10);
    }
  }

  function FamText(fam: int): string {
    if fam == 4 then "4" else "6"
  }

  function RefText(r: Ref): string {
    FamText(r.fam) + "#inet#mr#pr_" + Decimal(r.idx) + "_" + FamText(r.fam)
  }

  function KeyText(rs: seq<Ref>): string {
    if rs == [] then ""
    else if |rs| == 1 then RefText(rs[0])
    else RefText(rs[0]) + "," + KeyText(rs[1..])
  }

  ghost predicate ValidRefs(rs: seq<Ref>) {
    forall r :: r in rs ==> r.fam == 4 || r.fam == 6
  }

  lemma {:induction false} DecimalIsDigits(n: nat)
    ensures forall c :: c in Decimal(n) ==> '0' <= c <= '9'
  {
    if n >= 10 {
      DecimalIsDigits(n / 10);
    }
  }

  // The number a text of digits stands for.
  function Number(s: string): int {
    if s == "" then 0 else Number(s[..|s| - 1]) * 10 + (s[|s| - 1] as int - '0' as int)
  }

  lemma {:induction false} DecimalReads(n: nat)
    ensures Number(Decimal(n)) == n && (n > 0 ==> Decimal(n)[0] != '0')
  {
    var d := Decimal(n);
    if n >= 10 {
      DecimalReads(n / 10);
      assert d[..|d| - 1] == Decimal(n / 10);
    } else {
      assert d[..|d| - 1] == "" && Number("") == 0;
    }
  }

  /** The text of a set names its family and its policy's number. */
  lemma RefTextNames(r: Ref)
    requires r.fam in {4, 6}
    ensures exists d: string ::
              && Number(d) == r.idx && (forall c :: c in d ==> '0' <= c <= '9')
              && RefText(r) == if r.fam == 4 then "4#inet#mr#pr_" + d + "_4" else "6#inet#mr#pr_" + d + "_6"
  {
    var d := Decimal(r.idx);
    DecimalReads(r.idx);
    DecimalIsDigits(r.idx);
    if r.fam == 4 {
      assert RefText(r) == "4" + "#inet#mr#pr_" + d + "_" + "4" == "4#inet#mr#pr_" + d + "_4";
    } else {
      assert RefText(r) == "6" + "#inet#mr#pr_" + d + "_" + "6" == "6#inet#mr#pr_" + d + "_6";
    }
  }

  lemma RefTextPlain(r: Ref)
    ensures ',' !in RefText(r) && RefText(r) != ""
  {
    var d := Decimal(r.idx);
    DecimalIsDigits(r.idx);
    assert forall c :: c in RefText(r) ==> c in FamText(r.fam) || c in "#inet#mr#pr_" || c in d || c in "_";
  }

  // What stands between the commas.
  function Parts(s: string): seq<string> {
    if ',' !in s then [s] else var k := FirstComma(s); [s[..k]] + Parts(s[k + 1..])
  }

  function FirstComma(s: string): (k: nat)
    requires ',' in s
    ensures k < |s|
  {
    if s[0] == ',' then 0 else FirstComma(s[1..]) + 1
  }

  lemma {:induction false} FirstCommaIs(x: string, y: string)
    requires ',' !in x
    ensures FirstComma(x + "," + y) == |x|
    decreases |x|
  {
    var s := x + "," + y;
    if x != "" {
      assert s[0] == x[0] && x[0] in x;
      assert s[1..] == x[1..] + "," + y;
      FirstCommaIs(x[1..], y);
    }
  }

  lemma PartsOf(x: string, y: string)
    requires ',' !in x
    ensures Parts(x + "," + y) == [x] + Parts(y)
  {
    var s := x + "," + y;
    FirstCommaIs(x, y);
    assert s[..|x|] == x && s[|x| + 1..] == y;
  }

  function RefTexts(rs: seq<Ref>): seq<string> {
    if rs == [] then [] else [RefText(rs[0])] + RefTexts(rs[1..])
  }

  /** The key of a line holds the text of each set, with commas between. */
  lemma {:induction false} KeyHoldsRefs(rs: seq<Ref>)
    requires rs != []
    ensures Parts(KeyText(rs)) == RefTexts(rs)
  {
    RefTextPlain(rs[0]);
    if |rs| > 1 {
      PartsOf(RefText(rs[0]), KeyText(rs[1..]));
      KeyHoldsRefs(rs[1..]);
    }
  }

  lemma RefTextInjective(a: Ref, b: Ref)
    requires RefText(a) == RefText(b) && a.fam in {4, 6} && b.fam in {4, 6}
    ensures a == b
  {
    RefTextParts(a);
    RefTextParts(b);
    DecimalInjective(a.idx, b.idx);
  }

  lemma RefTextParts(r: Ref)
    ensures var s := RefText(r); |s| > 15 && s[0] == FamText(r.fam)[0] && s[13..|s| - 2] == Decimal(r.idx)
  {
    Middle(FamText(r.fam) + "#inet#mr#pr_", Decimal(r.idx), "_" + FamText(r.fam));
    assert RefText(r) == FamText(r.fam) + "#inet#mr#pr_" + Decimal(r.idx) + ("_" + FamText(r.fam));
  }

  lemma Middle(front: string, x: string, back: string)
    ensures var s := front + x + back; s[|front|..|s| - |back|] == x
  {
  }

  // Text before the first comma, and the rest.
  lemma CommaSplits(x: string, y: string, x': string, y': string)
    requires ',' !in x && ',' !in x' && x + "," + y == x' + "," + y'
    ensures x == x' && y == y'
  {
    var s := x + "," + y;
    assert s[|x|] == ',' && s[|x'|] == ',';
    assert |x| == |x'|;
    assert s[..|x|] == x && (x' + "," + y')[..|x'|] == x';
    assert s[|x| + 1..] == y && (x' + "," + y')[|x'| + 1..] == y';
  }

  /** A key stands for one list of sets: grouping domains by key text is grouping them by their sets. */
  lemma {:induction false} KeyInjective(a: seq<Ref>, b: seq<Ref>)
    requires ValidRefs(a) && ValidRefs(b) && KeyText(a) == KeyText(b)
    ensures a == b
  {
    if a != [] { RefTextPlain(a[0]); }
    if b != [] { RefTextPlain(b[0]); }
    if a == [] || b == [] {
      assert KeyText(a) == "" && KeyText(b) == "";
    } else if |a| == 1 && |b| == 1 {
      RefTextInjective(a[0], b[0]);
    } else if |a| > 1 && |b| > 1 {
      CommaSplits(RefText(a[0]), KeyText(a[1..]), RefText(b[0]), KeyText(b[1..]));
      RefTextInjective(a[0], b[0]);
      KeyInjective(a[1..], b[1..]);
      assert a == [a[0]] + a[1..] && b == [b[0]] + b[1..];
    } else {
      assert false;
    }
  }

  // ---- the compiler ----

  type Owners = map<Name, seq<nat>>

  function OwnersAt(own: Owners, d: Name): seq<nat> {
    if d in own then own[d] else []
  }

  // own[d]: the positions, among the first n policies and i domains of the next, that list d itself.
  ghost predicate OwnersSoFar(own: Owners, pds: seq<Policy>, n: nat, i: nat) {
    && (forall d :: d in own ==> own[d] != [])
    && (forall d: Name, k: nat :: k in OwnersAt(own, d) <==> Owns(pds, n, i, k, d))
  }

  ghost predicate Owns(pds: seq<Policy>, n: nat, i: nat, k: nat, d: Name) {
    && k < |pds|
    && ((k < n && d in pds[k].domains) || (k == n && i <= |pds[k].domains| && d in pds[k].domains[..i]))
  }

  lemma OwnersNext(own: Owners, pds: seq<Policy>, n: nat, i: nat)
    requires n < |pds| && i < |pds[n].domains| && OwnersSoFar(own, pds, n, i)
    ensures var d := pds[n].domains[i]; OwnersSoFar(own[d := OwnersAt(own, d) + [n]], pds, n, i + 1)
  {
    var ds := pds[n].domains;
    var x := ds[i];
    var own' := own[x := OwnersAt(own, x) + [n]];
    assert ds[..i + 1] == ds[..i] + [x];
    forall d: Name, k: nat
      ensures k in OwnersAt(own', d) <==> Owns(pds, n, i + 1, k, d)
    {
      assert k in OwnersAt(own, d) <==> Owns(pds, n, i, k, d);
      assert Owns(pds, n, i + 1, k, d) <==> Owns(pds, n, i, k, d) || (k == n && d == x);
    }
  }

  lemma OwnersTurn(own: Owners, pds: seq<Policy>, n: nat)
    requires n < |pds| && OwnersSoFar(own, pds, n, |pds[n].domains|)
    ensures OwnersSoFar(own, pds, n + 1, 0)
  {
    var ds := pds[n].domains;
    assert ds[..|ds|] == ds;
    forall d: Name, k: nat
      ensures k in OwnersAt(own, d) <==> Owns(pds, n + 1, 0, k, d)
    {
      assert k in OwnersAt(own, d) <==> Owns(pds, n, |ds|, k, d);
    }
  }

  ghost predicate OwnersOf(own: Owners, pds: seq<Policy>) {
    OwnersSoFar(own, pds, |pds|, 0)
  }

  method FindOwners(pds: seq<Policy>) returns (own: Owners)
    ensures OwnersOf(own, pds)
  {
    own := map[];
    for k := 0 to |pds|
      invariant OwnersSoFar(own, pds, k, 0)
    {
      var ds := pds[k].domains;
      for i := 0 to |ds|
        invariant OwnersSoFar(own, pds, k, i)
      {
        OwnersNext(own, pds, k, i);
        own := own[ds[i] := OwnersAt(own, ds[i]) + [k]];
      }
      OwnersTurn(own, pds, k);
    }
  }

  ghost predicate Ascending(xs: seq<nat>) {
    forall i, j :: 0 <= i < j < |xs| ==> xs[i] <= xs[j]
  }

  method InsertInt(xs: seq<nat>, x: nat) returns (ys: seq<nat>)
    requires Ascending(xs)
    ensures Ascending(ys)
    ensures forall y :: y in ys <==> y in xs || y == x
  {
    var k := |xs|;
    while k > 0 && xs[k - 1] > x
      invariant 0 <= k <= |xs|
      invariant forall j :: k <= j < |xs| ==> xs[j] > x
    {
      k := k - 1;
    }
    InsertKeeps(xs, x, k);
    ys := xs[..k] + [x] + xs[k..];
    forall i, j | 0 <= i < j < |ys|
      ensures ys[i] <= ys[j]
    {
      assert ys[i] == if i < k then xs[i] else if i == k then x else xs[i - 1];
      assert ys[j] == if j < k then xs[j] else if j == k then x else xs[j - 1];
      assert i < k ==> xs[i] <= xs[k - 1] <= x;
    }
  }

  method SortInts(xs: seq<nat>) returns (ys: seq<nat>)
    ensures Ascending(ys)
    ensures forall x :: x in ys <==> x in xs
  {
    ys := [];
    for i := 0 to |xs|
      invariant Ascending(ys)
      invariant forall x :: x in ys <==> x in xs[..i]
    {
      assert xs[..i + 1] == xs[..i] + [xs[i]];
      ys := InsertInt(ys, xs[i]);
    }
    assert xs[..|xs|] == xs;
  }

  lemma ListsByChain(pd: Policy, d: Name)
    ensures Lists(pd, d) <==> exists i :: 0 <= i < |Chain(d)| && Chain(d)[i] in pd.domains
  {
    if Lists(pd, d) {
      var p :| p in pd.domains && Under(d, p);
      ChainIsUnder(d, p);
    }
    if i :| 0 <= i < |Chain(d)| && Chain(d)[i] in pd.domains {
      ChainIsUnder(d, Chain(d)[i]);
    }
  }

  // The positions of all policies that list d or a parent of it, by following d's parents.
  method Positions(d: Name, own: Owners, pds: seq<Policy>) returns (ks: seq<nat>)
    requires OwnersOf(own, pds)
    ensures forall k :: k in ks <==> 0 <= k < |pds| && Lists(pds[k], d)
  {
    ks := [];
    var p := d;
    ghost var n := 0;
    while true
      invariant 0 <= n < |Chain(d)| && Chain(d)[n] == p
      invariant forall k :: k in ks <==> 0 <= k < |pds| && exists i :: 0 <= i < n && Chain(d)[i] in pds[k].domains
      decreases |p|
    {
      ks := ks + if p in own then own[p] else [];
      forall k
        ensures k in ks <==> 0 <= k < |pds| && exists i :: 0 <= i < n + 1 && Chain(d)[i] in pds[k].domains
      {
        assert k >= 0 ==> (k in OwnersAt(own, p) <==> Owns(pds, |pds|, 0, k, p));
      }
      ChainNext(d, n);
      var i := FirstDot(p);
      if i.None? {
        forall k | 0 <= k < |pds|
          ensures (exists i :: 0 <= i < n + 1 && Chain(d)[i] in pds[k].domains) <==> Lists(pds[k], d)
        {
          ListsByChain(pds[k], d);
        }
        return;
      }
      p := p[i.value + 1..];
      n := n + 1;
    }
  }

  lemma {:induction false} NoneBetween(pds: seq<Policy>, q: Name, m: nat, n: nat)
    requires m <= n <= |pds|
    requires forall k :: m <= k < n ==> !Lists(pds[k], q)
    ensures RefsUpTo(pds, q, n) == RefsUpTo(pds, q, m)
    decreases n
  {
    if m < n {
      NoneBetween(pds, q, m, n - 1);
    }
  }

  // Sorted positions of exactly the policies that list d.
  ghost predicate ListsAt(ks: seq<nat>, pds: seq<Policy>, d: Name) {
    && Ascending(ks)
    && forall k :: k in ks <==> 0 <= k < |pds| && Lists(pds[k], d)
  }

  // The next position, or the end: nothing in between lists d.
  lemma NextPosition(ks: seq<nat>, pds: seq<Policy>, d: Name, j: nat)
    requires ListsAt(ks, pds, d) && j <= |ks|
    ensures var upto := if j == 0 then 0 else ks[j - 1] + 1;
            var next := if j < |ks| then ks[j] else |pds|;
            && upto <= |pds|
            && (j < |ks| ==> next < |pds| && Lists(pds[next], d))
            && (upto <= next ==> RefsUpTo(pds, d, next) == RefsUpTo(pds, d, upto))
  {
    var upto := if j == 0 then 0 else ks[j - 1] + 1;
    var next := if j < |ks| then ks[j] else |pds|;
    if j > 0 { assert ks[j - 1] in ks; }
    if j < |ks| { assert ks[j] in ks; }
    if upto <= next {
      forall k | upto <= k < next
        ensures !Lists(pds[k], d)
      {
        assert forall i :: 0 <= i < |ks| ==> ks[i] != k;
      }
      NoneBetween(pds, d, upto, next);
    }
  }

  // The set list of a domain, each policy's sets once, in policy order.
  function Upto(ks: seq<nat>, j: nat): nat
    requires j <= |ks|
  {
    if j == 0 then 0 else ks[j - 1] + 1
  }

  // The refs up to the j-th position, and one more unless it repeats.
  lemma RefListStep(ks: seq<nat>, pds: seq<Policy>, d: Name, j: nat)
    requires ListsAt(ks, pds, d) && j < |ks|
    ensures ks[j] < |pds| && Upto(ks, j) <= |pds| && Upto(ks, j + 1) <= |pds|
    ensures RefsUpTo(pds, d, Upto(ks, j + 1)) ==
            if j > 0 && ks[j - 1] == ks[j] then RefsUpTo(pds, d, Upto(ks, j))
            else RefsUpTo(pds, d, Upto(ks, j)) + Refs(pds[ks[j]])
  {
    NextPosition(ks, pds, d, j);
    NextPosition(ks, pds, d, j + 1);
  }

  method RefList(d: Name, own: Owners, pds: seq<Policy>) returns (refs: seq<Ref>)
    requires OwnersOf(own, pds)
    ensures refs == RefsOf(pds, d)
  {
    var unsorted := Positions(d, own, pds);
    var ks := SortInts(unsorted);
    refs := [];
    for j := 0 to |ks|
      invariant Upto(ks, j) <= |pds| && refs == RefsUpTo(pds, d, Upto(ks, j))
    {
      RefListStep(ks, pds, d, j);
      if !(j > 0 && ks[j - 1] == ks[j]) {
        refs := refs + Refs(pds[ks[j]]);
      }
    }
    NextPosition(ks, pds, d, |ks|);
  }

  // ---- groups and lines ----

  type Groups = map<string, seq<Name>>

  // Each domain of done is in the group of its key, once, and in no other.
  ghost predicate GroupsOf(g: Groups, done: set<Name>, pds: seq<Policy>) {
    && (forall key :: key in g ==> g[key] != [] && NoRepeats(g[key]))
    && (forall key, d :: key in g && d in g[key] ==> d in done && key == KeyText(RefsOf(pds, d)))
    && (forall d :: d in done ==> KeyText(RefsOf(pds, d)) in g && d in g[KeyText(RefsOf(pds, d))])
  }

  method GroupDomains(own: Owners, pds: seq<Policy>, skip: set<Name>) returns (g: Groups)
    requires OwnersOf(own, pds)
    ensures GroupsOf(g, Listed(pds) - skip, pds)
  {
    g := map[];
    var todo := own.Keys;
    KeysAreListed(own, pds);
    while todo != {}
      invariant todo <= own.Keys
      invariant GroupsOf(g, own.Keys - todo - skip, pds)
    {
      var d :| d in todo;
      if d !in skip {
        var refs := RefList(d, own, pds);
        var key := KeyText(refs);
        GroupNext(g, own.Keys - todo - skip, pds, d);
        g := g[key := (if key in g then g[key] else []) + [d]];
        assert own.Keys - (todo - {d}) - skip == own.Keys - todo - skip + {d};
      } else {
        assert own.Keys - (todo - {d}) - skip == own.Keys - todo - skip;
      }
      todo := todo - {d};
    }
    assert own.Keys - todo - skip == Listed(pds) - skip;
  }

  lemma GroupNext(g: Groups, done: set<Name>, pds: seq<Policy>, d: Name)
    requires GroupsOf(g, done, pds) && d !in done
    ensures var key := KeyText(RefsOf(pds, d));
            GroupsOf(g[key := (if key in g then g[key] else []) + [d]], done + {d}, pds)
  {
    var key := KeyText(RefsOf(pds, d));
    assert key in g ==> d !in g[key];
  }

  lemma KeysAreListed(own: Owners, pds: seq<Policy>)
    requires OwnersOf(own, pds)
    ensures own.Keys == Listed(pds)
  {
    forall d | d in own
      ensures d in Listed(pds)
    {
      var k := own[d][0];
      assert k in OwnersAt(own, d);
      assert Owns(pds, |pds|, 0, k, d);
    }
    forall d | d in Listed(pds)
      ensures d in own
    {
      var k :| 0 <= k < |pds| && d in pds[k].domains;
      assert Owns(pds, |pds|, 0, k, d);
      assert k in OwnersAt(own, d);
    }
  }

  datatype Line = Line(domains: seq<Name>, key: string)

  function DomainText(ds: seq<Name>): string {
    if ds == [] then "" else DomainText(ds[..|ds| - 1]) + "/" + ds[|ds| - 1]
  }

  function Text(l: Line): string {
    "nftset=" + DomainText(l.domains) + "/" + l.key
  }

  // The lines' domains, in order.
  function DomainsOf(ls: seq<Line>): seq<Name> {
    if ls == [] then [] else DomainsOf(ls[..|ls| - 1]) + ls[|ls| - 1].domains
  }

  ghost predicate ShortLine(l: Line) {
    l.domains != [] && (|Text(l)| > 1000 ==> |l.domains| == 1)
  }

  lemma OneMore(ds: seq<Name>, d: Name)
    ensures DomainText(ds + [d]) == DomainText(ds) + "/" + d
  {
    assert (ds + [d])[..|ds|] == ds;
  }

  lemma OneLineMore(ls: seq<Line>, l: Line)
    ensures DomainsOf(ls + [l]) == DomainsOf(ls) + l.domains
  {
    assert (ls + [l])[..|ls|] == ls;
  }

  ghost predicate Written(out: seq<string>, lines: seq<Line>, key: string) {
    && |out| == |lines|
    && (forall i :: 0 <= i < |out| ==> out[i] == Text(lines[i]))
    && (forall l :: l in lines ==> l.key == key && ShortLine(l))
  }

  lemma WrittenNext(out: seq<string>, lines: seq<Line>, key: string, cur: seq<Name>)
    requires Written(out, lines, key) && ShortLine(Line(cur, key))
    ensures Written(out + [Text(Line(cur, key))], lines + [Line(cur, key)], key)
    ensures DomainsOf(lines + [Line(cur, key)]) == DomainsOf(lines) + cur
  {
    OneLineMore(lines, Line(cur, key));
  }

  lemma TakeMore(ds: seq<Name>, i: nat, done: seq<Name>, cur: seq<Name>)
    requires i < |ds| && done + cur == ds[..i]
    ensures done + (cur + [ds[i]]) == ds[..i + 1] && done + cur + [ds[i]] == ds[..i + 1] && done + cur + [] == ds[..i]
  {
  }

  // One group's lines: every domain once, in order; a line is over 1000 bytes only for one domain.
  method PackLines(ds: seq<Name>, key: string) returns (out: seq<string>, ghost lines: seq<Line>)
    requires ds != []
    ensures Written(out, lines, key)
    ensures DomainsOf(lines) == ds
  {
    out, lines := [], [];
    var line := "";
    ghost var cur: seq<Name> := [];
    for i := 0 to |ds|
      invariant Packed(out, lines, key, line, cur, ds, i)
    {
      var d := ds[i];
      if line != "" && |line| + |d| + |key| + 2 > 1000 {
        LineFull(out, lines, key, line, cur, ds, i);
        out, lines := out + [line + "/" + key], lines + [Line(cur, key)];
        line, cur := "", [];
      }
      PackedNext(out, lines, key, line, cur, ds, i);
      line := Longer(line, d);
      cur := cur + [d];
    }
    assert ds[..|ds|] == ds;
    LineWritten(out, lines, key, line, cur, |ds|);
    out, lines := out + [line + "/" + key], lines + [Line(cur, key)];
  }

  function Longer(line: string, d: Name): string {
    if line == "" then "nftset=/" + d else line + "/" + d
  }

  // The line being grown, with the domains it has so far.
  ghost predicate Begun(line: string, cur: seq<Name>, key: string, i: int) {
    && line == (if cur == [] then "" else "nftset=" + DomainText(cur))
    && (i > 0 ==> ShortLine(Line(cur, key)))
  }

  // The first i domains are in the lines written and the one being grown.
  ghost predicate Packed(out: seq<string>, lines: seq<Line>, key: string, line: string, cur: seq<Name>,
                         ds: seq<Name>, i: nat)
    requires i <= |ds|
  {
    Written(out, lines, key) && DomainsOf(lines) + cur == ds[..i] && Begun(line, cur, key, i)
  }

  lemma LineFull(out: seq<string>, lines: seq<Line>, key: string, line: string, cur: seq<Name>, ds: seq<Name>, i: nat)
    requires i <= |ds| && Packed(out, lines, key, line, cur, ds, i) && line != ""
    ensures Written(out + [line + "/" + key], lines + [Line(cur, key)], key)
    ensures DomainsOf(lines + [Line(cur, key)]) + [] == ds[..i]
  {
    assert i > 0 by {
      assert |DomainsOf(lines) + cur| == i;
    }
    LineWritten(out, lines, key, line, cur, i);
  }

  lemma PackedNext(out: seq<string>, lines: seq<Line>, key: string, line: string, cur: seq<Name>, ds: seq<Name>, i: nat)
    requires i < |ds| && Written(out, lines, key) && DomainsOf(lines) + cur == ds[..i]
    requires line == if cur == [] then "" else "nftset=" + DomainText(cur)
    requires line != "" ==> |line| + |ds[i]| + |key| + 2 <= 1000
    ensures Packed(out, lines, key, Longer(line, ds[i]), cur + [ds[i]], ds, i + 1)
  {
    TakeMore(ds, i, DomainsOf(lines), cur);
    BegunNext(line, cur, key, ds[i], i);
  }

  lemma BegunNext(line: string, cur: seq<Name>, key: string, d: Name, i: nat)
    requires line == if cur == [] then "" else "nftset=" + DomainText(cur)
    requires line != "" ==> |line| + |d| + |key| + 2 <= 1000
    ensures Begun(Longer(line, d), cur + [d], key, i + 1)
  {
    OneMore(cur, d);
    LongerText(line, cur, d);
    assert |Text(Line(cur + [d], key))| == |Longer(line, d)| + 1 + |key|;
  }

  lemma LongerText(line: string, cur: seq<Name>, d: Name)
    requires line == if cur == [] then "" else "nftset=" + DomainText(cur)
    ensures Longer(line, d) == "nftset=" + DomainText(cur + [d])
    ensures line != "" ==> |Longer(line, d)| == |line| + 1 + |d| && cur != []
    ensures line == "" ==> cur == []
  {
    OneMore(cur, d);
    if cur == [] {
      assert "nftset=/" == "nftset=" + "/";
      assert "nftset=" + "/" + d == "nftset=" + (DomainText([]) + "/" + d);
    } else {
      assert line + "/" + d == "nftset=" + (DomainText(cur) + "/" + d);
    }
  }

  // A line that has begun is complete with its key.
  lemma LineWritten(out: seq<string>, lines: seq<Line>, key: string, line: string, cur: seq<Name>, i: nat)
    requires Written(out, lines, key) && Begun(line, cur, key, i) && i > 0
    ensures Written(out + [line + "/" + key], lines + [Line(cur, key)], key)
    ensures DomainsOf(lines + [Line(cur, key)]) == DomainsOf(lines) + cur
  {
    WrittenNext(out, lines, key, cur);
  }

  // No domain is in two groups.
  ghost predicate Disjoint(g: Groups) {
    forall k, k', d :: k in g && k' in g && d in g[k] && d in g[k'] ==> k == k'
  }

  lemma GroupsDisjoint(g: Groups, done: set<Name>, pds: seq<Policy>)
    requires GroupsOf(g, done, pds)
    ensures Disjoint(g)
  {
    forall k, k', d | k in g && k' in g && d in g[k] && d in g[k']
      ensures k == k'
    {
      assert k == KeyText(RefsOf(pds, d));
      assert k' == KeyText(RefsOf(pds, d));
    }
  }

  ghost predicate InGroups(d: Name, g: Groups, keys: seq<string>) {
    exists key :: key in keys && key in g && d in g[key]
  }

  // The lines so far: the domains of the keys already written, each once, under their own key.
  ghost predicate Emitted(out: seq<string>, lines: seq<Line>, g: Groups, keys: seq<string>) {
    EmittedLines(out, lines, g) && EmittedDomains(lines, g, keys)
  }

  ghost predicate EmittedLines(out: seq<string>, lines: seq<Line>, g: Groups) {
    && |out| == |lines|
    && (forall i :: 0 <= i < |out| ==> out[i] == Text(lines[i]))
    && (forall l :: l in lines ==> ShortLine(l) && l.key in g && forall d :: d in l.domains ==> d in g[l.key])
  }

  ghost predicate EmittedDomains(lines: seq<Line>, g: Groups, keys: seq<string>) {
    && NoRepeats(DomainsOf(lines))
    && (forall d :: d in DomainsOf(lines) <==> InGroups(d, g, keys))
  }

  lemma {:induction false} DomainsConcat(a: seq<Line>, b: seq<Line>)
    ensures DomainsOf(a + b) == DomainsOf(a) + DomainsOf(b)
    decreases |b|
  {
    if b == [] {
      assert a + b == a;
    } else {
      assert (a + b)[..|a + b| - 1] == a + b[..|b| - 1];
      DomainsConcat(a, b[..|b| - 1]);
    }
  }

  lemma LinesNext(out: seq<string>, lines: seq<Line>, g: Groups, key: string, ds: seq<Name>,
                  more: seq<string>, moreLines: seq<Line>)
    requires EmittedLines(out, lines, g) && key in g
    requires forall d :: d in ds ==> d in g[key]
    requires Written(more, moreLines, key) && DomainsOf(moreLines) == ds
    ensures EmittedLines(out + more, lines + moreLines, g)
  {
    forall l | l in moreLines
      ensures forall d :: d in l.domains ==> d in g[key]
    {
      LineWithin(moreLines, l);
    }
  }

  lemma DomainsNext(lines: seq<Line>, g: Groups, keys: seq<string>, key: string, ds: seq<Name>, moreLines: seq<Line>)
    requires EmittedDomains(lines, g, keys) && key !in keys && key in g && Disjoint(g)
    requires NoRepeats(ds) && forall d :: d in ds <==> d in g[key]
    requires DomainsOf(moreLines) == ds
    ensures EmittedDomains(lines + moreLines, g, keys + [key])
  {
    DomainsConcat(lines, moreLines);
    forall d
      ensures InGroups(d, g, keys + [key]) <==> InGroups(d, g, keys) || d in ds
      ensures d in ds ==> !InGroups(d, g, keys)
    {
      if d in ds {
        assert key in keys + [key];
      }
      if InGroups(d, g, keys) {
        var k :| k in keys && k in g && d in g[k];
        assert k in keys + [key];
      }
    }
    NoRepeatsConcat(DomainsOf(lines), ds);
  }

  lemma NoRepeatsConcat(a: seq<Name>, b: seq<Name>)
    requires NoRepeats(a) && NoRepeats(b) && forall x :: x in b ==> x !in a
    ensures NoRepeats(a + b)
  {
    forall i, j | 0 <= i < j < |a + b|
      ensures (a + b)[i] != (a + b)[j]
    {
      if i < |a| <= j {
        assert b[j - |a|] in b && a[i] in a;
      }
    }
  }

  lemma {:induction false} LineWithin(ls: seq<Line>, l: Line)
    requires l in ls
    ensures forall d :: d in l.domains ==> d in DomainsOf(ls)
  {
    if ls[|ls| - 1] != l {
      LineWithin(ls[..|ls| - 1], l);
    }
  }

  method KeyList(g: Groups) returns (keys: seq<string>)
    ensures Sorted(keys) && NoRepeats(keys) && forall k :: k in keys <==> k in g
  {
    var todo := g.Keys;
    keys := [];
    while todo != {}
      invariant todo <= g.Keys && NoRepeats(keys)
      invariant forall k :: k in keys <==> k in g.Keys - todo
    {
      var k :| k in todo;
      assert k !in keys;
      keys := keys + [k];
      todo := todo - {k};
    }
    keys := Sort(keys);
  }

  // What the compiler promises of its lines.
  ghost predicate Compiled(lines: seq<Line>, pds: seq<Policy>, skip: set<Name>) {
    && NoRepeats(DomainsOf(lines))
    && (forall d :: d in DomainsOf(lines) <==> d in Listed(pds) - skip)
    && (forall l :: l in lines ==> ShortLine(l) && forall d :: d in l.domains ==> l.key == KeyText(RefsOf(pds, d)))
  }

  /** The nftset= lines of all policies: every domain that is not skipped is on exactly one line, beside
      the sets of all policies that list it or a parent of it; and a line passes 1000 bytes only if it
      holds a single domain. */
  method PolicyNftsetLines(pds: seq<Policy>, skip: set<Name>) returns (out: seq<string>, ghost lines: seq<Line>)
    requires ValidPolicies(pds)
    ensures |out| == |lines| && forall i :: 0 <= i < |out| ==> out[i] == Text(lines[i])
    ensures Compiled(lines, pds, skip)
  {
    var own := FindOwners(pds);
    var groups := GroupDomains(own, pds, skip);
    var keys := KeyList(groups);
    GroupsDisjoint(groups, Listed(pds) - skip, pds);
    out, lines := [], [];
    for i := 0 to |keys|
      invariant Emitted(out, lines, groups, keys[..i])
    {
      var key := keys[i];
      assert keys[..i + 1] == keys[..i] + [key];
      assert key in keys && key !in keys[..i];
      var ds := Sort(groups[key]);
      assert groups[key][0] in ds;
      var more;
      ghost var moreLines;
      more, moreLines := PackLines(ds, key);
      LinesNext(out, lines, groups, key, ds, more, moreLines);
      DomainsNext(lines, groups, keys[..i], key, ds, moreLines);
      out, lines := out + more, lines + moreLines;
    }
    assert keys[..|keys|] == keys;
    forall d
      ensures d in DomainsOf(lines) <==> d in Listed(pds) - skip
    {
      assert d in DomainsOf(lines) <==> InGroups(d, groups, keys);
      if d in Listed(pds) - skip {
        assert KeyText(RefsOf(pds, d)) in keys;
      }
    }
  }

  lemma RefsValid(pds: seq<Policy>, q: Name)
    requires ValidPolicies(pds)
    ensures ValidRefs(RefsOf(pds, q))
  {
    forall r | r in RefsOf(pds, q)
      ensures r.fam == 4 || r.fam == 6
    {
      RefsMean(pds, q, |pds|, r);
      var k :| 0 <= k < |pds| && Lists(pds[k], q) && r in Refs(pds[k]);
    }
  }

  /** Compilation preserves meaning: the line the engine uses for a query names each set once, and
      exactly the sets of the policies that list the query or one of its parents. */
  lemma NamesExactSets(lines: seq<Line>, pds: seq<Policy>, q: Name, l: Line, m: Name)
    requires ValidPolicies(pds) && Compiled(lines, pds, {})
    requires MostSpecific(q, Listed(pds)) == Some(m) && l in lines && m in l.domains
    ensures l.key == KeyText(RefsOf(pds, q)) && NoRepeats(RefsOf(pds, q)) && ValidRefs(RefsOf(pds, q))
    ensures forall r :: r in RefsOf(pds, q) <==> exists k :: 0 <= k < |pds| && Lists(pds[k], q) && r in Refs(pds[k])
    ensures forall rs :: ValidRefs(rs) && KeyText(rs) == l.key ==> rs == RefsOf(pds, q)
  {
    RefsOfMostSpecific(pds, q, m, |pds|);
    RefsOnce(pds, q, |pds|);
    forall r
      ensures r in RefsOf(pds, q) <==> exists k :: 0 <= k < |pds| && Lists(pds[k], q) && r in Refs(pds[k])
    {
      RefsMean(pds, q, |pds|, r);
    }
    RefsValid(pds, q);
    forall rs | ValidRefs(rs) && KeyText(rs) == l.key
      ensures rs == RefsOf(pds, q)
    {
      KeyInjective(rs, RefsOf(pds, q));
    }
  }

  /** A query under no listed domain uses no line, and one under a listed domain has its line. */
  lemma EveryListedQueryHasALine(lines: seq<Line>, pds: seq<Policy>, q: Name)
    requires Compiled(lines, pds, {})
    ensures MostSpecific(q, Listed(pds)).Some? <==> ListsSome(pds, q)
    ensures ListsSome(pds, q) ==> exists l :: l in lines && MostSpecific(q, Listed(pds)).value in l.domains
  {
    if ListsSome(pds, q) {
      var k :| 0 <= k < |pds| && Lists(pds[k], q);
      var p :| p in pds[k].domains && Under(q, p);
      assert p in Listed(pds);
      var m := MostSpecific(q, Listed(pds)).value;
      assert m in DomainsOf(lines);
      OnSomeLine(lines, m);
    }
    if MostSpecific(q, Listed(pds)).Some? {
      var m := MostSpecific(q, Listed(pds)).value;
      var k :| 0 <= k < |pds| && m in pds[k].domains;
      assert Lists(pds[k], q);
    }
  }

  lemma {:induction false} OnSomeLine(ls: seq<Line>, d: Name)
    requires d in DomainsOf(ls)
    ensures exists l :: l in ls && d in l.domains
  {
    if d in ls[|ls| - 1].domains {
      assert ls[|ls| - 1] in ls;
    } else {
      OnSomeLine(ls[..|ls| - 1], d);
    }
  }
}
