/** Domain names as dotted text, the chain of a name and its parents, and the engine's rule: of the
    names configured, only the most specific one that is the query or a parent of it counts. */
module DomainNames {
  import opened Wrappers

  type Name = string

  // q ends in a dot and p.
  predicate EndsIn(q: Name, p: Name) {
    |p| < |q| && q[|q| - |p| - 1] == '.' && q[|q| - |p|..] == p
  }

  // q is p, or lies under it.
  predicate Under(q: Name, p: Name) {
    q == p || EndsIn(q, p)
  }

  /** Lying under a name is ending in a dot and that name. */
  lemma UnderIsSuffix(q: Name, p: Name)
    ensures Under(q, p) <==> q == p || exists s: Name :: q == s + "." + p
  {
    if EndsIn(q, p) {
      var s := q[..|q| - |p| - 1];
      assert q == s + "." + p;
    }
    if s: Name :| q == s + "." + p {
      assert q[|q| - |p|..] == p;
    }
  }

  function FirstDot(d: Name): (i: Option<nat>)
    ensures i.Some? ==> i.value < |d| && d[i.value] == '.'
    ensures forall k :: 0 <= k < (if i.Some? then i.value else |d|) ==> d[k] != '.'
  {
    if d == "" then None
    else if d[0] == '.' then Some(0)
    else
      var r := FirstDot(d[1..]);
      if r.Some? then Some(r.value + 1) else None
  }

  function Parent(d: Name): (p: Option<Name>)
    ensures p.Some? ==> |p.value| < |d|
  {
    var i := FirstDot(d);
    if i.Some? then Some(d[i.value + 1..]) else None
  }

  // d and its parents, most specific first.
  function Chain(d: Name): (c: seq<Name>)
    ensures c != [] && c[0] == d
    decreases |d|
  {
    [d] + if Parent(d).Some? then Chain(Parent(d).value) else []
  }

  lemma {:induction false} ChainTail(d: Name, k: nat)
    requires k < |Chain(d)|
    ensures Chain(Chain(d)[k]) == Chain(d)[k..]
    decreases k
  {
    if k > 0 {
      var p := Parent(d).value;
      assert Chain(d)[1..] == Chain(p);
      ChainTail(p, k - 1);
      assert Chain(d)[k..] == Chain(p)[k - 1..];
    }
  }

  // Parents are shorter, so no name is in a chain twice.
  lemma {:induction false} ChainShortens(d: Name, i: nat, j: nat)
    requires i < j < |Chain(d)|
    ensures |Chain(d)[j]| < |Chain(d)[i]|
    decreases i + j
  {
    var p := Parent(d).value;
    assert Chain(d)[1..] == Chain(p);
    if i > 0 {
      ChainShortens(p, i - 1, j - 1);
    } else if j > 1 {
      ChainShortens(p, 0, j - 1);
    }
  }

  // What lies under a name of several labels lies under its parent, or is that parent.
  lemma UnderParent(q: Name, p: Name)
    requires q != p
    ensures EndsIn(q, p) <==> Parent(q).Some? && Under(Parent(q).value, p)
  {
    var i := FirstDot(q);
    if i.Some? {
      var rest := q[i.value + 1..];
      if |p| < |rest| {
        assert rest[|rest| - |p|..] == q[|q| - |p|..] && rest[|rest| - |p| - 1] == q[|q| - |p| - 1];
      }
    }
  }

  /** The chain of a name holds exactly the names it lies under. */
  lemma {:induction false} ChainIsUnder(q: Name, p: Name)
    ensures p in Chain(q) <==> Under(q, p)
    decreases |q|
  {
    if q != p {
      UnderParent(q, p);
      if Parent(q).Some? {
        ChainIsUnder(Parent(q).value, p);
      }
    }
  }

  lemma UnderTransitive(a: Name, b: Name, c: Name)
    requires Under(a, b) && Under(b, c)
    ensures Under(a, c)
  {
    if a != b && b != c {
      assert a[|a| - |b|..] == b;
      assert a[|a| - |c|..] == b[|b| - |c|..];
      assert a[|a| - |c| - 1] == b[|b| - |c| - 1];
    }
  }

  // Two names over one name lie one under the other.
  lemma UnderLinear(q: Name, a: Name, b: Name)
    requires Under(q, a) && Under(q, b)
    ensures Under(a, b) || Under(b, a)
  {
    if |a| <= |b| {
      EndOfEnd(q, b, a);
    } else {
      EndOfEnd(q, a, b);
    }
  }

  lemma EndOfEnd(q: Name, b: Name, a: Name)
    requires Under(q, a) && Under(q, b) && |a| <= |b|
    ensures Under(b, a)
  {
    assert q[|q| - |b|..] == b && q[|q| - |a|..] == a;
    assert b[|b| - |a|..] == a;
    if |a| < |b| {
      assert b[|b| - |a| - 1] == q[|q| - |a| - 1];
    }
  }

  ghost predicate UnderSome(q: Name, names: set<Name>) {
    exists p :: p in names && Under(q, p)
  }

  ghost predicate ProperlyUnderSome(q: Name, names: set<Name>) {
    exists p :: p in names && p != q && Under(q, p)
  }

  // The configured name the engine uses for q.
  function MostSpecific(q: Name, names: set<Name>): (r: Option<Name>)
    ensures r.Some? ==> r.value in names && Under(q, r.value)
    ensures r.Some? ==> forall p :: p in names && Under(q, p) ==> Under(r.value, p)
    ensures r.None? ==> !UnderSome(q, names)
    decreases |q|
  {
    if q in names then Some(q)
    else
      OverParent(q);
      if Parent(q).None? then None else MostSpecific(Parent(q).value, names)
  }

  lemma OverParent(q: Name)
    ensures forall p :: p != q ==> (Under(q, p) <==> Parent(q).Some? && Under(Parent(q).value, p))
  {
    forall p | p != q
      ensures Under(q, p) <==> Parent(q).Some? && Under(Parent(q).value, p)
    {
      UnderParent(q, p);
    }
  }

  // Follows the parents of d until one is in names.
  method ParentIn(d: Name, names: set<Name>) returns (found: bool)
    ensures found <==> ProperlyUnderSome(d, names)
  {
    var p := d;
    ghost var k := 0;
    while true
      invariant 0 <= k < |Chain(d)| && Chain(d)[k] == p
      invariant forall i :: 0 < i <= k ==> Chain(d)[i] !in names
      decreases |p|
    {
      var i := FirstDot(p);
      ChainNext(d, k);
      if i.None? {
        NotProperlyUnder(d, names);
        return false;
      }
      p := p[i.value + 1..];
      k := k + 1;
      if p in names {
        ChainShortens(d, 0, k);
        ChainIsUnder(d, p);
        return true;
      }
    }
  }

  lemma ChainNext(d: Name, k: nat)
    requires k < |Chain(d)|
    ensures var p := Parent(Chain(d)[k]);
            if p.None? then k + 1 == |Chain(d)| else k + 1 < |Chain(d)| && Chain(d)[k + 1] == p.value
  {
    var c := Chain(d)[k];
    ChainTail(d, k);
    if Parent(c).Some? {
      assert Chain(d)[k..][1] == Chain(Parent(c).value)[0];
    }
  }

  lemma NotProperlyUnder(d: Name, names: set<Name>)
    requires forall i :: 0 < i < |Chain(d)| ==> Chain(d)[i] !in names
    ensures !ProperlyUnderSome(d, names)
  {
    if ProperlyUnderSome(d, names) {
      var p :| p in names && p != d && Under(d, p);
      ChainIsUnder(d, p);
    }
  }
}
