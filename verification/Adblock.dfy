/** The ad-block lists compiled for an engine where only the most specific name counts. */
module Adblock {
  import opened Wrappers
  import opened DomainNames
  import opened StringSort

  // A query is refused when the name the engine uses for it is a blocked one.
  ghost predicate Refused(q: Name, block: set<Name>, fwd: set<Name>) {
    var m := MostSpecific(q, block + fwd);
    m.Some? && m.value in block
  }

  ghost predicate Kept(d: Name, listed: set<Name>, allowed: set<Name>) {
    d in listed && !UnderSome(d, allowed) && !ProperlyUnderSome(d, listed)
  }

  // What the two output lists are, as sets.
  ghost predicate Compiled(block: set<Name>, fwd: set<Name>, listed: set<Name>, allowed: set<Name>) {
    && (forall d :: d in block <==> Kept(d, listed, allowed))
    && (forall a :: a in fwd <==> a in allowed && ProperlyUnderSome(a, block))
  }

  // The topmost listed parent of a listed name.
  lemma {:induction false} Topmost(q: Name, listed: set<Name>) returns (top: Name)
    requires UnderSome(q, listed)
    ensures top in listed && Under(q, top) && !ProperlyUnderSome(top, listed)
    decreases |q|
  {
    var d :| d in listed && Under(q, d);
    if ProperlyUnderSome(d, listed) {
      var p :| p in listed && p != d && Under(d, p);
      top := Topmost(p, listed);
      UnderTransitive(q, d, p);
      UnderTransitive(q, p, top);
    } else {
      top := d;
    }
  }

  /** Compilation preserves meaning: a query is refused exactly when a listed name is it or a parent of
      it, and no allowed name is. */
  lemma BlocksExactly(block: set<Name>, fwd: set<Name>, listed: set<Name>, allowed: set<Name>, q: Name)
    requires Compiled(block, fwd, listed, allowed)
    ensures Refused(q, block, fwd) <==> UnderSome(q, listed) && !UnderSome(q, allowed)
  {
    var m := MostSpecific(q, block + fwd);
    if Refused(q, block, fwd) {
      if UnderSome(q, allowed) {
        var a :| a in allowed && Under(q, a);
        UnderLinear(q, a, m.value);
        assert false;
      }
    }
    if UnderSome(q, listed) && !UnderSome(q, allowed) {
      var top := Topmost(q, listed);
      if UnderSome(top, allowed) {
        var a :| a in allowed && Under(top, a);
        UnderTransitive(q, top, a);
      }
      assert top in block;
      assert m.Some?;
    }
  }

  // No blocked name lies under another.
  lemma BlockedApart(block: set<Name>, fwd: set<Name>, listed: set<Name>, allowed: set<Name>, a: Name, b: Name)
    requires Compiled(block, fwd, listed, allowed)
    requires a in block && b in block && a != b
    ensures !Under(a, b)
  {
  }

  function SetOf(xs: seq<Name>): set<Name> {
    set x | x in xs
  }

  method Dedup(xs: seq<Name>) returns (ys: seq<Name>)
    ensures NoRepeats(ys) && SetOf(ys) == SetOf(xs)
  {
    ys := [];
    for i := 0 to |xs|
      invariant NoRepeats(ys) && forall x :: x in ys <==> x in xs[..i]
    {
      assert xs[..i + 1] == xs[..i] + [xs[i]];
      if xs[i] !in ys {
        ys := ys + [xs[i]];
      }
    }
    assert xs[..|xs|] == xs;
  }

  // The listed names that are neither allowed nor under an allowed or another listed name.
  method KeptNames(listed: set<Name>, allowed: set<Name>) returns (block: seq<Name>)
    ensures NoRepeats(block)
    ensures forall d :: d in block <==> Kept(d, listed, allowed)
  {
    block := [];
    var todo := listed;
    while todo != {}
      invariant todo <= listed && NoRepeats(block)
      invariant forall d :: d in block <==> d in listed - todo && Kept(d, listed, allowed)
    {
      var d :| d in todo;
      var a := ParentIn(d, allowed);
      var b := ParentIn(d, listed);
      assert UnderSome(d, allowed) <==> d in allowed || ProperlyUnderSome(d, allowed) by {
        assert Under(d, d);
      }
      assert d !in block;
      if !(d in allowed || a || b) {
        block := block + [d];
      }
      todo := todo - {d};
    }
  }

  /** The names to block (sorted, none under another) and the allowed names that sit under a blocked
      one: together they refuse exactly the queries the lists and the exceptions mean. */
  method AdblockBuild(listed: set<Name>, allow: seq<Name>) returns (block: seq<Name>, fwd: seq<Name>)
    ensures forall q :: Refused(q, SetOf(block), SetOf(fwd)) <==> UnderSome(q, listed) && !UnderSome(q, SetOf(allow))
    ensures forall a, b :: a in block && b in block && a != b ==> !Under(a, b)
    ensures Sorted(block) && NoRepeats(block) && Sorted(fwd) && NoRepeats(fwd)
    ensures SetOf(block) !! SetOf(fwd)
  {
    var allowed := SetOf(allow);
    var kept := KeptNames(listed, allowed);
    block := Sort(kept);
    var names := Dedup(allow);
    fwd := [];
    for i := 0 to |names|
      invariant NoRepeats(fwd)
      invariant forall a :: a in fwd <==> a in names[..i] && ProperlyUnderSome(a, SetOf(kept))
    {
      assert names[..i + 1] == names[..i] + [names[i]];
      var under := ParentIn(names[i], SetOf(kept));
      if under {
        assert names[i] !in names[..i];
        fwd := fwd + [names[i]];
      }
    }
    assert names[..|names|] == names;
    assert forall a :: a in names <==> a in SetOf(names);
    fwd := Sort(fwd);
    assert SetOf(block) == SetOf(kept);
    assert Compiled(SetOf(block), SetOf(fwd), listed, allowed);
    forall q
      ensures Refused(q, SetOf(block), SetOf(fwd)) <==> UnderSome(q, listed) && !UnderSome(q, allowed)
    {
      BlocksExactly(SetOf(block), SetOf(fwd), listed, allowed, q);
    }
    forall d | d in block
      ensures d !in fwd
    {
      assert Under(d, d);
    }
  }
}
