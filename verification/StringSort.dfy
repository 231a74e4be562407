/** Strings in byte order, and sorting by it. */
module StringSort {
  predicate Leq(a: string, b: string) {
    a == "" || (b != "" && (a[0] < b[0] || (a[0] == b[0] && Leq(a[1..], b[1..]))))
  }

  // The strings are the same before k, and at k the first has ended or has the smaller character.
  predicate FirstDifferAt(a: string, b: string, k: nat) {
    k <= |a| && k <= |b| && a[..k] == b[..k] && (k == |a| || (k < |b| && a[k] < b[k]))
  }

  lemma SameStart(a: string, b: string, k: nat)
    requires k <= |a| && k <= |b| && a[..k] == b[..k]
    ensures k > 0 ==> a[0] == b[0]
  {
    assert k > 0 ==> a[..k][0] == b[..k][0];
  }

  lemma {:induction false} LeqMeans(a: string, b: string)
    ensures Leq(a, b) <==> exists k :: FirstDifferAt(a, b, k)
  {
    if a == "" || b == "" || a[0] != b[0] {
      assert Leq(a, b) ==> FirstDifferAt(a, b, 0);
      forall k: nat | FirstDifferAt(a, b, k)
        ensures k > 0 ==> a != "" && b != "" && a[0] == b[0]
      {
        SameStart(a, b, k);
      }
    } else {
      LeqMeans(a[1..], b[1..]);
      assert a == [a[0]] + a[1..] && b == [b[0]] + b[1..];
      if k: nat :| FirstDifferAt(a, b, k) {
        if k > 0 {
          assert a[1..][..k - 1] == a[..k][1..] && b[1..][..k - 1] == b[..k][1..];
          assert FirstDifferAt(a[1..], b[1..], k - 1);
        }
      }
      if k: nat :| FirstDifferAt(a[1..], b[1..], k) {
        assert a[..k + 1] == [a[0]] + a[1..][..k] && b[..k + 1] == [b[0]] + b[1..][..k];
        assert FirstDifferAt(a, b, k + 1);
      }
    }
  }

  lemma {:induction false} LeqTotal(a: string, b: string)
    ensures Leq(a, b) || Leq(b, a)
  {
    if a != "" && b != "" && a[0] == b[0] {
      LeqTotal(a[1..], b[1..]);
    }
  }

  lemma {:induction false} LeqTransitive(a: string, b: string, c: string)
    requires Leq(a, b) && Leq(b, c)
    ensures Leq(a, c)
  {
    if a != "" && a[0] == b[0] && b[0] == c[0] {
      LeqTransitive(a[1..], b[1..], c[1..]);
    }
  }

  ghost predicate Sorted(xs: seq<string>) {
    forall i, j :: 0 <= i < j < |xs| ==> Leq(xs[i], xs[j])
  }

  ghost predicate NoRepeats<T>(xs: seq<T>) {
    forall i, j :: 0 <= i < j < |xs| ==> xs[i] != xs[j]
  }

  method Insert(xs: seq<string>, x: string) returns (ys: seq<string>)
    requires Sorted(xs)
    ensures Sorted(ys) && |ys| == |xs| + 1
    ensures exists k :: 0 <= k <= |xs| && ys == xs[..k] + [x] + xs[k..]
  {
    var k := |xs|;
    while k > 0 && !Leq(xs[k - 1], x)
      invariant 0 <= k <= |xs|
      invariant forall j :: k <= j < |xs| ==> Leq(x, xs[j])
    {
      LeqTotal(xs[k - 1], x);
      k := k - 1;
    }
    ys := xs[..k] + [x] + xs[k..];
    forall i | 0 <= i < k
      ensures Leq(xs[i], x)
    {
      if i < k - 1 {
        LeqTransitive(xs[i], xs[k - 1], x);
      }
    }
  }

  method Sort(xs: seq<string>) returns (ys: seq<string>)
    ensures Sorted(ys) && |ys| == |xs|
    ensures forall x :: x in ys <==> x in xs
    ensures NoRepeats(xs) ==> NoRepeats(ys)
  {
    ys := [];
    for i := 0 to |xs|
      invariant Sorted(ys) && |ys| == i
      invariant forall x :: x in ys <==> x in xs[..i]
      invariant NoRepeats(xs) ==> NoRepeats(ys)
    {
      assert xs[..i + 1] == xs[..i] + [xs[i]];
      ghost var was := ys;
      ys := Insert(ys, xs[i]);
      ghost var k :| 0 <= k <= |was| && ys == was[..k] + [xs[i]] + was[k..];
      InsertKeeps(was, xs[i], k);
      if NoRepeats(xs) {
        assert xs[i] !in xs[..i];
      }
    }
    assert xs[..|xs|] == xs;
  }

  lemma InsertKeeps<T>(was: seq<T>, x: T, k: nat)
    requires k <= |was|
    ensures forall y :: y in was[..k] + [x] + was[k..] <==> y in was || y == x
    ensures NoRepeats(was) && x !in was ==> NoRepeats(was[..k] + [x] + was[k..])
  {
    assert was == was[..k] + was[k..];
  }
}
