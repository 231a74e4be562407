/** Line diffs of generated files: a longest-common-subsequence table over the lines that differ. */
module LineDiff {
  type Line = string

  // ---- common subsequences ----

  // ix are increasing positions in xs.
  ghost predicate Positions(ix: seq<int>, n: int) {
    && (forall k :: 0 <= k < |ix| ==> 0 <= ix[k] < n)
    && (forall k, l :: 0 <= k < l < |ix| ==> ix[k] < ix[l])
  }

  // c is xs with some lines left out.
  ghost predicate Subsequence(c: seq<Line>, xs: seq<Line>) {
    exists ix :: Picks(c, xs, ix)
  }

  ghost predicate Picks(c: seq<Line>, xs: seq<Line>, ix: seq<int>) {
    |ix| == |c| && Positions(ix, |xs|) && forall k :: 0 <= k < |c| ==> xs[ix[k]] == c[k]
  }

  // The length the table holds for the ends of a and b.
  function Lcs(a: seq<Line>, b: seq<Line>): nat
    decreases |a| + |b|
  {
    if a == [] || b == [] then 0
    else if a[0] == b[0] then Lcs(a[1..], b[1..]) + 1
    else
      var x, y := Lcs(a[1..], b), Lcs(a, b[1..]);
      if x >= y then x else y
  }

  // Without its first line, a subsequence is one of what comes after that line.
  lemma TailPicks(c: seq<Line>, xs: seq<Line>, ix: seq<int>)
    requires c != [] && Picks(c, xs, ix)
    ensures xs != [] && Subsequence(c[1..], xs[1..])
    ensures ix[0] > 0 ==> Subsequence(c, xs[1..])
  {
    assert xs[ix[0]] == c[0];
    var tail := seq(|c| - 1, k requires 0 <= k < |c| - 1 => ix[k + 1] - 1);
    assert Picks(c[1..], xs[1..], tail);
    if ix[0] > 0 {
      var all := seq(|c|, k requires 0 <= k < |c| => ix[k] - 1);
      assert forall k :: 0 <= k < |c| ==> ix[k] > 0;
      assert Picks(c, xs[1..], all);
    }
  }

  lemma {:induction false} NoLongerCommon(c: seq<Line>, a: seq<Line>, b: seq<Line>)
    requires Subsequence(c, a) && Subsequence(c, b)
    ensures |c| <= Lcs(a, b)
    decreases |a| + |b|
  {
    if c != [] {
      var ia :| Picks(c, a, ia);
      var ib :| Picks(c, b, ib);
      TailPicks(c, a, ia);
      TailPicks(c, b, ib);
      if a[0] == b[0] {
        NoLongerCommon(c[1..], a[1..], b[1..]);
      } else if ia[0] > 0 {
        NoLongerCommon(c, a[1..], b);
      } else {
        assert ib[0] > 0;
        NoLongerCommon(c, a, b[1..]);
      }
    }
  }

  lemma SubsequenceCons(x: Line, c: seq<Line>, xs: seq<Line>)
    requires Subsequence(c, xs)
    ensures Subsequence([x] + c, [x] + xs)
    ensures Subsequence(c, [x] + xs)
  {
    var ix :| Picks(c, xs, ix);
    var shifted := seq(|ix|, k requires 0 <= k < |ix| => ix[k] + 1);
    assert Picks(c, [x] + xs, shifted);
    assert Picks([x] + c, [x] + xs, [0] + shifted);
  }

  // The bound is met: the table's length is that of a longest common subsequence.
  lemma {:induction false} LongestCommon(a: seq<Line>, b: seq<Line>)
    ensures exists c :: Subsequence(c, a) && Subsequence(c, b) && |c| == Lcs(a, b)
    decreases |a| + |b|
  {
    if a == [] || b == [] {
      assert Picks([], a, []) && Picks([], b, []);
    } else {
      assert a == [a[0]] + a[1..] && b == [b[0]] + b[1..];
      if a[0] == b[0] {
        LongestCommon(a[1..], b[1..]);
        var c :| Subsequence(c, a[1..]) && Subsequence(c, b[1..]) && |c| == Lcs(a[1..], b[1..]);
        SubsequenceCons(a[0], c, a[1..]);
        SubsequenceCons(b[0], c, b[1..]);
      } else if Lcs(a[1..], b) >= Lcs(a, b[1..]) {
        LongestCommon(a[1..], b);
        var c :| Subsequence(c, a[1..]) && Subsequence(c, b) && |c| == Lcs(a[1..], b);
        SubsequenceCons(a[0], c, a[1..]);
      } else {
        LongestCommon(a, b[1..]);
        var c :| Subsequence(c, a) && Subsequence(c, b[1..]) && |c| == Lcs(a, b[1..]);
        SubsequenceCons(b[0], c, b[1..]);
      }
    }
  }

  // ---- diffs ----

  datatype Edit = Same(line: Line) | Add(line: Line) | Del(line: Line)

  function Nl(l: Line): Line {
    if l != "" && l[|l| - 1] == '\n' then l else l + "\n"
  }

  function Show(e: Edit): string {
    match e
    case Same(l) => " " + Nl(l)
    case Add(l) => "+" + Nl(l)
    case Del(l) => "-" + Nl(l)
  }

  // The two texts a shown diff stands for, and the lines they share.
  function OldSide(out: seq<string>): seq<Line> {
    if out == [] then []
    else OldSide(out[..|out| - 1]) + var l := out[|out| - 1]; if l != "" && l[0] != '+' then [l[1..]] else []
  }

  function NewSide(out: seq<string>): seq<Line> {
    if out == [] then []
    else NewSide(out[..|out| - 1]) + var l := out[|out| - 1]; if l != "" && l[0] != '-' then [l[1..]] else []
  }

  function Shared(out: seq<string>): nat {
    if out == [] then 0
    else Shared(out[..|out| - 1]) + var l := out[|out| - 1]; if l != "" && l[0] == ' ' then 1 else 0
  }

  function Lines(xs: seq<Line>): seq<Line> {
    seq(|xs|, i requires 0 <= i < |xs| => Nl(xs[i]))
  }

  // A diff of a and b, nothing lost on either side.
  ghost predicate DiffOf(out: seq<string>, a: seq<Line>, b: seq<Line>) {
    OldSide(out) == Lines(a) && NewSide(out) == Lines(b)
  }

  lemma ShownEdit(out: seq<string>, e: Edit)
    ensures OldSide(out + [Show(e)]) == OldSide(out) + if e.Add? then [] else [Nl(e.line)]
    ensures NewSide(out + [Show(e)]) == NewSide(out) + if e.Del? then [] else [Nl(e.line)]
    ensures Shared(out + [Show(e)]) == Shared(out) + if e.Same? then 1 else 0
  {
    assert (out + [Show(e)])[..|out|] == out;
    assert Show(e)[1..] == Nl(e.line);
  }

  lemma DiffExtends(out: seq<string>, e: Edit, a: seq<Line>, i: nat, b: seq<Line>, j: nat)
    requires i <= |a| && j <= |b| && DiffOf(out, a[..i], b[..j])
    ensures e.Same? && i < |a| && j < |b| && e.line == a[i] && a[i] == b[j] ==>
              DiffOf(out + [Show(e)], a[..i + 1], b[..j + 1])
    ensures e.Del? && i < |a| && e.line == a[i] ==> DiffOf(out + [Show(e)], a[..i + 1], b[..j])
    ensures e.Add? && j < |b| && e.line == b[j] ==> DiffOf(out + [Show(e)], a[..i], b[..j + 1])
  {
    ShownEdit(out, e);
    if i < |a| {
      LineMore(a, i);
    }
    if j < |b| {
      LineMore(b, j);
    }
  }

  lemma LineMore(a: seq<Line>, i: nat)
    requires i < |a|
    ensures Lines(a[..i + 1]) == Lines(a[..i]) + [Nl(a[i])]
  {
  }

  const MAX_CELLS := 250000

  /** The edits between two runs of lines: with the table, no diff shares more lines. */
  method LineOps(a: seq<Line>, b: seq<Line>) returns (out: seq<string>)
    ensures DiffOf(out, a, b)
    ensures |a| * |b| <= MAX_CELLS ==> Shared(out) == Lcs(a, b)
    ensures |a| * |b| > MAX_CELLS ==> Shared(out) == 0
  {
    var n, m := |a|, |b|;
    out := [];
    if n * m > MAX_CELLS {
      out := AllReplaced(a, b);
      return;
    }
    var L := Table(a, b);
    var i, j := 0, 0;
    while i < n || j < m
      invariant 0 <= i <= n && 0 <= j <= m
      invariant DiffOf(out, a[..i], b[..j])
      invariant Shared(out) + Ends(a, b, i, j) == Lcs(a, b)
      modifies {}
      decreases n - i + m - j
    {
      EndsStep(a, b, i, j);
      if i < n && j < m && a[i] == b[j] {
        Shows(out, Same(a[i]), a, i, b, j);
        out := out + [" " + Nl(a[i])];
        i, j := i + 1, j + 1;
      } else if j < m && (i == n || L[i, j + 1] >= L[i + 1, j]) {
        Shows(out, Add(b[j]), a, i, b, j);
        out := out + ["+" + Nl(b[j])];
        j := j + 1;
      } else {
        Shows(out, Del(a[i]), a, i, b, j);
        out := out + ["-" + Nl(a[i])];
        i := i + 1;
      }
    }
    assert a[..n] == a && b[..m] == b;
  }

  function Ends(a: seq<Line>, b: seq<Line>, i: int, j: int): nat
    requires 0 <= i <= |a| && 0 <= j <= |b|
  {
    Lcs(a[i..], b[j..])
  }

  lemma EndsStep(a: seq<Line>, b: seq<Line>, i: int, j: int)
    requires 0 <= i <= |a| && 0 <= j <= |b|
    ensures Ends(a, b, i, j) ==
            if i == |a| || j == |b| then 0
            else if a[i] == b[j] then Ends(a, b, i + 1, j + 1) + 1
            else if Ends(a, b, i + 1, j) >= Ends(a, b, i, j + 1) then Ends(a, b, i + 1, j)
            else Ends(a, b, i, j + 1)
    ensures i < |a| && j == |b| ==> Ends(a, b, i + 1, j) == 0
    ensures i == |a| && j < |b| ==> Ends(a, b, i, j + 1) == 0
  {
    if i < |a| {
      assert a[i..][1..] == a[i + 1..];
    }
    if j < |b| {
      assert b[j..][1..] == b[j + 1..];
    }
  }

  lemma Shows(out: seq<string>, e: Edit, a: seq<Line>, i: nat, b: seq<Line>, j: nat)
    requires i <= |a| && j <= |b| && DiffOf(out, a[..i], b[..j])
    requires match e
             case Same(l) => i < |a| && j < |b| && l == a[i] && a[i] == b[j]
             case Add(l) => j < |b| && l == b[j]
             case Del(l) => i < |a| && l == a[i]
    ensures DiffOf(out + [Show(e)], a[..if e.Add? then i else i + 1], b[..if e.Del? then j else j + 1])
    ensures Shared(out + [Show(e)]) == Shared(out) + if e.Same? then 1 else 0
  {
    DiffExtends(out, e, a, i, b, j);
    ShownEdit(out, e);
  }

  method AllReplaced(a: seq<Line>, b: seq<Line>) returns (out: seq<string>)
    ensures DiffOf(out, a, b) && Shared(out) == 0
  {
    out := [];
    for i := 0 to |a|
      invariant DiffOf(out, a[..i], b[..0]) && Shared(out) == 0
    {
      DiffExtends(out, Del(a[i]), a, i, b, 0);
      ShownEdit(out, Del(a[i]));
      out := out + ["-" + Nl(a[i])];
    }
    assert a[..|a|] == a;
    for j := 0 to |b|
      invariant DiffOf(out, a, b[..j]) && Shared(out) == 0
    {
      DiffExtends(out, Add(b[j]), a, |a|, b, j);
      ShownEdit(out, Add(b[j]));
      out := out + ["+" + Nl(b[j])];
    }
    assert b[..|b|] == b;
  }

  method Table(a: seq<Line>, b: seq<Line>) returns (L: array2<int>)
    ensures L.Length0 == |a| + 1 && L.Length1 == |b| + 1
    ensures forall i, j :: 0 <= i <= |a| && 0 <= j <= |b| ==> L[i, j] == Ends(a, b, i, j)
  {
    var n, m := |a|, |b|;
    L := new int[n + 1, m + 1]((_, _) => 0);
    forall i, j | 0 <= i <= n && 0 <= j <= m && (i == n || j == m)
      ensures Ends(a, b, i, j) == 0
    {
      EndsStep(a, b, i, j);
    }
    for i := n downto 0
      invariant forall k, l :: i <= k <= n && 0 <= l <= m ==> L[k, l] == Ends(a, b, k, l)
      invariant forall k :: 0 <= k < i ==> L[k, m] == 0
    {
      for j := m downto 0
        invariant forall k, l :: i < k <= n && 0 <= l <= m ==> L[k, l] == Ends(a, b, k, l)
        invariant forall l :: j <= l <= m ==> L[i, l] == Ends(a, b, i, l)
        invariant forall k :: 0 <= k < i ==> L[k, m] == 0
      {
        EndsStep(a, b, i, j);
        if a[i] == b[j] {
          L[i, j] := L[i + 1, j + 1] + 1;
        } else if L[i + 1, j] >= L[i, j + 1] {
          L[i, j] := L[i + 1, j];
        } else {
          L[i, j] := L[i, j + 1];
        }
      }
    }
  }

  // ---- trimming ----

  lemma {:induction false} LcsPrefix(p: seq<Line>, x: seq<Line>, y: seq<Line>)
    ensures Lcs(p + x, p + y) == |p| + Lcs(x, y)
  {
    if p == [] {
      assert p + x == x && p + y == y;
    } else {
      LcsPrefix(p[1..], x, y);
      assert (p + x)[1..] == p[1..] + x && (p + y)[1..] == p[1..] + y;
    }
  }

  lemma {:induction false} LcsLast(x: seq<Line>, y: seq<Line>, z: Line)
    ensures Lcs(x + [z], y + [z]) == Lcs(x, y) + 1
    decreases |x| + |y|
  {
    var xz, yz := x + [z], y + [z];
    if x == [] && y == [] {
    } else if x == [] {
      assert yz[1..] == y[1..] + [z];
      LcsLast(x, y[1..], z);
    } else if y == [] {
      assert xz[1..] == x[1..] + [z];
      LcsLast(x[1..], y, z);
    } else {
      assert xz[1..] == x[1..] + [z] && yz[1..] == y[1..] + [z];
      if x[0] == y[0] {
        LcsLast(x[1..], y[1..], z);
      } else {
        LcsLast(x[1..], y, z);
        LcsLast(x, y[1..], z);
      }
    }
  }

  lemma {:induction false} LcsSuffix(x: seq<Line>, y: seq<Line>, q: seq<Line>)
    ensures Lcs(x + q, y + q) == Lcs(x, y) + |q|
    decreases |q|
  {
    if q == [] {
      assert x + q == x && y + q == y;
    } else {
      var init, z := q[..|q| - 1], q[|q| - 1];
      assert x + q == (x + init) + [z] && y + q == (y + init) + [z];
      LcsLast(x + init, y + init, z);
      LcsSuffix(x, y, init);
    }
  }

  /** Cutting the lines both texts start and end with costs no shared line. */
  lemma TrimmingIsFree(a: seq<Line>, b: seq<Line>, i: nat, j: nat)
    requires i + j <= |a| && i + j <= |b|
    requires a[..i] == b[..i] && a[|a| - j..] == b[|b| - j..]
    ensures Lcs(a, b) == i + Lcs(a[i..|a| - j], b[i..|b| - j]) + j
  {
    var p, q := a[..i], a[|a| - j..];
    var x, y := a[i..|a| - j], b[i..|b| - j];
    assert a == p + (x + q) && b == p + (y + q);
    LcsPrefix(p, x + q, y + q);
    LcsSuffix(x, y, q);
  }

  // ---- file diffs ----

  function SplitAfter(s: string): (ls: seq<Line>)
    ensures ls != []
  {
    if forall c :: c in s ==> c != '\n' then [s]
    else
      var k := FirstNewline(s);
      [s[..k + 1]] + SplitAfter(s[k + 1..])
  }

  function FirstNewline(s: string): (k: nat)
    requires '\n' in s
    ensures k < |s| && s[k] == '\n' && forall i :: 0 <= i < k ==> s[i] != '\n'
  {
    if s[0] == '\n' then 0 else FirstNewline(s[1..]) + 1
  }

  function Joined(ls: seq<Line>): string {
    if ls == [] then "" else ls[0] + Joined(ls[1..])
  }

  lemma {:induction false} SplitLosesNothing(s: string)
    ensures Joined(SplitAfter(s)) == s
    decreases |s|
  {
    if '\n' in s {
      var k := FirstNewline(s);
      SplitLosesNothing(s[k + 1..]);
      assert SplitAfter(s) == [s[..k + 1]] + SplitAfter(s[k + 1..]);
      JoinedFirst(s[..k + 1], SplitAfter(s[k + 1..]));
      Halves(s, k + 1);
    } else {
      JoinedFirst(s, []);
      assert [s] + [] == [s];
    }
  }

  predicate IsLine(l: Line) {
    l != "" && l[|l| - 1] == '\n' && forall i :: 0 <= i < |l| - 1 ==> l[i] != '\n'
  }

  // Lines, and what is left behind the last newline; shown, each is a line.
  predicate AreLines(ls: seq<Line>) {
    && ls != []
    && (forall i :: 0 <= i < |ls| - 1 ==> IsLine(ls[i]) && Nl(ls[i]) == ls[i])
    && '\n' !in ls[|ls| - 1] && Nl(ls[|ls| - 1]) == ls[|ls| - 1] + "\n"
  }

  lemma OneMoreLine(l: Line, rest: seq<Line>)
    requires IsLine(l) && AreLines(rest)
    ensures AreLines([l] + rest)
  {
  }

  /** The pieces of a text are its lines, the last without its newline. */
  lemma {:induction false} PiecesAreLines(s: string)
    ensures AreLines(SplitAfter(s))
    decreases |s|
  {
    if '\n' in s {
      var k := FirstNewline(s);
      PiecesAreLines(s[k + 1..]);
      OneMoreLine(s[..k + 1], SplitAfter(s[k + 1..]));
      assert SplitAfter(s) == [s[..k + 1]] + SplitAfter(s[k + 1..]);
    } else {
      assert SplitAfter(s) == [s];
    }
  }

  lemma Halves(s: string, k: nat)
    requires k <= |s|
    ensures s[..k] + s[k..] == s
  {
  }

  lemma JoinedFirst(l: Line, rest: seq<Line>)
    ensures Joined([l] + rest) == l + Joined(rest)
  {
    assert ([l] + rest)[1..] == rest;
  }

  // at: the first line of the hunk; before and after: context; ops: the edits.
  datatype Hunk = NoHunk | Hunk(at: nat, before: seq<string>, ops: seq<string>, after: seq<string>)

  function Context(ls: seq<Line>): seq<string> {
    if ls == [] then [] else [" " + Nl(ls[0])] + Context(ls[1..])
  }

  // Replacing the hunk's old lines by its new ones turns a into b; nothing else changes.
  ghost predicate Patches(h: Hunk, a: seq<Line>, b: seq<Line>) {
    && h.Hunk? && h.at + |OldSide(h.ops)| <= |a|
    && Lines(a)[h.at..h.at + |OldSide(h.ops)|] == OldSide(h.ops)
    && Lines(a)[..h.at] + NewSide(h.ops) + Lines(a)[h.at + |OldSide(h.ops)|..] == Lines(b)
  }

  /** The diff of two texts, secrets already masked. There is none exactly when the texts are equal;
      else the hunk patches the old text to the new, with as many shared lines as any diff of the
      two could have (unless the middle is too large for the table). */
  method FileDiff(was: string, now: string) returns (h: Hunk)
    ensures h.NoHunk? <==> was == now
    ensures h.Hunk? ==> RightHunk(h, SplitAfter(was), SplitAfter(now))
  {
    if was == now {
      return NoHunk;
    }
    h := DiffLines(SplitAfter(was), SplitAfter(now));
  }

  method DiffLines(a: seq<Line>, b: seq<Line>) returns (h: Hunk)
    ensures h.Hunk? && RightHunk(h, a, b)
  {
    var i, j := Trim(a, b);
    var ops := LineOps(a[i..|a| - j], b[i..|b| - j]);
    var after := TrailingContext(a[|a| - j..]);
    h := Hunk(i, Context(a[if i < 3 then 0 else i - 3..i]), ops, after);
    TrimmedIsRight(a, b, i, j, h);
  }

  // The hunk patches a to b, shows the lines around, and shares as many lines as any diff of a and b.
  ghost predicate RightHunk(h: Hunk, a: seq<Line>, b: seq<Line>) {
    && Patches(h, a, b)
    && h.before == Context(a[if h.at < 3 then 0 else h.at - 3..h.at])
    && TrailsOf(h.after, a[h.at + |OldSide(h.ops)|..])
    && (|OldSide(h.ops)| * |NewSide(h.ops)| <= MAX_CELLS ==>
          Shared(h.ops) + |a| - |OldSide(h.ops)| == Lcs(a, b))
  }

  // The lines that follow, three of them if there are as many before the end or an empty piece.
  ghost predicate TrailsOf(after: seq<string>, ls: seq<Line>) {
    && |after| <= |ls| && |after| <= 3 && after == Context(ls[..|after|])
    && (forall i :: 0 <= i < |after| ==> ls[i] != "")
    && (|after| < 3 && |after| < |ls| ==> ls[|after|] == "")
  }

  lemma TrimmedIsRight(a: seq<Line>, b: seq<Line>, i: nat, j: nat, h: Hunk)
    requires i + j <= |a| && i + j <= |b|
    requires a[..i] == b[..i] && a[|a| - j..] == b[|b| - j..]
    requires h.Hunk? && h.at == i && DiffOf(h.ops, a[i..|a| - j], b[i..|b| - j])
    requires h.before == Context(a[if i < 3 then 0 else i - 3..i])
    requires TrailsOf(h.after, a[|a| - j..])
    requires |a[i..|a| - j]| * |b[i..|b| - j]| <= MAX_CELLS ==> Shared(h.ops) == Lcs(a[i..|a| - j], b[i..|b| - j])
    ensures RightHunk(h, a, b)
  {
    HunkIsRight(a, b, i, j, h);
    assert h.at + |OldSide(h.ops)| == |a| - j;
    assert |OldSide(h.ops)| == |a[i..|a| - j]| && |NewSide(h.ops)| == |b[i..|b| - j]|;
  }

  lemma HunkIsRight(a: seq<Line>, b: seq<Line>, i: nat, j: nat, h: Hunk)
    requires i + j <= |a| && i + j <= |b|
    requires a[..i] == b[..i] && a[|a| - j..] == b[|b| - j..]
    requires h.Hunk? && h.at == i && DiffOf(h.ops, a[i..|a| - j], b[i..|b| - j])
    ensures Patches(h, a, b) && |OldSide(h.ops)| == |a| - i - j && |NewSide(h.ops)| == |b| - i - j
    ensures Shared(h.ops) == Lcs(a[i..|a| - j], b[i..|b| - j]) ==> i + Shared(h.ops) + j == Lcs(a, b)
  {
    TrimmingIsFree(a, b, i, j);
    var p, x, y, q := a[..i], a[i..|a| - j], b[i..|b| - j], a[|a| - j..];
    Cut(a, i, j);
    Cut(b, i, j);
    HunkPatches(p, x, y, q, h);
  }

  lemma Cut(a: seq<Line>, i: nat, j: nat)
    requires i + j <= |a|
    ensures a[..i] + a[i..|a| - j] + a[|a| - j..] == a
  {
  }

  lemma LongerStart(a: seq<Line>, i: nat)
    requires i < |a|
    ensures a[..i + 1] == a[..i] + [a[i]]
  {
  }

  lemma LongerEnd(a: seq<Line>, j: nat)
    requires j < |a|
    ensures a[|a| - (j + 1)..] == [a[|a| - 1 - j]] + a[|a| - j..]
  {
  }

  // How many lines the two texts start with and, of the rest, end with.
  method Trim(a: seq<Line>, b: seq<Line>) returns (i: nat, j: nat)
    ensures i + j <= |a| && i + j <= |b|
    ensures a[..i] == b[..i] && a[|a| - j..] == b[|b| - j..]
    ensures i < |a| && i < |b| ==> a[i] != b[i]
  {
    i := 0;
    while i < |a| && i < |b| && a[i] == b[i]
      invariant i <= |a| && i <= |b| && a[..i] == b[..i]
    {
      LongerStart(a, i);
      LongerStart(b, i);
      i := i + 1;
    }
    j := 0;
    while j < |a| - i && j < |b| - i && a[|a| - 1 - j] == b[|b| - 1 - j]
      invariant i + j <= |a| && i + j <= |b| && a[|a| - j..] == b[|b| - j..]
    {
      LongerEnd(a, j);
      LongerEnd(b, j);
      j := j + 1;
    }
  }

  // Up to three lines after the edits, not past an empty piece.
  method TrailingContext(ls: seq<Line>) returns (after: seq<string>)
    ensures TrailsOf(after, ls)
  {
    after := [];
    var k := 0;
    while k < |ls| && k < 3 && ls[k] != ""
      invariant 0 <= k <= |ls| && k <= 3 && |after| == k
      invariant after == Context(ls[..k]) && forall i :: 0 <= i < k ==> ls[i] != ""
    {
      ContextNext(ls, k);
      after := after + [" " + Nl(ls[k])];
      k := k + 1;
    }
  }

  lemma {:induction false} ContextNext(ls: seq<Line>, k: nat)
    requires k < |ls|
    ensures Context(ls[..k + 1]) == Context(ls[..k]) + [" " + Nl(ls[k])]
  {
    if k > 0 {
      assert ls[..k + 1][1..] == ls[1..][..k] && ls[..k][1..] == ls[1..][..k - 1];
      ContextNext(ls[1..], k - 1);
    } else {
      assert ls[..1][1..] == [];
    }
  }

  lemma LinesConcat(u: seq<Line>, v: seq<Line>)
    ensures Lines(u + v) == Lines(u) + Lines(v)
  {
  }

  lemma HunkPatches(p: seq<Line>, x: seq<Line>, y: seq<Line>, q: seq<Line>, h: Hunk)
    requires h.Hunk? && h.at == |p| && DiffOf(h.ops, x, y)
    ensures Patches(h, p + x + q, p + y + q) && |OldSide(h.ops)| == |x|
  {
    LinesConcat(p + x, q);
    LinesConcat(p, x);
    LinesConcat(p + y, q);
    LinesConcat(p, y);
    Slices(Lines(p), Lines(x), Lines(q));
  }

  lemma Slices(u: seq<string>, v: seq<string>, w: seq<string>)
    ensures (u + v + w)[..|u|] == u
    ensures (u + v + w)[|u|..|u| + |v|] == v
    ensures (u + v + w)[|u| + |v|..] == w
  {
  }
}
