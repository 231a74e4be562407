/** Config paths: the parser, the printer that undoes it, and the split of PATH=VALUE. */
module ConfigPath {
  import opened Wrappers
  import opened QuotedText

  datatype Step = Key(key: string) | Item(selKey: string, val: string)

  datatype Error = BadQuotes | NoBracket | EmptyBrackets | NoSeparator | EmptyKey | EmptyPath

  datatype Result<T> = Ok(value: T) | Err(error: Error)

  predicate IdentChar(c: char) {
    c == '_' || c == '-' || 'a' <= c <= 'z' || 'A' <= c <= 'Z' || '0' <= c <= '9'
  }

  predicate Ident(s: string) {
    All(s, IdentChar)
  }

  predicate KeyChar(c: char) {
    c != '.' && c != '[' && c != ']' && c != '"' && c != '=' && c != ' ' && c != '\t'
  }

  predicate NotClosing(c: char) {
    c != ']'
  }

  // ---- the parser ----

  predicate All(s: string, such: char -> bool) {
    forall k :: 0 <= k < |s| ==> such(s[k])
  }

  // How many such characters s starts with.
  function RunLength(s: string, such: char -> bool): (n: nat)
    ensures n <= |s|
  {
    if s != "" && such(s[0]) then 1 + RunLength(s[1..], such) else 0
  }

  lemma {:induction false} RunLengthIs(a: string, b: string, such: char -> bool)
    requires All(a, such) && (b != "" ==> !such(b[0]))
    ensures RunLength(a + b, such) == |a|
    decreases |a|
  {
    if a == "" {
      assert a + b == b;
    } else {
      assert (a + b)[1..] == a[1..] + b;
      RunLengthIs(a[1..], b, such);
    }
  }

  lemma {:induction false} RunIsAll(s: string, such: char -> bool)
    ensures var n := RunLength(s, such); All(s[..n], such) && (n < |s| ==> !such(s[n]))
    decreases |s|
  {
    if s != "" && such(s[0]) {
      RunIsAll(s[1..], such);
      assert s[..RunLength(s, such)] == [s[0]] + s[1..][..RunLength(s[1..], such)];
    }
  }

  // A path starts with a key; a selector's key is an identifier (or left out).
  predicate Allowed(st: Step, first: bool) {
    if first then st.Key? else st.Item? ==> Ident(st.selKey)
  }

  function Prepend(st: Step, r: Result<seq<Step>>): Result<seq<Step>> {
    if r.Ok? then Ok([st] + r.value) else r
  }

  // The steps of a path, or of what is left of one.
  function Parse(s: string, first: bool): Result<seq<Step>>
    decreases |s|, 3
  {
    if s == "" then if first then Err(EmptyPath) else Ok([])
    else if first then KeyAt(s)
    else if s[0] == '[' then SelectorAt(s[1..])
    else if s[0] == '.' then KeyAt(s[1..])
    else Err(NoSeparator)
  }

  function KeyAt(s: string): Result<seq<Step>>
    decreases |s|, 2
  {
    if s != "" && s[0] == '"' then
      var q := Unquoted(s);
      if q.None? then Err(BadQuotes) else Prepend(Key(q.value.0), Parse(s[q.value.1..], false))
    else
      var n := RunLength(s, KeyChar);
      if n == 0 then Err(EmptyKey) else Prepend(Key(s[..n]), Parse(s[n..], false))
  }

  function SelectorAt(s: string): Result<seq<Step>>
    decreases |s|, 2
  {
    var n := RunLength(s, IdentChar);
    if 0 < n < |s| && s[n] == '=' then ValueAt(s[n + 1..], s[..n]) else ValueAt(s, "")
  }

  // The value of a selector, up to the bracket that closes it.
  function ValueAt(s: string, selKey: string): Result<seq<Step>>
    decreases |s|, 1
  {
    if s != "" && s[0] == '"' then
      var q := Unquoted(s);
      if q.None? then Err(BadQuotes) else Close(s[q.value.1..], Item(selKey, q.value.0))
    else
      var n := RunLength(s, NotClosing);
      if n == |s| then Err(NoBracket)
      else if n == 0 then Err(EmptyBrackets)
      else Close(s[n..], Item(selKey, s[..n]))
  }

  function Close(s: string, st: Step): Result<seq<Step>>
    decreases |s|, 0
  {
    if s == "" || s[0] != ']' then Err(NoBracket) else Prepend(st, Parse(s[1..], false))
  }

  // What is parsed already, and the rest.
  function Onto(out: seq<Step>, r: Result<seq<Step>>): Result<seq<Step>> {
    if r.Ok? then Ok(out + r.value) else r
  }

  lemma OntoPrepend(out: seq<Step>, st: Step, r: Result<seq<Step>>)
    ensures Onto(out, Prepend(st, r)) == Onto(out + [st], r)
  {
    if r.Ok? {
      assert out + ([st] + r.value) == out + [st] + r.value;
    }
  }

  lemma OntoNothing(r: Result<seq<Step>>)
    ensures Onto([], r) == r
  {
    if r.Ok? {
      assert [] + r.value == r.value;
    }
  }

  // One step read from i up to the next; or the error.
  ghost predicate StepOf(p: string, i: nat, parsed: Result<seq<Step>>, r: Result<(Step, nat)>) {
    match r
    case Ok((st, next)) => i < next <= |p| && parsed == Prepend(st, Parse(p[next..], false))
    case Err(e) => parsed == Err(e)
  }

  lemma AllMore(p: string, i: nat, j: nat, such: char -> bool)
    requires i <= j < |p| && All(p[i..j], such) && such(p[j])
    ensures All(p[i..j + 1], such)
  {
    assert p[i..j + 1] == p[i..j] + [p[j]];
  }

  // A run found by walking from i to j.
  lemma Walked(p: string, i: nat, j: nat, such: char -> bool)
    requires i <= j <= |p| && All(p[i..j], such) && (j < |p| ==> !such(p[j]))
    ensures RunLength(p[i..], such) == j - i && p[i..][..j - i] == p[i..j] && p[i..][j - i..] == p[j..]
    ensures j < |p| ==> p[i..][j - i] == p[j] && p[i..][j - i + 1..] == p[j + 1..]
  {
    RunLengthIs(p[i..j], p[j..], such);
    assert p[i..] == p[i..j] + p[j..];
  }

  lemma Further(p: string, i: nat, n: nat)
    requires i + n <= |p|
    ensures p[i..][n..] == p[i + n..]
  {
  }

  // What a quoted value, and the bracket behind it, come to.
  lemma QuotedValueOf(p: string, i: nat, selKey: string)
    requires i < |p| && p[i] == '"'
    ensures var q := Unquoted(p[i..]);
            StepOf(p, i, ValueAt(p[i..], selKey),
                   if q.None? then Err(BadQuotes) else ClosedAt(p, i + q.value.1, Item(selKey, q.value.0)))
  {
    var q := Unquoted(p[i..]);
    if q.Some? {
      Further(p, i, q.value.1);
      ClosesAt(p, i, i + q.value.1, Item(selKey, q.value.0));
    }
  }

  function ClosedAt(p: string, j: nat, st: Step): Result<(Step, nat)> {
    if j >= |p| || p[j] != ']' then Err(NoBracket) else Ok((st, j + 1))
  }

  lemma ClosesAt(p: string, i: nat, j: nat, st: Step)
    requires i <= j <= |p|
    ensures StepOf(p, i, Close(p[j..], st), ClosedAt(p, j, st))
  {
    if j < |p| {
      Further(p, j, 1);
    }
  }

  // What a bare value from i to j comes to.
  lemma PlainValueOf(p: string, i: nat, j: nat, selKey: string)
    requires i <= j <= |p| && All(p[i..j], NotClosing) && (j < |p| ==> p[j] == ']') && (i < |p| ==> p[i] != '"')
    ensures StepOf(p, i, ValueAt(p[i..], selKey),
                   if j == |p| then Err(NoBracket) else if i == j then Err(EmptyBrackets)
                   else ClosedAt(p, j, Item(selKey, p[i..j])))
  {
    Walked(p, i, j, NotClosing);
    ClosesAt(p, i, j, Item(selKey, p[i..j]));
  }

  method ReadValue(p: string, start: nat, selKey: string) returns (r: Result<(Step, nat)>)
    requires start <= |p|
    ensures StepOf(p, start, ValueAt(p[start..], selKey), r)
  {
    var i := start;
    var val: string;
    if i < |p| && p[i] == '"' {
      QuotedValueOf(p, start, selKey);
      var q := Unquoted(p[i..]);
      if q.None? {
        return Err(BadQuotes);
      }
      val, i := q.value.0, i + q.value.1;
    } else {
      while i < |p| && p[i] != ']'
        invariant start <= i <= |p| && All(p[start..i], NotClosing)
      {
        AllMore(p, start, i, NotClosing);
        i := i + 1;
      }
      PlainValueOf(p, start, i, selKey);
      if i == |p| {
        return Err(NoBracket);
      }
      val := p[start..i];
      if val == "" {
        return Err(EmptyBrackets);
      }
    }
    if i >= |p| || p[i] != ']' {
      return Err(NoBracket);
    }
    r := Ok((Item(selKey, val), i + 1));
  }

  lemma SelectorOf(p: string, i: nat, j: nat)
    requires i <= j <= |p| && All(p[i..j], IdentChar) && (j < |p| ==> !IdentChar(p[j]))
    ensures SelectorAt(p[i..]) ==
            if i < j < |p| && p[j] == '=' then ValueAt(p[j + 1..], p[i..j]) else ValueAt(p[i..], "")
  {
    Walked(p, i, j, IdentChar);
  }

  method ReadSelector(p: string, i: nat) returns (r: Result<(Step, nat)>)
    requires i <= |p|
    ensures StepOf(p, i, SelectorAt(p[i..]), r)
  {
    var j := i;
    while j < |p| && IdentChar(p[j])
      invariant i <= j <= |p| && All(p[i..j], IdentChar)
    {
      AllMore(p, i, j, IdentChar);
      j := j + 1;
    }
    SelectorOf(p, i, j);
    if j > i && j < |p| && p[j] == '=' {
      r := ReadValue(p, j + 1, p[i..j]);
    } else {
      r := ReadValue(p, i, "");
    }
  }

  lemma QuotedKeyOf(p: string, i: nat)
    requires i < |p| && p[i] == '"'
    ensures var q := Unquoted(p[i..]);
            StepOf(p, i, KeyAt(p[i..]), if q.None? then Err(BadQuotes) else Ok((Key(q.value.0), i + q.value.1)))
  {
    var q := Unquoted(p[i..]);
    if q.Some? {
      Further(p, i, q.value.1);
    }
  }

  lemma PlainKeyOf(p: string, i: nat, j: nat)
    requires i <= j <= |p| && All(p[i..j], KeyChar) && (j < |p| ==> !KeyChar(p[j])) && (i < |p| ==> p[i] != '"')
    ensures StepOf(p, i, KeyAt(p[i..]), if i == j then Err(EmptyKey) else Ok((Key(p[i..j]), j)))
  {
    Walked(p, i, j, KeyChar);
  }

  method ReadKey(p: string, i: nat) returns (r: Result<(Step, nat)>)
    requires i <= |p|
    ensures StepOf(p, i, KeyAt(p[i..]), r)
  {
    if i < |p| && p[i] == '"' {
      QuotedKeyOf(p, i);
      var q := Unquoted(p[i..]);
      if q.None? {
        return Err(BadQuotes);
      }
      return Ok((Key(q.value.0), i + q.value.1));
    }
    var j := i;
    while j < |p| && KeyChar(p[j])
      invariant i <= j <= |p| && All(p[i..j], KeyChar)
    {
      AllMore(p, i, j, KeyChar);
      j := j + 1;
    }
    PlainKeyOf(p, i, j);
    if j == i {
      return Err(EmptyKey);
    }
    r := Ok((Key(p[i..j]), j));
  }

  method ParsePath(p: string) returns (r: Result<seq<Step>>)
    ensures r == Parse(p, true)
  {
    var out: seq<Step> := [];
    var i := 0;
    OntoNothing(Parse(p, true));
    assert p[0..] == p;
    while i < |p|
      invariant i <= |p| && (i > 0 <==> out != [])
      invariant Parse(p, true) == Onto(out, Parse(p[i..], out == []))
      decreases |p| - i
    {
      var st: Result<(Step, nat)>;
      Further(p, i, 1);
      if |out| > 0 && p[i] == '[' {
        st := ReadSelector(p, i + 1);
      } else {
        if |out| > 0 && p[i] != '.' {
          return Err(NoSeparator);
        }
        st := ReadKey(p, if |out| > 0 then i + 1 else i);
      }
      if st.Err? {
        return Err(st.error);
      }
      OntoPrepend(out, st.value.0, Parse(p[st.value.1..], false));
      out, i := out + [st.value.0], st.value.1;
    }
    if |out| == 0 {
      return Err(EmptyPath);
    }
    r := Ok(out);
    assert out + [] == out;
  }

  // ---- the printer ----

  predicate Space(c: char) {
    var n := c as int;
    || 9 <= n <= 13 || n in {0x20, 0x85, 0xa0, 0x1680, 0x2028, 0x2029, 0x202f, 0x205f, 0x3000} || 0x2000 <= n <= 0x200a
  }

  predicate PlainKeyChar(c: char) {
    IdentChar(c) || c == ':' || c == '/' || c == '+'
  }

  function FmtKey(k: string, wide: char -> bool): string {
    if !All(k, PlainKeyChar) then Quote(k, wide)
    else if k == "" then "\"\""
    else k
  }

  predicate PlainValue(v: string) {
    && v != "" && !Space(v[0]) && !Space(v[|v| - 1])
    && All(v, PlainValueChar)
  }

  predicate PlainValueChar(c: char) {
    c != '[' && c != ']' && c != '"' && c != '=' && c >= ' ' && c != DEL
  }

  function FmtSel(v: string, wide: char -> bool): string {
    if PlainValue(v) then v else Quote(v, wide)
  }

  function SelPrefix(selKey: string): string {
    if selKey != "" then selKey + "=" else ""
  }

  function FmtStep(st: Step, first: bool, wide: char -> bool): (s: string)
    ensures s != [] && (!first || st.Item? ==> s[0] == '.' || s[0] == '[')
  {
    match st
    case Item(selKey, val) => "[" + SelPrefix(selKey) + FmtSel(val, wide) + "]"
    case Key(key) => (if first then "" else ".") + FmtKey(key, wide)
  }

  function Fmt(steps: seq<Step>, first: bool, wide: char -> bool): string {
    if steps == [] then "" else FmtStep(steps[0], first, wide) + Fmt(steps[1..], false, wide)
  }

  method WriteStep(st: Step, first: bool, wide: char -> bool) returns (b: string)
    ensures b == FmtStep(st, first, wide)
  {
    match st {
      case Item(selKey, val) =>
        b := "[";
        if selKey != "" {
          b := b + (selKey + "=");
        }
        b := b + FmtSel(val, wide) + "]";
      case Key(key) =>
        b := if first then "" else ".";
        b := b + FmtKey(key, wide);
    }
  }

  method FmtPath(steps: seq<Step>, wide: char -> bool) returns (b: string)
    ensures b == Fmt(steps, true, wide)
  {
    b := "";
    NonePrinted(steps, wide);
    for i := 0 to |steps|
      invariant Printed(steps, i, b, wide)
    {
      var piece := WriteStep(steps[i], i == 0, wide);
      OneMore(b, steps, i, wide);
      b := b + piece;
    }
    AllPrinted(b, steps, wide);
  }

  // b is the text of the first i steps.
  ghost predicate Printed(steps: seq<Step>, i: nat, b: string, wide: char -> bool)
    requires i <= |steps|
  {
    Fmt(steps, true, wide) == b + Fmt(steps[i..], i == 0, wide)
  }

  lemma NonePrinted(steps: seq<Step>, wide: char -> bool)
    ensures Printed(steps, 0, "", wide)
  {
    assert steps[0..] == steps;
    assert "" + Fmt(steps, true, wide) == Fmt(steps, true, wide);
  }

  lemma OneMore(b: string, steps: seq<Step>, i: nat, wide: char -> bool)
    requires i < |steps| && Printed(steps, i, b, wide)
    ensures Printed(steps, i + 1, b + FmtStep(steps[i], i == 0, wide), wide)
  {
    assert steps[i..][1..] == steps[i + 1..];
    Glue(b, FmtStep(steps[i], i == 0, wide), Fmt(steps[i + 1..], false, wide));
  }

  lemma AllPrinted(b: string, steps: seq<Step>, wide: char -> bool)
    requires Printed(steps, |steps|, b, wide)
    ensures b == Fmt(steps, true, wide)
  {
    assert steps[|steps|..] == [];
  }
}
