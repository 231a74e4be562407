/** Printing a path and parsing it undo each other, and PATH=VALUE splits where the path ends. */
module PathLaws {
  import opened Wrappers
  import opened QuotedText
  import opened ConfigPath

  // ---- parse what was printed ----

  predicate StepStarts(rest: string) {
    rest == [] || rest[0] == '.' || rest[0] == '['
  }

  lemma Cut(a: string, b: string)
    ensures (a + b)[..|a|] == a && (a + b)[|a|..] == b
  {
  }

  lemma QuotedKeyReads(k: string, rest: string, wide: char -> bool)
    ensures KeyAt(Quote(k, wide) + rest) == Prepend(Key(k), Parse(rest, false))
  {
    QuoteReads(k, wide, rest);
    Cut(Quote(k, wide), rest);
  }

  lemma PlainKeyReads(k: string, rest: string)
    requires k != "" && All(k, PlainKeyChar) && StepStarts(rest)
    ensures KeyAt(k + rest) == Prepend(Key(k), Parse(rest, false))
  {
    RunLengthIs(k, rest, KeyChar);
    Cut(k, rest);
  }

  lemma KeyReads(k: string, rest: string, wide: char -> bool)
    requires StepStarts(rest)
    ensures KeyAt(FmtKey(k, wide) + rest) == Prepend(Key(k), Parse(rest, false))
  {
    if k == "" || !All(k, PlainKeyChar) {
      assert FmtKey(k, wide) == Quote(k, wide);
      QuotedKeyReads(k, rest, wide);
    } else {
      PlainKeyReads(k, rest);
    }
  }

  // ---- paths written by hand ----

  /** A key is what comes before the next of . [ ] " = space and tab, at the start or behind a dot. */
  lemma KeyByHand(k: string, rest: string)
    requires k != "" && (forall c :: c in k ==> c !in ".[]\"= \t") && (rest != "" ==> rest[0] in ".[]\"= \t")
    ensures Parse(k + rest, true) == Parse("." + k + rest, false) == Prepend(Key(k), Parse(rest, false))
  {
    forall i | 0 <= i < |k|
      ensures KeyChar(k[i]) && k[i] != '"'
    {
      assert k[i] in k;
    }
    RunLengthIs(k, rest, KeyChar);
    Cut(k, rest);
    Dot(k + rest);
    assert "." + k + rest == "." + (k + rest);
  }

  /** [key=value] stands for the item with that value under the key; the value goes up to the next closing
      bracket. */
  lemma SelectorByHand(key: string, v: string, rest: string)
    requires key != ""
    requires forall c :: c in key ==> 'a' <= c <= 'z' || 'A' <= c <= 'Z' || '0' <= c <= '9' || c in "_-"
    requires v != "" && v[0] != '"' && ']' !in v
    ensures Parse("[" + key + "=" + v + "]" + rest, false) == Prepend(Item(key, v), Parse(rest, false))
  {
    var value := v + ("]" + rest);
    assert "[" + key + "=" + v + "]" + rest == "[" + (key + "=" + value);
    Bracket(key + "=" + value);
    assert Ident(key) by {
      assert forall i :: 0 <= i < |key| ==> key[i] in key;
    }
    KeyedSelector(key, value);
    ValueByHand(key, v, rest);
  }

  /** [value], without a key, for the item of that name. */
  lemma ItemByHand(v: string, rest: string)
    requires v != "" && v[0] != '"' && ']' !in v && '=' !in v
    ensures Parse("[" + v + "]" + rest, false) == Prepend(Item("", v), Parse(rest, false))
  {
    assert "[" + v + "]" + rest == "[" + (v + ("]" + rest));
    Bracket(v + ("]" + rest));
    NoKeyByHand(v, rest);
    ValueByHand("", v, rest);
  }

  lemma ValueByHand(key: string, v: string, rest: string)
    requires v != "" && v[0] != '"' && ']' !in v
    ensures ValueAt(v + ("]" + rest), key) == Prepend(Item(key, v), Parse(rest, false))
  {
    RunLengthIs(v, "]" + rest, NotClosing);
    Cut(v, "]" + rest);
    Closes(Item(key, v), rest);
  }

  lemma NoKeyByHand(v: string, rest: string)
    requires v != "" && '=' !in v
    ensures SelectorAt(v + ("]" + rest)) == ValueAt(v + ("]" + rest), "")
  {
    var s := v + ("]" + rest);
    var n := RunLength(s, IdentChar);
    RunIsAll(s, IdentChar);
    assert n > |v| ==> IdentChar(s[..n][|v|]);
    assert n < |v| ==> s[n] == v[n];
  }

  lemma Closes(st: Step, rest: string)
    ensures Close("]" + rest, st) == Prepend(st, Parse(rest, false))
  {
    Cut("]", rest);
  }

  lemma QuotedValueReads(selKey: string, v: string, rest: string, wide: char -> bool)
    ensures ValueAt(Quote(v, wide) + ("]" + rest), selKey) == Prepend(Item(selKey, v), Parse(rest, false))
  {
    QuoteReads(v, wide, "]" + rest);
    Cut(Quote(v, wide), "]" + rest);
    Closes(Item(selKey, v), rest);
  }

  lemma PlainValueReads(selKey: string, v: string, rest: string)
    requires PlainValue(v)
    ensures ValueAt(v + ("]" + rest), selKey) == Prepend(Item(selKey, v), Parse(rest, false))
  {
    RunLengthIs(v, "]" + rest, NotClosing);
    Cut(v, "]" + rest);
    Closes(Item(selKey, v), rest);
  }

  lemma ValueReads(selKey: string, v: string, rest: string, wide: char -> bool)
    ensures ValueAt(FmtSel(v, wide) + ("]" + rest), selKey) == Prepend(Item(selKey, v), Parse(rest, false))
  {
    if PlainValue(v) {
      PlainValueReads(selKey, v, rest);
    } else {
      QuotedValueReads(selKey, v, rest, wide);
    }
  }

  lemma KeyedSelector(selKey: string, value: string)
    requires Ident(selKey) && selKey != ""
    ensures SelectorAt(selKey + "=" + value) == ValueAt(value, selKey)
  {
    assert selKey + "=" + value == selKey + ("=" + value);
    RunLengthIs(selKey, "=" + value, IdentChar);
    Cut(selKey, "=" + value);
    Cut(selKey + "=", value);
  }

  // A value is not taken for a key: no = follows its leading identifier characters.
  lemma BareSelector(v: string, rest: string, wide: char -> bool)
    ensures SelectorAt(FmtSel(v, wide) + ("]" + rest)) == ValueAt(FmtSel(v, wide) + ("]" + rest), "")
  {
    var s := FmtSel(v, wide) + ("]" + rest);
    var n := RunLength(s, IdentChar);
    RunIsAll(s, IdentChar);
    if PlainValue(v) {
      assert n > |v| ==> IdentChar(s[..n][|v|]);
      assert n < |v| ==> s[n] == v[n];
    }
  }

  lemma SelectorReads(selKey: string, v: string, rest: string, wide: char -> bool)
    requires Ident(selKey)
    ensures SelectorAt(SelPrefix(selKey) + (FmtSel(v, wide) + ("]" + rest))) ==
            Prepend(Item(selKey, v), Parse(rest, false))
  {
    var value := FmtSel(v, wide) + ("]" + rest);
    ValueReads(selKey, v, rest, wide);
    if selKey != "" {
      KeyedSelector(selKey, value);
    } else {
      BareSelector(v, rest, wide);
      assert "" + value == value;
    }
  }

  lemma ItemReads(selKey: string, v: string, rest: string, wide: char -> bool)
    requires Ident(selKey)
    ensures Parse("[" + SelPrefix(selKey) + FmtSel(v, wide) + "]" + rest, false) ==
            Prepend(Item(selKey, v), Parse(rest, false))
  {
    Nest("[", SelPrefix(selKey), FmtSel(v, wide), "]", rest);
    Bracket(SelPrefix(selKey) + (FmtSel(v, wide) + ("]" + rest)));
    SelectorReads(selKey, v, rest, wide);
  }

  lemma Nest(a: string, b: string, c: string, d: string, e: string)
    ensures a + b + c + d + e == a + (b + (c + (d + e)))
  {
  }

  lemma Bracket(s: string)
    ensures Parse("[" + s, false) == SelectorAt(s)
  {
    Cut("[", s);
  }

  lemma Dot(s: string)
    ensures Parse("." + s, false) == KeyAt(s)
  {
    Cut(".", s);
  }

  lemma DottedReads(k: string, rest: string, wide: char -> bool)
    requires StepStarts(rest)
    ensures Parse("." + FmtKey(k, wide) + rest, false) == Prepend(Key(k), Parse(rest, false))
  {
    Glue(".", FmtKey(k, wide), rest);
    Dot(FmtKey(k, wide) + rest);
    KeyReads(k, rest, wide);
  }

  lemma First(s: string)
    ensures "" + s == s && (s != "" ==> Parse(s, true) == KeyAt(s)) && (s == "" ==> !KeyAt(s).Ok?)
  {
  }

  lemma FirstReads(k: string, rest: string, wide: char -> bool)
    requires StepStarts(rest)
    ensures Parse("" + FmtKey(k, wide) + rest, true) == Prepend(Key(k), Parse(rest, false))
  {
    Glue("", FmtKey(k, wide), rest);
    First(FmtKey(k, wide) + rest);
    KeyReads(k, rest, wide);
  }

  lemma StepReads(st: Step, first: bool, rest: string, wide: char -> bool)
    requires Allowed(st, first) && StepStarts(rest)
    ensures Parse(FmtStep(st, first, wide) + rest, first) == Prepend(st, Parse(rest, false))
  {
    match st
    case Item(selKey, v) => ItemReads(selKey, v, rest, wide);
    case Key(k) =>
      if first {
        FirstReads(k, rest, wide);
      } else {
        DottedReads(k, rest, wide);
      }
  }

  lemma FmtStarts(steps: seq<Step>, wide: char -> bool)
    ensures StepStarts(Fmt(steps, false, wide))
  {
  }

  predicate AllAllowed(steps: seq<Step>, first: bool) {
    (first ==> steps != []) && forall k :: 0 <= k < |steps| ==> Allowed(steps[k], first && k == 0)
  }

  lemma AllowedRest(st: Step, steps: seq<Step>, first: bool)
    ensures AllAllowed([st] + steps, first) <==> Allowed(st, first) && AllAllowed(steps, false)
  {
    var all := [st] + steps;
    if AllAllowed(all, first) {
      assert Allowed(all[0], first);
      forall k | 0 <= k < |steps|
        ensures Allowed(steps[k], false)
      {
        assert steps[k] == all[k + 1];
      }
    }
    if Allowed(st, first) && AllAllowed(steps, false) {
      forall k | 0 <= k < |all|
        ensures Allowed(all[k], first && k == 0)
      {
        assert k > 0 ==> all[k] == steps[k - 1];
      }
    }
  }

  lemma {:induction false} FmtReads(steps: seq<Step>, first: bool, wide: char -> bool)
    requires AllAllowed(steps, first)
    ensures Parse(Fmt(steps, first, wide), first) == Ok(steps)
    decreases |steps|
  {
    if steps != [] {
      var st, more := steps[0], steps[1..];
      assert steps == [st] + more;
      AllowedRest(st, more, first);
      FmtStarts(more, wide);
      FmtReads(more, false, wide);
      StepReads(st, first, Fmt(more, false, wide), wide);
    }
  }

  ghost predicate Good(r: Result<seq<Step>>, first: bool) {
    r.Ok? ==> AllAllowed(r.value, first)
  }

  lemma GoodPrepend(st: Step, r: Result<seq<Step>>, first: bool)
    requires Allowed(st, first) && Good(r, false)
    ensures Good(Prepend(st, r), first)
  {
    if r.Ok? {
      AllowedRest(st, r.value, first);
    }
  }

  lemma {:induction false} ParsedIsAllowed(s: string, first: bool)
    ensures Good(Parse(s, first), first)
    decreases |s|, 3
  {
    if s != "" {
      if first {
        KeyIsAllowed(s, first);
      } else if s[0] == '[' {
        SelectorIsAllowed(s[1..]);
      } else if s[0] == '.' {
        KeyIsAllowed(s[1..], first);
      }
    }
  }

  lemma {:induction false} KeyIsAllowed(s: string, first: bool)
    ensures Good(KeyAt(s), first)
    decreases |s|, 2
  {
    if s != "" && s[0] == '"' {
      var q := Unquoted(s);
      if q.Some? {
        ParsedIsAllowed(s[q.value.1..], false);
        GoodPrepend(Key(q.value.0), Parse(s[q.value.1..], false), first);
      }
    } else {
      var n := RunLength(s, KeyChar);
      if n > 0 {
        ParsedIsAllowed(s[n..], false);
        GoodPrepend(Key(s[..n]), Parse(s[n..], false), first);
      }
    }
  }

  lemma {:induction false} SelectorIsAllowed(s: string)
    ensures Good(SelectorAt(s), false)
    decreases |s|, 2
  {
    var n := RunLength(s, IdentChar);
    RunIsAll(s, IdentChar);
    if 0 < n < |s| && s[n] == '=' {
      ValueIsAllowed(s[n + 1..], s[..n]);
    } else {
      ValueIsAllowed(s, "");
    }
  }

  lemma {:induction false} ValueIsAllowed(s: string, selKey: string)
    requires Ident(selKey)
    ensures Good(ValueAt(s, selKey), false)
    decreases |s|, 1
  {
    if s != "" && s[0] == '"' {
      var q := Unquoted(s);
      if q.Some? {
        CloseIsAllowed(s[q.value.1..], Item(selKey, q.value.0));
      }
    } else {
      var n := RunLength(s, NotClosing);
      if 0 < n < |s| {
        CloseIsAllowed(s[n..], Item(selKey, s[..n]));
      }
    }
  }

  lemma {:induction false} CloseIsAllowed(s: string, st: Step)
    requires Allowed(st, false)
    ensures Good(Close(s, st), false)
    decreases |s|, 0
  {
    if s != "" && s[0] == ']' {
      ParsedIsAllowed(s[1..], false);
      GoodPrepend(st, Parse(s[1..], false), false);
    }
  }

  /** The round trip: a path parses back from its printed form exactly when it starts with a key and its
      selector keys are identifiers, whatever its keys and values are. */
  lemma PrintedParses(steps: seq<Step>, wide: char -> bool)
    ensures Parse(Fmt(steps, true, wide), true) == Ok(steps) <==> AllAllowed(steps, true)
  {
    if AllAllowed(steps, true) {
      FmtReads(steps, true, wide);
    }
    ParsedIsAllowed(Fmt(steps, true, wide), true);
  }

  /** Every path that parses means the same after it is printed. */
  lemma ParsedPrints(p: string, wide: char -> bool)
    requires Parse(p, true).Ok?
    ensures Parse(Fmt(Parse(p, true).value, true, wide), true) == Parse(p, true)
  {
    ParsedIsAllowed(p, true);
    PrintedParses(Parse(p, true).value, wide);
  }

  // ---- PATH=VALUE ----

  // Where a reader is: how deep in brackets, inside quotes, behind a backslash.
  datatype Lexical = Lexical(depth: int, quoted: bool, escaped: bool)

  const OUTSIDE := Lexical(0, false, false)

  function After(x: Lexical, c: char): Lexical {
    if x.escaped then x.(escaped := false)
    else if x.quoted && c == '\\' then x.(escaped := true)
    else if c == '"' then x.(quoted := !x.quoted)
    else if x.quoted then x
    else if c == '[' then x.(depth := x.depth + 1)
    else if c == ']' then x.(depth := x.depth - 1)
    else x
  }

  function Scan(x: Lexical, s: string): Lexical
    decreases |s|
  {
    if s == [] then x else Scan(After(x, s[0]), s[1..])
  }

  predicate AssignsAt(x: Lexical, s: string, k: nat) {
    k < |s| && s[k] == '=' && Scan(x, s[..k]) == OUTSIDE
  }

  ghost predicate NoAssign(x: Lexical, s: string) {
    forall k: nat :: !AssignsAt(x, s, k)
  }

  lemma {:induction false} ScanConcat(x: Lexical, a: string, b: string)
    ensures Scan(x, a + b) == Scan(Scan(x, a), b)
    decreases |a|
  {
    if a == [] {
      assert a + b == b;
    } else {
      assert (a + b)[1..] == a[1..] + b;
      ScanConcat(After(x, a[0]), a[1..], b);
    }
  }

  lemma ScanOne(s: string, i: nat)
    requires i < |s|
    ensures Scan(OUTSIDE, s[..i + 1]) == After(Scan(OUTSIDE, s[..i]), s[i])
  {
    assert s[..i + 1] == s[..i] + [s[i]];
    ScanConcat(OUTSIDE, s[..i], [s[i]]);
    assert Scan(Scan(OUTSIDE, s[..i]), [s[i]]) == After(Scan(OUTSIDE, s[..i]), s[i]);
  }

  /** Splits at the first = outside brackets and quotes; None: there is none. */
  method SplitAssign(s: string) returns (r: Option<(string, string)>)
    ensures r.Some? ==> var (path, value) := r.value; s == path + "=" + value && AssignsAt(OUTSIDE, s, |path|) &&
                                                      forall k: nat :: k < |path| ==> !AssignsAt(OUTSIDE, s, k)
    ensures r.None? ==> NoAssign(OUTSIDE, s)
  {
    var depth, q := 0, false;
    var i: nat := 0;
    while i < |s|
      invariant i <= |s| ==> Scan(OUTSIDE, s[..i]) == Lexical(depth, q, false)
      invariant forall k: nat :: k < i ==> !AssignsAt(OUTSIDE, s, k)
    {
      ScanOne(s, i);
      var c := s[i];
      if q && c == '\\' {
        if i + 1 < |s| {
          ScanOne(s, i + 1);
        }
        i := i + 1;
      } else if c == '"' {
        q := !q;
      } else if q {
      } else if c == '[' {
        depth := depth + 1;
      } else if c == ']' {
        depth := depth - 1;
      } else if c == '=' && depth == 0 {
        assert s == s[..i] + "=" + s[i + 1..];
        return Some((s[..i], s[i + 1..]));
      }
      i := i + 1;
    }
    r := None;
  }

  lemma NoAssignConcat(x: Lexical, a: string, b: string)
    requires NoAssign(x, a) && NoAssign(Scan(x, a), b)
    ensures NoAssign(x, a + b)
  {
    forall k: nat
      ensures !AssignsAt(x, a + b, k)
    {
      if k < |a| {
        assert (a + b)[..k] == a[..k];
        assert !AssignsAt(x, a, k);
      } else if k < |a + b| {
        assert (a + b)[..k] == a + b[..k - |a|];
        ScanConcat(x, a, b[..k - |a|]);
        assert !AssignsAt(Scan(x, a), b, k - |a|);
      }
    }
  }

  // Reading s leads from x to y without an assignment on the way.
  ghost predicate Leads(x: Lexical, s: string, y: Lexical) {
    Scan(x, s) == y && NoAssign(x, s)
  }

  lemma LeadsOn(x: Lexical, a: string, y: Lexical, b: string, z: Lexical)
    requires Leads(x, a, y) && Leads(y, b, z)
    ensures Leads(x, a + b, z)
  {
    ScanConcat(x, a, b);
    NoAssignConcat(x, a, b);
  }

  lemma LeadsOne(x: Lexical, c: char)
    requires x != OUTSIDE || c != '='
    ensures Leads(x, [c], After(x, c))
  {
    assert [c][1..] == "";
    assert [c][..0] == "";
  }

  // Plain characters, or any but quotes and brackets inside brackets.
  lemma {:induction false} PlainLeads(x: Lexical, s: string)
    requires !x.quoted && !x.escaped
    requires forall k :: 0 <= k < |s| ==> s[k] != '[' && s[k] != ']' && s[k] != '"' && (s[k] == '=' ==> x.depth != 0)
    ensures Leads(x, s, x)
    decreases |s|
  {
    if s != [] {
      LeadsOne(x, s[0]);
      PlainLeads(x, s[1..]);
      LeadsOn(x, [s[0]], x, s[1..], x);
      assert s == [s[0]] + s[1..];
    }
  }

  lemma {:induction false} DigitsLead(x: Lexical, n: nat, k: nat)
    requires x.quoted && !x.escaped
    ensures Leads(x, Hex(n, k), x)
    decreases k
  {
    if k > 0 {
      DigitsLead(x, n / 16, k - 1);
      LeadsOne(x, HexDigit(n % 16));
      LeadsOn(x, Hex(n / 16, k - 1), x, [HexDigit(n % 16)], x);
    }
  }

  lemma EscapeLeads(x: Lexical, c: char, wide: char -> bool)
    requires x.quoted && !x.escaped
    ensures Leads(x, Escape(c, wide), x)
  {
    var e := Escape(c, wide);
    if e[0] == '\\' {
      var y := x.(escaped := true);
      LeadsOne(x, '\\');
      LeadsOne(y, e[1]);
      LeadsOn(x, ['\\'], y, [e[1]], x);
      assert [e[0]] + [e[1]] == e[..2];
      if e[1] == 'x' {
        DigitsLead(x, c as int, 2);
        LeadsOn(x, e[..2], x, Hex(c as int, 2), x);
      } else if e[1] == 'u' {
        DigitsLead(x, c as int, 4);
        LeadsOn(x, e[..2], x, Hex(c as int, 4), x);
      } else if e[1] == 'U' {
        DigitsLead(x, c as int, 8);
        LeadsOn(x, e[..2], x, Hex(c as int, 8), x);
      } else {
        assert e == e[..2];
      }
    } else {
      LeadsOne(x, c);
    }
  }

  lemma {:induction false} EscapedLeads(x: Lexical, s: string, wide: char -> bool)
    requires x.quoted && !x.escaped
    ensures Leads(x, Escaped(s, wide), x)
    decreases |s|
  {
    if s != [] {
      EscapeLeads(x, s[0], wide);
      EscapedLeads(x, s[1..], wide);
      LeadsOn(x, Escape(s[0], wide), x, Escaped(s[1..], wide), x);
    }
  }

  lemma QuoteLeads(x: Lexical, s: string, wide: char -> bool)
    requires !x.quoted && !x.escaped
    ensures Leads(x, Quote(s, wide), x)
  {
    var y := x.(quoted := true);
    LeadsOne(x, '"');
    EscapedLeads(y, s, wide);
    LeadsOn(x, "\"", y, Escaped(s, wide), y);
    LeadsOne(y, '"');
    LeadsOn(x, "\"" + Escaped(s, wide), y, "\"", x);
  }

  lemma KeyLeads(k: string, wide: char -> bool)
    ensures Leads(OUTSIDE, FmtKey(k, wide), OUTSIDE)
  {
    if k == "" || !All(k, PlainKeyChar) {
      assert FmtKey(k, wide) == Quote(k, wide);
      QuoteLeads(OUTSIDE, k, wide);
    } else {
      PlainLeads(OUTSIDE, k);
    }
  }

  lemma SelectorLeads(selKey: string, v: string, wide: char -> bool)
    requires Ident(selKey)
    ensures Leads(OUTSIDE, "[" + SelPrefix(selKey) + FmtSel(v, wide) + "]", OUTSIDE)
  {
    var x := OUTSIDE.(depth := 1);
    LeadsOne(OUTSIDE, '[');
    PlainLeads(x, SelPrefix(selKey));
    LeadsOn(OUTSIDE, "[", x, SelPrefix(selKey), x);
    if PlainValue(v) {
      PlainLeads(x, v);
    } else {
      QuoteLeads(x, v, wide);
    }
    LeadsOn(OUTSIDE, "[" + SelPrefix(selKey), x, FmtSel(v, wide), x);
    LeadsOne(x, ']');
    LeadsOn(OUTSIDE, "[" + SelPrefix(selKey) + FmtSel(v, wide), x, "]", OUTSIDE);
  }

  lemma StepLeads(st: Step, first: bool, wide: char -> bool)
    requires Allowed(st, first)
    ensures Leads(OUTSIDE, FmtStep(st, first, wide), OUTSIDE)
  {
    match st
    case Item(selKey, v) => SelectorLeads(selKey, v, wide);
    case Key(k) =>
      KeyLeads(k, wide);
      if first {
        assert "" + FmtKey(k, wide) == FmtKey(k, wide);
      } else {
        LeadsOne(OUTSIDE, '.');
        LeadsOn(OUTSIDE, ".", OUTSIDE, FmtKey(k, wide), OUTSIDE);
      }
  }

  lemma {:induction false} FmtLeads(steps: seq<Step>, first: bool, wide: char -> bool)
    requires AllAllowed(steps, first)
    ensures Leads(OUTSIDE, Fmt(steps, first, wide), OUTSIDE)
    decreases |steps|
  {
    if steps != [] {
      StepLeads(steps[0], first, wide);
      FmtLeads(steps[1..], false, wide);
      LeadsOn(OUTSIDE, FmtStep(steps[0], first, wide), OUTSIDE, Fmt(steps[1..], false, wide), OUTSIDE);
    }
  }

  /** PATH=VALUE with a printed path splits there and nowhere else, whatever the value is: a text splits
      this way only. */
  lemma AssignmentSplits(steps: seq<Step>, v: string, wide: char -> bool, path: string, value: string)
    requires AllAllowed(steps, true)
    requires var s := Fmt(steps, true, wide) + "=" + v;
             s == path + "=" + value && AssignsAt(OUTSIDE, s, |path|) &&
             forall k: nat :: k < |path| ==> !AssignsAt(OUTSIDE, s, k)
    ensures path == Fmt(steps, true, wide) && value == v
  {
    var p := Fmt(steps, true, wide);
    var s := p + "=" + v;
    SplitsHere(steps, v, wide);
    assert |path| == |p|;
    assert path == s[..|path|] && p == s[..|p|];
    assert value == s[|path| + 1..] && v == s[|p| + 1..];
  }

  // The first = outside brackets and quotes is the one behind the path.
  lemma SplitsHere(steps: seq<Step>, v: string, wide: char -> bool)
    requires AllAllowed(steps, true)
    ensures var p := Fmt(steps, true, wide); var s := p + "=" + v;
            AssignsAt(OUTSIDE, s, |p|) && forall k: nat :: k < |p| ==> !AssignsAt(OUTSIDE, s, k)
  {
    FmtLeads(steps, true, wide);
    var p := Fmt(steps, true, wide);
    var s := p + "=" + v;
    forall k: nat | k <= |p|
      ensures k < |p| ==> !AssignsAt(OUTSIDE, s, k)
      ensures k == |p| ==> s[..k] == p
    {
      assert s[..k] == p[..k];
      assert !AssignsAt(OUTSIDE, p, k);
    }
  }
}
