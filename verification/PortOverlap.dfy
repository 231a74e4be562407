/** Forwards that can never match: the check that no two of them, and no open router port, take the same
    protocol and port on the same WAN. */
module PortOverlap {
  datatype Range = Range(lo: nat, hi: nat)

  // A port forward, or an open router port with its list of ranges; no ranges: the port is not valid.
  datatype Rule = Rule(name: string, enabled: bool, ranges: seq<Range>, protos: seq<string>, wans: seq<string>,
                       restricted: bool)

  datatype Claim = Claim(forwarded: bool, name: string, protos: seq<string>, range: Range, wans: set<string>,
                         restricted: bool)

  datatype Clash = Clash(first: Claim, second: Claim, proto: string)

  function WanSet(all: seq<string>, wans: seq<string>): set<string> {
    if wans == [] then (set w | w in all) else (set w | w in wans)
  }

  function Claims(all: seq<string>, forwarded: bool, r: Rule, ranges: seq<Range>): seq<Claim> {
    if ranges == [] then []
    else
      [Claim(forwarded, r.name, r.protos, ranges[0], WanSet(all, r.wans), r.restricted)]
      + Claims(all, forwarded, r, ranges[1..])
  }

  function AllClaims(all: seq<string>, forwarded: bool, rules: seq<Rule>): seq<Claim> {
    if rules == [] then []
    else
      (if rules[0].enabled then Claims(all, forwarded, rules[0], rules[0].ranges) else [])
      + AllClaims(all, forwarded, rules[1..])
  }

  predicate Overlap(a: Claim, b: Claim) {
    && !a.restricted && !b.restricted && !(a.forwarded == b.forwarded && a.name == b.name)
    && a.range.hi >= b.range.lo && b.range.hi >= a.range.lo
    && a.wans * b.wans != {}
  }

  predicate Clashes(a: Claim, b: Claim, proto: string) {
    Overlap(a, b) && proto in a.protos && proto in b.protos
  }

  method CollectRule(all: seq<string>, forwarded: bool, r: Rule) returns (claims: seq<Claim>)
    ensures claims == Claims(all, forwarded, r, r.ranges)
  {
    claims := [];
    for k := 0 to |r.ranges|
      invariant Claims(all, forwarded, r, r.ranges) == claims + Claims(all, forwarded, r, r.ranges[k..])
    {
      assert r.ranges[k..][1..] == r.ranges[k + 1..];
      claims := claims + [Claim(forwarded, r.name, r.protos, r.ranges[k], WanSet(all, r.wans), r.restricted)];
    }
    assert r.ranges[|r.ranges|..] == [];
  }

  lemma NextClaims(all: seq<string>, forwarded: bool, rules: seq<Rule>, i: nat, done: seq<Claim>)
    requires i < |rules|
    ensures done + AllClaims(all, forwarded, rules[i..]) ==
            (if rules[i].enabled then done + Claims(all, forwarded, rules[i], rules[i].ranges) else done)
            + AllClaims(all, forwarded, rules[i + 1..])
  {
    assert rules[i..][1..] == rules[i + 1..];
  }

  method Collect(all: seq<string>, forwarded: bool, rules: seq<Rule>) returns (claims: seq<Claim>)
    ensures claims == AllClaims(all, forwarded, rules)
  {
    claims := [];
    for i := 0 to |rules|
      invariant AllClaims(all, forwarded, rules) == claims + AllClaims(all, forwarded, rules[i..])
    {
      NextClaims(all, forwarded, rules, i, claims);
      if rules[i].enabled {
        var more := CollectRule(all, forwarded, rules[i]);
        claims := claims + more;
      }
    }
    assert rules[|rules|..] == [];
  }

  // A clash of the i-th claim with one before the n-th.
  ghost predicate FoundWith(claims: seq<Claim>, i: nat, n: nat, x: Clash)
    requires n <= |claims|
  {
    i < n && x.first == claims[i] &&
    exists j :: i < j < n && x.second == claims[j] && Clashes(x.first, x.second, x.proto)
  }

  method Pairwise(claims: seq<Claim>, i: nat) returns (clashes: seq<Clash>)
    requires i < |claims|
    ensures forall x :: x in clashes <==> FoundWith(claims, i, |claims|, x)
  {
    clashes := [];
    for j := i + 1 to |claims|
      invariant forall x :: x in clashes <==> FoundWith(claims, i, j, x)
    {
      var a, b := claims[i], claims[j];
      var more := Between(a, b);
      forall x
        ensures x in clashes + more <==> FoundWith(claims, i, j + 1, x)
      {
        if x.first == a && x.second == b && Clashes(a, b, x.proto) {
          assert FoundWith(claims, i, j + 1, x);
        }
      }
      clashes := clashes + more;
    }
  }

  method Between(a: Claim, b: Claim) returns (clashes: seq<Clash>)
    ensures forall x :: x in clashes <==> x.first == a && x.second == b && Clashes(a, b, x.proto)
  {
    clashes := [];
    if Overlap(a, b) {
      for k := 0 to |a.protos|
        invariant forall x :: x in clashes <==>
                    x.first == a && x.second == b && x.proto in a.protos[..k] && x.proto in b.protos
      {
        assert a.protos[..k + 1] == a.protos[..k] + [a.protos[k]];
        if a.protos[k] in b.protos {
          clashes := clashes + [Clash(a, b, a.protos[k])];
        }
      }
      assert a.protos[..|a.protos|] == a.protos;
    }
  }

  method CheckOverlaps(all: seq<string>, forwards: seq<Rule>, opens: seq<Rule>) returns (clashes: seq<Clash>)
    ensures var fs := AllClaims(all, true, forwards); var claims := fs + AllClaims(all, false, opens);
            forall x :: x in clashes <==> exists i :: 0 <= i < |fs| && FoundWith(claims, i, |claims|, x)
  {
    var fs := Collect(all, true, forwards);
    var os := Collect(all, false, opens);
    var claims := fs + os;
    clashes := [];
    for i := 0 to |fs|
      invariant forall x :: x in clashes <==> exists k :: 0 <= k < i && FoundWith(claims, k, |claims|, x)
    {
      var more := Pairwise(claims, i);
      clashes := clashes + more;
    }
  }

  // ---- what it means ----

  // The rule takes the protocol and port on the WAN, from any source; a rule that names no WAN is for all.
  predicate Takes(all: seq<string>, r: Rule, wan: string, proto: string, port: nat) {
    && r.enabled && !r.restricted && proto in r.protos
    && (if r.wans == [] then wan in all else wan in r.wans)
    && exists k :: 0 <= k < |r.ranges| && r.ranges[k].lo <= port <= r.ranges[k].hi
  }

  predicate Named(rules: seq<Rule>) {
    forall i, j :: 0 <= i < j < |rules| ==> rules[i].name != rules[j].name
  }

  predicate ProperRanges(rules: seq<Rule>) {
    forall i, k :: 0 <= i < |rules| && 0 <= k < |rules[i].ranges| ==> rules[i].ranges[k].lo <= rules[i].ranges[k].hi
  }

  function ClaimOf(all: seq<string>, forwarded: bool, r: Rule, range: Range): Claim {
    Claim(forwarded, r.name, r.protos, range, WanSet(all, r.wans), r.restricted)
  }

  lemma {:induction false} ClaimsAre(all: seq<string>, forwarded: bool, r: Rule, ranges: seq<Range>, c: Claim)
    ensures c in Claims(all, forwarded, r, ranges) <==>
            exists k :: 0 <= k < |ranges| && c == ClaimOf(all, forwarded, r, ranges[k])
    decreases |ranges|
  {
    if ranges != [] {
      ClaimsAre(all, forwarded, r, ranges[1..], c);
      assert forall k :: 0 <= k < |ranges| ==> ranges[k] == if k == 0 then ranges[0] else ranges[1..][k - 1];
    }
  }

  // The claims come in the order of their rules.
  lemma {:induction false} RuleOfClaim(all: seq<string>, forwarded: bool, rules: seq<Rule>, i: nat)
    returns (k: nat, n: nat)
    requires i < |AllClaims(all, forwarded, rules)|
    ensures k < |rules| && rules[k].enabled && n < |rules[k].ranges|
    ensures AllClaims(all, forwarded, rules)[i] == ClaimOf(all, forwarded, rules[k], rules[k].ranges[n])
  {
    var first := if rules[0].enabled then Claims(all, forwarded, rules[0], rules[0].ranges) else [];
    if i < |first| {
      k := 0;
      assert first[i] in first;
      ClaimsAre(all, forwarded, rules[0], rules[0].ranges, first[i]);
      n :| 0 <= n < |rules[0].ranges| && first[i] == ClaimOf(all, forwarded, rules[0], rules[0].ranges[n]);
    } else {
      var k';
      k', n := RuleOfClaim(all, forwarded, rules[1..], i - |first|);
      k := k' + 1;
    }
  }

  lemma {:induction false} ClaimOfRule(all: seq<string>, forwarded: bool, rules: seq<Rule>, k: nat, n: nat)
    returns (i: nat)
    requires k < |rules| && rules[k].enabled && n < |rules[k].ranges|
    ensures i < |AllClaims(all, forwarded, rules)|
    ensures AllClaims(all, forwarded, rules)[i] == ClaimOf(all, forwarded, rules[k], rules[k].ranges[n])
  {
    var first := if rules[0].enabled then Claims(all, forwarded, rules[0], rules[0].ranges) else [];
    if k == 0 {
      var c := ClaimOf(all, forwarded, rules[0], rules[0].ranges[n]);
      ClaimsAre(all, forwarded, rules[0], rules[0].ranges, c);
      i :| 0 <= i < |first| && first[i] == c;
    } else {
      var i' := ClaimOfRule(all, forwarded, rules[1..], k - 1, n);
      i := i' + |first|;
    }
  }

  // Two forwards take the same, or a forward and an open port do.
  ghost predicate Contested(all: seq<string>, forwards: seq<Rule>, opens: seq<Rule>, wan: string, proto: string,
                            port: nat) {
    exists k :: 0 <= k < |forwards| && Takes(all, forwards[k], wan, proto, port) &&
                ((exists l :: 0 <= l < |forwards| && l != k && Takes(all, forwards[l], wan, proto, port)) ||
                 (exists l :: 0 <= l < |opens| && Takes(all, opens[l], wan, proto, port)))
  }

  // The claim takes the port from any source.
  predicate Covers(c: Claim, wan: string, proto: string, port: nat) {
    !c.restricted && proto in c.protos && wan in c.wans && c.range.lo <= port <= c.range.hi
  }

  lemma TwoClaimsClash(claims: seq<Claim>, i: nat, j: nat, wan: string, proto: string, port: nat) returns (x: Clash)
    requires i < j < |claims| && !(claims[i].forwarded == claims[j].forwarded && claims[i].name == claims[j].name)
    requires Covers(claims[i], wan, proto, port) && Covers(claims[j], wan, proto, port)
    ensures FoundWith(claims, i, |claims|, x)
  {
    assert wan in claims[i].wans * claims[j].wans;
    x := Clash(claims[i], claims[j], proto);
  }

  lemma TakesByClaim(all: seq<string>, forwarded: bool, rules: seq<Rule>, k: nat, wan: string, proto: string,
                     port: nat) returns (i: nat)
    requires k < |rules| && Takes(all, rules[k], wan, proto, port)
    ensures i < |AllClaims(all, forwarded, rules)|
    ensures var c := AllClaims(all, forwarded, rules)[i];
            Covers(c, wan, proto, port) && c.forwarded == forwarded && c.name == rules[k].name
  {
    var n :| 0 <= n < |rules[k].ranges| && rules[k].ranges[n].lo <= port <= rules[k].ranges[n].hi;
    i := ClaimOfRule(all, forwarded, rules, k, n);
  }

  /** Sound: when the check is silent, no WAN, protocol and port is taken by two forwards or by a forward
      and an open port, rules limited to some sources aside. */
  lemma SilentIsUncontested(all: seq<string>, forwards: seq<Rule>, opens: seq<Rule>, wan: string, proto: string,
                            port: nat)
    requires Named(forwards)
    requires var fs := AllClaims(all, true, forwards); var claims := fs + AllClaims(all, false, opens);
             forall i, x :: 0 <= i < |fs| ==> !FoundWith(claims, i, |claims|, x)
    ensures !Contested(all, forwards, opens, wan, proto, port)
  {
    if Contested(all, forwards, opens, wan, proto, port) {
      var k :| 0 <= k < |forwards| && Takes(all, forwards[k], wan, proto, port) &&
               ((exists l :: 0 <= l < |forwards| && l != k && Takes(all, forwards[l], wan, proto, port)) ||
                (exists l :: 0 <= l < |opens| && Takes(all, opens[l], wan, proto, port)));
      if l :| 0 <= l < |forwards| && l != k && Takes(all, forwards[l], wan, proto, port) {
        var i, x := ForwardsClash(all, forwards, opens, k, l, wan, proto, port);
      } else {
        var l :| 0 <= l < |opens| && Takes(all, opens[l], wan, proto, port);
        var i, x := OpenClashes(all, forwards, opens, k, l, wan, proto, port);
      }
    }
  }

  lemma ForwardsClash(all: seq<string>, forwards: seq<Rule>, opens: seq<Rule>, k: nat, l: nat, wan: string,
                      proto: string, port: nat)
    returns (i: nat, x: Clash)
    requires Named(forwards) && k < |forwards| && l < |forwards| && k != l
    requires Takes(all, forwards[k], wan, proto, port) && Takes(all, forwards[l], wan, proto, port)
    ensures var fs := AllClaims(all, true, forwards); var claims := fs + AllClaims(all, false, opens);
            i < |fs| && FoundWith(claims, i, |claims|, x)
  {
    var fs := AllClaims(all, true, forwards);
    var claims := fs + AllClaims(all, false, opens);
    var a := TakesByClaim(all, true, forwards, k, wan, proto, port);
    var b := TakesByClaim(all, true, forwards, l, wan, proto, port);
    assert forwards[k].name != forwards[l].name;
    i := if a < b then a else b;
    x := TwoClaimsClash(claims, i, if a < b then b else a, wan, proto, port);
  }

  lemma OpenClashes(all: seq<string>, forwards: seq<Rule>, opens: seq<Rule>, k: nat, l: nat, wan: string,
                    proto: string, port: nat)
    returns (i: nat, x: Clash)
    requires k < |forwards| && l < |opens|
    requires Takes(all, forwards[k], wan, proto, port) && Takes(all, opens[l], wan, proto, port)
    ensures var fs := AllClaims(all, true, forwards); var claims := fs + AllClaims(all, false, opens);
            i < |fs| && FoundWith(claims, i, |claims|, x)
  {
    var fs := AllClaims(all, true, forwards);
    i := TakesByClaim(all, true, forwards, k, wan, proto, port);
    var j := TakesByClaim(all, false, opens, l, wan, proto, port);
    x := TwoClaimsClash(fs + AllClaims(all, false, opens), i, |fs| + j, wan, proto, port);
  }

  /** And complete: what it reports is contested. */
  lemma ClashIsContested(all: seq<string>, forwards: seq<Rule>, opens: seq<Rule>, i: nat, x: Clash)
    requires Named(forwards) && ProperRanges(forwards) && ProperRanges(opens)
    requires var fs := AllClaims(all, true, forwards); var claims := fs + AllClaims(all, false, opens);
             i < |fs| && FoundWith(claims, i, |claims|, x)
    ensures exists wan, port :: Contested(all, forwards, opens, wan, x.proto, port)
  {
    var fs, os := AllClaims(all, true, forwards), AllClaims(all, false, opens);
    var claims := fs + os;
    var j :| i < j < |claims| && x.second == claims[j] && Clashes(x.first, x.second, x.proto);
    var a, b := claims[i], claims[j];
    var wan :| wan in a.wans * b.wans;
    var port := if a.range.lo > b.range.lo then a.range.lo else b.range.lo;
    var k, n := RuleOfClaim(all, true, forwards, i);
    assert Takes(all, forwards[k], wan, x.proto, port);
    if j < |fs| {
      var l, m := RuleOfClaim(all, true, forwards, j);
      assert Takes(all, forwards[l], wan, x.proto, port) && l != k;
    } else {
      var l, m := RuleOfClaim(all, false, opens, j - |fs|);
      assert Takes(all, opens[l], wan, x.proto, port);
    }
    assert Contested(all, forwards, opens, wan, x.proto, port);
  }
}
