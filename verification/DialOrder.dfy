/** PPPoE WANs that dial in a fixed order: which came up out of order, and the redials that restore the
    order. */
module DialOrder {
  const GAP := 600

  // What becomes of a WAN that is restarted.
  datatype Outcome = Refused | Back(at: nat) | Gone

  datatype Reason = Disabled | OrderOk | RateLimited | Redialled | Failed

  // When each WAN that is up last did something its provider acts on.
  type Events = map<string, nat>

  function Newer(t: nat, u: nat): nat {
    if t > u then t else u
  }

  // The up WANs older than one before them; newest: the newest event so far.
  function Late(order: seq<string>, last: Events, newest: nat): seq<string> {
    if order == [] then []
    else
      var n := order[0];
      if n !in last then Late(order[1..], last, newest)
      else (if last[n] < newest then [n] else []) + Late(order[1..], last, Newer(newest, last[n]))
  }

  function Since(st: map<string, int>, n: string): int {
    if n in st then st[n] else 0
  }

  // The late WANs not redialled within the gap.
  function Due(late: seq<string>, st: map<string, int>, now: int): seq<string> {
    if late == [] then []
    else
      var rest := Due(late[1..], st, now);
      if now - Since(st, late[0]) >= GAP then [late[0]] + rest else rest
  }

  function Stamped(st: map<string, int>, names: seq<string>, now: int): map<string, int> {
    map n | n in st.Keys + (set x | x in names) :: if n in names then now else st[n]
  }

  function OutcomeOf(outcomes: map<string, Outcome>, n: string): Outcome {
    if n in outcomes then outcomes[n] else Refused
  }

  function Redial(last: Events, n: string, o: Outcome): Events {
    match o
    case Refused => last
    case Back(at) => last[n := at]
    case Gone => last - {n}
  }

  // The events after the WANs were redialled one after the other.
  function RedialAll(last: Events, due: seq<string>, outcomes: map<string, Outcome>): Events {
    if due == [] then last
    else
      var init, n := due[..|due| - 1], due[|due| - 1];
      Redial(RedialAll(last, init, outcomes), n, OutcomeOf(outcomes, n))
  }

  predicate Unique(names: seq<string>) {
    forall i, j :: 0 <= i < j < |names| ==> names[i] != names[j]
  }

  class Dialer {
    var last: Events
    var st: map<string, int>

    method DialLate(order: seq<string>) returns (late: seq<string>)
      ensures late == Late(order, last, 0)
    {
      late := [];
      var newest: nat := 0;
      for i := 0 to |order|
        invariant Late(order, last, 0) == late + Late(order[i..], last, newest)
      {
        var n := order[i];
        assert order[i..][1..] == order[i + 1..];
        if n in last {
          if last[n] < newest {
            late := late + [n];
          }
          newest := Newer(newest, last[n]);
        }
      }
      assert order[|order|..] == [];
    }

    method DialDue(late: seq<string>, now: int) returns (due: seq<string>)
      requires Unique(late)
      modifies `st
      ensures due == Due(late, old(st), now) && st == Stamped(old(st), due, now)
    {
      due := [];
      ghost var was := st;
      NoStamp(st, now);
      for i := 0 to |late|
        invariant Due(late, was, now) == due + Due(late[i..], was, now)
        invariant forall n :: n in due ==> n in late[..i]
        invariant st == Stamped(was, due, now)
      {
        var n := late[i];
        assert late[i..][1..] == late[i + 1..] && late[i..][0] == n;
        assert n !in late[..i];
        assert late[..i + 1] == late[..i] + [n];
        assert Since(st, n) == Since(was, n);
        if now - Since(st, n) >= GAP {
          StampMore(was, due, n, now);
          due := due + [n];
          st := st[n := now];
        }
      }
      assert late[|late|..] == [];
    }

    // Records a forced redial of each.
    method StampAll(due: seq<string>, now: int)
      modifies `st
      ensures st == Stamped(old(st), due, now)
    {
      NoStamp(st, now);
      for i := 0 to |due|
        invariant st == Stamped(old(st), due[..i], now)
      {
        assert due[..i + 1] == due[..i] + [due[i]];
        StampMore(old(st), due[..i], due[i], now);
        st := st[due[i] := now];
      }
      assert due[..|due|] == due;
    }

    method RedialDue(due: seq<string>, outcomes: map<string, Outcome>) returns (some: bool)
      modifies `last
      ensures last == RedialAll(old(last), due, outcomes)
      ensures some <==> exists n :: n in due && !OutcomeOf(outcomes, n).Refused?
    {
      some := false;
      assert due[..0] == [];
      for i := 0 to |due|
        invariant last == RedialAll(old(last), due[..i], outcomes)
        invariant some <==> exists n :: n in due[..i] && !OutcomeOf(outcomes, n).Refused?
      {
        var n := due[i];
        assert due[..i + 1] == due[..i] + [n];
        match OutcomeOf(outcomes, n) {
          case Refused =>
          case Back(at) =>
            last := last[n := at];
            some := true;
          case Gone =>
            last := last - {n};
            some := true;
        }
      }
      assert due[..|due|] == due;
    }

    method Restore(order: seq<string>, enabled: bool, force: bool, now: int, outcomes: map<string, Outcome>)
      returns (r: Reason)
      requires Unique(order)
      modifies this
      ensures !force && !enabled ==> r == Disabled && last == old(last) && st == old(st)
      ensures var late := Late(order, old(last), 0);
              var due := if force then late else Due(late, old(st), now);
              force || enabled ==>
                && last == RedialAll(old(last), due, outcomes) && st == Stamped(old(st), due, now)
                && (r == OrderOk <==> late == []) && (r == RateLimited <==> late != [] && due == [])
                && (r == Redialled <==> exists n :: n in due && !OutcomeOf(outcomes, n).Refused?)
    {
      if !force && !enabled {
        return Disabled;
      }
      NoStamp(st, now);
      var late := DialLate(order);
      if late == [] {
        return OrderOk;
      }
      LateIsUnique(order, last, 0);
      var due := late;
      if force {
        StampAll(due, now);
      } else {
        due := DialDue(late, now);
      }
      if due == [] {
        return RateLimited;
      }
      var some := RedialDue(due, outcomes);
      r := if some then Redialled else Failed;
    }
  }

  lemma NoStamp(st: map<string, int>, now: int)
    ensures Stamped(st, [], now) == st
  {
  }

  lemma StampMore(st: map<string, int>, names: seq<string>, n: string, now: int)
    ensures Stamped(st, names, now)[n := now] == Stamped(st, names + [n], now)
  {
  }

  lemma {:induction false} LateIsUnique(order: seq<string>, last: Events, newest: nat)
    requires Unique(order)
    ensures Unique(Late(order, last, newest)) && forall n :: n in Late(order, last, newest) ==> n in order
    decreases |order|
  {
    if order != [] {
      var rest := Late(order[1..], last, if order[0] in last then Newer(newest, last[order[0]]) else newest);
      LateIsUnique(order[1..], last, if order[0] in last then Newer(newest, last[order[0]]) else newest);
      assert order[0] !in order[1..];
      assert forall n :: n in order[1..] ==> n in order;
    }
  }

  // ---- which are late ----

  predicate LateAt(order: seq<string>, last: Events, j: nat) {
    j < |order| && order[j] in last && exists i :: 0 <= i < j && order[i] in last && last[order[i]] > last[order[j]]
  }

  predicate InOrder(order: seq<string>, last: Events) {
    forall i, j :: 0 <= i < j < |order| && order[i] in last && order[j] in last ==> last[order[i]] <= last[order[j]]
  }

  // newest is the newest of the events before the k-th.
  predicate NewestBefore(order: seq<string>, last: Events, k: nat, newest: nat)
    requires k <= |order|
  {
    && (forall i :: 0 <= i < k && order[i] in last ==> last[order[i]] <= newest)
    && (newest > 0 ==> exists i :: 0 <= i < k && order[i] in last && last[order[i]] == newest)
  }

  lemma {:induction false} LateFrom(order: seq<string>, last: Events, k: nat, newest: nat, n: string)
    requires k <= |order| && NewestBefore(order, last, k, newest)
    ensures n in Late(order[k..], last, newest) <==>
            exists j :: k <= j < |order| && order[j] == n && LateAt(order, last, j)
    decreases |order| - k
  {
    if k < |order| {
      assert order[k..][0] == order[k] && order[k..][1..] == order[k + 1..];
      if order[k] in last {
        var t := last[order[k]];
        assert t < newest <==> LateAt(order, last, k);
        NewestMore(order, last, k, newest);
        LateFrom(order, last, k + 1, Newer(newest, t), n);
      } else {
        LateFrom(order, last, k + 1, newest, n);
      }
    }
  }

  lemma NewestMore(order: seq<string>, last: Events, k: nat, newest: nat)
    requires k < |order| && NewestBefore(order, last, k, newest) && order[k] in last
    ensures NewestBefore(order, last, k + 1, Newer(newest, last[order[k]]))
  {
  }

  /** Exactly the WANs that came up before an earlier one are late; none is exactly when the order holds. */
  lemma LateExactly(order: seq<string>, last: Events)
    ensures forall n :: n in Late(order, last, 0) <==>
            exists j :: 0 <= j < |order| && order[j] == n && LateAt(order, last, j)
    ensures Late(order, last, 0) == [] <==> InOrder(order, last)
  {
    assert order[0..] == order;
    forall n
      ensures n in Late(order, last, 0) <==> exists j :: 0 <= j < |order| && order[j] == n && LateAt(order, last, j)
    {
      LateFrom(order, last, 0, 0, n);
    }
    if Late(order, last, 0) != [] {
      assert Late(order, last, 0)[0] in Late(order, last, 0);
    }
    if !InOrder(order, last) {
      var i, j :| 0 <= i < j < |order| && order[i] in last && order[j] in last && last[order[i]] > last[order[j]];
      assert LateAt(order, last, j);
      assert order[j] in Late(order, last, 0);
    }
  }

  // ---- convergence ----

  // The place of the first late WAN; the length of the order if there is none.
  function FirstLate(order: seq<string>, last: Events, k: nat): (f: nat)
    requires k <= |order|
    ensures k <= f <= |order|
    decreases |order| - k
  {
    if k == |order| || LateAt(order, last, k) then k else FirstLate(order, last, k + 1)
  }

  lemma {:induction false} FirstLateIs(order: seq<string>, last: Events, k: nat)
    requires k <= |order|
    ensures var f := FirstLate(order, last, k);
            (f < |order| ==> LateAt(order, last, f)) && forall j :: k <= j < f ==> !LateAt(order, last, j)
    decreases |order| - k
  {
    if k < |order| && !LateAt(order, last, k) {
      FirstLateIs(order, last, k + 1);
    }
  }

  lemma {:induction false} OthersStay(last: Events, due: seq<string>, outcomes: map<string, Outcome>, n: string)
    requires n !in due
    ensures var after := RedialAll(last, due, outcomes);
            (n in after <==> n in last) && (n in last ==> after[n] == last[n])
  {
    if due != [] {
      OthersStay(last, due[..|due| - 1], outcomes, n);
    }
  }

  lemma {:induction false} RedialledIs(last: Events, due: seq<string>, outcomes: map<string, Outcome>, n: string)
    requires n in due && Unique(due)
    ensures var after := RedialAll(last, due, outcomes);
            match OutcomeOf(outcomes, n)
            case Refused => (n in after <==> n in last) && (n in last ==> after[n] == last[n])
            case Back(at) => n in after && after[n] == at
            case Gone => n !in after
    decreases |due|
  {
    var init, l := due[..|due| - 1], due[|due| - 1];
    if n == l {
      assert n !in init;
      OthersStay(last, init, outcomes, n);
    } else {
      RedialledIs(last, init, outcomes, n);
    }
  }

  // Nothing happened later than now, and a redialled WAN does not come back earlier.
  predicate Clocked(last: Events, outcomes: map<string, Outcome>, now: nat) {
    && (forall n :: n in last ==> last[n] <= now)
    && (forall n :: n in outcomes && outcomes[n].Back? ==> outcomes[n].at >= now)
  }

  // Every late WAN's restart is accepted.
  predicate Accepted(order: seq<string>, last: Events, outcomes: map<string, Outcome>) {
    forall n :: n in Late(order, last, 0) ==> !OutcomeOf(outcomes, n).Refused?
  }

  /** A pass over all late WANs moves the first late place on, whatever order they come back in. */
  lemma PassAdvances(order: seq<string>, last: Events, outcomes: map<string, Outcome>, now: nat)
    requires Unique(order) && Clocked(last, outcomes, now) && Accepted(order, last, outcomes)
    requires Late(order, last, 0) != []
    ensures FirstLate(order, RedialAll(last, Late(order, last, 0), outcomes), 0) > FirstLate(order, last, 0)
  {
    var late, f := Late(order, last, 0), FirstLate(order, last, 0);
    var after := RedialAll(last, late, outcomes);
    LateExactly(order, last);
    LateIsUnique(order, last, 0);
    FirstLateIs(order, last, 0);
    assert late[0] in late;
    assert LateAt(order, last, f);
    forall i | 0 <= i < f
      ensures (order[i] in after <==> order[i] in last) && (order[i] in last ==> after[order[i]] == last[order[i]])
    {
      assert order[i] !in late;
      OthersStay(last, late, outcomes, order[i]);
    }
    assert order[f] in late;
    RedialledIs(last, late, outcomes, order[f]);
    forall j | 0 <= j <= f
      ensures !LateAt(order, after, j)
    {
      assert j < f ==> !LateAt(order, last, j);
    }
    FirstLateIs(order, after, 0);
  }

  // Passes in a row: each redials all that are late, and nothing else happens.
  ghost predicate Passes(order: seq<string>, events: seq<Events>, outcomes: seq<map<string, Outcome>>,
                         clocks: seq<nat>) {
    && |events| == |outcomes| + 1 && |clocks| == |outcomes|
    && forall i :: 0 <= i < |outcomes| ==>
         && Clocked(events[i], outcomes[i], clocks[i]) && Accepted(order, events[i], outcomes[i])
         && events[i + 1] == RedialAll(events[i], Late(order, events[i], 0), outcomes[i])
  }

  lemma {:induction false} PassesAdvance(order: seq<string>, events: seq<Events>, outcomes: seq<map<string, Outcome>>,
                                         clocks: seq<nat>, k: nat)
    requires Unique(order) && Passes(order, events, outcomes, clocks) && k < |events|
    ensures Late(order, events[k], 0) == [] || FirstLate(order, events[k], 0) > k
  {
    if k == 0 {
      FirstLateIs(order, events[0], 0);
      assert !LateAt(order, events[0], 0);
      LateExactly(order, events[0]);
    } else {
      PassesAdvance(order, events, outcomes, clocks, k - 1);
      if Late(order, events[k - 1], 0) != [] {
        PassAdvances(order, events[k - 1], outcomes[k - 1], clocks[k - 1]);
      } else {
        assert events[k] == events[k - 1];
      }
    }
  }

  /** One pass fewer than there are WANs restores the order. */
  lemma OrderConverges(order: seq<string>, events: seq<Events>, outcomes: seq<map<string, Outcome>>, clocks: seq<nat>)
    requires Unique(order) && Passes(order, events, outcomes, clocks)
    requires |outcomes| >= |order| - 1 && order != []
    ensures InOrder(order, events[|outcomes|])
  {
    var k := |outcomes|;
    PassesAdvance(order, events, outcomes, clocks, k);
    LateExactly(order, events[k]);
    var late := Late(order, events[k], 0);
    assert late != [] ==> late[0] in late;
    FirstLateIs(order, events[k], 0);
  }

  /** One pass is not always enough: of 10, 5, 12 only the second is late, and then the third is. */
  lemma OnePassIsNotEnough()
    ensures var order, last := ["a", "b", "c"], map["a" := 10, "b" := 5, "c" := 12];
            && Late(order, last, 0) == ["b"]
            && forall at :: at > 12 ==> Late(order, RedialAll(last, ["b"], map["b" := Back(at)]), 0) == ["c"]
  {
    var order, last := ["a", "b", "c"], map["a" := 10, "b" := 5, "c" := 12];
    LateOfThree(last);
    forall at: nat | at > 12
      ensures Late(order, RedialAll(last, ["b"], map["b" := Back(at)]), 0) == ["c"]
    {
      var after := RedialAll(last, ["b"], map["b" := Back(at)]);
      RedialOne(last, "b", map["b" := Back(at)]);
      assert after == last["b" := at];
      LateOfThree(after);
    }
  }

  lemma RedialOne(last: Events, n: string, outcomes: map<string, Outcome>)
    ensures RedialAll(last, [n], outcomes) == Redial(last, n, OutcomeOf(outcomes, n))
  {
    assert [n][..0] == [];
  }

  lemma LateOfThree(last: Events)
    requires "a" in last && "b" in last && "c" in last
    ensures var a, b, c := last["a"], last["b"], last["c"];
            Late(["a", "b", "c"], last, 0) == (if b < a then ["b"] else []) + if c < Newer(a, b) then ["c"] else []
  {
    var order := ["a", "b", "c"];
    assert order[1..] == ["b", "c"] && ["b", "c"][1..] == ["c"] && ["c"][1..] == [];
    assert Late(["c"], last, Newer(last["a"], last["b"])) ==
           if last["c"] < Newer(last["a"], last["b"]) then ["c"] else [];
  }

  // ---- the cooldown ----

  lemma {:induction false} DueAfterGap(late: seq<string>, st: map<string, int>, now: int, n: string)
    ensures n in Due(late, st, now) <==> n in late && now - Since(st, n) >= GAP
  {
    if late != [] {
      DueAfterGap(late[1..], st, now, n);
      assert n in late <==> n == late[0] || n in late[1..];
    }
  }

  // Automatic restores in a row, with whatever is late at each.
  ghost predicate Restores(stamps: seq<map<string, int>>, lates: seq<seq<string>>, clocks: seq<int>) {
    && |stamps| == |lates| + 1 && |clocks| == |lates|
    && (forall i, j :: 0 <= i <= j < |clocks| ==> clocks[i] <= clocks[j])
    && forall i :: 0 <= i < |lates| ==>
         stamps[i + 1] == Stamped(stamps[i], Due(lates[i], stamps[i], clocks[i]), clocks[i])
  }

  lemma {:induction false} StampStays(stamps: seq<map<string, int>>, lates: seq<seq<string>>, clocks: seq<int>,
                                      i: nat, j: nat, n: string)
    requires Restores(stamps, lates, clocks) && i < j < |stamps| && n in Due(lates[i], stamps[i], clocks[i])
    ensures n in stamps[j] && stamps[j][n] >= clocks[i]
    decreases j
  {
    if j > i + 1 {
      StampStays(stamps, lates, clocks, i, j - 1, n);
    }
  }

  /** No WAN is redialled twice within the gap by automatic restores. */
  lemma RedialsAreSpaced(stamps: seq<map<string, int>>, lates: seq<seq<string>>, clocks: seq<int>, i: nat, j: nat,
                         n: string)
    requires Restores(stamps, lates, clocks) && i < j < |lates|
    requires n in Due(lates[i], stamps[i], clocks[i]) && n in Due(lates[j], stamps[j], clocks[j])
    ensures clocks[j] - clocks[i] >= GAP
  {
    StampStays(stamps, lates, clocks, i, j, n);
    DueAfterGap(lates[j], stamps[j], clocks[j], n);
  }

  /** When the gap has passed for all that are late, an automatic restore redials them all. */
  lemma {:induction false} AllDueAfterGap(late: seq<string>, st: map<string, int>, now: int)
    requires forall n :: n in late ==> now - Since(st, n) >= GAP
    ensures Due(late, st, now) == late
  {
    if late != [] {
      AllDueAfterGap(late[1..], st, now);
    }
  }
}
