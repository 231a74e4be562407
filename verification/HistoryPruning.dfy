/** The pruning of the history: when the archive of a change is still there, and that polite runs whose
    histories are long enough never lose the archive of an open change, so that all that is proved of the
    settling protocol holds of them. */
module HistoryPruning {
  import opened Wrappers
  import opened FlashStore
  import opened Snapshots
  import opened SettleProtocol
  import opened SettleSafety
  import opened SettleHistory
  import opened UndoneChanges

  // How many archives are newer than x.
  function Newer(archives: seq<nat>, x: nat): nat
    requires x in archives
  {
    if x in archives[1..] then Newer(archives[1..], x) else |archives| - 1
  }

  function Kept(keep: nat): nat {
    if keep == 0 then 1 else keep
  }

  lemma {:induction false} NewerThan(archives: seq<nat>, x: nat)
    requires x in archives
    ensures Newer(archives, x) < |archives| && archives[|archives| - 1 - Newer(archives, x)] == x
    ensures forall i :: |archives| - Newer(archives, x) <= i < |archives| ==> archives[i] != x
  {
    if x in archives[1..] {
      NewerThan(archives[1..], x);
      assert forall i :: 1 <= i < |archives| ==> archives[i] == archives[1..][i - 1];
    } else {
      assert forall i :: 1 <= i < |archives| ==> archives[i] == archives[1..][i - 1];
    }
  }

  /** What one snapshot prunes: an archive stays exactly if fewer are newer than the config keeps, the new
      one counted. */
  lemma PruneKeepsIff(archives: seq<nat>, y: nat, keep: nat, x: nat)
    requires x in archives && x != y
    ensures x in Pruned(archives + [y], keep) <==> Newer(archives, x) + 1 < Kept(keep)
  {
    var all, n := archives + [y], Kept(keep);
    NewerThan(archives, x);
    if |all| > n {
      assert forall i :: |all| - n <= i < |archives| ==> Pruned(all, keep)[i - (|all| - n)] == archives[i];
      if x in Pruned(all, keep) {
        var i :| 0 <= i < n && Pruned(all, keep)[i] == x;
        assert all[|all| - n + i] == x;
      }
    } else {
      assert all[|archives| - 1 - Newer(archives, x)] == x;
    }
  }

  lemma {:induction false} NewerSlice(archives: seq<nat>, k: nat, x: nat)
    requires k <= |archives| && x in archives[k..]
    ensures x in archives && Newer(archives[k..], x) == Newer(archives, x)
  {
    if k > 0 {
      assert archives[1..][k - 1..] == archives[k..];
      NewerSlice(archives[1..], k - 1, x);
    } else {
      assert archives[0..] == archives;
    }
  }

  lemma {:induction false} NewerAppend(archives: seq<nat>, y: nat, x: nat)
    requires x in archives && x != y
    ensures x in archives + [y] && Newer(archives + [y], x) == Newer(archives, x) + 1
  {
    assert (archives + [y])[1..] == archives[1..] + [y];
    if x in archives[1..] {
      NewerAppend(archives[1..], y, x);
    }
  }

  lemma NewerPruned(archives: seq<nat>, y: nat, keep: nat, x: nat)
    requires x in archives && x != y && x in Pruned(archives + [y], keep)
    ensures Newer(Pruned(archives + [y], keep), x) == Newer(archives, x) + 1
  {
    var all := archives + [y];
    NewerAppend(archives, y, x);
    if |all| > Kept(keep) {
      NewerSlice(all, |all| - Kept(keep), x);
    }
  }

  lemma {:induction false} NewestPruned(archives: seq<nat>, x: nat, keep: nat)
    ensures x in Pruned(archives + [x], keep) && Newer(Pruned(archives + [x], keep), x) == 0
  {
    var pruned := Pruned(archives + [x], keep);
    assert pruned[|pruned| - 1] == x;
    NewerOfLast(pruned);
  }

  lemma {:induction false} NewerOfLast(archives: seq<nat>)
    requires archives != []
    ensures Newer(archives, archives[|archives| - 1]) == 0
  {
    if |archives| > 1 {
      assert archives[1..][|archives| - 2] == archives[|archives| - 1];
      NewerOfLast(archives[1..]);
    }
  }

  lemma {:induction false} NewerWithout(archives: seq<nat>, y: nat, x: nat)
    ensures x in Without(archives, y) <==> x in archives && x != y
    ensures x in archives && x != y ==> Newer(Without(archives, y), x) <= Newer(archives, x)
    ensures |Without(archives, y)| <= |archives|
  {
    if archives != [] {
      var rest := archives[1..];
      NewerWithout(rest, y, x);
      assert archives == [archives[0]] + rest;
      if archives[0] != y {
        assert Without(archives, y)[1..] == Without(rest, y);
      } else {
        assert Without(archives, y) == Without(rest, y);
      }
    }
  }

  // ---- what a step does to the archives ----

  // The archive a step takes away: a refused applier's, or a withdrawn change's.
  ghost function Dropped(s: State, a: Action): Option<nat>
    requires Enabled(s, a)
  {
    if a.ClaimMarker? && s.marker.Some? then Some(s.procs[a.pid].job.snap)
    else if a.RemoveMarker? && s.procs[a.pid].verdict == Withdrawn then Some(s.procs[a.pid].snap)
    else None
  }

  ghost function ArchivesAfter(s: State, a: Action): seq<nat>
    requires Enabled(s, a)
  {
    if a.TakeSnapshot? then Pruned(s.archives + [s.procs[a.pid].job.snap], s.procs[a.pid].job.keep)
    else if Dropped(s, a).Some? then Without(s.archives, Dropped(s, a).value)
    else s.archives
  }

  // An applier that waits to claim has just taken its snapshot, or waited before.
  ghost predicate WaitersStay(s: State, t: State, a: Action) {
    forall pid :: pid in t.procs && t.procs[pid].Claiming? ==>
                    pid in s.procs && (s.procs[pid] == t.procs[pid] || (a.TakeSnapshot? && a.pid == pid))
  }

  lemma ArchivesStep(s: State, a: Action)
    requires Enabled(s, a)
    ensures Next(s, a).archives == ArchivesAfter(s, a) && WaitersStay(s, Next(s, a), a)
  {
    if ByHolder(a) {
      ArchivesOfHolder(s, a);
    } else if Quiet(a) {
      ArchivesOfQuiet(s, a);
    } else {
      ArchivesOfOther(s, a);
    }
  }

  // A process turns into one that is past its claim, or ends.
  predicate TurnsOne(s: State, t: State, pid: nat) {
    && (forall q :: q in t.procs && q != pid ==> q in s.procs && t.procs[q] == s.procs[q])
    && (pid in t.procs ==> !t.procs[pid].Claiming? && !t.procs[pid].Planning?)
  }

  lemma ArchivesOfHolder(s: State, a: Action)
    requires Enabled(s, a) && ByHolder(a)
    ensures Next(s, a).archives == ArchivesAfter(s, a) && WaitersStay(s, Next(s, a), a)
  {
    HolderTurns(s, a);
    if a.RemoveMarker? {
      assert Removed(s, a.pid).archives == ArchivesAfter(s, a);
    }
  }

  lemma HolderTurns(s: State, a: Action)
    requires Enabled(s, a) && ByHolder(a)
    ensures TurnsOne(s, Next(s, a), a.pid)
    ensures a.RemoveMarker? || Next(s, a).archives == s.archives
  {
    if a.RestoreOne? || a.KeepOne? || a.EndRestore? || a.RemoveMarker? {
      EndingTurns(s, a);
    } else if a.Arm? || a.Succeed? {
      AppliedTurns(s, a);
    } else if a.Fail? {
      FailTurns(s, a.pid);
      assert Next(s, a) == Failed(s, a.pid);
    } else {
      WriterTurns(s, a);
    }
  }

  lemma WriterTurns(s: State, a: Action)
    requires Enabled(s, a) && (a.CheckBase? || a.DoAct?)
    ensures TurnsOne(s, Next(s, a), a.pid) && Next(s, a).archives == s.archives
  {
    match a
    case CheckBase(pid) => assert TurnsOne(s, Checked(s, pid), pid);
    case DoAct(pid) => assert TurnsOne(s, Acted(s, pid), pid);
  }

  lemma FailTurns(s: State, pid: nat)
    requires CanFail(s, pid)
    ensures TurnsOne(s, Failed(s, pid), pid) && Failed(s, pid).archives == s.archives
  {
  }

  lemma AppliedTurns(s: State, a: Action)
    requires Enabled(s, a) && (a.Arm? || a.Succeed?)
    ensures TurnsOne(s, Next(s, a), a.pid) && Next(s, a).archives == s.archives
  {
    match a
    case Arm(pid) => assert TurnsOne(s, Armed(s, pid), pid);
    case Succeed(pid) => assert TurnsOne(s, Succeeded(s, pid), pid);
  }

  lemma EndingTurns(s: State, a: Action)
    requires Enabled(s, a) && (a.RestoreOne? || a.KeepOne? || a.EndRestore? || a.RemoveMarker?)
    ensures TurnsOne(s, Next(s, a), a.pid) && (a.RemoveMarker? || Next(s, a).archives == s.archives)
  {
    match a
    case RestoreOne(pid, p) => assert TurnsOne(s, RestoredOne(s, pid, p), pid);
    case KeepOne(pid, p) => assert TurnsOne(s, KeptOne(s, pid, p), pid);
    case EndRestore(pid) => assert TurnsOne(s, Restored(s, pid), pid);
    case RemoveMarker(pid) => assert TurnsOne(s, Removed(s, pid), pid);
  }

  lemma ArchivesOfQuiet(s: State, a: Action)
    requires Enabled(s, a) && Quiet(a)
    ensures Next(s, a).archives == ArchivesAfter(s, a) && WaitersStay(s, Next(s, a), a)
  {
    match a
    case Accept(pid) => AcceptIsBystander(s, pid);
    case Kill(pid) => EndIsBystander(s, pid);
    case LockAndRead(pid) => LockingIsBystander(s, pid);
    case StartTimer(pid) => TimerIsBystander(s, pid);
    case StartRollback(pid) => RollbackIsBystander(s, pid);
    case _ =>
  }

  lemma ArchivesOfOther(s: State, a: Action)
    requires Enabled(s, a) && !ByHolder(a) && !Quiet(a)
    ensures Next(s, a).archives == ArchivesAfter(s, a) && WaitersStay(s, Next(s, a), a)
  {
    if a.TakeSnapshot? || a.ClaimMarker? {
      ArchivesOfClaimer(s, a);
    } else if a.SetReverting? || a.ConfirmRemove? {
      LockedTurns(s, a);
    } else {
      ArchivesAside(s, a);
    }
  }

  lemma ArchivesOfClaimer(s: State, a: Action)
    requires Enabled(s, a) && (a.TakeSnapshot? || a.ClaimMarker?)
    ensures Next(s, a).archives == ArchivesAfter(s, a) && WaitersStay(s, Next(s, a), a)
  {
    match a
    case TakeSnapshot(pid) => assert Snapped(s, pid).procs == s.procs[pid := Claiming(s.procs[pid].job)];
    case ClaimMarker(pid) => ClaimerTurns(s, pid);
  }

  lemma ClaimerTurns(s: State, pid: nat)
    requires CanClaim(s, pid)
    ensures TurnsOne(s, Claimed(s, pid), pid)
  {
  }

  lemma LockedTurns(s: State, a: Action)
    requires Enabled(s, a) && (a.SetReverting? || a.ConfirmRemove?)
    ensures TurnsOne(s, Next(s, a), a.pid) && Next(s, a).archives == s.archives
  {
    match a
    case SetReverting(pid) => assert TurnsOne(s, Marked(s, pid), pid);
    case ConfirmRemove(pid) => assert TurnsOne(s, Confirmed(s, pid), pid);
  }

  lemma ArchivesAside(s: State, a: Action)
    requires Enabled(s, a) && (a.StartApply? || a.PowerCycle? || a.Edit? || a.SetPassword?)
    ensures Next(s, a).archives == s.archives && WaitersStay(s, Next(s, a), a)
  {
    match a
    case StartApply(job) => assert Started(s, job).archives == s.archives;
    case PowerCycle(image) => assert Booted(s, image).archives == s.archives && Booted(s, image).procs == map[];
    case Edit(p, v) => assert Puts(s, p, v).archives == s.archives;
    case SetPassword(pw) => assert PasswordSet(s, pw).archives == s.archives;
  }

  // An archive grows older by one snapshot at a time.
  lemma AgesStep(s: State, a: Action, x: nat)
    requires Enabled(s, a) && x in s.snaps && x in Next(s, a).archives
    ensures x in s.archives
    ensures Newer(Next(s, a).archives, x) <= Newer(s.archives, x) + if a.TakeSnapshot? then 1 else 0
  {
    ArchivesStep(s, a);
    if a.TakeSnapshot? {
      var job := s.procs[a.pid].job;
      var all := s.archives + [job.snap];
      assert x in all;
      NewerPruned(s.archives, job.snap, job.keep, x);
    } else if Dropped(s, a).Some? {
      NewerWithout(s.archives, Dropped(s, a).value, x);
    }
  }

  // ---- runs ----

  // The snapshots taken from state i to state n.
  function Takes(actions: seq<Action>, i: nat, n: nat): nat
    requires n <= |actions|
  {
    if n <= i then 0 else Takes(actions, i, n - 1) + if actions[n - 1].TakeSnapshot? then 1 else 0
  }

  lemma {:induction false} TakenBefore(states: seq<State>, actions: seq<Action>, n: nat, x: nat) returns (i: nat)
    requires Runs(states, actions) && n <= |actions| && states[0].snaps == map[] && x in states[n].snaps
    ensures i < n && TakesSnapshot(states[i], actions[i], x)
  {
    var a := actions[n - 1];
    if x in states[n - 1].snaps {
      i := TakenBefore(states, actions, n - 1, x);
    } else {
      HistoryStays(states[n - 1], a);
      assert Snapped(states[n - 1], a.pid) == states[n];
      i := n - 1;
    }
  }

  lemma {:induction false} AgeBound(states: seq<State>, actions: seq<Action>, i: nat, n: nat, x: nat)
    requires Runs(states, actions) && i < n <= |actions| && TakesSnapshot(states[i], actions[i], x)
    ensures x in states[n].snaps
    ensures x in states[n].archives ==> Newer(states[n].archives, x) <= Takes(actions, i + 1, n)
    decreases n
  {
    var a := actions[n - 1];
    if n == i + 1 {
      assert states[n] == Snapped(states[i], a.pid);
      NewestPruned(states[i].archives, x, states[i].procs[a.pid].job.keep);
    } else {
      AgeBound(states, actions, i, n - 1, x);
      SnapStep(states[n - 1], a, x);
      if x in states[n].archives {
        AgesStep(states[n - 1], a, x);
      }
    }
  }

  // x is the snapshot of the open change, or of an applier that waits to claim.
  ghost predicate Needed(s: State, x: nat) {
    (s.marker.Some? && s.marker.value.snap == x) || exists pid :: Waits(s, pid, x)
  }

  predicate Waits(s: State, pid: nat, x: nat) {
    pid in s.procs && s.procs[pid].Claiming? && s.procs[pid].job.snap == x
  }

  // While a snapshot is needed, fewer are taken after it than any of those keeps.
  ghost predicate Roomy(states: seq<State>, actions: seq<Action>)
    requires |actions| < |states|
  {
    forall i, j, x :: 0 <= i < j < |actions| && TakesSnapshot(states[i], actions[i], x) && Needed(states[j], x) ==>
      RoomAt(states, actions, i, j)
  }

  predicate RoomAt(states: seq<State>, actions: seq<Action>, i: nat, j: nat)
    requires j < |actions| < |states|
  {
    HasRoom(states[j], actions[j], Takes(actions, i + 1, j + 1))
  }

  predicate HasRoom(s: State, a: Action, takes: nat) {
    a.TakeSnapshot? && CanSnap(s, a.pid) ==> takes < Kept(s.procs[a.pid].job.keep)
  }

  // The archives of appliers that wait to claim are there.
  ghost predicate WaitersArchived(s: State) {
    forall pid, x :: Waits(s, pid, x) ==> x in s.archives
  }

  ghost predicate PoliteRun(states: seq<State>, actions: seq<Action>) {
    && Runs(states, actions)
    && (exists f, acc :: states[0] == Init(f, acc))
    && forall i {:trigger actions[i]} :: 0 <= i < |actions| ==> Polite(states[i], actions[i])
  }

  lemma NeededStays(states: seq<State>, actions: seq<Action>, n: nat, x: nat)
    requires PoliteRun(states, actions) && Roomy(states, actions) && n < |actions| && actions[n].TakeSnapshot?
    requires Needed(states[n], x) && x in states[n].snaps && x in states[n].archives
    ensures x in states[n + 1].archives
  {
    var s, a := states[n], actions[n];
    var i := TakenBefore(states, actions, n, x);
    AgeBound(states, actions, i, n, x);
    assert RoomAt(states, actions, i, n);
    ArchivesStep(s, a);
    PruneKeepsIff(s.archives, s.procs[a.pid].job.snap, s.procs[a.pid].job.keep, x);
  }

  lemma RoomKeepsArchive(states: seq<State>, actions: seq<Action>, n: nat)
    requires PoliteRun(states, actions) && Roomy(states, actions) && n < |actions|
    requires Inv(states[n]) && WaitersArchived(states[n])
    ensures KeepsArchive(states[n], actions[n])
  {
    var s, a := states[n], actions[n];
    if a.TakeSnapshot? && s.marker.Some? {
      OpenArchived(s);
      NeededStays(states, actions, n, s.marker.value.snap);
    } else if a.ClaimMarker? {
      assert Waits(s, a.pid, s.procs[a.pid].job.snap);
    }
  }

  // Nobody takes away the archive of an applier that waits, but the applier itself.
  lemma DroppedIsOther(s: State, a: Action, pid: nat, x: nat)
    requires Inv(s) && Enabled(s, a) && Waits(s, pid, x) && Waits(Next(s, a), pid, x) && !a.TakeSnapshot?
    ensures Dropped(s, a) != Some(x)
  {
    if a.ClaimMarker? && s.marker.Some? {
      assert Claimed(s, a.pid).procs == s.procs - {a.pid};
      assert !BothClaim(s.procs[a.pid], s.procs[pid]);
    } else if a.RemoveMarker? {
      HolderOwns(s, a.pid);
    }
  }

  lemma WaitersStep(states: seq<State>, actions: seq<Action>, n: nat)
    requires PoliteRun(states, actions) && Roomy(states, actions) && n < |actions|
    requires Inv(states[n]) && WaitersArchived(states[n])
    ensures WaitersArchived(states[n + 1])
  {
    var s, t, a := states[n], states[n + 1], actions[n];
    forall pid, x | Waits(t, pid, x)
      ensures x in t.archives
    {
      ArchivesStep(s, a);
      if a.TakeSnapshot? && a.pid == pid {
        assert t == Snapped(s, pid);
        NewestPruned(s.archives, x, s.procs[pid].job.keep);
      } else {
        assert Waits(s, pid, x);
        WaiterStays(states, actions, n, pid, x);
      }
    }
  }

  lemma WaiterStays(states: seq<State>, actions: seq<Action>, n: nat, pid: nat, x: nat)
    requires PoliteRun(states, actions) && Roomy(states, actions) && n < |actions|
    requires Inv(states[n]) && WaitersArchived(states[n])
    requires Waits(states[n], pid, x) && Waits(states[n + 1], pid, x)
    ensures x in states[n + 1].archives
  {
    var s, a := states[n], actions[n];
    if a.TakeSnapshot? {
      assert Taken(s.snaps, s.procs[pid].job);
      NeededStays(states, actions, n, x);
    } else {
      ArchivesStep(s, a);
      DroppedIsOther(s, a, pid, x);
      if Dropped(s, a).Some? {
        NewerWithout(s.archives, Dropped(s, a).value, x);
      }
    }
  }

  lemma {:induction false} RoomyInv(states: seq<State>, actions: seq<Action>, n: nat)
    requires PoliteRun(states, actions) && Roomy(states, actions) && n <= |actions|
    ensures Inv(states[n]) && WaitersArchived(states[n])
  {
    if n > 0 {
      var a := actions[n - 1];
      RoomyInv(states, actions, n - 1);
      RoomKeepsArchive(states, actions, n - 1);
      InvStep(states[n - 1], a);
      WaitersStep(states, actions, n - 1);
    }
  }

  /** When the open change always keeps its archive: if, while a change is open or about to be claimed,
      fewer snapshots are taken after its own than the config of any of them keeps, a polite run is a
      behaviour of the settling protocol. So every claimed change settles as it promises; none is
      abandoned. */
  lemma RoomyRunsSettle(states: seq<State>, actions: seq<Action>)
    requires PoliteRun(states, actions) && Roomy(states, actions)
    ensures Behaviour(states, actions)
  {
    forall n {:trigger actions[n]} | 0 <= n < |actions|
      ensures KeepsArchive(states[n], actions[n])
    {
      var a := actions[n];
      RoomyInv(states, actions, n);
      RoomKeepsArchive(states, actions, n);
    }
  }

  // ---- how many snapshots an open change can see ----

  // The appliers that have yet to take their snapshots.
  function Planners(s: State): set<nat> {
    set pid | pid in s.procs && s.procs[pid].Planning?
  }

  lemma TakerLeaves(s: State, pid: nat)
    requires CanSnap(s, pid)
    ensures pid in Planners(s) && Planners(Snapped(s, pid)) == Planners(s) - {pid}
  {
    assert Snapped(s, pid).procs == s.procs[pid := Claiming(s.procs[pid].job)];
  }

  lemma PlannersStay(s: State, a: Action)
    requires Enabled(s, a) && !a.StartApply? && !a.TakeSnapshot?
    ensures Planners(Next(s, a)) <= Planners(s)
  {
    if ByHolder(a) {
      HolderTurns(s, a);
    } else if Quiet(a) {
      PlannersOfQuiet(s, a);
    } else if a.SetReverting? || a.ConfirmRemove? {
      LockedTurns(s, a);
    } else if a.ClaimMarker? {
      ClaimerTurns(s, a.pid);
      assert Next(s, a) == Claimed(s, a.pid);
    } else {
      PlannersOfOther(s, a);
    }
  }

  lemma PlannersOfQuiet(s: State, a: Action)
    requires Enabled(s, a) && Quiet(a)
    ensures Planners(Next(s, a)) <= Planners(s)
  {
    match a
    case Accept(pid) => AcceptIsBystander(s, pid);
    case Kill(pid) => EndIsBystander(s, pid);
    case LockAndRead(pid) => LockingIsBystander(s, pid);
    case StartTimer(pid) => TimerIsBystander(s, pid);
    case StartRollback(pid) => RollbackIsBystander(s, pid);
    case _ =>
  }

  lemma PlannersOfOther(s: State, a: Action)
    requires Enabled(s, a) && (a.PowerCycle? || a.Edit? || a.SetPassword?)
    ensures Planners(Next(s, a)) <= Planners(s)
  {
    match a
    case PowerCycle(image) => assert Booted(s, image).procs == map[];
    case Edit(p, v) => assert Puts(s, p, v).procs == s.procs;
    case SetPassword(pw) => assert PasswordSet(s, pw).procs == s.procs;
  }

  // While a change is open nobody starts to apply, so only those that had started take snapshots.
  lemma {:induction false} TakesWhileOpen(states: seq<State>, actions: seq<Action>, k: nat, n: nat)
    requires Runs(states, actions) && k <= n <= |actions| && OpenFor(states, k, n)
    ensures Takes(actions, k, n) + |Planners(states[n])| <= |Planners(states[k])|
    decreases n
  {
    if k < n {
      var s, a := states[n - 1], actions[n - 1];
      TakesWhileOpen(states, actions, k, n - 1);
      assert s.marker.Some?;
      if a.TakeSnapshot? {
        TakerLeaves(s, a.pid);
      } else {
        PlannersStay(s, a);
        Fewer(Planners(states[n]), Planners(s));
      }
    }
  }

  lemma {:induction false} Fewer(a: set<nat>, b: set<nat>)
    requires a <= b
    ensures |a| <= |b|
  {
    assert b == a + (b - a);
  }

  ghost predicate OpenFor(states: seq<State>, k: nat, n: nat)
    requires n < |states|
  {
    forall m {:trigger states[m].marker} :: k <= m < n ==> states[m].marker.Some?
  }

  lemma {:induction false} TakesApart(actions: seq<Action>, i: nat, k: nat, n: nat)
    requires i <= k <= n <= |actions|
    ensures Takes(actions, i, n) == Takes(actions, i, k) + Takes(actions, k, n)
  {
    if k < n {
      TakesApart(actions, i, k, n - 1);
    }
  }

  // More room than there are snapshots to come.
  lemma RoomFor(states: seq<State>, actions: seq<Action>, i: nat, k: nat, j: nat, planners: nat)
    requires i < k <= j < |actions| < |states| && Takes(actions, k, j + 1) <= planners
    requires HasRoom(states[j], actions[j], Takes(actions, i + 1, k) + planners)
    ensures RoomAt(states, actions, i, j)
  {
    TakesApart(actions, i + 1, k, j + 1);
  }

  lemma TakesOfPlanners(states: seq<State>, actions: seq<Action>, k: nat, n: nat)
    requires Runs(states, actions) && k <= n <= |actions| && OpenFor(states, k, n)
    ensures Takes(actions, k, n) <= |Planners(states[k])|
  {
    TakesWhileOpen(states, actions, k, n);
  }

  /** What room a claim needs, known at the claim: the snapshots taken since its own, and one for every
      applier that has started and has yet to take its own, fewer together than the configs keep. Then
      nothing that is taken while the change is open prunes its archive. */
  lemma RoomAtClaim(states: seq<State>, actions: seq<Action>, i: nat, k: nat, j: nat)
    requires Runs(states, actions) && i < k <= j < |actions| && OpenFor(states, k, j + 1)
    requires HasRoom(states[j], actions[j], Takes(actions, i + 1, k) + |Planners(states[k])|)
    ensures RoomAt(states, actions, i, j)
  {
    TakesOfPlanners(states, actions, k, j + 1);
    RoomFor(states, actions, i, k, j, |Planners(states[k])|);
  }
}
