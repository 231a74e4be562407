/** Verdicts and power cuts, over every run: from its verdict on, a change stays as it was settled, wherever
    the power goes, until the next change is claimed; only what is edited since may be lost. */
module DurableVerdicts {
  import opened Wrappers
  import opened FlashStore
  import opened Snapshots
  import opened SettleProtocol
  import opened SettleSafety
  import opened SettleHistory
  import opened UndoneChanges

  // The step is an edit, or the setting of a password, that leaves v at p.
  ghost predicate Sets(s: State, a: Action, p: Path, v: Option<Content>) {
    || (a.Edit? && a.path == p && a.value == v)
    || (a.SetPassword? && CanSetPassword(s) && p == SecretsYaml && v == At(PasswordSet(s, a.password).files, p))
  }

  // v is what p held at step n, or what was set there since.
  ghost predicate SetSince(states: seq<State>, actions: seq<Action>, n: nat, m: nat, p: Path, v: Option<Content>)
    requires n <= m <= |actions| < |states|
  {
    v == At(states[n].files, p) || exists j {:trigger actions[j]} :: n <= j < m && Sets(states[j], actions[j], p, v)
  }

  function Disk(s: State): Store {
    Store(s.files, s.may)
  }

  // Everything p holds, or a power cut may bring back there, was set since.
  ghost predicate OnlySince(states: seq<State>, actions: seq<Action>, n: nat, m: nat, p: Path)
    requires n <= m <= |actions| < |states|
  {
    && SetSince(states, actions, n, m, p, At(states[m].files, p))
    && forall v :: v in May(Disk(states[m]), p) ==> SetSince(states, actions, n, m, p, v)
  }

  // ---- one step without an open change ----

  predicate LeavesDisk(a: Action) {
    !(a.DoAct? || a.RestoreOne? || a.RemoveMarker? || a.ConfirmRemove? || a.PowerCycle? || a.Edit? || a.SetPassword?)
  }

  lemma DiskStays(s: State, a: Action)
    requires Enabled(s, a) && LeavesDisk(a)
    ensures Disk(Next(s, a)) == Disk(s)
  {
    if ByHolder(a) {
      DiskOfHolder(s, a);
    } else if Quiet(a) {
      DiskOfQuiet(s, a);
    } else {
      DiskOfOther(s, a);
    }
  }

  lemma DiskOfHolder(s: State, a: Action)
    requires Enabled(s, a) && LeavesDisk(a) && ByHolder(a)
    ensures Disk(Next(s, a)) == Disk(s)
  {
    match a
    case CheckBase(pid) => assert Disk(Checked(s, pid)) == Disk(s);
    case Fail(pid) => assert Disk(Failed(s, pid)) == Disk(s);
    case Arm(pid) => assert Disk(Armed(s, pid)) == Disk(s);
    case Succeed(pid) => assert Disk(Succeeded(s, pid)) == Disk(s);
    case KeepOne(pid, p) => assert Disk(KeptOne(s, pid, p)) == Disk(s);
    case EndRestore(pid) => assert Disk(Restored(s, pid)) == Disk(s);
  }

  lemma DiskOfQuiet(s: State, a: Action)
    requires Enabled(s, a) && Quiet(a)
    ensures Disk(Next(s, a)) == Disk(s)
  {
    match a
    case Accept(pid) => AcceptIsBystander(s, pid);
    case Kill(pid) => EndIsBystander(s, pid);
    case LockAndRead(pid) => LockingIsBystander(s, pid);
    case StartTimer(pid) => TimerIsBystander(s, pid);
    case StartRollback(pid) => RollbackIsBystander(s, pid);
    case _ =>
  }

  lemma DiskOfOther(s: State, a: Action)
    requires Enabled(s, a) && (a.StartApply? || a.TakeSnapshot? || a.ClaimMarker? || a.SetReverting?)
    ensures Disk(Next(s, a)) == Disk(s)
  {
    match a
    case StartApply(job) => assert Disk(Started(s, job)) == Disk(s);
    case TakeSnapshot(pid) => assert Disk(Snapped(s, pid)) == Disk(s);
    case ClaimMarker(pid) => assert Disk(Claimed(s, pid)) == Disk(s);
    case SetReverting(pid) => assert Disk(Marked(s, pid)) == Disk(s);
  }

  // What a step without an open change can do to p.
  ghost predicate AtRestStep(s: State, t: State, a: Action, p: Path) {
    || (At(t.files, p) == At(s.files, p) && May(Disk(t), p) == May(Disk(s), p))
    || (Sets(s, a, p, At(t.files, p)) && May(Disk(t), p) == May(Disk(s), p) + {At(t.files, p)})
    || (At(t.files, p) in May(Disk(s), p) && May(Disk(t), p) == {At(t.files, p)})
  }

  lemma StepAtRest(s: State, a: Action, p: Path)
    requires Exclusion(s) && Enabled(s, a) && s.marker.None?
    ensures AtRestStep(s, Next(s, a), a, p)
  {
    if a.DoAct? || a.RestoreOne? || a.RemoveMarker? || a.ConfirmRemove? {
      HolderOwns(s, a.pid);
    } else if LeavesDisk(a) {
      DiskStays(s, a);
    } else {
      match a
      case Edit(q, v) => PutAtRest(s, a, q, v, p);
      case SetPassword(pw) => PutAtRest(s, a, SecretsYaml, At(PasswordSet(s, pw).files, SecretsYaml), p);
      case PowerCycle(image) => CutAtRest(s, image, p);
    }
  }

  lemma PutAtRest(s: State, a: Action, q: Path, v: Option<Content>, p: Path)
    requires Sets(s, a, q, v)
    ensures AtRestStep(s, Puts(s, q, v), a, p)
  {
  }

  lemma CutAtRest(s: State, image: Files, p: Path)
    requires CanCut(s, image) && s.marker.None?
    ensures AtRestStep(s, Booted(s, image), PowerCycle(image), p)
  {
  }

  // ---- from a verdict on ----

  // No change is open from state n to state m.
  ghost predicate Unclaimed(states: seq<State>, n: nat, m: nat)
    requires m < |states|
  {
    forall j {:trigger states[j].marker} :: n <= j <= m ==> states[j].marker.None?
  }

  lemma SinceStep(states: seq<State>, actions: seq<Action>, n: nat, m: nat, p: Path)
    requires n <= m < |actions| < |states|
    requires OnlySince(states, actions, n, m, p) && AtRestStep(states[m], states[m + 1], actions[m], p)
    ensures OnlySince(states, actions, n, m + 1, p)
  {
    forall v | SetSince(states, actions, n, m, p, v)
      ensures SetSince(states, actions, n, m + 1, p, v)
    {
      if v != At(states[n].files, p) {
        var j :| n <= j < m && Sets(states[j], actions[j], p, v);
        var a := actions[j];
      }
    }
    var a, now := actions[m], At(states[m + 1].files, p);
    assert Sets(states[m], a, p, now) ==> SetSince(states, actions, n, m + 1, p, now);
  }

  lemma {:induction false} OnlySinceRun(states: seq<State>, actions: seq<Action>, n: nat, m: nat, p: Path)
    requires Behaviour(states, actions) && n <= m <= |actions|
    requires states[n].may == map[] && Unclaimed(states, n, m)
    ensures OnlySince(states, actions, n, m, p)
    decreases m - n
  {
    if n < m {
      OnlySinceRun(states, actions, n, m - 1, p);
      SinceRunStep(states, actions, n, m - 1, p);
    }
  }

  lemma SinceRunStep(states: seq<State>, actions: seq<Action>, n: nat, m: nat, p: Path)
    requires Behaviour(states, actions) && n <= m < |actions| && Unclaimed(states, n, m + 1)
    requires OnlySince(states, actions, n, m, p)
    ensures OnlySince(states, actions, n, m + 1, p)
  {
    AtRestRun(states, actions, n, m, m + 1, p);
    SinceStep(states, actions, n, m, p);
  }

  lemma AtRestRun(states: seq<State>, actions: seq<Action>, n: nat, j: nat, m: nat, p: Path)
    requires Behaviour(states, actions) && n <= j < m <= |actions| && Unclaimed(states, n, m)
    ensures AtRestStep(states[j], states[j + 1], actions[j], p)
  {
    var marker := states[j].marker;
    var a := actions[j];
    InvRun(states, actions, j);
    StepAtRest(states[j], actions[j], p);
  }

  // The steps that give verdicts have everything synced.
  predicate Judging(a: Action) {
    a.RemoveMarker? || a.ConfirmRemove? || a.PowerCycle?
  }

  lemma VerdictSyncs(s: State, a: Action)
    requires Inv(s) && Enabled(s, a) && s.marker.Some? && Next(s, a).marker.None?
    ensures Next(s, a).may == map[]
  {
    if a.RemoveMarker? {
      HolderOwns(s, a.pid);
      assert Removed(s, a.pid).may == map[];
    } else if a.ConfirmRemove? {
      assert Confirmed(s, a.pid).may == map[];
    } else if a.PowerCycle? {
      assert Booted(s, a.image).may == map[];
    } else {
      OthersKeepMarker(s, a);
    }
  }

  lemma OthersKeepMarker(s: State, a: Action)
    requires Inv(s) && Enabled(s, a) && s.marker.Some? && !Judging(a)
    ensures Next(s, a).marker.Some?
  {
    if LeavesMarker(a) {
      MarkerStays(s, a);
    } else if a.SetReverting? {
      MarkerReverts(s, a.pid);
    } else {
      ArmAndClaimMark(s, a);
    }
  }

  lemma ArmAndClaimMark(s: State, a: Action)
    requires Enabled(s, a) && (a.Arm? || a.ClaimMarker?)
    ensures Next(s, a).marker.Some?
  {
    match a
    case Arm(pid) => assert Armed(s, pid).marker.Some?;
    case ClaimMarker(pid) => assert Claimed(s, pid).marker.Some?;
  }

  lemma JudgedSynced(states: seq<State>, actions: seq<Action>, n: nat)
    requires Behaviour(states, actions) && 0 < n <= |actions| && states[n - 1].marker.Some? && states[n].marker.None?
    ensures states[n].may == map[]
  {
    var a := actions[n - 1];
    InvRun(states, actions, n - 1);
    VerdictSyncs(states[n - 1], a);
  }

  /** Verdicts survive power cuts, over every run: from the step that gives a change its verdict until the
      next claim, every power cut at every state, also after others, leaves each file as the verdict left
      it, or as it was edited since. */
  lemma VerdictSurvives(states: seq<State>, actions: seq<Action>, n: nat, m: nat, x: nat, image: Files, p: Path)
    requires Behaviour(states, actions) && 0 < n <= m <= |actions|
    requires x !in states[n - 1].verdicts && x in states[n].verdicts && Unclaimed(states, n, m)
    requires CrashImage(Disk(states[m]), image)
    ensures x in states[n].claims && x in states[n].snaps && Fulfilled(states[n], x)
    ensures SetSince(states, actions, n, m, p, At(image, p))
  {
    JudgedFulfils(states, actions, n, x);
    JudgedSynced(states, actions, n);
    OnlySinceRun(states, actions, n, m, p);
    assert At(image, p) in May(Disk(states[m]), p);
  }
}
