/** What undoing a change goes back to, over every run: the files its snapshot saw, but for the per-WAN
    files a live rollback keeps. When those are the files at its claim, and what a named base revision
    does for that. */
module UndoneChanges {
  import opened Wrappers
  import opened FlashStore
  import opened Snapshots
  import opened SettleProtocol
  import opened SettleSafety
  import opened SettleHistory

  // What a snapshot taken now for the job saves of p.
  function Seen(s: State, j: Job, p: Path): Option<Content> {
    if p == RouterYaml && j.inPlace && s.accepted.Some? then s.accepted else At(s.files, p)
  }

  // The step takes the snapshot of the change x.
  predicate TakesSnapshot(s: State, a: Action, x: nat) {
    a.TakeSnapshot? && CanSnap(s, a.pid) && s.procs[a.pid].job.snap == x
  }

  // The step claims the change x.
  predicate Claims(s: State, a: Action, x: nat) {
    a.ClaimMarker? && CanClaim(s, a.pid) && s.procs[a.pid].job.snap == x && s.marker.None?
  }

  // The change x is undone, live or at boot, at the step to state n.
  predicate UndoneAt(states: seq<State>, n: nat, x: nat)
    requires 0 < n < |states|
  {
    x !in states[n - 1].verdicts && x in states[n].verdicts && states[n].verdicts[x] in {Undone, UndoneAtBoot}
  }

  // Only a snapshot adds to the snapshots, and only a claim to the claims.
  ghost predicate SameHistory(s: State, t: State, a: Action) {
    (!a.TakeSnapshot? ==> t.snaps == s.snaps) && (!a.ClaimMarker? ==> t.claims == s.claims)
  }

  lemma HistoryStays(s: State, a: Action)
    requires Enabled(s, a)
    ensures SameHistory(s, Next(s, a), a)
  {
    if ByHolder(a) {
      HistoryOfHolder(s, a);
    } else if Quiet(a) {
      HistoryOfQuiet(s, a);
    } else {
      HistoryOfOther(s, a);
    }
  }

  lemma HistoryOfHolder(s: State, a: Action)
    requires Enabled(s, a) && ByHolder(a)
    ensures SameHistory(s, Next(s, a), a)
  {
    if a.RestoreOne? || a.KeepOne? || a.EndRestore? || a.RemoveMarker? {
      HistoryOfEnding(s, a);
    } else if a.Fail? || a.Arm? || a.Succeed? {
      HistoryOfApplied(s, a);
    } else {
      HistoryOfWriter(s, a);
    }
  }

  lemma HistoryOfWriter(s: State, a: Action)
    requires Enabled(s, a) && (a.CheckBase? || a.DoAct?)
    ensures SameHistory(s, Next(s, a), a)
  {
    match a
    case CheckBase(pid) => assert SameHistory(s, Checked(s, pid), a);
    case DoAct(pid) => assert SameHistory(s, Acted(s, pid), a);
  }

  lemma HistoryOfApplied(s: State, a: Action)
    requires Enabled(s, a) && (a.Fail? || a.Arm? || a.Succeed?)
    ensures SameHistory(s, Next(s, a), a)
  {
    match a
    case Fail(pid) => assert SameHistory(s, Failed(s, pid), a);
    case Arm(pid) => assert SameHistory(s, Armed(s, pid), a);
    case Succeed(pid) => assert SameHistory(s, Succeeded(s, pid), a);
  }

  lemma HistoryOfEnding(s: State, a: Action)
    requires Enabled(s, a) && (a.RestoreOne? || a.KeepOne? || a.EndRestore? || a.RemoveMarker?)
    ensures SameHistory(s, Next(s, a), a)
  {
    match a
    case RestoreOne(pid, p) => assert SameHistory(s, RestoredOne(s, pid, p), a);
    case KeepOne(pid, p) => assert SameHistory(s, KeptOne(s, pid, p), a);
    case EndRestore(pid) => assert SameHistory(s, Restored(s, pid), a);
    case RemoveMarker(pid) => assert SameHistory(s, Removed(s, pid), a);
  }

  lemma HistoryOfQuiet(s: State, a: Action)
    requires Enabled(s, a) && Quiet(a)
    ensures SameHistory(s, Next(s, a), a)
  {
    match a
    case Accept(pid) => AcceptIsBystander(s, pid);
    case Kill(pid) => EndIsBystander(s, pid);
    case LockAndRead(pid) => LockingIsBystander(s, pid);
    case StartTimer(pid) => TimerIsBystander(s, pid);
    case StartRollback(pid) => RollbackIsBystander(s, pid);
    case _ =>
  }

  lemma HistoryOfOther(s: State, a: Action)
    requires Enabled(s, a) && !ByHolder(a) && !Quiet(a)
    ensures SameHistory(s, Next(s, a), a)
  {
    if a.StartApply? || a.TakeSnapshot? || a.ClaimMarker? {
      HistoryOfClaimer(s, a);
    } else if a.SetReverting? || a.ConfirmRemove? {
      HistoryOfLocked(s, a);
    } else {
      HistoryOfRest(s, a);
    }
  }

  lemma HistoryOfClaimer(s: State, a: Action)
    requires Enabled(s, a) && (a.StartApply? || a.TakeSnapshot? || a.ClaimMarker?)
    ensures SameHistory(s, Next(s, a), a)
  {
    match a
    case StartApply(job) => assert SameHistory(s, Started(s, job), a);
    case TakeSnapshot(pid) => assert SameHistory(s, Snapped(s, pid), a);
    case ClaimMarker(pid) => assert SameHistory(s, Claimed(s, pid), a);
  }

  lemma HistoryOfLocked(s: State, a: Action)
    requires Enabled(s, a) && (a.SetReverting? || a.ConfirmRemove?)
    ensures SameHistory(s, Next(s, a), a)
  {
    match a
    case SetReverting(pid) => assert SameHistory(s, Marked(s, pid), a);
    case ConfirmRemove(pid) => assert SameHistory(s, Confirmed(s, pid), a);
  }

  lemma HistoryOfRest(s: State, a: Action)
    requires Enabled(s, a)
    requires a.PowerCycle? || a.Edit? || a.SetPassword?
    ensures SameHistory(s, Next(s, a), a)
  {
    match a
    case PowerCycle(image) => assert SameHistory(s, Booted(s, image), a);
    case Edit(p, v) => assert SameHistory(s, Puts(s, p, v), a);
    case SetPassword(pw) => assert SameHistory(s, PasswordSet(s, pw), a);
  }

  lemma SnapStep(s: State, a: Action, x: nat)
    requires Enabled(s, a) && x in s.snaps
    ensures x in Next(s, a).snaps && Next(s, a).snaps[x] == s.snaps[x]
  {
    HistoryStays(s, a);
    if a.TakeSnapshot? {
      assert Snapped(s, a.pid).snaps == s.snaps[s.procs[a.pid].job.snap := SnapshotOf(s, s.procs[a.pid].job)];
    }
  }

  lemma {:induction false} SnapStays(states: seq<State>, actions: seq<Action>, m: nat, n: nat, x: nat)
    requires Behaviour(states, actions) && m <= n <= |actions| && x in states[m].snaps
    ensures x in states[n].snaps && states[n].snaps[x] == states[m].snaps[x]
    decreases n - m
  {
    if m < n {
      SnapStays(states, actions, m, n - 1, x);
      SnapStep(states[n - 1], actions[n - 1], x);
    }
  }

  lemma ClaimStep(s: State, a: Action, x: nat)
    requires ClaimersOk(s) && Enabled(s, a) && x in s.claims
    ensures x in Next(s, a).claims && Next(s, a).claims[x] == s.claims[x]
  {
    HistoryStays(s, a);
    if a.ClaimMarker? {
      ClaimedKeeps(s, a.pid, x);
    }
  }

  lemma ClaimedKeeps(s: State, pid: nat, x: nat)
    requires ClaimersOk(s) && CanClaim(s, pid) && x in s.claims
    ensures x in Claimed(s, pid).claims && Claimed(s, pid).claims[x] == s.claims[x]
  {
  }

  lemma {:induction false} ClaimStays(states: seq<State>, actions: seq<Action>, m: nat, n: nat, x: nat)
    requires Behaviour(states, actions) && m <= n <= |actions| && x in states[m].claims
    ensures x in states[n].claims && states[n].claims[x] == states[m].claims[x]
    decreases n - m
  {
    if m < n {
      ClaimStays(states, actions, m, n - 1, x);
      InvRun(states, actions, n - 1);
      ClaimStep(states[n - 1], actions[n - 1], x);
    }
  }

  lemma SnapshotSees(s: State, j: Job, p: Path)
    requires ValidJob(j)
    ensures SavedIn(SnapshotOf(s, j).entries, p) == if p in j.covered then Seen(s, j, p) else None
  {
    var seen := if j.inPlace && s.accepted.Some? then s.files[RouterYaml := s.accepted.value] else s.files;
    SavedExactly(seen, j.covered, map[], p);
  }

  // What an undone change leaves at p, given what its snapshot saw there.
  ghost predicate LeavesSeen(s: State, x: nat, p: Path, seen: Option<Content>)
    requires x in s.verdicts && x in s.claims
  {
    var c, kept := s.claims[x], KeptBy(s, x);
    if p in kept then s.verdicts[x] == Undone && p.WanFile? && seen == None && At(s.files, p) == kept[p]
    else if p in c.job.covered then At(s.files, p) == seen
    else if s.verdicts[x] == Undone then At(s.files, p) == At(c.base, p)
    else At(s.files, p) in MayAt(c, p)
  }

  lemma FulfilledLeaves(s: State, x: nat, p: Path)
    requires x in s.verdicts && x in s.claims && x in s.snaps && Fulfilled(s, x)
    requires s.verdicts[x] in {Undone, UndoneAtBoot}
    requires s.snaps[x].covered == s.claims[x].job.covered && p != SecretsYaml
    ensures LeavesSeen(s, x, p, SavedIn(s.snaps[x].entries, p))
  {
    if s.verdicts[x] == Undone {
      var k: nat :| KeptFrom(KeptBy(s, x), s.snaps[x], s.claims[x], k);
      assert p in KeptBy(s, x) ==> MayKeep(s.snaps[x], p);
    }
    assert p in s.snaps[x].covered && RestoredAt(s.files, s.snaps[x], p) ==>
             At(s.files, p) == SavedIn(s.snaps[x].entries, p);
  }

  /** An undone change leaves each covered file as its snapshot saw it, and each other file as at the
      claim, or, at boot, as the claim could have lost it; but a live rollback may keep per-WAN files the
      snapshot had no content for. */
  lemma UndoneIsSeen(states: seq<State>, actions: seq<Action>, i: nat, n: nat, x: nat, p: Path)
    requires Behaviour(states, actions) && i < n <= |actions| && p != SecretsYaml
    requires TakesSnapshot(states[i], actions[i], x) && UndoneAt(states, n, x)
    ensures x in states[n].claims
    ensures var job := states[i].procs[actions[i].pid].job;
            && states[n].claims[x].job.covered == job.covered && RouterYaml in job.covered
            && LeavesSeen(states[n], x, p, Seen(states[i], job, p))
  {
    var job := states[i].procs[actions[i].pid].job;
    JudgedFulfils(states, actions, n, x);
    TakenAt(states, actions, i, n, x);
    SnapshotSees(states[i], job, p);
    FulfilledLeaves(states[n], x, p);
  }

  lemma JudgedFulfils(states: seq<State>, actions: seq<Action>, n: nat, x: nat)
    requires Behaviour(states, actions) && 0 < n <= |actions|
    requires x !in states[n - 1].verdicts && x in states[n].verdicts
    ensures x in states[n].claims && x in states[n].snaps && Fulfilled(states[n], x)
    ensures ValidJob(states[n].claims[x].job) && states[n].snaps[x].covered == states[n].claims[x].job.covered
    ensures states[n].claims[x].job.snap == x && states[n].marker.None? && states[n - 1].marker.Some?
  {
    Settling(states, actions, n);
    InvRun(states, actions, n);
    assert Taken(states[n].snaps, states[n].claims[x].job);
  }

  // The snapshot of x is what step i saw, for good.
  lemma TakenAt(states: seq<State>, actions: seq<Action>, i: nat, n: nat, x: nat)
    requires Behaviour(states, actions) && i < n <= |actions| && TakesSnapshot(states[i], actions[i], x)
    ensures var job := states[i].procs[actions[i].pid].job;
            ValidJob(job) && x in states[n].snaps && states[n].snaps[x] == SnapshotOf(states[i], job)
  {
    InvRun(states, actions, i);
    TakesAt(states[i], actions[i], x);
    SnapStays(states, actions, i + 1, n, x);
  }

  lemma TakesAt(s: State, a: Action, x: nat)
    requires ClaimersOk(s) && Enabled(s, a) && TakesSnapshot(s, a, x)
    ensures ValidJob(s.procs[a.pid].job)
    ensures x in Next(s, a).snaps && Next(s, a).snaps[x] == SnapshotOf(s, s.procs[a.pid].job)
  {
    assert Next(s, a) == Snapped(s, a.pid);
  }

  /** When undoing a change goes back to just before its claim, file by file: exactly when the snapshot
      does not cover the file, or saw it as it was at the claim, or the rollback kept it and it had been
      left as it was at the claim. (At boot, a file not covered may fall back to a value of before the
      claim that had not been synced yet: UndoneIsSeen.) */
  lemma UndoneIsBeforeIff(states: seq<State>, actions: seq<Action>, i: nat, k: nat, n: nat, x: nat, p: Path)
    requires Behaviour(states, actions) && i < n <= |actions| && k < n && p != SecretsYaml
    requires TakesSnapshot(states[i], actions[i], x) && Claims(states[k], actions[k], x) && UndoneAt(states, n, x)
    requires p in states[i].procs[actions[i].pid].job.covered || states[n].verdicts[x] == Undone
    ensures var job, kept := states[i].procs[actions[i].pid].job, KeptBy(states[n], x);
            At(states[n].files, p) == At(states[k].files, p) <==>
            if p in kept then kept[p] == At(states[k].files, p)
            else p !in job.covered || Seen(states[i], job, p) == At(states[k].files, p)
  {
    UndoneIsSeen(states, actions, i, n, x, p);
    ClaimedAt(states, actions, k, n, x);
  }

  lemma ClaimedAt(states: seq<State>, actions: seq<Action>, k: nat, n: nat, x: nat)
    requires Behaviour(states, actions) && k < n <= |actions| && Claims(states[k], actions[k], x)
    ensures x in states[n].claims && states[n].claims[x].base == states[k].files
    ensures states[n].claims[x].may == states[k].may
  {
    assert states[k + 1] == Claimed(states[k], actions[k].pid);
    ClaimStays(states, actions, k + 1, n, x);
  }

  /** What a live rollback keeps: per-WAN files the snapshot had no content for, each one gone, or with the
      content the change had given it by the same one of its acts. */
  lemma KeptIsOfTheChange(states: seq<State>, actions: seq<Action>, n: nat, x: nat)
    requires Behaviour(states, actions) && 0 < n <= |actions| && UndoneAt(states, n, x)
    ensures x in states[n].claims && x in states[n].snaps
    ensures KeptAsLeft(KeptBy(states[n], x), states[n].snaps[x], states[n].claims[x])
  {
    JudgedFulfils(states, actions, n, x);
    if states[n].verdicts[x] == UndoneAtBoot {
      assert KeptFrom(KeptBy(states[n], x), states[n].snaps[x], states[n].claims[x], 0);
    }
  }

  // ---- a base revision ----

  lemma WriterIsChecked(states: seq<State>, actions: seq<Action>, m: nat, n: nat, pid: nat)
    requires Behaviour(states, actions) && m <= n <= |actions|
    requires pid in states[m].procs && states[m].procs[pid].Writing?
    ensures var x := states[m].procs[pid].job.snap;
            x in states[n].claims && !Stale(states[n].claims[x].job, states[n].claims[x].base) &&
            states[n].claims[x].job == states[m].procs[pid].job
  {
    InvRun(states, actions, m);
    HolderAt(states[m], pid);
    ClaimStays(states, actions, m, n, states[m].procs[pid].job.snap);
  }

  /** What a base revision is worth: the router.yaml of an undone change that got past the check of its
      base is that base again exactly if the snapshot saw it, too. */
  lemma UndoneIsBaseIff(states: seq<State>, actions: seq<Action>, i: nat, m: nat, n: nat, pid: nat)
    requires Behaviour(states, actions) && i < n <= |actions| && m <= n
    requires pid in states[m].procs && states[m].procs[pid].Writing? && states[m].procs[pid].job.base.Some?
    requires TakesSnapshot(states[i], actions[i], states[m].procs[pid].job.snap)
    requires UndoneAt(states, n, states[m].procs[pid].job.snap)
    ensures var x, base := states[m].procs[pid].job.snap, states[m].procs[pid].job.base;
            && x in states[n].claims
            && At(states[n].claims[x].base, RouterYaml) == base
            && (At(states[n].files, RouterYaml) == base <==>
                Seen(states[i], states[i].procs[actions[i].pid].job, RouterYaml) == base)
  {
    UndoneIsSeen(states, actions, i, n, states[m].procs[pid].job.snap, RouterYaml);
    WriterIsChecked(states, actions, m, n, pid);
  }

  /** No edit is lost to a change built from an older one: over every run, a change that names its base is
      kept only if that was the live router.yaml at its claim, and is withdrawn only if it was not, with the
      files as they were. */
  lemma KeptOnItsBase(states: seq<State>, actions: seq<Action>, n: nat, x: nat)
    requires Behaviour(states, actions) && 0 < n <= |actions|
    requires x in states[n].verdicts && x !in states[n - 1].verdicts
    ensures x in states[n].claims
    ensures var base, live := states[n].claims[x].job.base, At(states[n].claims[x].base, RouterYaml);
            && (states[n].verdicts[x] == Kept && base.Some? ==> live == base)
            && (states[n].verdicts[x] == Withdrawn ==>
                  base.Some? && live != base && SameFiles(states[n].files, states[n].claims[x].base))
  {
    Settling(states, actions, n);
  }

  // ---- between snapshot and claim ----

  // While no change is open and the power stays, only an edit changes a file.
  lemma OnlyEdits(s: State, a: Action, p: Path)
    requires Exclusion(s) && Enabled(s, a) && s.marker.None? && p != SecretsYaml
    requires !(a.Edit? && a.path == p) && !a.PowerCycle?
    ensures At(Next(s, a).files, p) == At(s.files, p)
  {
    if a.DoAct? || a.RestoreOne? {
      HolderOwns(s, a.pid);
    } else if a.SetPassword? || a.Edit? {
      OnlyPut(s, a, p);
    } else {
      FilesStay(s, a);
    }
  }

  lemma OnlyPut(s: State, a: Action, p: Path)
    requires Enabled(s, a) && ((a.SetPassword? && p != SecretsYaml) || (a.Edit? && a.path != p))
    ensures At(Next(s, a).files, p) == At(s.files, p)
  {
  }

  predicate LeavesFiles(a: Action) {
    !(a.DoAct? || a.RestoreOne? || a.PowerCycle? || a.Edit? || a.SetPassword?)
  }

  lemma FilesStay(s: State, a: Action)
    requires Enabled(s, a) && LeavesFiles(a)
    ensures Next(s, a).files == s.files
  {
    if ByHolder(a) {
      FilesOfHolder(s, a);
    } else if Quiet(a) {
      FilesOfQuiet(s, a);
    }
  }

  lemma FilesOfHolder(s: State, a: Action)
    requires Enabled(s, a) && LeavesFiles(a) && ByHolder(a)
    ensures Next(s, a).files == s.files
  {
    match a
    case CheckBase(pid) => assert Checked(s, pid).files == s.files;
    case Fail(pid) => assert Failed(s, pid).files == s.files;
    case Arm(pid) => assert Armed(s, pid).files == s.files;
    case Succeed(pid) => assert Succeeded(s, pid).files == s.files;
    case KeepOne(pid, p) => assert KeptOne(s, pid, p).files == s.files;
    case EndRestore(pid) => assert Restored(s, pid).files == s.files;
    case RemoveMarker(pid) => assert Removed(s, pid).files == s.files;
  }

  lemma FilesOfQuiet(s: State, a: Action)
    requires Enabled(s, a) && Quiet(a)
    ensures Next(s, a).files == s.files
  {
    match a
    case Accept(pid) => AcceptIsBystander(s, pid);
    case Kill(pid) => EndIsBystander(s, pid);
    case LockAndRead(pid) => LockingIsBystander(s, pid);
    case StartTimer(pid) => TimerIsBystander(s, pid);
    case StartRollback(pid) => RollbackIsBystander(s, pid);
    case _ =>
  }

  // From step i to step k no change is open, nobody edits p and the power stays.
  ghost predicate Undisturbed(states: seq<State>, actions: seq<Action>, i: nat, k: nat, p: Path)
    requires k <= |actions| < |states|
  {
    forall j {:trigger actions[j]} :: i <= j < k ==> LeavesAlone(states[j], actions[j], p)
  }

  predicate LeavesAlone(s: State, a: Action, p: Path) {
    s.marker.None? && !(a.Edit? && a.path == p) && !a.PowerCycle?
  }

  lemma UndisturbedStep(states: seq<State>, actions: seq<Action>, i: nat, j: nat, p: Path)
    requires Behaviour(states, actions) && i <= j < |actions| && p != SecretsYaml
    requires Undisturbed(states, actions, i, j + 1, p)
    ensures At(states[j + 1].files, p) == At(states[j].files, p)
  {
    var a := actions[j];
    InvRun(states, actions, j);
    OnlyEdits(states[j], actions[j], p);
  }

  lemma UndisturbedLess(states: seq<State>, actions: seq<Action>, i: nat, k: nat, p: Path)
    requires k < |actions| < |states| && Undisturbed(states, actions, i, k + 1, p)
    ensures Undisturbed(states, actions, i, k, p)
  {
  }

  lemma {:induction false} UndisturbedStays(states: seq<State>, actions: seq<Action>, i: nat, k: nat, p: Path)
    requires Behaviour(states, actions) && i <= k <= |actions| && p != SecretsYaml
    requires Undisturbed(states, actions, i, k, p)
    ensures At(states[k].files, p) == At(states[i].files, p)
    decreases k - i
  {
    if i < k {
      UndisturbedLess(states, actions, i, k - 1, p);
      UndisturbedStays(states, actions, i, k - 1, p);
      UndisturbedStep(states, actions, i, k - 1, p);
    }
  }

  /** With no change open and no edit between its snapshot and its claim, undoing a candidate brings each
      file it covers back to just before the claim, unless a live rollback kept it. */
  lemma UndisturbedIsUndoneToBefore(states: seq<State>, actions: seq<Action>, i: nat, k: nat, n: nat, x: nat, p: Path)
    requires Behaviour(states, actions) && i <= k < n <= |actions| && p != SecretsYaml
    requires TakesSnapshot(states[i], actions[i], x) && !states[i].procs[actions[i].pid].job.inPlace
    requires Claims(states[k], actions[k], x) && UndoneAt(states, n, x)
    requires p in states[i].procs[actions[i].pid].job.covered || states[n].verdicts[x] == Undone
    requires Undisturbed(states, actions, i, k, p)
    ensures At(states[n].files, p) == At(states[k].files, p) || p in KeptBy(states[n], x)
  {
    UndisturbedStays(states, actions, i, k, p);
    UndoneIsBeforeIff(states, actions, i, k, n, x, p);
  }
}
