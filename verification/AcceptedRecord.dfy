/** The accepted record (accepted-router.yaml): what it holds after the rename that follows a kept
    change, and that it holds the config last kept in every run where nothing is staged, and nobody is
    killed, between the removal of the marker and that rename. */
module AcceptedRecord {
  import opened Wrappers
  import opened FlashStore
  import opened Snapshots
  import opened SettleProtocol
  import opened SettleSafety
  import opened SettleHistory
  import opened UndoneChanges

  ghost predicate NoneAccepting(s: State) {
    forall pid :: pid in s.procs ==> !s.procs[pid].Accepting?
  }

  // What the record holds once the staged copy, if there is one, is renamed.
  function RecordNow(s: State): Option<Content> {
    if s.staged.Some? then s.staged else s.accepted
  }

  // The step stages the live config, or drops the staged copy.
  predicate Restages(s: State, a: Action)
    requires Enabled(s, a)
  {
    || (a.DoAct? && s.procs[a.pid].job.acts[s.procs[a.pid].done].Stage?)
    || (a.EndRestore? && s.procs[a.pid].Undoing?)
    || (a.PowerCycle? && s.marker.Some?)
  }

  // The step gives a change its verdict as kept.
  predicate Keeps(s: State, a: Action)
    requires Enabled(s, a)
  {
    (a.ConfirmRemove? || (a.RemoveMarker? && s.procs[a.pid].verdict == Kept)) && s.marker.Some?
  }

  // The step leaves the gap between marker removal and rename alone.
  ghost predicate Gapless(s: State, a: Action)
    requires Enabled(s, a)
  {
    && (Restages(s, a) || a.PowerCycle? ==> NoneAccepting(s))
    && (a.Kill? ==> !s.procs[a.pid].Accepting?)
  }

  // The config last kept, after the step a from s: the live one when the marker goes as kept.
  function KeptAfter(last: Option<Content>, s: State, a: Action): Option<Content>
    requires Enabled(s, a)
  {
    if Keeps(s, a) && RouterYaml in s.files then At(s.files, RouterYaml) else last
  }

  // ---- the staged copy ----

  predicate StagedBefore(job: Job, done: nat) {
    exists k :: 0 <= k < |job.acts| && k < done && StagesAt(job.acts, k)
  }

  // A process whose change has been staged and may still be kept.
  predicate Obliged(p: Proc) {
    (p.Writing? && StagedBefore(p.job, p.done)) || (p.Clearing? && p.verdict == Kept)
  }

  // A rename now would record the live config.
  predicate Fresh(s: State) {
    if RouterYaml in s.files then RecordNow(s) == At(s.files, RouterYaml) else s.staged == None
  }

  ghost predicate StagedOk(s: State) {
    && (s.marker.Some? && s.marker.value.st == Pending ==> Fresh(s))
    && (forall pid :: pid in s.procs && Obliged(s.procs[pid]) ==> Fresh(s))
  }

  lemma AllActsStaged(job: Job)
    requires ValidJob(job)
    ensures StagedBefore(job, |job.acts|) && !StagedBefore(job, 0)
  {
  }

  // One more act: it is the staging, or the config was staged before and is not written again.
  lemma StagedByAct(job: Job, done: nat)
    requires done < |job.acts| && StagedBefore(job, done + 1)
    ensures job.acts[done].Stage? || (StagedBefore(job, done) && job.acts[done].path != RouterYaml)
  {
    var k :| 0 <= k < |job.acts| && k < done + 1 && StagesAt(job.acts, k);
  }

  ghost predicate SameAccepting(s: State, t: State) {
    forall pid :: (pid in t.procs && t.procs[pid].Accepting?) <==> (pid in s.procs && s.procs[pid].Accepting?)
  }

  // Neither the live config nor its copies change, and nobody new owes a staged copy.
  ghost predicate Calm(s: State, t: State) {
    && t.staged == s.staged && t.accepted == s.accepted
    && At(t.files, RouterYaml) == At(s.files, RouterYaml)
    && (t.marker.Some? && t.marker.value.st == Pending ==> s.marker == t.marker)
    && forall pid :: pid in t.procs && Obliged(t.procs[pid]) ==> pid in s.procs && t.procs[pid] == s.procs[pid]
  }

  ghost predicate CalmFor(s: State, t: State) {
    Calm(s, t) && SameAccepting(s, t)
  }

  lemma CalmSpawn(s: State, p: Proc)
    requires (forall pid :: pid in s.procs ==> pid < s.nextPid) && !Obliged(p) && !p.Accepting?
    ensures CalmFor(s, Spawn(s, p))
  {
  }

  lemma CalmEnd(s: State, pid: nat)
    ensures Calm(s, Ends(s, pid))
    ensures pid in s.procs && !s.procs[pid].Accepting? ==> SameAccepting(s, Ends(s, pid))
  {
  }

  lemma CalmSnap(s: State, pid: nat)
    requires CanSnap(s, pid)
    ensures CalmFor(s, Snapped(s, pid))
  {
  }

  lemma CalmClaim(s: State, pid: nat)
    requires CanClaim(s, pid)
    ensures CalmFor(s, Claimed(s, pid))
  {
    var t := Claimed(s, pid);
    if s.marker.Some? {
      assert t.procs == s.procs - {pid};
    } else {
      CalmTurn(s, t, pid);
    }
  }

  lemma CalmCheck(s: State, pid: nat)
    requires Inv(s) && CanCheck(s, pid)
    ensures CalmFor(s, Checked(s, pid))
  {
    HolderAt(s, pid);
    AllActsStaged(s.procs[pid].job);
  }

  lemma CalmFail(s: State, pid: nat)
    requires CanFail(s, pid)
    ensures CalmFor(s, Failed(s, pid))
  {
    CalmEnd(s, pid);
  }

  lemma CalmKeep(s: State, pid: nat, p: Path)
    requires CanKeep(s, pid, p)
    ensures CalmFor(s, KeptOne(s, pid, p))
  {
  }

  lemma CalmLock(s: State, pid: nat)
    requires CanEnter(s, pid)
    ensures CalmFor(s, Entered(s, pid))
  {
    var next := AfterLock(s, s.procs[pid]);
    if next.Some? {
      CalmTurn(s, Entered(s, pid), pid);
    } else {
      CalmEnd(s, pid);
    }
  }

  lemma CalmTimer(s: State, pid: nat)
    requires CanStartTimer(s, pid) && s.nextPid !in s.procs
    ensures CalmFor(s, TimerStarted(s, pid))
  {
  }

  lemma CalmRollback(s: State, pid: nat)
    requires CanStartRollback(s, pid) && s.nextPid !in s.procs
    ensures CalmFor(s, RollbackStarted(s, pid))
  {
  }

  lemma CalmRevert(s: State, pid: nat)
    requires Inv(s) && CanMark(s, pid)
    ensures CalmFor(s, Marked(s, pid))
  {
    LockedReads(s, pid);
    OpenArchived(s);
    RevertTo(s, pid);
    CalmTurn(s, Marked(s, pid), pid);
  }

  // One process turns into another that neither accepts nor owes a staged copy.
  lemma CalmTurn(s: State, t: State, pid: nat)
    requires t.staged == s.staged && t.accepted == s.accepted && t.files == s.files
    requires t.marker.Some? && t.marker.value.st == Pending ==> s.marker == t.marker
    requires pid in s.procs && pid in t.procs && t.procs == s.procs[pid := t.procs[pid]]
    requires !Obliged(t.procs[pid]) && !t.procs[pid].Accepting? && !s.procs[pid].Accepting?
    ensures CalmFor(s, t)
  {
  }

  lemma CalmPassword(s: State, password: string)
    requires CanSetPassword(s)
    ensures CalmFor(s, PasswordSet(s, password))
  {
  }

  predicate IsCalm(a: Action) {
    || a.StartApply? || a.StartConfirm? || a.StartWebRevert? || a.StartCommand? || a.TakeSnapshot? || a.ClaimMarker?
    || a.CheckBase? || a.Fail? || a.KeepOne? || a.LockAndRead? || a.StartTimer? || a.StartRollback?
    || a.SetReverting? || a.Kill? || a.SetPassword?
  }

  lemma CalmStep(s: State, a: Action)
    requires Inv(s) && Enabled(s, a) && IsCalm(a)
    ensures Calm(s, Next(s, a))
    ensures (a.Kill? ==> !s.procs[a.pid].Accepting?) ==> SameAccepting(s, Next(s, a))
  {
    if a.StartApply? || a.StartConfirm? || a.StartWebRevert? || a.StartCommand? {
      CalmStart(s, a);
    } else {
      CalmOn(s, a);
    }
  }

  lemma CalmStart(s: State, a: Action)
    requires Exclusion(s) && Enabled(s, a) && (a.StartApply? || a.StartConfirm? || a.StartWebRevert? || a.StartCommand?)
    ensures CalmFor(s, Next(s, a))
  {
    match a
    case StartApply(job) => CalmSpawn(s, Planning(job));
    case StartConfirm(token) => CalmSpawn(s, Confirming(token));
    case StartWebRevert => CalmSpawn(s, WebRevert);
    case StartCommand => CalmSpawn(s, Command(None));
  }

  lemma CalmOn(s: State, a: Action)
    requires Inv(s) && Enabled(s, a) && IsCalm(a)
    requires !a.StartApply? && !a.StartConfirm? && !a.StartWebRevert? && !a.StartCommand?
    ensures Calm(s, Next(s, a))
    ensures (a.Kill? ==> !s.procs[a.pid].Accepting?) ==> SameAccepting(s, Next(s, a))
  {
    match a
    case TakeSnapshot(pid) => CalmSnap(s, pid);
    case ClaimMarker(pid) => CalmClaim(s, pid);
    case CheckBase(pid) => CalmCheck(s, pid);
    case Fail(pid) => CalmFail(s, pid);
    case _ => CalmAfter(s, a);
  }

  lemma CalmAfter(s: State, a: Action)
    requires Inv(s) && Enabled(s, a)
    requires a.KeepOne? || a.LockAndRead? || a.StartTimer? || a.StartRollback? || a.SetReverting? || a.Kill? ||
             a.SetPassword?
    ensures Calm(s, Next(s, a))
    ensures (a.Kill? ==> !s.procs[a.pid].Accepting?) ==> SameAccepting(s, Next(s, a))
  {
    match a
    case KeepOne(pid, path) => CalmKeep(s, pid, path);
    case LockAndRead(pid) => CalmLock(s, pid);
    case StartTimer(pid) => CalmTimer(s, pid);
    case StartRollback(pid) => CalmRollback(s, pid);
    case SetReverting(pid) => CalmRevert(s, pid);
    case Kill(pid) => CalmEnd(s, pid);
    case SetPassword(password) => CalmPassword(s, password);
  }

  // The holder moves on or ends: nobody else can owe a staged copy.
  lemma OnlyHolderOwes(s: State, t: State, pid: nat)
    requires Exclusion(s) && pid in s.procs && Active(s.procs[pid])
    requires t.procs == s.procs - {pid} || (pid in t.procs && t.procs == s.procs[pid := t.procs[pid]])
    ensures s.marker.Some? && Owns(s.marker.value, pid, s.procs[pid])
    ensures forall q :: q in t.procs && Obliged(t.procs[q]) ==> q == pid
  {
    HolderOwns(s, pid);
    assert forall q :: q in t.procs && q != pid ==> q in s.procs && t.procs[q] == s.procs[q];
  }

  lemma StagedDoAct(s: State, pid: nat)
    requires Exclusion(s) && StagedOk(s) && CanAct(s, pid)
    ensures StagedOk(Acted(s, pid))
  {
    var t, p := Acted(s, pid), s.procs[pid];
    ActShape(s, pid);
    OnlyHolderOwes(s, t, pid);
    if StagedBefore(p.job, p.done + 1) {
      StagedByAct(p.job, p.done);
      assert p.job.acts[p.done].Stage? || Obliged(p);
    }
  }

  lemma HolderIsValid(s: State, pid: nat)
    requires Inv(s) && pid in s.procs && s.procs[pid].Writing?
    ensures ValidJob(s.procs[pid].job)
  {
    HolderAt(s, pid);
  }

  lemma StagedArm(s: State, pid: nat)
    requires Inv(s) && StagedOk(s) && CanArm(s, pid)
    ensures StagedOk(Armed(s, pid))
  {
    HolderIsValid(s, pid);
    AllActsStaged(s.procs[pid].job);
    assert Obliged(s.procs[pid]) && Fresh(s);
    OnlyHolderOwes(s, Armed(s, pid), pid);
  }

  lemma StagedSucceed(s: State, pid: nat)
    requires Inv(s) && StagedOk(s) && CanSucceed(s, pid)
    ensures StagedOk(Succeeded(s, pid))
  {
    HolderIsValid(s, pid);
    AllActsStaged(s.procs[pid].job);
    assert Obliged(s.procs[pid]) && Fresh(s);
    OnlyHolderOwes(s, Succeeded(s, pid), pid);
  }

  lemma StagedRestore(s: State, a: Action)
    requires Exclusion(s) && StagedOk(s) && Enabled(s, a) && (a.RestoreOne? || a.EndRestore?)
    ensures StagedOk(Next(s, a))
  {
    OnlyHolderOwes(s, Next(s, a), a.pid);
  }

  lemma StagedRemove(s: State, pid: nat)
    requires Exclusion(s) && StagedOk(s) && CanRemove(s, pid)
    ensures StagedOk(Removed(s, pid))
  {
    OnlyHolderOwes(s, Removed(s, pid), pid);
  }

  lemma StagedConfirm(s: State, pid: nat)
    requires Exclusion(s) && StagedOk(s) && CanConfirm(s, pid)
    ensures StagedOk(Confirmed(s, pid))
  {
  }

  lemma StagedAccept(s: State, pid: nat)
    requires StagedOk(s) && CanAccept(s, pid)
    ensures StagedOk(Accepted(s, pid))
  {
  }

  lemma StagedBoot(s: State, image: Files)
    ensures StagedOk(Booted(s, image))
  {
    assert Booted(s, image).procs == map[] && Booted(s, image).marker == None;
  }

  lemma StagedEdit(s: State, p: Path, v: Option<Content>)
    requires Exclusion(s) && CanEdit(s, p)
    ensures StagedOk(Puts(s, p, v))
  {
    assert NoneActive(s);
  }

  lemma CalmKeepsStaged(s: State, t: State)
    requires StagedOk(s) && Calm(s, t)
    ensures StagedOk(t)
  {
  }

  lemma StagedStep(s: State, a: Action)
    requires Inv(s) && StagedOk(s) && Enabled(s, a)
    ensures StagedOk(Next(s, a))
  {
    if IsCalm(a) {
      CalmStep(s, a);
      CalmKeepsStaged(s, Next(s, a));
    } else if a.RestoreOne? || a.EndRestore? {
      StagedRestore(s, a);
    } else {
      StagedAside(s, a);
    }
  }

  lemma StagedAside(s: State, a: Action)
    requires Inv(s) && StagedOk(s) && Enabled(s, a)
    requires a.DoAct? || a.Arm? || a.Succeed? || a.RemoveMarker? || a.ConfirmRemove? || a.Accept? || a.PowerCycle? ||
             a.Edit?
    ensures StagedOk(Next(s, a))
  {
    match a
    case DoAct(pid) => StagedDoAct(s, pid);
    case Arm(pid) => StagedArm(s, pid);
    case Succeed(pid) => StagedSucceed(s, pid);
    case RemoveMarker(pid) => StagedRemove(s, pid);
    case ConfirmRemove(pid) => StagedConfirm(s, pid);
    case Accept(pid) => StagedAccept(s, pid);
    case PowerCycle(image) => StagedBoot(s, image);
    case Edit(p, v) => StagedEdit(s, p, v);
  }

  lemma {:induction false} StagedRun(states: seq<State>, actions: seq<Action>, n: nat)
    requires Behaviour(states, actions) && n <= |actions|
    ensures StagedOk(states[n])
  {
    if n == 0 {
      StartStaged(states, actions);
    } else {
      StagedRun(states, actions, n - 1);
      StagedNext(states, actions, n - 1);
    }
  }

  lemma StartStaged(states: seq<State>, actions: seq<Action>)
    requires Behaviour(states, actions)
    ensures StagedOk(states[0])
  {
  }

  lemma StagedNext(states: seq<State>, actions: seq<Action>, n: nat)
    requires Behaviour(states, actions) && n < |actions| && StagedOk(states[n])
    ensures StagedOk(states[n + 1])
  {
    InvRun(states, actions, n);
    StagedStep(states[n], actions[n]);
  }

  // ---- what one rename records ----

  lemma RecordStays(s: State, a: Action)
    requires Inv(s) && Enabled(s, a) && !Restages(s, a)
    ensures RecordNow(Next(s, a)) == RecordNow(s)
    ensures !a.Accept? ==> Next(s, a).accepted == s.accepted
  {
    if IsCalm(a) {
      CalmStep(s, a);
    } else if ByHolder(a) {
      RecordOfHolder(s, a);
    } else {
      RecordOfOther(s, a);
    }
  }

  lemma RecordOfHolder(s: State, a: Action)
    requires Enabled(s, a) && !Restages(s, a) && ByHolder(a)
    ensures Next(s, a).accepted == s.accepted && Next(s, a).staged == s.staged
  {
    match a
    case CheckBase(pid) => assert Checked(s, pid).staged == s.staged;
    case DoAct(pid) => assert Acted(s, pid).staged == s.staged;
    case Fail(pid) => assert Failed(s, pid).staged == s.staged;
    case Arm(pid) => assert Armed(s, pid).staged == s.staged;
    case Succeed(pid) => assert Succeeded(s, pid).staged == s.staged;
    case RestoreOne(pid, p) => assert RestoredOne(s, pid, p).staged == s.staged;
    case KeepOne(pid, p) => assert KeptOne(s, pid, p).staged == s.staged;
    case EndRestore(pid) => assert Restored(s, pid).staged == s.staged;
    case RemoveMarker(pid) => assert Removed(s, pid).staged == s.staged;
  }

  lemma RecordOfOther(s: State, a: Action)
    requires Enabled(s, a) && !Restages(s, a) && (a.Accept? || a.ConfirmRemove? || a.PowerCycle? || a.Edit?)
    ensures RecordNow(Next(s, a)) == RecordNow(s)
    ensures !a.Accept? ==> Next(s, a).accepted == s.accepted
  {
  }

  // What a rename right after the step would record.
  function RestagedAs(s: State, a: Action): Option<Content> {
    if a.DoAct? && RouterYaml in s.files then At(s.files, RouterYaml) else s.accepted
  }

  lemma RecordRestaged(s: State, a: Action)
    requires Inv(s) && Enabled(s, a) && Restages(s, a)
    ensures RecordNow(Next(s, a)) == RestagedAs(s, a) && Next(s, a).accepted == s.accepted
  {
    match a
    case DoAct(pid) => ActRestages(s, pid);
    case EndRestore(pid) => assert Restored(s, pid).staged == None && Restored(s, pid).accepted == s.accepted;
    case PowerCycle(image) => BootRestages(s, image);
  }

  lemma ActRestages(s: State, pid: nat)
    requires CanAct(s, pid) && s.procs[pid].job.acts[s.procs[pid].done].Stage?
    ensures Acted(s, pid).staged == At(s.files, RouterYaml) && Acted(s, pid).accepted == s.accepted
  {
  }

  lemma BootRestages(s: State, image: Files)
    requires Inv(s) && s.marker.Some?
    ensures Booted(s, image).staged == None && Booted(s, image).accepted == s.accepted
  {
    OpenArchived(s);
  }

  // Step j is the last one between m and n that stages or drops.
  ghost predicate LastRestaging(states: seq<State>, actions: seq<Action>, m: nat, j: nat, n: nat)
    requires Behaviour(states, actions) && n <= |actions|
  {
    m < j < n && Restages(states[j], actions[j]) && NoneRestages(states, actions, j + 1, n)
  }

  ghost predicate NoneRestages(states: seq<State>, actions: seq<Action>, m: nat, n: nat)
    requires Behaviour(states, actions) && n <= |actions|
  {
    forall i {:trigger actions[i]} :: m <= i < n ==> !Restages(states[i], actions[i])
  }

  lemma {:induction false} RecordFrom(states: seq<State>, actions: seq<Action>, m: nat, n: nat)
    requires Behaviour(states, actions) && m <= n <= |actions|
    requires NoneRestages(states, actions, m, n)
    ensures RecordNow(states[n]) == RecordNow(states[m])
    decreases n - m
  {
    if m < n {
      RecordFrom(states, actions, m, n - 1);
      InvRun(states, actions, n - 1);
      RecordStays(states[n - 1], actions[n - 1]);
    }
  }

  lemma NoneLonger(states: seq<State>, actions: seq<Action>, m: nat, n: nat)
    requires Behaviour(states, actions) && n < |actions|
    requires NoneRestages(states, actions, m, n) && !Restages(states[n], actions[n])
    ensures NoneRestages(states, actions, m, n + 1)
  {
    forall i {:trigger actions[i]} | m <= i < n + 1
      ensures !Restages(states[i], actions[i])
    {
      var a := actions[i];
    }
  }

  lemma {:induction false} FindsLast(states: seq<State>, actions: seq<Action>, m: nat, n: nat) returns (j: Option<nat>)
    requires Behaviour(states, actions) && m < n <= |actions|
    ensures j.Some? ==> LastRestaging(states, actions, m, j.value, n)
    ensures j.None? ==> NoneRestages(states, actions, m + 1, n)
    decreases n - m
  {
    if m + 1 == n {
      j := None;
    } else if Restages(states[n - 1], actions[n - 1]) {
      j := Some(n - 1);
    } else {
      j := FindsLast(states, actions, m, n - 1);
      NoneLonger(states, actions, if j.Some? then j.value + 1 else m + 1, n - 1);
    }
  }

  /** The gap, over every run: a change is kept at step m, and a rename follows at step n. The record
      then holds the config kept exactly if the last step in between that staged or dropped a copy, if
      there is any, left that same config to be recorded. */
  lemma RecordAfterGap(states: seq<State>, actions: seq<Action>, m: nat, n: nat)
    requires Behaviour(states, actions) && m < n < |actions|
    requires Keeps(states[m], actions[m]) && RouterYaml in states[m].files && actions[n].Accept?
    ensures states[n + 1].accepted == At(states[m].files, RouterYaml) <==>
            forall j: nat :: LastRestaging(states, actions, m, j, n) ==>
                          RestagedAs(states[j], actions[j]) == At(states[m].files, RouterYaml)
  {
    var last := FindsLast(states, actions, m, n);
    if last.None? {
      RecordUndisturbed(states, actions, m, n);
      NoLast(states, actions, m, n);
    } else {
      RecordByLast(states, actions, m, last.value, n);
      OneLast(states, actions, m, last.value, n);
    }
  }

  lemma AcceptRecords(states: seq<State>, actions: seq<Action>, n: nat)
    requires Behaviour(states, actions) && n < |actions| && actions[n].Accept?
    ensures states[n + 1].accepted == RecordNow(states[n])
  {
    assert states[n + 1] == Accepted(states[n], actions[n].pid);
  }

  // Nothing was staged or dropped in the gap.
  lemma RecordUndisturbed(states: seq<State>, actions: seq<Action>, m: nat, n: nat)
    requires Behaviour(states, actions) && m < n < |actions| && NoneRestages(states, actions, m + 1, n)
    requires Keeps(states[m], actions[m]) && RouterYaml in states[m].files && actions[n].Accept?
    ensures states[n + 1].accepted == At(states[m].files, RouterYaml)
  {
    KeptIsStaged(states, actions, m);
    RecordFrom(states, actions, m + 1, n);
    AcceptRecords(states, actions, n);
  }

  // Step j was the last in the gap to stage or drop.
  lemma RecordByLast(states: seq<State>, actions: seq<Action>, m: nat, j: nat, n: nat)
    requires Behaviour(states, actions) && n < |actions| && LastRestaging(states, actions, m, j, n) &&
             actions[n].Accept?
    ensures states[n + 1].accepted == RestagedAs(states[j], actions[j])
  {
    RestagedAt(states, actions, j);
    RecordFrom(states, actions, j + 1, n);
    AcceptRecords(states, actions, n);
  }

  lemma RestagedAt(states: seq<State>, actions: seq<Action>, j: nat)
    requires Behaviour(states, actions) && j < |actions| && Restages(states[j], actions[j])
    ensures RecordNow(states[j + 1]) == RestagedAs(states[j], actions[j])
  {
    InvRun(states, actions, j);
    RecordRestaged(states[j], actions[j]);
  }

  lemma NoLast(states: seq<State>, actions: seq<Action>, m: nat, n: nat)
    requires Behaviour(states, actions) && n <= |actions| && NoneRestages(states, actions, m + 1, n)
    ensures forall j: nat :: !LastRestaging(states, actions, m, j, n)
  {
    forall j: nat
      ensures !LastRestaging(states, actions, m, j, n)
    {
      if m < j < n {
        var a := actions[j];
      }
    }
  }

  lemma OneLast(states: seq<State>, actions: seq<Action>, m: nat, j: nat, n: nat)
    requires Behaviour(states, actions) && n <= |actions| && LastRestaging(states, actions, m, j, n)
    ensures forall k: nat :: LastRestaging(states, actions, m, k, n) ==> k == j
  {
    forall k: nat | LastRestaging(states, actions, m, k, n)
      ensures k == j
    {
      var a, b := actions[j], actions[k];
    }
  }

  // Whatever happened before, a change that is kept has its own config staged, or recorded already.
  lemma KeptIsStaged(states: seq<State>, actions: seq<Action>, m: nat)
    requires Behaviour(states, actions) && m < |actions| && Keeps(states[m], actions[m])
    ensures Fresh(states[m]) && RecordNow(states[m + 1]) == RecordNow(states[m])
  {
    InvRun(states, actions, m);
    StagedRun(states, actions, m);
    KeepsIsFresh(states[m], actions[m]);
    RecordStays(states[m], actions[m]);
  }

  // ---- the record over a run ----

  ghost predicate Recorded(s: State, last: Option<Content>) {
    if NoneAccepting(s) then s.accepted == last else RecordNow(s) == last
  }

  lemma AcceptingStays(s: State, a: Action)
    requires Inv(s) && Enabled(s, a) && Gapless(s, a) && !Keeps(s, a) && !a.Accept?
    ensures SameAccepting(s, Next(s, a))
  {
    if IsCalm(a) {
      CalmStep(s, a);
    } else if a.RemoveMarker? {
      HolderAt(s, a.pid);
    } else if a.ConfirmRemove? {
      assert false;
    } else {
      AcceptingAside(s, a);
    }
  }

  lemma AcceptingAside(s: State, a: Action)
    requires Enabled(s, a) && (a.PowerCycle? ==> NoneAccepting(s))
    requires a.DoAct? || a.Arm? || a.Succeed? || a.RestoreOne? || a.EndRestore? || a.Edit? || a.PowerCycle?
    ensures SameAccepting(s, Next(s, a))
  {
    if a.PowerCycle? {
      NobodyAccepts(s, a.image);
      assert Next(s, a) == Booted(s, a.image);
    } else if a.Edit? {
      assert Next(s, a) == Puts(s, a.path, a.value);
    } else {
      AcceptingOn(s, a);
    }
  }

  lemma NobodyAccepts(s: State, image: Files)
    requires NoneAccepting(s)
    ensures SameAccepting(s, Booted(s, image))
  {
    assert Booted(s, image).procs == map[];
  }

  lemma AcceptingOn(s: State, a: Action)
    requires Enabled(s, a) && (a.DoAct? || a.Arm? || a.Succeed? || a.RestoreOne? || a.EndRestore?)
    ensures SameAccepting(s, Next(s, a))
  {
    match a
    case DoAct(pid) => assert SameAccepting(s, Acted(s, pid));
    case Arm(pid) => assert SameAccepting(s, Armed(s, pid));
    case Succeed(pid) => assert SameAccepting(s, Succeeded(s, pid));
    case RestoreOne(pid, p) => assert SameAccepting(s, RestoredOne(s, pid, p));
    case EndRestore(pid) => assert SameAccepting(s, Restored(s, pid));
  }

  lemma RecordedFrame(s: State, t: State, last: Option<Content>)
    requires Recorded(s, last) && SameAccepting(s, t) && t.accepted == s.accepted
    requires !NoneAccepting(s) ==> RecordNow(t) == RecordNow(s)
    ensures Recorded(t, last)
  {
    if NoneAccepting(s) {
      assert forall pid :: pid in t.procs && t.procs[pid].Accepting? ==> pid in s.procs && s.procs[pid].Accepting?;
    } else {
      var pid :| pid in s.procs && s.procs[pid].Accepting?;
      assert pid in t.procs && t.procs[pid].Accepting?;
    }
  }

  lemma RecordedStep(s: State, a: Action, last: Option<Content>)
    requires Inv(s) && StagedOk(s) && Recorded(s, last) && Enabled(s, a) && Gapless(s, a)
    ensures Recorded(Next(s, a), KeptAfter(last, s, a))
  {
    var t := Next(s, a);
    if Keeps(s, a) {
      RecordedKept(s, a, last);
    } else if a.Accept? {
      assert !NoneAccepting(s) && t.accepted == RecordNow(s) == RecordNow(t);
    } else {
      AcceptingStays(s, a);
      if Restages(s, a) {
        RecordRestaged(s, a);
      } else {
        RecordStays(s, a);
      }
      RecordedFrame(s, t, last);
    }
  }

  lemma RecordedKept(s: State, a: Action, last: Option<Content>)
    requires Inv(s) && StagedOk(s) && Recorded(s, last) && Enabled(s, a) && Keeps(s, a)
    ensures Recorded(Next(s, a), KeptAfter(last, s, a))
  {
    RecordStays(s, a);
    KeepsIsFresh(s, a);
  }

  lemma KeepsIsFresh(s: State, a: Action)
    requires Exclusion(s) && StagedOk(s) && Enabled(s, a) && Keeps(s, a)
    ensures Fresh(s) && !NoneAccepting(Next(s, a))
  {
    assert Next(s, a).procs[a.pid].Accepting?;
  }

  // The config of the last kept change after n steps; at the start, what the record holds.
  function LastKept(states: seq<State>, actions: seq<Action>, n: nat): Option<Content>
    requires |states| == |actions| + 1 && n <= |actions|
    requires forall i {:trigger actions[i]} :: 0 <= i < n ==> Enabled(states[i], actions[i])
  {
    if n == 0 then states[0].accepted
    else KeptAfter(LastKept(states, actions, n - 1), states[n - 1], actions[n - 1])
  }

  // Nothing is staged or dropped, and nobody is killed, in any gap of the first n steps.
  ghost predicate GaplessTo(states: seq<State>, actions: seq<Action>, n: nat)
    requires Behaviour(states, actions) && n <= |actions|
  {
    forall i {:trigger actions[i]} :: 0 <= i < n ==> Gapless(states[i], actions[i])
  }

  lemma {:induction false} RecordedRun(states: seq<State>, actions: seq<Action>, n: nat)
    requires Behaviour(states, actions) && n <= |actions|
    requires GaplessTo(states, actions, n)
    ensures Recorded(states[n], LastKept(states, actions, n))
  {
    if n > 0 {
      GaplessLess(states, actions, n - 1);
      RecordedRun(states, actions, n - 1);
      RecordedNext(states, actions, n - 1);
    }
  }

  lemma GaplessLess(states: seq<State>, actions: seq<Action>, n: nat)
    requires Behaviour(states, actions) && n < |actions| && GaplessTo(states, actions, n + 1)
    ensures GaplessTo(states, actions, n) && Gapless(states[n], actions[n])
  {
    forall i {:trigger actions[i]} | 0 <= i <= n
      ensures Gapless(states[i], actions[i])
    {
      var a := actions[i];
    }
  }

  lemma RecordedNext(states: seq<State>, actions: seq<Action>, n: nat)
    requires Behaviour(states, actions) && n < |actions| && Gapless(states[n], actions[n])
    requires Recorded(states[n], LastKept(states, actions, n))
    ensures Recorded(states[n + 1], LastKept(states, actions, n + 1))
  {
    InvRun(states, actions, n);
    StagedRun(states, actions, n);
    RecordedStep(states[n], actions[n], LastKept(states, actions, n));
  }

  /** Over every gapless run the accepted record holds the config of the last kept change, whatever
      edits are live. */
  lemma AcceptedIsLastKept(states: seq<State>, actions: seq<Action>, n: nat)
    requires Behaviour(states, actions) && n <= |actions|
    requires GaplessTo(states, actions, n)
    requires NoneAccepting(states[n])
    ensures states[n].accepted == LastKept(states, actions, n)
  {
    RecordedRun(states, actions, n);
  }

  /** So an edit in place that fails or is not confirmed leaves router.yaml at the config last kept when
      its snapshot was taken, whatever edits were live. */
  lemma UndoneEditIsLastKept(states: seq<State>, actions: seq<Action>, i: nat, n: nat, x: nat)
    requires Behaviour(states, actions) && i < n <= |actions|
    requires GaplessTo(states, actions, i)
    requires TakesSnapshot(states[i], actions[i], x) && states[i].procs[actions[i].pid].job.inPlace
    requires NoneAccepting(states[i]) && states[i].accepted.Some?
    requires UndoneAt(states, n, x)
    ensures At(states[n].files, RouterYaml) == LastKept(states, actions, i)
  {
    AcceptedIsLastKept(states, actions, i);
    UndoneIsSeen(states, actions, i, n, x, RouterYaml);
  }
}
