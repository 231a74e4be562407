/** What every run of the settling protocol keeps: at most one process holds a change, the marker and
    the history agree, and the files are where the holder's progress says. */
module SettleSafety {
  import opened Wrappers
  import opened FlashStore
  import opened Snapshots
  import opened CrashSafety
  import opened SettleProtocol

  // The process holds the change the marker names, in a state that lets it write.
  predicate Owns(m: Mark, pid: nat, p: Proc)
    requires Active(p)
  {
    && SnapOf(p) == m.snap
    && match p
       case Checking(_) => m.st == Applying && m.pid == pid
       case Writing(_, _) => m.st == Applying && m.pid == pid
       case Undoing(_, _) => m.st == Reverting || (m.st == Applying && m.pid == pid)
       case Commanding(_, _) => m.st == Reverting
       case Clearing(_, verdict, _) =>
         (m.st == Reverting && verdict == Undone) || (m.st == Applying && m.pid == pid)
  }

  // A process in the critical section acts on the marker it has read.
  predicate StillRead(s: State, m: Mark, p: Proc)
    requires Locked(p)
  {
    && ReadBy(p) == Some(m)
    && if p.CommandLocked? then p.snap == m.snap && (m.st == Applying ==> m.pid !in s.procs) else m.st == Pending
  }

  // Holds a change or is in the critical section.
  predicate Engaged(p: Proc) {
    Active(p) || Locked(p)
  }

  // The engaged process is the only one, and the marker entitles it.
  ghost predicate Alone(s: State, pid: nat)
    requires pid in s.procs
  {
    && s.marker.Some?
    && (forall q :: q in s.procs && Engaged(s.procs[q]) ==> q == pid)
    && (Active(s.procs[pid]) ==> Owns(s.marker.value, pid, s.procs[pid]))
    && (Locked(s.procs[pid]) ==> s.lock == Some(pid) && StillRead(s, s.marker.value, s.procs[pid]))
  }

  ghost predicate Exclusion(s: State) {
    && (forall pid :: pid in s.procs ==> pid < s.nextPid)
    && (s.marker.Some? ==> s.marker.value.pid < s.nextPid)
    && (forall pid :: pid in s.procs && Engaged(s.procs[pid]) ==> Alone(s, pid))
  }

  // The engaged process moves on or ends, out of the critical section.
  ghost predicate Moves(s: State, t: State, pid: nat) {
    && t.nextPid == s.nextPid
    && (t.procs == s.procs - {pid} || (pid in t.procs && t.procs == s.procs[pid := t.procs[pid]]))
    && (pid in t.procs ==> !Locked(t.procs[pid]))
    && (pid in t.procs && Active(t.procs[pid]) ==> t.marker.Some? && Owns(t.marker.value, pid, t.procs[pid]))
    && (t.marker.Some? ==> t.marker.value.pid < t.nextPid)
  }

  lemma EngagedMoves(s: State, t: State, pid: nat)
    requires Exclusion(s) && pid in s.procs && Engaged(s.procs[pid]) && Moves(s, t, pid)
    ensures Exclusion(t)
  {
    assert Alone(s, pid);
    forall q | q in t.procs && Engaged(t.procs[q])
      ensures Alone(t, q)
    {
      assert q == pid;
    }
  }

  // With no marker nobody is engaged; the claimer becomes the one that is.
  lemma ClaimerAlone(s: State, t: State, pid: nat)
    requires Exclusion(s) && s.marker.None? && pid in s.procs && Moves(s, t, pid)
    ensures Exclusion(t)
  {
    forall q | q in t.procs && Engaged(t.procs[q])
      ensures Alone(t, q)
    {
      assert q == pid;
    }
  }

  // What the marker says of the holder and of the process in the critical section.
  lemma HolderOwns(s: State, pid: nat)
    requires Exclusion(s) && pid in s.procs && Engaged(s.procs[pid])
    ensures s.marker.Some? && s.marker.value.pid < s.nextPid && pid < s.nextPid
    ensures Active(s.procs[pid]) ==> Owns(s.marker.value, pid, s.procs[pid])
    ensures Locked(s.procs[pid]) ==> s.lock == Some(pid) && StillRead(s, s.marker.value, s.procs[pid]) && NoneActive(s)
    ensures forall q :: q in s.procs && q != pid ==> !Engaged(s.procs[q])
  {
    assert Alone(s, pid);
  }

  lemma ExclusionStep(s: State, a: Action)
    requires Exclusion(s) && Enabled(s, a) && Polite(s, a)
    ensures Exclusion(Next(s, a))
  {
    match a
    case TakeSnapshot(pid) => ExclusionTakeSnapshot(s, pid);
    case ClaimMarker(pid) => ExclusionClaimMarker(s, pid);
    case CheckBase(pid) => ExclusionCheckBase(s, pid);
    case DoAct(pid) => ExclusionDoAct(s, pid);
    case Fail(pid) => ExclusionFail(s, pid);
    case Arm(pid) => ExclusionArm(s, pid);
    case Succeed(pid) => ExclusionSucceed(s, pid);
    case RestoreOne(pid, path) => ExclusionRestoreOne(s, pid, path);
    case KeepOne(pid, path) => ExclusionKeepOne(s, pid, path);
    case EndRestore(pid) => ExclusionEndRestore(s, pid);
    case RemoveMarker(pid) => ExclusionRemoveMarker(s, pid);
    case LockAndRead(pid) => ExclusionLockAndRead(s, pid);
    case SetReverting(pid) => ExclusionSetReverting(s, pid);
    case ConfirmRemove(pid) => ExclusionConfirmRemove(s, pid);
    case _ => ExclusionAside(s, a);
  }

  lemma ExclusionAside(s: State, a: Action)
    requires Exclusion(s) && Enabled(s, a)
    requires || a.StartApply? || a.StartConfirm? || a.StartWebRevert? || a.StartCommand? || a.StartTimer? || a.Accept?
             || a.StartRollback? || a.Kill? || a.PowerCycle? || a.Edit? || a.SetPassword?
    ensures Exclusion(Next(s, a))
  {
    match a
    case StartApply(job) => ExclusionStartApply(s, job);
    case StartConfirm(token) => ExclusionStartConfirm(s, token);
    case StartWebRevert => ExclusionStartWebRevert(s);
    case StartCommand => ExclusionStartCommand(s);
    case StartTimer(pid) => ExclusionStartTimer(s, pid);
    case Accept(pid) => ExclusionAccept(s, pid);
    case StartRollback(pid) => ExclusionStartRollback(s, pid);
    case Kill(pid) => ExclusionKill(s, pid);
    case PowerCycle(image) => ExclusionPowerCycle(s, image);
    case Edit(path, value) => ExclusionEdit(s, path, value);
    case SetPassword(password) => ExclusionSetPassword(s, password);
  }

  lemma ExclusionStartApply(s: State, job: Job)
    requires Exclusion(s) && CanStart(s, job)
    ensures Exclusion(Started(s, job))
  {
  }

  lemma ExclusionStartConfirm(s: State, token: Option<nat>)
    requires Exclusion(s)
    ensures Exclusion(Spawn(s, Confirming(token)))
  {
  }

  lemma ExclusionStartWebRevert(s: State)
    requires Exclusion(s)
    ensures Exclusion(Spawn(s, WebRevert))
  {
  }

  lemma ExclusionStartCommand(s: State)
    requires Exclusion(s)
    ensures Exclusion(Spawn(s, Command(None)))
  {
  }

  lemma ExclusionTakeSnapshot(s: State, pid: nat)
    requires Exclusion(s) && CanSnap(s, pid)
    ensures Exclusion(Snapped(s, pid))
  {
  }

  lemma ExclusionClaimMarker(s: State, pid: nat)
    requires Exclusion(s) && CanClaim(s, pid)
    ensures Exclusion(Claimed(s, pid))
  {
    if s.marker.Some? {
      ExclusionEnds(s, pid);
      ExclusionOfSame(Ends(s, pid), Claimed(s, pid));
    } else {
      ClaimerAlone(s, Claimed(s, pid), pid);
    }
  }

  lemma ExclusionCheckBase(s: State, pid: nat)
    requires Exclusion(s) && CanCheck(s, pid)
    ensures Exclusion(Checked(s, pid))
  {
    HolderOwns(s, pid);
    EngagedMoves(s, Checked(s, pid), pid);
  }

  lemma ExclusionDoAct(s: State, pid: nat)
    requires Exclusion(s) && CanAct(s, pid)
    ensures Exclusion(Acted(s, pid))
  {
    HolderOwns(s, pid);
    EngagedMoves(s, Acted(s, pid), pid);
  }

  lemma ExclusionFail(s: State, pid: nat)
    requires Exclusion(s) && CanFail(s, pid)
    ensures Exclusion(Failed(s, pid))
  {
    HolderOwns(s, pid);
    EngagedMoves(s, Failed(s, pid), pid);
  }

  lemma ExclusionArm(s: State, pid: nat)
    requires Exclusion(s) && CanArm(s, pid)
    ensures Exclusion(Armed(s, pid))
  {
    HolderOwns(s, pid);
    EngagedMoves(s, Armed(s, pid), pid);
  }

  lemma ExclusionStartTimer(s: State, pid: nat)
    requires Exclusion(s) && CanStartTimer(s, pid)
    ensures Exclusion(TimerStarted(s, pid))
  {
  }

  lemma ExclusionSucceed(s: State, pid: nat)
    requires Exclusion(s) && CanSucceed(s, pid)
    ensures Exclusion(Succeeded(s, pid))
  {
    HolderOwns(s, pid);
    EngagedMoves(s, Succeeded(s, pid), pid);
  }

  lemma ExclusionRestoreOne(s: State, pid: nat, path: Path)
    requires Exclusion(s) && CanRestore(s, pid, path)
    ensures Exclusion(RestoredOne(s, pid, path))
  {
    HolderOwns(s, pid);
    EngagedMoves(s, RestoredOne(s, pid, path), pid);
  }

  lemma ExclusionKeepOne(s: State, pid: nat, path: Path)
    requires Exclusion(s) && CanKeep(s, pid, path)
    ensures Exclusion(KeptOne(s, pid, path))
  {
    HolderOwns(s, pid);
    EngagedMoves(s, KeptOne(s, pid, path), pid);
  }

  lemma ExclusionEndRestore(s: State, pid: nat)
    requires Exclusion(s) && CanEndRestore(s, pid)
    ensures Exclusion(Restored(s, pid))
  {
    HolderOwns(s, pid);
    EngagedMoves(s, Restored(s, pid), pid);
  }

  lemma ExclusionRemoveMarker(s: State, pid: nat)
    requires Exclusion(s) && CanRemove(s, pid)
    ensures Exclusion(Removed(s, pid))
  {
    HolderOwns(s, pid);
    EngagedMoves(s, Removed(s, pid), pid);
  }

  lemma ExclusionAccept(s: State, pid: nat)
    requires Exclusion(s) && CanAccept(s, pid)
    ensures Exclusion(Accepted(s, pid))
  {
    ExclusionEnds(s, pid);
    ExclusionOfSame(Ends(s, pid), Accepted(s, pid));
  }

  lemma ExclusionEnds(s: State, pid: nat)
    requires Exclusion(s)
    ensures Exclusion(Ends(s, pid))
  {
  }

  lemma ExclusionOfSame(s: State, t: State)
    requires Exclusion(s)
    requires t.procs == s.procs && t.marker == s.marker && t.lock == s.lock && t.nextPid == s.nextPid
    ensures Exclusion(t)
  {
  }

  lemma ExclusionLockAndRead(s: State, pid: nat)
    requires Exclusion(s) && CanEnter(s, pid) && Polite(s, LockAndRead(pid))
    ensures Exclusion(Entered(s, pid))
  {
    assert forall q :: q in s.procs ==> !Locked(s.procs[q]);
    var next := AfterLock(s, s.procs[pid]);
    if next.Some? {
      LockReadsMarker(s, pid);
      ExclusionEnter(s, pid, next.value);
    } else {
      assert Entered(s, pid).procs == s.procs - {pid};
    }
  }

  // What a process reads under the lock entitles it to act: nobody holds the change.
  lemma LockReadsMarker(s: State, pid: nat)
    requires Exclusion(s) && CanEnter(s, pid) && Polite(s, LockAndRead(pid))
    requires AfterLock(s, s.procs[pid]).Some?
    ensures var p := AfterLock(s, s.procs[pid]).value;
            Locked(p) && !Active(p) && s.marker.Some? && StillRead(s, s.marker.value, p) && NoneActive(s)
  {
  }

  lemma ExclusionEnter(s: State, pid: nat, p: Proc)
    requires Exclusion(s) && pid in s.procs && s.lock == None
    requires Locked(p) && !Active(p) && s.marker.Some? && StillRead(s, s.marker.value, p) && NoneActive(s)
    ensures Exclusion(s.(procs := s.procs[pid := p], lock := Some(pid)))
  {
    var t := s.(procs := s.procs[pid := p], lock := Some(pid));
    assert t.procs.Keys == s.procs.Keys;
    assert NoneActive(t);
  }

  lemma RevertMoves(s: State, pid: nat)
    requires CanMark(s, pid) && s.marker.Some? && s.marker.value.pid < s.nextPid
    requires StillRead(s, s.marker.value, s.procs[pid])
    ensures Moves(s, Marked(s, pid), pid)
  {
    MarksRead(s, s.procs[pid]);
  }

  // The marker is the one read: it is marked as reverting, or given up as it was.
  lemma MarksRead(s: State, p: Proc)
    requires Locked(p) && !p.ConfirmLocked? && s.marker.Some? && StillRead(s, s.marker.value, p)
    ensures Reverted(s, p) == Some(s.marker.value.(st := Reverting))
    ensures GivenUp(s, p).Some? && GivenUp(s, p).value.snap == s.marker.value.snap
    ensures GivenUp(s, p).value.pid == s.marker.value.pid
    ensures var next := AfterMark(s, p);
            next.Some? ==>
              && !Locked(next.value)
              && (Active(next.value) ==> Restores(next.value) && next.value.snap == s.marker.value.snap)
  {
  }

  lemma ExclusionSetReverting(s: State, pid: nat)
    requires Exclusion(s) && CanMark(s, pid)
    ensures Exclusion(Marked(s, pid))
  {
    HolderOwns(s, pid);
    RevertMoves(s, pid);
    EngagedMoves(s, Marked(s, pid), pid);
  }

  lemma ExclusionConfirmRemove(s: State, pid: nat)
    requires Exclusion(s) && CanConfirm(s, pid)
    ensures Exclusion(Confirmed(s, pid))
  {
    HolderOwns(s, pid);
    EngagedMoves(s, Confirmed(s, pid), pid);
  }

  lemma ExclusionStartRollback(s: State, pid: nat)
    requires Exclusion(s) && CanStartRollback(s, pid)
    ensures Exclusion(RollbackStarted(s, pid))
  {
  }

  lemma ExclusionKill(s: State, pid: nat)
    requires Exclusion(s) && Is(s, pid)
    ensures Exclusion(Ends(s, pid))
  {
  }

  lemma ExclusionPowerCycle(s: State, image: Files)
    requires Exclusion(s) && CanCut(s, image)
    ensures Exclusion(Booted(s, image))
  {
  }

  lemma ExclusionEdit(s: State, path: Path, value: Option<Content>)
    requires Exclusion(s) && CanEdit(s, path)
    ensures Exclusion(Puts(s, path, value))
  {
  }

  lemma ExclusionSetPassword(s: State, password: string)
    requires Exclusion(s) && CanSetPassword(s)
    ensures Exclusion(PasswordSet(s, password))
  {
  }
}
