/** Runs of the code that show why the conditions of the settling theorems are there: the gap before the
    rename of the staged copies, snapshots older than their claim, a second rollback, a late one, an
    archive pruned while its change is open, and a first password set while a change waits. */
module SettleRaces {
  import opened Wrappers
  import opened FlashStore
  import opened Snapshots
  import opened SettleProtocol
  import opened SettleSafety
  import opened SettleHistory
  import opened AcceptedRecord

  const CONFIG_FILES := [RouterYaml, SecretsYaml]
  const BOTH := {RouterYaml, SecretsYaml}

  lemma OneStepMore(states: seq<State>, actions: seq<Action>, a: Action, t: State)
    requires Runs(states, actions) && Enabled(states[|actions|], a) && t == Next(states[|actions|], a)
    ensures Runs(states + [t], actions + [a])
  {
    var ss, aa := states + [t], actions + [a];
    forall i {:trigger aa[i]} | 0 <= i < |aa|
      ensures Enabled(ss[i], aa[i]) && ss[i + 1] == Next(ss[i], aa[i])
    {
      if i < |actions| {
        assert aa[i] == actions[i] && ss[i] == states[i] && ss[i + 1] == states[i + 1];
      }
    }
  }

  // t can come about from s.
  ghost predicate Reaches(s: State, t: State) {
    exists states, actions :: Runs(states, actions) && states[0] == s && states[|actions|] == t
  }

  lemma Goes(z: State, s: State, a: Action) returns (t: State)
    requires Reaches(z, s) && Enabled(s, a)
    ensures t == Next(s, a) && Reaches(z, t)
  {
    t := Next(s, a);
    var states, actions :| Runs(states, actions) && states[0] == z && states[|actions|] == s;
    OneStepMore(states, actions, a, t);
  }

  lemma Enters(z: State, s: State, pid: nat) returns (t: State)
    requires Reaches(z, s) && CanEnter(s, pid)
    ensures t == Entered(s, pid) && Reaches(z, t)
  {
    t := Goes(z, s, LockAndRead(pid));
  }

  lemma Marks(z: State, s: State, pid: nat) returns (t: State)
    requires Reaches(z, s) && CanMark(s, pid)
    ensures t == Marked(s, pid) && Reaches(z, t)
  {
    t := Goes(z, s, SetReverting(pid));
  }

  lemma Removes(z: State, s: State, pid: nat) returns (t: State)
    requires Reaches(z, s) && CanRemove(s, pid)
    ensures t == Removed(s, pid) && Reaches(z, t)
  {
    t := Goes(z, s, RemoveMarker(pid));
  }

  lemma Starts(files: Files) returns (z: State)
    ensures z == Init(files, None) && Reaches(z, z)
  {
    z := Init(files, None);
    assert Runs([z], []);
  }

  // ---- what the runs are made of ----

  // Changes router.yaml only.
  function JobOf(snap: nat, text: string, confirm: bool, base: Option<Content>, keep: nat): Job {
    Job(snap, CONFIG_FILES, [Write(RouterYaml, Some(Text(text))), Stage], false, confirm, None, base, keep)
  }

  predicate Writes(job: Job, text: string) {
    job == JobOf(job.snap, text, job.confirm, job.base, job.keep)
  }

  lemma Begins(z: State, s: State, job: Job, text: string) returns (t: State)
    requires Reaches(z, s) && s.marker.None? && Writes(job, text)
    ensures t == Started(s, job) && Reaches(z, t)
  {
    assert StagesAt(job.acts, 1);
    t := Goes(z, s, StartApply(job));
  }

  lemma Snaps(z: State, s: State, pid: nat, job: Job) returns (t: State)
    requires Reaches(z, s) && pid in s.procs && s.procs[pid] == Planning(job) && job.snap !in s.snaps
    requires job.covered == CONFIG_FILES && !job.inPlace
    ensures t == Snapped(s, pid) && Reaches(z, t)
    ensures t.snaps[job.snap].covered == CONFIG_FILES
    ensures SavedIn(t.snaps[job.snap].entries, RouterYaml) == At(s.files, RouterYaml)
    ensures SavedIn(t.snaps[job.snap].entries, SecretsYaml) == At(s.files, SecretsYaml)
  {
    t := Goes(z, s, TakeSnapshot(pid));
    SavedExactly(s.files, CONFIG_FILES, map[], RouterYaml);
    SavedExactly(s.files, CONFIG_FILES, map[], SecretsYaml);
  }

  // Started, and its snapshot taken.
  function Planned(s: State, job: Job): State {
    s.(procs := s.procs[s.nextPid := Claiming(job)], nextPid := s.nextPid + 1,
       snaps := s.snaps[job.snap := SnapshotOf(s, job)], archives := Pruned(s.archives + [job.snap], job.keep))
  }

  lemma Plans(z: State, s: State, job: Job, text: string) returns (t: State)
    requires Reaches(z, s) && s.marker.None? && Writes(job, text) && job.snap !in s.snaps && s.nextPid !in s.procs
    ensures t == Planned(s, job) && Reaches(z, t)
    ensures t.snaps[job.snap].covered == CONFIG_FILES
    ensures SavedIn(t.snaps[job.snap].entries, RouterYaml) == At(s.files, RouterYaml)
    ensures SavedIn(t.snaps[job.snap].entries, SecretsYaml) == At(s.files, SecretsYaml)
  {
    var s1 := Begins(z, s, job, text);
    t := Snaps(z, s1, s.nextPid, job);
    assert t.procs == s.procs[s.nextPid := Claiming(job)];
  }

  lemma ClaimsChecked(z: State, s: State, pid: nat, job: Job) returns (t: State)
    requires Reaches(z, s) && s.marker.None? && pid in s.procs && s.procs[pid] == Claiming(job) && !Stale(job, s.files)
    ensures Reaches(z, t)
    ensures t == s.(procs := s.procs[pid := Writing(job, 0)],
                    claims := s.claims[job.snap := Claim(job, s.files, s.may)],
                    marker := Some(Mark(job.snap, Applying, pid, None)))
  {
    var s1 := Goes(z, s, ClaimMarker(pid));
    t := Goes(z, s1, CheckBase(pid));
    assert t.procs == s.procs[pid := Writing(job, 0)];
  }

  // Claimed, found to be built from the live config, and every act performed.
  function InPlace(s: State, pid: nat, job: Job, text: string): State {
    s.(procs := s.procs[pid := Writing(job, 2)],
       claims := s.claims[job.snap := Claim(job, s.files, s.may)],
       marker := Some(Mark(job.snap, Applying, pid, None)),
       files := s.files[RouterYaml := Text(text)], may := MayAfter(s, RouterYaml, Some(Text(text))),
       staged := Some(Text(text)))
  }

  lemma Applies(z: State, s: State, pid: nat, job: Job, text: string) returns (t: State)
    requires Reaches(z, s) && s.marker.None? && Writes(job, text)
    requires pid in s.procs && s.procs[pid] == Claiming(job) && !Stale(job, s.files)
    ensures t == InPlace(s, pid, job, text) && Reaches(z, t)
  {
    var s1 := ClaimsChecked(z, s, pid, job);
    var s2 := Goes(z, s1, DoAct(pid));
    t := Goes(z, s2, DoAct(pid));
    assert t.procs == s.procs[pid := Writing(job, 2)];
  }

  // Started, saved, claimed and in place.
  lemma PlansAndApplies(z: State, s: State, job: Job, text: string) returns (t: State)
    requires Reaches(z, s) && s.marker.None? && Writes(job, text) && !Stale(job, s.files)
    requires job.snap !in s.snaps && s.nextPid !in s.procs
    ensures t == InPlace(Planned(s, job), s.nextPid, job, text) && Reaches(z, t)
    ensures t.procs == s.procs[s.nextPid := Writing(job, 2)]
    ensures t.snaps[job.snap].covered == CONFIG_FILES
    ensures SavedIn(t.snaps[job.snap].entries, RouterYaml) == At(s.files, RouterYaml)
    ensures SavedIn(t.snaps[job.snap].entries, SecretsYaml) == At(s.files, SecretsYaml)
  {
    var s1 := Plans(z, s, job, text);
    t := Applies(z, s1, s.nextPid, job, text);
    assert t.procs == s.procs[s.nextPid := Writing(job, 2)];
  }

  lemma SettlesKept(z: State, s: State, pid: nat, job: Job, text: string) returns (t: State)
    requires Reaches(z, s) && pid in s.procs && s.procs[pid] == Writing(job, 2) && Writes(job, text) && !job.confirm
    requires s.marker == Some(Mark(job.snap, Applying, pid, None))
    ensures t == s.(procs := s.procs[pid := Accepting], marker := None, may := map[],
                    verdicts := s.verdicts[job.snap := Kept])
    ensures Reaches(z, t)
  {
    var s1 := Goes(z, s, Succeed(pid));
    t := Removes(z, s1, pid);
    assert t.procs == s.procs[pid := Accepting];
  }

  // A change is kept up to the rename of its staged copy.
  lemma KeptUpToRename(z: State, s: State, job: Job, text: string) returns (t: State)
    requires Reaches(z, s) && s.marker.None? && Writes(job, text) && !job.confirm && !Stale(job, s.files)
    requires job.snap !in s.snaps && s.nextPid !in s.procs
    ensures Reaches(z, t)
    ensures t == InPlace(Planned(s, job), s.nextPid, job, text).(
                   procs := s.procs[s.nextPid := Accepting], marker := None, may := map[],
                   verdicts := s.verdicts[job.snap := Kept])
  {
    var s1 := PlansAndApplies(z, s, job, text);
    t := SettlesKept(z, s1, s.nextPid, job, text);
    assert t.procs == s.procs[s.nextPid := Accepting];
  }

  lemma Arms(z: State, s: State, pid: nat, job: Job) returns (t: State)
    requires Reaches(z, s) && pid in s.procs && s.procs[pid] == Writing(job, |job.acts|) && job.confirm
    ensures t == s.(procs := s.procs[pid := Spawning(job.snap)],
                    marker := Some(Mark(job.snap, Pending, pid, job.token)))
    ensures Reaches(z, t)
  {
    t := Goes(z, s, Arm(pid));
  }

  // Waits for confirmation, its timer not started yet.
  lemma Waits(z: State, s: State, job: Job, text: string) returns (t: State)
    requires Reaches(z, s) && s.marker.None? && Writes(job, text) && job.confirm && !Stale(job, s.files)
    requires job.snap !in s.snaps && s.nextPid !in s.procs
    ensures Reaches(z, t)
    ensures t == InPlace(Planned(s, job), s.nextPid, job, text).(
                   procs := s.procs[s.nextPid := Spawning(job.snap)],
                   marker := Some(Mark(job.snap, Pending, s.nextPid, None)))
    ensures t.snaps[job.snap].covered == CONFIG_FILES
    ensures SavedIn(t.snaps[job.snap].entries, RouterYaml) == At(s.files, RouterYaml)
    ensures SavedIn(t.snaps[job.snap].entries, SecretsYaml) == At(s.files, SecretsYaml)
  {
    var s1 := PlansAndApplies(z, s, job, text);
    t := Arms(z, s1, s.nextPid, job);
    assert t.procs == s.procs[s.nextPid := Spawning(job.snap)];
  }

  // The files once both config files are put back, and the values a power cut could bring back.
  function PutBackBoth(s: State, x: nat): State
    requires x in s.snaps
  {
    var t := Puts(s, RouterYaml, PutBackAt(s.files, s.snaps[x], RouterYaml));
    Puts(t, SecretsYaml, PutBackAt(t.files, s.snaps[x], SecretsYaml))
  }

  // Both config files restored, and the marker that is there removed.
  ghost predicate UndoneBy(s: State, t: State, pid: nat, x: nat)
    requires s.marker.Some? && x in s.snaps
  {
    && t.procs == s.procs - {pid} && t.marker == None && t.lock == s.lock && t.nextPid == s.nextPid
    && t.verdicts == s.verdicts[s.marker.value.snap := Undone]
    && t.claims == s.claims && t.snaps == s.snaps && t.archives == s.archives
    && At(t.files, RouterYaml) == SavedIn(s.snaps[x].entries, RouterYaml)
    && At(t.files, SecretsYaml) == PutBackAt(s.files, s.snaps[x], SecretsYaml)
  }

  lemma RestoresFiles(z: State, s: State, pid: nat, p: Proc) returns (t: State)
    requires Reaches(z, s) && pid in s.procs && s.procs[pid] == p && Restores(p) && p.todo == BOTH
    requires p.snap in s.snaps && s.snaps[p.snap].covered == CONFIG_FILES
    ensures Reaches(z, t)
    ensures t == PutBackBoth(s, p.snap).(procs := s.procs[pid := p.(todo := {})], kept := t.kept)
  {
    var s1 := Goes(z, s, RestoreOne(pid, RouterYaml));
    t := Goes(z, s1, RestoreOne(pid, SecretsYaml));
    assert p.todo - {RouterYaml} - {SecretsYaml} == {};
    assert t.procs == s.procs[pid := p.(todo := {})];
  }

  lemma RestoresBoth(z: State, s: State, pid: nat, p: Proc) returns (t: State)
    requires Reaches(z, s) && pid in s.procs && s.procs[pid] == p && Restores(p) && p.todo == BOTH
    requires p.snap in s.snaps && s.snaps[p.snap].covered == CONFIG_FILES
    requires s.lock == None && s.marker.Some? && (p.Undoing? ==> s.marker.value.snap == p.snap)
    ensures Reaches(z, t) && UndoneBy(s, t, pid, p.snap)
  {
    var s1 := RestoresFiles(z, s, pid, p);
    t := Clears(z, s1, pid, p.(todo := {}));
    assert t.procs == s.procs - {pid};
  }

  lemma Clears(z: State, s: State, pid: nat, p: Proc) returns (t: State)
    requires Reaches(z, s) && pid in s.procs && s.procs[pid] == p && Restores(p) && p.todo == {}
    requires s.lock == None && s.marker.Some? && (p.Undoing? ==> s.marker.value.snap == p.snap)
    ensures Reaches(z, t)
    ensures t == s.(procs := s.procs - {pid}, marker := None, may := map[], staged := t.staged,
                    verdicts := s.verdicts[s.marker.value.snap := Undone])
  {
    var s1 := Goes(z, s, EndRestore(pid));
    t := Removes(z, s1, pid);
    assert t.procs == s.procs - {pid};
  }

  // The applier fails and undoes its change.
  lemma Fails(z: State, s: State, pid: nat, job: Job) returns (t: State)
    requires Reaches(z, s) && pid in s.procs && s.procs[pid].Writing? && s.procs[pid].job == job && s.lock == None
    requires job.covered == CONFIG_FILES && Archived(s, job.snap) && s.snaps[job.snap].covered == CONFIG_FILES
    requires s.marker.Some? && s.marker.value.snap == job.snap
    ensures Reaches(z, t) && UndoneBy(s, t, pid, job.snap)
  {
    var s1 := Goes(z, s, Fail(pid));
    assert s1.procs[pid] == Undoing(job.snap, BOTH);
    t := RestoresBoth(z, s1, pid, Undoing(job.snap, BOTH));
    assert t.procs == s.procs - {pid};
  }

  // A rollback has marked the change that is there, and is about to restore the snapshot x.
  function MarkedBy(s: State, pid: nat, x: nat): State
    requires s.marker.Some?
  {
    s.(procs := s.procs[pid := Commanding(x, BOTH)], marker := Some(s.marker.value.(st := Reverting)))
  }

  lemma CommandLocks(z: State, s: State, pid: nat, x: nat) returns (t: State)
    requires Reaches(z, s) && s.lock == None && pid in s.procs && s.procs[pid].Command?
    requires s.marker.Some? && s.marker.value.st != Applying
    requires x == if s.procs[pid].name.Some? then s.procs[pid].name.value else s.marker.value.snap
    ensures t == s.(procs := s.procs[pid := CommandLocked(x, s.marker)], lock := Some(pid)) && Reaches(z, t)
  {
    t := Enters(z, s, pid);
  }

  lemma CommandMarks(z: State, s: State, pid: nat, x: nat) returns (t: State)
    requires Reaches(z, s) && s.lock == None && pid in s.procs && s.procs[pid].Command?
    requires s.marker.Some? && s.marker.value.st != Applying
    requires x == if s.procs[pid].name.Some? then s.procs[pid].name.value else s.marker.value.snap
    requires Archived(s, x) && s.snaps[x].covered == CONFIG_FILES
    ensures t == MarkedBy(s, pid, x) && Reaches(z, t)
  {
    var s1 := CommandLocks(z, s, pid, x);
    assert CoveredSet(s.snaps[x]) == BOTH;
    t := Marks(z, s1, pid);
    assert t.procs == s.procs[pid := Commanding(x, BOTH)];
  }

  // `mr rollback` on the console, up to its restore.
  lemma CommandStarts(z: State, s: State, x: nat) returns (t: State)
    requires Reaches(z, s) && s.lock == None && s.nextPid !in s.procs
    requires s.marker.Some? && s.marker.value.snap == x && s.marker.value.st != Applying
    requires Archived(s, x) && s.snaps[x].covered == CONFIG_FILES
    ensures t == MarkedBy(s, s.nextPid, x).(nextPid := s.nextPid + 1) && Reaches(z, t)
  {
    var s1 := Goes(z, s, StartCommand);
    t := CommandMarks(z, s1, s.nextPid, x);
    assert t.procs == s.procs[s.nextPid := Commanding(x, BOTH)];
  }

  // A console rollback of the change the marker names, from start to end.
  lemma RollsBack(z: State, s: State, x: nat) returns (t: State)
    requires Reaches(z, s) && s.lock == None && s.nextPid !in s.procs
    requires s.marker.Some? && s.marker.value.snap == x && s.marker.value.st != Applying
    requires Archived(s, x) && s.snaps[x].covered == CONFIG_FILES
    ensures Reaches(z, t) && t.nextPid == s.nextPid + 1
    ensures UndoneBy(s, t.(nextPid := s.nextPid), s.nextPid, x)
  {
    var s1 := CommandStarts(z, s, x);
    t := RestoresBoth(z, s1, s.nextPid, Commanding(x, BOTH));
    assert t.procs == s.procs - {s.nextPid};
  }

  // ---- the gap between the removal of the marker and the rename ----

  // Another apply claims and stages.
  lemma StagesNext(z: State, s: State, pid: nat) returns (t: State)
    requires Reaches(z, s) && s.marker.None? && s.procs == map[pid := Accepting] && pid != s.nextPid && 2 !in s.snaps
    ensures Reaches(z, t) && t.staged == Some(Text("b"))
    ensures t.procs == map[pid := Accepting, s.nextPid := Writing(JobOf(2, "b", false, None, 20), 2)]
    ensures t.verdicts == s.verdicts && t.marker.Some? && t.marker.value.snap == 2
  {
    var job := JobOf(2, "b", false, None, 20);
    t := PlansAndApplies(z, s, job, "b");
  }

  lemma Accepts(z: State, s: State, pid: nat) returns (t: State)
    requires Reaches(z, s) && pid in s.procs && s.procs[pid] == Accepting && s.staged.Some?
    requires forall q :: q in s.procs && q != pid ==> !s.procs[q].Accepting?
    ensures Reaches(z, t) && NoneAccepting(t)
    ensures t.accepted == s.staged && t.verdicts == s.verdicts && t.marker == s.marker
  {
    t := Goes(z, s, Accept(pid));
    assert t.procs == s.procs - {pid};
  }

  // And then the first one's rename happens.
  lemma StagedInTheGap(z: State, s: State, pid: nat) returns (t: State)
    requires Reaches(z, s) && s.marker.None? && s.procs == map[pid := Accepting] && pid != s.nextPid && 2 !in s.snaps
    ensures Reaches(z, t) && NoneAccepting(t) && t.accepted == Some(Text("b"))
    ensures t.verdicts == s.verdicts && t.marker.Some? && t.marker.value.snap == 2
  {
    var s1 := StagesNext(z, s, pid);
    t := Accepts(z, s1, pid);
  }

  /** An apply without confirmation: after it removed the marker, and before it renames its staged copy,
      another apply claims and stages. The first change is kept, the second is not settled, and the
      record holds the second one's config. */
  lemma GapLosesRecord(files: Files)
    ensures exists t :: Reaches(Init(files, None), t) && NoneAccepting(t)
                        && t.verdicts == map[1 := Kept] && t.marker.Some? && t.marker.value.snap == 2
                        && t.accepted == Some(Text("b"))
  {
    var z := Starts(files);
    var s := KeptUpToRename(z, z, JobOf(1, "a", false, None, 20), "a");
    assert s.procs == map[0 := Accepting];
    var t := StagedInTheGap(z, s, 0);
  }

  /** A confirm: the same, although it holds the lock up to its rename, because claiming takes no lock. */
  lemma ConfirmGapLosesRecord(files: Files)
    ensures exists t :: Reaches(Init(files, None), t) && NoneAccepting(t)
                        && t.verdicts == map[1 := Kept] && t.marker.Some? && t.marker.value.snap == 2
                        && t.accepted == Some(Text("b"))
  {
    var z := Init(files, None);
    var s := WaitsAtFirst(files);
    var s1 := ConfirmedUpToRename(z, s, 1);
    var t := StagedInTheGap(z, s1, 1);
  }

  // The waiting change is confirmed; its applier is gone, and the confirm still holds the lock.
  lemma ConfirmedUpToRename(z: State, s: State, x: nat) returns (t: State)
    requires Reaches(z, s) && s.lock == None && s.procs == map[0 := Spawning(x)] && s.nextPid == 1
    requires s.marker.Some? && s.marker.value.snap == x && s.marker.value.st == Pending
    ensures Reaches(z, t) && t.lock == Some(1) && t.procs == map[1 := Accepting] && t.marker == None
    ensures t.verdicts == s.verdicts[x := Kept] && t.snaps == s.snaps && t.nextPid == 2
  {
    var s1 := Goes(z, s, Kill(0));
    var s2 := Goes(z, s1, StartConfirm(None));
    assert s2.procs == map[1 := Confirming(None)];
    t := LocksAndConfirms(z, s2, x);
  }

  lemma LocksAndConfirms(z: State, s: State, x: nat) returns (t: State)
    requires Reaches(z, s) && s.lock == None && s.procs == map[1 := Confirming(None)]
    requires s.marker.Some? && s.marker.value.snap == x && s.marker.value.st == Pending
    ensures Reaches(z, t) && t.lock == Some(1) && t.procs == map[1 := Accepting] && t.marker == None
    ensures t.verdicts == s.verdicts[x := Kept] && t.snaps == s.snaps && t.nextPid == s.nextPid
  {
    var s1 := Enters(z, s, 1);
    t := Goes(z, s1, ConfirmRemove(1));
  }

  // ---- snapshots older than their claim ----

  /** An apply that names no base revision, its snapshot taken before another change settles: undoing it
      puts back the config from before that change, which was kept. */
  lemma StaleSnapshotUndoesMore(files: Files)
    ensures exists t :: Reaches(Init(files, None), t)
                        && t.verdicts == map[1 := Kept, 2 := Undone]
                        && 2 in t.claims && At(t.claims[2].base, RouterYaml) == Some(Text("a"))
                        && At(t.files, RouterYaml) == At(files, RouterYaml)
  {
    var z, job := Init(files, None), JobOf(2, "b", false, None, 20);
    var s := KeptBetween(files);
    var s1 := Applies(z, s, 0, job, "b");
    var t := Fails(z, s1, 0, job);
  }

  // One apply has its snapshot, another one is kept.
  lemma KeptBetween(files: Files) returns (s: State)
    ensures Reaches(Init(files, None), s) && s.lock == None && s.marker == None && s.verdicts == map[1 := Kept]
    ensures 0 in s.procs && s.procs[0] == Claiming(JobOf(2, "b", false, None, 20))
    ensures At(s.files, RouterYaml) == Some(Text("a")) && Archived(s, 2) && s.snaps[2].covered == CONFIG_FILES
    ensures SavedIn(s.snaps[2].entries, RouterYaml) == At(files, RouterYaml)
  {
    var z := Starts(files);
    var s1 := Plans(z, z, JobOf(2, "b", false, None, 20), "b");
    s := KeptUpToRename(z, s1, JobOf(1, "a", false, None, 20), "a");
    assert s1.archives == [2] && s.archives == [2, 1];
  }

  /** A base revision does not exclude that: the snapshot is taken while another change is in place, that
      change is rolled back, and the base is the live config again at the claim. Undoing puts back the
      config that was rolled back. */
  lemma BaseRevisionMissesUndoneChange(files: Files)
    requires RouterYaml in files
    ensures exists t :: Reaches(Init(files, None), t)
                        && t.verdicts == map[1 := Undone, 2 := Undone]
                        && 2 in t.claims && t.claims[2].job.base == At(t.claims[2].base, RouterYaml)
                        && t.claims[2].job.base == At(files, RouterYaml)
                        && At(t.files, RouterYaml) == Some(Text("a"))
  {
    var z, job := Init(files, None), JobOf(2, "b", false, At(files, RouterYaml), 20);
    var s := SavedWhileInPlace(files);
    var s1 := Applies(z, s, 0, job, "b");
    var t := Fails(z, s1, 0, job);
  }

  // The second apply has started when the first one claims; it takes its snapshot while the first change
  // is in place, and that one is rolled back after that.
  lemma SavedWhileInPlace(files: Files) returns (s: State)
    ensures Reaches(Init(files, None), s) && s.lock == None && s.marker == None && s.verdicts == map[1 := Undone]
    ensures 0 in s.procs && s.procs[0] == Claiming(JobOf(2, "b", false, At(files, RouterYaml), 20))
    ensures At(s.files, RouterYaml) == At(files, RouterYaml)
    ensures Archived(s, 2) && s.snaps[2].covered == CONFIG_FILES
    ensures SavedIn(s.snaps[2].entries, RouterYaml) == Some(Text("a"))
  {
    var z := Init(files, None);
    var s1 := StartedBesides(files, JobOf(2, "b", false, At(files, RouterYaml), 20), "b", 20, false);
    var s2 := Snaps(z, s1, 0, JobOf(2, "b", false, At(files, RouterYaml), 20));
    s := Fails(z, s2, 1, JobOf(1, "a", false, None, 20));
  }

  // One apply has started, another one is in place.
  lemma StartedBesides(files: Files, job: Job, text: string, keep: nat, confirm: bool) returns (s: State)
    requires Writes(job, text) && job.snap == 2
    ensures Reaches(Init(files, None), s) && s.lock == None && s.verdicts == map[] && s.nextPid == 2
    ensures s.procs == map[0 := Planning(job), 1 := Writing(JobOf(1, "a", confirm, None, keep), 2)]
    ensures s.marker == Some(Mark(1, Applying, 1, None)) && s.archives == [1]
    ensures s.snaps.Keys == {1} && s.snaps[1].covered == CONFIG_FILES && At(s.files, RouterYaml) == Some(Text("a"))
    ensures SavedIn(s.snaps[1].entries, RouterYaml) == At(files, RouterYaml)
    ensures forall p :: p in s.may ==> At(s.files, p) in s.may[p]
  {
    var z := Starts(files);
    var job1 := JobOf(1, "a", confirm, None, keep);
    var s1 := Begins(z, z, job, text);
    assert s1.procs == map[0 := Planning(job)];
    s := PlansAndApplies(z, s1, job1, "a");
    assert s.archives == [1];
  }

  // ---- an archive pruned while its change is open ----

  /** Two applies start before either has claimed, with a history of one. The snapshot of the second prunes
      the archive of the first, which has claimed by then: its timer finds nothing to restore and leaves the
      marker, and the next boot sets the marker aside and abandons the change as it is. */
  lemma PrunedChangeIsAbandoned(files: Files)
    ensures exists t :: Reaches(Init(files, None), t)
                        && t.verdicts == map[1 := Abandoned] && t.marker == None
                        && At(t.files, RouterYaml) == Some(Text("a"))
  {
    var z := Init(files, None);
    var s := ReleasedWithoutArchive(files);
    var s1 := TimerFindsNone(z, s);
    LiveIsImage(s1);
    var t := Goes(z, s1, PowerCycle(s1.files));
  }

  lemma TimerFindsNone(z: State, s: State) returns (t: State)
    requires Reaches(z, s) && s.lock == None && s.archives == []
    requires s.procs == map[2 := Timer(1)] && s.marker == Some(Mark(1, Pending, 1, None))
    ensures Reaches(z, t) && t == s.(procs := map[], marker := Some(Mark(1, Reverting, 1, None)))
  {
    var s1 := Enters(z, s, 2);
    assert AfterLock(s, s.procs[2]) == Some(TimerLocked(s.marker.value));
    t := Marks(z, s1, 2);
    assert t.procs == map[];
  }

  // Nothing that is not on flash may have been lost.
  lemma LiveIsImage(s: State)
    requires forall p :: p in s.may ==> At(s.files, p) in s.may[p]
    ensures CrashImage(Store(s.files, s.may), s.files)
  {
  }

  // The first change waits for confirmation with its timer started, and its archive is gone.
  lemma ReleasedWithoutArchive(files: Files) returns (s: State)
    ensures Reaches(Init(files, None), s) && s.lock == None && s.verdicts == map[] && s.archives == []
    ensures s.procs == map[2 := Timer(1)] && s.marker == Some(Mark(1, Pending, 1, None))
    ensures At(s.files, RouterYaml) == Some(Text("a"))
    ensures forall p :: p in s.may ==> At(s.files, p) in s.may[p]
  {
    var z := Init(files, None);
    var s1 := PrunesTheFirst(files);
    var s2 := Arms(z, s1, 1, JobOf(1, "a", true, None, 1));
    s := Goes(z, s2, StartTimer(1));
    assert s.procs == map[2 := Timer(1)];
  }

  lemma PrunesTheFirst(files: Files) returns (s: State)
    ensures Reaches(Init(files, None), s) && s.lock == None && s.verdicts == map[] && s.archives == [] && s.nextPid == 2
    ensures s.procs == map[1 := Writing(JobOf(1, "a", true, None, 1), 2)] &&
            s.marker == Some(Mark(1, Applying, 1, None))
    ensures At(s.files, RouterYaml) == Some(Text("a"))
    ensures forall p :: p in s.may ==> At(s.files, p) in s.may[p]
  {
    var job := JobOf(2, "b", false, None, 1);
    var s1 := StartedBesides(files, job, "b", 1, true);
    s := PrunesAndGoes(Init(files, None), s1, job);
    assert s.procs == map[1 := Writing(JobOf(1, "a", true, None, 1), 2)];
  }

  // The second apply takes its snapshot, finds the marker and removes the snapshot again.
  lemma PrunesAndGoes(z: State, s: State, job: Job) returns (t: State)
    requires Reaches(z, s) && 0 in s.procs && s.procs[0] == Planning(job) && s.marker.Some? && s.lock == None
    requires job == JobOf(2, "b", false, None, 1) && 2 !in s.snaps && s.archives == [1]
    ensures Reaches(z, t) && t.lock == None && t.procs == s.procs - {0} && t.marker == s.marker &&
            t.nextPid == s.nextPid
    ensures t.files == s.files && t.may == s.may && t.verdicts == s.verdicts && t.archives == []
  {
    var s1 := Snaps(z, s, 0, job);
    assert [1] + [2] == [1, 2];
    assert s1.archives == [2];
    t := Goes(z, s1, ClaimMarker(0));
    assert Without([2], 2) == [];
    assert t.procs == s.procs - {0};
  }

  // ---- rollbacks of a change that is settled already ----

  lemma WaitsAtFirst(files: Files) returns (s: State)
    ensures Reaches(Init(files, None), s) && s.lock == None && s.nextPid == 1 && s.procs == map[0 := Spawning(1)]
    ensures s.marker == Some(Mark(1, Pending, 0, None)) && s.verdicts == map[] && s.archives == [1]
    ensures s.snaps.Keys == {1} && s.snaps[1].covered == CONFIG_FILES
    ensures SavedIn(s.snaps[1].entries, RouterYaml) == At(files, RouterYaml)
    ensures SavedIn(s.snaps[1].entries, SecretsYaml) == At(files, SecretsYaml)
    ensures At(s.files, SecretsYaml) == At(files, SecretsYaml)
  {
    var z := Starts(files);
    s := Waits(z, z, JobOf(1, "a", true, None, 20), "a");
    assert s.archives == [1];
  }

  // One rollback of the waiting change from start to end, another one begun before it.
  lemma RollsBackTwice(files: Files) returns (s: State)
    ensures Reaches(Init(files, None), s) && s.lock == None && s.nextPid == 3 && 3 !in s.procs && s.marker == None
    ensures 1 in s.procs && s.procs[1] == Commanding(1, BOTH)
    ensures s.snaps.Keys == {1} && s.snaps[1].covered == CONFIG_FILES
    ensures SavedIn(s.snaps[1].entries, RouterYaml) == At(files, RouterYaml)
  {
    var s1 := WaitsAtFirst(files);
    var s2 := CommandStarts(Init(files, None), s1, 1);
    s := RollsBack(Init(files, None), s2, 1);
  }

  /** Two explicit rollbacks of one change: the later one to finish removes the marker of the next
      change, whose applier is still writing and is then unprotected. */
  lemma SecondRollbackUnmarksNextChange(files: Files)
    ensures exists t, pid :: Reaches(Init(files, None), t)
                             && pid in t.procs && t.procs[pid] == Writing(JobOf(2, "b", false, None, 20), 2)
                             && t.marker == None && !Exclusion(t)
                             && At(t.files, RouterYaml) == At(files, RouterYaml)
  {
    var z, job := Init(files, None), JobOf(2, "b", false, None, 20);
    var s := RollsBackTwice(files);
    var s1 := Plans(z, s, job, "b");
    var s2 := Applies(z, s1, 3, job, "b");
    var t := RestoresOver(z, s2);
    assert Engaged(t.procs[3]) && !Alone(t, 3);
  }

  lemma RestoresOver(z: State, s: State) returns (t: State)
    requires Reaches(z, s) && s.lock == None && s.marker.Some?
    requires 1 in s.procs && s.procs[1] == Commanding(1, BOTH)
    requires 1 in s.snaps && s.snaps[1].covered == CONFIG_FILES
    ensures Reaches(z, t) && t.procs == s.procs - {1} && t.marker == None
    ensures At(t.files, RouterYaml) == SavedIn(s.snaps[1].entries, RouterYaml)
  {
    t := RestoresBoth(z, s, 1, Commanding(1, BOTH));
  }

  // The web revert of a waiting change, up to the start of its `mr rollback SNAPSHOT`.
  lemma WebReverts(z: State, s: State, x: nat) returns (t: State)
    requires Reaches(z, s) && s.lock == None
    requires s.marker.Some? && s.marker.value.snap == x && s.marker.value.st == Pending
    requires s.procs == map[0 := Spawning(x)] && s.nextPid == 1
    ensures Reaches(z, t)
    ensures t == s.(marker := Some(s.marker.value.(st := Reverting)), nextPid := 3,
                    procs := map[0 := Spawning(x), 2 := Command(Some(x))])
  {
    var s1 := Goes(z, s, StartWebRevert);
    assert s1.procs == map[0 := Spawning(x), 1 := WebRevert];
    var s2 := WebMarks(z, s1, x);
    t := Goes(z, s2, StartRollback(1));
    assert t.procs == map[0 := Spawning(x), 2 := Command(Some(x))];
  }

  lemma WebMarks(z: State, s: State, x: nat) returns (t: State)
    requires Reaches(z, s) && s.lock == None && 1 in s.procs && s.procs[1] == WebRevert
    requires s.marker.Some? && s.marker.value.snap == x && s.marker.value.st == Pending
    ensures t == s.(marker := Some(s.marker.value.(st := Reverting)), procs := s.procs[1 := WebSpawning(x)])
    ensures Reaches(z, t)
  {
    var s1 := Enters(z, s, 1);
    t := Marks(z, s1, 1);
    assert t.procs == s.procs[1 := WebSpawning(x)];
  }

  // Reverted from the web, the named rollback only started; a console rollback settles the change.
  lemma LeavesNamedRollback(files: Files) returns (s: State)
    ensures Reaches(Init(files, None), s) && s.lock == None && s.nextPid == 4 && s.marker == None
    ensures s.procs == map[0 := Spawning(1), 2 := Command(Some(1))] && s.archives == [1]
    ensures s.snaps.Keys == {1} && s.snaps[1].covered == CONFIG_FILES && s.verdicts == map[1 := Undone]
    ensures SavedIn(s.snaps[1].entries, RouterYaml) == At(files, RouterYaml)
  {
    var s0 := WaitsAtFirst(files);
    var s1 := WebReverts(Init(files, None), s0, 1);
    s := RollsBack(Init(files, None), s1, 1);
  }

  lemma Edits(z: State, s: State) returns (t: State)
    requires Reaches(z, s) && s.marker == None
    ensures t == Puts(s, RouterYaml, Some(Text("e"))) && Reaches(z, t)
  {
    t := Goes(z, s, Edit(RouterYaml, Some(Text("e"))));
  }

  lemma EditsAndWaits(z: State, s: State) returns (t: State)
    requires Reaches(z, s) && s.lock == None && s.marker == None && 2 !in s.snaps && s.nextPid !in s.procs
    requires s.archives == [1]
    ensures Reaches(z, t) && t.lock == None && t.marker == Some(Mark(2, Pending, s.nextPid, None))
    ensures t.procs == s.procs[s.nextPid := Spawning(2)] && t.verdicts == s.verdicts && t.archives == [1, 2]
    ensures 2 in t.claims && At(t.claims[2].base, RouterYaml) == Some(Text("e"))
    ensures t.snaps.Keys == s.snaps.Keys + {2} && SavedIn(t.snaps[2].entries, RouterYaml) == Some(Text("e"))
    ensures forall x :: x in s.snaps ==> t.snaps[x] == s.snaps[x]
    ensures t.snaps[2].covered == CONFIG_FILES
  {
    var s1 := Edits(z, s);
    t := Waits(z, s1, JobOf(2, "b", true, None, 20), "b");
    assert [1] + [2] == [1, 2];
  }

  /** A rollback that names its snapshot and comes late: a console `mr rollback` has settled the change by
      then, router.yaml was edited, and the next change waits. The late rollback undoes that change, with
      the old snapshot, and the edit with it. */
  lemma LateRollbackUndoesNextChange(files: Files)
    requires At(files, RouterYaml) != Some(Text("e"))
    ensures exists t :: Reaches(Init(files, None), t)
                        && t.verdicts == map[1 := Undone, 2 := Undone]
                        && 2 in t.claims && At(t.claims[2].base, RouterYaml) == Some(Text("e"))
                        && 2 in t.snaps && !Fulfilled(t, 2)
                        && At(t.files, RouterYaml) == At(files, RouterYaml)
  {
    var z := Init(files, None);
    var s := LeavesNamedRollback(files);
    var s1 := EditsAndWaits(z, s);
    var t := LateOne(z, s1);
    NotBack(t, 2);
  }

  // A config file that is not the one of its snapshot: the change is not undone.
  lemma NotBack(s: State, x: nat)
    requires x in s.verdicts && x in s.claims && x in s.snaps && s.verdicts[x] == Undone
    requires RouterYaml in s.snaps[x].covered && At(s.files, RouterYaml) != SavedIn(s.snaps[x].entries, RouterYaml)
    ensures !Fulfilled(s, x)
  {
    assert !MayKeep(s.snaps[x], RouterYaml) && !RestoredAt(s.files, s.snaps[x], RouterYaml);
  }

  lemma LateOne(z: State, s: State) returns (t: State)
    requires Reaches(z, s) && s.lock == None && 2 in s.procs && s.procs[2] == Command(Some(1))
    requires s.marker.Some? && s.marker.value.st == Pending && s.marker.value.snap == 2
    requires Archived(s, 1) && s.snaps[1].covered == CONFIG_FILES
    ensures Reaches(z, t) && t.verdicts == s.verdicts[2 := Undone] && t.claims == s.claims && t.snaps == s.snaps
    ensures At(t.files, RouterYaml) == SavedIn(s.snaps[1].entries, RouterYaml)
  {
    var s1 := CommandMarks(z, s, 2, 1);
    t := RestoresBoth(z, s1, 2, Commanding(1, BOTH));
  }

  // ---- a first password ----

  lemma WaitsWithPassword(files: Files, password: string) returns (s: State)
    requires SecretsYaml !in files
    ensures Reaches(Init(files, None), s) && s.lock == None && s.procs.Keys == {0} && s.nextPid == 1
    ensures s.marker == Some(Mark(1, Pending, 0, None)) && s.verdicts == map[]
    ensures Archived(s, 1) && s.snaps[1].covered == CONFIG_FILES && SavedIn(s.snaps[1].entries, SecretsYaml) == None
    ensures HasPassword(At(s.files, SecretsYaml))
  {
    var s0 := WaitsAtFirst(files);
    s := Goes(Init(files, None), s0, SetPassword(password));
  }

  /** Without a secrets.yaml, a first password set while a change waits is gone after the change's
      rollback, and the file with it. */
  lemma FirstPasswordIsLost(files: Files, password: string)
    requires SecretsYaml !in files
    ensures exists s, t :: Reaches(Init(files, None), s) && HasPassword(At(s.files, SecretsYaml))
                           && Reaches(s, t) && t.verdicts == map[1 := Undone] && At(t.files, SecretsYaml) == None
  {
    var s := WaitsWithPassword(files, password);
    assert Runs([s], []);
    var t := RollsBack(s, s, 1);
  }
}
