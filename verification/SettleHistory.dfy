/** The history of every run: each claimed change ends exactly once, as kept, undone or withdrawn,
    with the files it promises; a change's timer never touches another change. */
module SettleHistory {
  import opened Wrappers
  import opened FlashStore
  import opened Snapshots
  import opened CrashSafety
  import opened SettleProtocol
  import opened SettleSafety

  // What secrets.yaml holds beside the web password; None: it is no map of strings.
  function OtherSecrets(c: Option<Content>): Option<map<string, string>> {
    if c.None? then Some(map[])
    else if c.value.Secrets? then Some(c.value.keys - {PASSWORD_KEY})
    else None
  }

  // The web password may be set at any time, also the first one, which creates the file.
  predicate PasswordApart(a: Option<Content>, b: Option<Content>) {
    a == b || (OtherSecrets(a).Some? && OtherSecrets(a) == OtherSecrets(b))
  }

  predicate SameAt(p: Path, a: Option<Content>, b: Option<Content>) {
    if p == SecretsYaml then PasswordApart(a, b) else a == b
  }

  ghost predicate SameFiles(f: Files, g: Files) {
    forall p :: SameAt(p, At(f, p), At(g, p))
  }

  predicate RestoredAt(f: Files, snap: Snapshot, p: Path) {
    SameAt(p, At(f, p), SavedIn(snap.entries, p))
  }

  // What a power cut at the claim could have brought back.
  function MayAt(c: Claim, p: Path): set<Option<Content>> {
    May(Store(c.base, c.may), p)
  }

  // A per-WAN file the change brought is gone, or as the change had left it after k of its acts.
  predicate AsLeft(c: Claim, k: nat, p: Path, v: Option<Content>)
    requires k <= |c.job.acts|
  {
    v == None || v == At(Perform(c.base, c.job.acts[..k]), p)
  }

  ghost predicate LeftBy(f: Files, snap: Snapshot, c: Claim, k: nat) {
    k <= |c.job.acts| && forall p :: MayKeep(snap, p) ==> AsLeft(c, k, p, At(f, p))
  }

  ghost predicate Left(f: Files, snap: Snapshot, c: Claim) {
    exists k: nat :: LeftBy(f, snap, c, k)
  }

  // What a rollback keeps: per-WAN files the snapshot has no content for, as the change had left them.
  ghost predicate KeptAsLeft(kept: KeptFiles, snap: Snapshot, c: Claim) {
    exists k: nat :: KeptFrom(kept, snap, c, k)
  }

  ghost predicate KeptFrom(kept: KeptFiles, snap: Snapshot, c: Claim, k: nat) {
    k <= |c.job.acts| && forall p :: p in kept ==> MayKeep(snap, p) && AsLeft(c, k, p, kept[p])
  }

  // Rolled back live: each file as the snapshot has it, or as at the claim where it does not cover it; but
  // those kept, because their service would not stop.
  ghost predicate BackTo(f: Files, snap: Snapshot, c: Claim, kept: KeptFiles) {
    && KeptAsLeft(kept, snap, c)
    && forall p :: if p in kept then At(f, p) == kept[p]
                   else if p in snap.covered then RestoredAt(f, snap, p)
                   else At(f, p) == At(c.base, p)
  }

  // Rolled back at boot: nothing is kept, and a file not covered is one the claim could have lost.
  ghost predicate BackAtBoot(f: Files, snap: Snapshot, c: Claim) {
    forall p :: if p in snap.covered then RestoredAt(f, snap, p) else At(f, p) in MayAt(c, p)
  }

  ghost predicate Taken(snaps: map<nat, Snapshot>, j: Job) {
    && ValidJob(j)
    && j.snap in snaps
    && snaps[j.snap].covered == j.covered
    && WellFormed(snaps[j.snap])
  }

  predicate BothClaim(p: Proc, q: Proc) {
    p.Claiming? && q.Claiming? && p.job.snap == q.job.snap
  }

  // The change the marker names is claimed and not settled; no other claimed change is open.
  ghost predicate ClaimsOk(s: State) {
    && (s.marker.Some? ==> s.marker.value.snap in s.claims && s.marker.value.snap !in s.verdicts)
    && (s.marker.Some? ==> s.marker.value.snap in s.archives)
    && (forall x :: x in s.kept ==> x in s.claims)
    && (forall x :: x in s.claims ==> s.claims[x].job.snap == x && Taken(s.snaps, s.claims[x].job))
    && (forall x :: x in s.verdicts ==> x in s.claims)
    && (forall x :: x in s.claims && x !in s.verdicts ==> s.marker.Some? && s.marker.value.snap == x)
  }

  // Appliers that have not claimed yet: each has a snapshot name of its own.
  ghost predicate ClaimersOk(s: State) {
    && (forall pid :: pid in s.procs && s.procs[pid].Planning? ==> ValidJob(s.procs[pid].job))
    && (forall pid :: pid in s.procs && s.procs[pid].Claiming? ==>
          Taken(s.snaps, s.procs[pid].job) && s.procs[pid].job.snap !in s.claims)
    && (forall p, q :: p in s.procs && q in s.procs && BothClaim(s.procs[p], s.procs[q]) ==> p == q)
  }

  ghost predicate Records(s: State) {
    ClaimsOk(s) && ClaimersOk(s)
  }

  // Where the files are, given how far the holder of the open change has come.
  ghost predicate Progress(s: State, c: Claim, snap: Snapshot, p: Proc)
    requires Active(p)
  {
    match p
    case Checking(job) =>
      job == c.job && KeptBy(s, job.snap) == map[] && SameFiles(s.files, c.base)
    case Writing(job, done) =>
      && job == c.job && !Stale(c.job, c.base) && KeptBy(s, job.snap) == map[] && done <= |job.acts|
      && SameFiles(s.files, Perform(c.base, job.acts[..done]))
    case Undoing(x, todo) => AllDone(s, x, snap, todo)
    case Commanding(x, todo) => AllDone(s, x, snap, todo)
    case Clearing(x, verdict, _) =>
      if verdict == Kept then !Stale(c.job, c.base) && SameFiles(s.files, Perform(c.base, c.job.acts))
      else if verdict == Withdrawn then Stale(c.job, c.base) && SameFiles(s.files, c.base)
      else verdict == Undone && AllDone(s, x, snap, {})
  }

  // The restore is over with every covered path but those to do.
  ghost predicate AllDone(s: State, x: nat, snap: Snapshot, todo: set<Path>) {
    && (forall q :: q in todo ==> q in snap.covered)
    && (forall q :: q in snap.covered && q !in todo ==> DoneWith(s, x, snap, q))
  }

  predicate DoneWith(s: State, x: nat, snap: Snapshot, p: Path) {
    p in KeptBy(s, x) || RestoredAt(s.files, snap, p)
  }

  // A file the open change does not cover is as at the claim, on flash, too.
  predicate Untouched(s: State, c: Claim, p: Path) {
    At(s.files, p) == At(c.base, p) && May(Store(s.files, s.may), p) == MayAt(c, p)
  }

  ghost predicate KeptStay(s: State, x: nat, snap: Snapshot) {
    forall p :: p in KeptBy(s, x) ==> MayKeep(snap, p) && At(s.files, p) == KeptBy(s, x)[p]
  }

  ghost predicate OpenFiles(s: State, c: Claim, snap: Snapshot) {
    && (forall p :: p !in snap.covered ==> Untouched(s, c, p))
    && Left(s.files, snap, c)
    && KeptStay(s, c.job.snap, snap)
  }

  // Neither files nor what was kept of them changes.
  predicate Still(s: State, t: State) {
    t.files == s.files && t.may == s.may && t.kept == s.kept
  }

  ghost predicate FilesOk(s: State) {
    s.marker.Some? && s.marker.value.snap in s.claims && s.marker.value.snap in s.snaps ==>
      var m := s.marker.value;
      var c, snap := s.claims[m.snap], s.snaps[m.snap];
      && OpenFiles(s, c, snap)
      && (m.st == Pending ==> !Stale(c.job, c.base) && SameFiles(s.files, Perform(c.base, c.job.acts)))
      && (forall pid :: pid in s.procs && Active(s.procs[pid]) ==> Progress(s, c, snap, s.procs[pid]))
  }

  ghost predicate Inv(s: State) {
    Exclusion(s) && Records(s) && FilesOk(s)
  }

  // ---- steps that change neither files nor marker nor any holder ----

  ghost predicate Bystander(s: State, t: State) {
    && Still(s, t) && t.marker == s.marker && t.claims == s.claims && t.verdicts == s.verdicts
    && t.snaps == s.snaps && t.archives == s.archives
    && forall pid :: pid in t.procs && Holder(t.procs[pid]) ==>
                       pid in s.procs && s.procs[pid] == t.procs[pid]
  }

  lemma BystanderKeeps(s: State, t: State)
    requires Records(s) && FilesOk(s) && Bystander(s, t)
    ensures Records(t) && FilesOk(t)
  {
    BystanderRecords(s, t);
    BystanderFiles(s, t);
  }

  lemma BystanderRecords(s: State, t: State)
    requires Records(s) && Bystander(s, t)
    ensures Records(t)
  {
  }

  lemma BystanderFiles(s: State, t: State)
    requires FilesOk(s) && Bystander(s, t)
    ensures FilesOk(t)
  {
    if s.marker.Some? && s.marker.value.snap in s.claims && s.marker.value.snap in s.snaps {
      var x := s.marker.value.snap;
      forall pid | pid in t.procs && Active(t.procs[pid])
        ensures Progress(t, s.claims[x], s.snaps[x], t.procs[pid])
      {
        assert Holder(t.procs[pid]);
        StillProgress(s, t, s.claims[x], s.snaps[x], t.procs[pid]);
      }
      OpenStill(s, t, s.claims[x], s.snaps[x]);
    }
  }

  lemma StillProgress(s: State, t: State, c: Claim, snap: Snapshot, p: Proc)
    requires Active(p) && Progress(s, c, snap, p) && Still(s, t)
    ensures Progress(t, c, snap, p)
  {
    assert forall x, q :: DoneWith(s, x, snap, q) ==> DoneWith(t, x, snap, q);
  }

  lemma OpenStill(s: State, t: State, c: Claim, snap: Snapshot)
    requires OpenFiles(s, c, snap) && Still(s, t)
    ensures OpenFiles(t, c, snap)
  {
    assert forall p :: Untouched(s, c, p) ==> Untouched(t, c, p);
  }

  predicate Holder(p: Proc) {
    Active(p) || p.Planning? || p.Claiming?
  }

  lemma SpawnIsBystander(s: State, p: Proc)
    requires !Holder(p)
    ensures Bystander(s, Spawn(s, p))
  {
  }

  lemma EndIsBystander(s: State, pid: nat)
    ensures Bystander(s, Ends(s, pid))
  {
  }

  lemma AcceptIsBystander(s: State, pid: nat)
    requires CanAccept(s, pid)
    ensures Bystander(s, Accepted(s, pid))
  {
  }

  lemma LockingIsBystander(s: State, pid: nat)
    requires CanEnter(s, pid)
    ensures Bystander(s, Entered(s, pid))
  {
    var next := AfterLock(s, s.procs[pid]);
    if next.Some? {
      EnterIsBystander(s, pid, next.value);
    } else {
      EndIsBystander(s, pid);
    }
  }

  lemma EnterIsBystander(s: State, pid: nat, p: Proc)
    requires !Holder(p)
    ensures Bystander(s, s.(procs := s.procs[pid := p], lock := Some(pid)))
  {
  }

  lemma TimerIsBystander(s: State, pid: nat)
    requires CanStartTimer(s, pid)
    ensures Bystander(s, TimerStarted(s, pid))
  {
  }

  lemma RollbackIsBystander(s: State, pid: nat)
    requires CanStartRollback(s, pid)
    ensures Bystander(s, RollbackStarted(s, pid))
  {
  }

  // ---- the other steps ----

  // A change ends with the files it promises: as applied, as its snapshot has them, or untouched. It is
  // kept only if it was built from the router.yaml it replaced, and withdrawn only if it was not; it is
  // never abandoned.
  ghost predicate Fulfilled(s: State, x: nat)
    requires x in s.verdicts && x in s.claims && x in s.snaps
  {
    var c := s.claims[x];
    match s.verdicts[x]
    case Kept => !Stale(c.job, c.base) && SameFiles(s.files, Perform(c.base, c.job.acts))
    case Undone => BackTo(s.files, s.snaps[x], c, KeptBy(s, x))
    case UndoneAtBoot => BackAtBoot(s.files, s.snaps[x], c) && KeptBy(s, x) == map[]
    case Withdrawn => Stale(c.job, c.base) && SameFiles(s.files, c.base)
    case Abandoned => false
  }

  ghost predicate Judges(s: State, t: State) {
    && (forall x :: x in s.verdicts ==> x in t.verdicts && t.verdicts[x] == s.verdicts[x])
    && (forall x :: x in t.verdicts && x !in s.verdicts ==>
          s.marker.Some? && s.marker.value.snap == x && t.marker.None? && x in t.claims && x in t.snaps &&
          Fulfilled(t, x))
  }

  // The same change is open before and after, and nobody plans or claims anew.
  lemma RecordsSame(s: State, t: State)
    requires Records(s)
    requires t.claims == s.claims && t.snaps == s.snaps && t.verdicts == s.verdicts
    requires t.marker.Some? == s.marker.Some? && (t.marker.Some? ==> t.marker.value.snap == s.marker.value.snap)
    requires t.marker.Some? ==> t.marker.value.snap in t.archives
    requires forall x :: x in t.kept ==> x in t.claims
    requires forall pid :: pid in t.procs && (t.procs[pid].Planning? || t.procs[pid].Claiming?) ==>
                             pid in s.procs && t.procs[pid] == s.procs[pid]
    ensures Records(t) && Judges(s, t)
  {
  }

  lemma InvStartApply(s: State, job: Job)
    requires Inv(s) && CanStart(s, job)
    ensures var t := Started(s, job); Records(t) && FilesOk(t) && Judges(s, t)
  {
    RecordsPlan(s, s.nextPid, job);
    FilesPlan(s, job);
  }

  lemma FilesPlan(s: State, job: Job)
    requires Inv(s) && CanStart(s, job)
    ensures FilesOk(Started(s, job))
  {
    HolderProgress(s, Started(s, job));
  }

  lemma RecordsPlan(s: State, pid: nat, job: Job)
    requires Records(s) && ValidJob(job) && pid !in s.procs
    ensures Records(s.(procs := s.procs[pid := Planning(job)], nextPid := s.nextPid + 1))
  {
    var t := s.(procs := s.procs[pid := Planning(job)], nextPid := s.nextPid + 1);
    ClaimersPlan(s, t, pid);
    ClaimsSame(s, t);
  }

  lemma ClaimersPlan(s: State, t: State, pid: nat)
    requires ClaimersOk(s) && t.claims == s.claims && t.snaps == s.snaps
    requires pid in t.procs && t.procs == s.procs[pid := t.procs[pid]]
    requires t.procs[pid].Planning? && ValidJob(t.procs[pid].job)
    ensures ClaimersOk(t)
  {
    forall q | q in t.procs && t.procs[q].Claiming?
      ensures Taken(t.snaps, t.procs[q].job) && t.procs[q].job.snap !in t.claims
    {
      assert q in s.procs && s.procs[q] == t.procs[q];
    }
  }

  lemma ClaimsSame(s: State, t: State)
    requires ClaimsOk(s) && t.claims == s.claims && t.snaps == s.snaps && t.verdicts == s.verdicts
    requires t.marker == s.marker && t.archives == s.archives && t.kept == s.kept
    ensures ClaimsOk(t)
  {
  }

  // Holders that do not move, over files and claims that do not change.
  lemma HolderProgress(s: State, t: State)
    requires Inv(s) && Still(s, t) && t.marker == s.marker
    requires s.marker.Some? ==>
               s.marker.value.snap in t.claims && t.claims[s.marker.value.snap] == s.claims[s.marker.value.snap]
    requires s.marker.Some? && s.marker.value.snap in s.snaps ==>
               s.marker.value.snap in t.snaps && t.snaps[s.marker.value.snap] == s.snaps[s.marker.value.snap]
    requires forall pid :: pid in t.procs && Active(t.procs[pid]) ==> pid in s.procs && t.procs[pid] == s.procs[pid]
    ensures FilesOk(t)
  {
    if s.marker.Some? {
      var x := s.marker.value.snap;
      OpenArchived(s);
      OpenStill(s, t, s.claims[x], s.snaps[x]);
      forall pid | pid in t.procs && Active(t.procs[pid])
        ensures Progress(t, t.claims[x], t.snaps[x], t.procs[pid])
      {
        StillProgress(s, t, s.claims[x], s.snaps[x], s.procs[pid]);
      }
    }
  }

  lemma InvTakeSnapshot(s: State, pid: nat)
    requires Inv(s) && CanSnap(s, pid) && KeepsArchive(s, TakeSnapshot(pid))
    ensures var t := Snapped(s, pid); Records(t) && FilesOk(t) && Judges(s, t)
  {
    RecordsTake(s, pid, s.procs[pid].job);
    FilesTake(s, pid);
  }

  lemma FilesTake(s: State, pid: nat)
    requires Inv(s) && CanSnap(s, pid)
    ensures FilesOk(Snapped(s, pid))
  {
    HolderProgress(s, Snapped(s, pid));
  }

  lemma RecordsTake(s: State, pid: nat, job: Job)
    requires Records(s) && CanSnap(s, pid) && KeepsArchive(s, TakeSnapshot(pid))
    requires s.procs[pid].job == job
    ensures Records(Snapped(s, pid))
  {
    var t := Snapped(s, pid);
    assert Next(s, TakeSnapshot(pid)) == t;
    SnapshotIsWellFormed(s, job);
    forall j | Taken(s.snaps, j)
      ensures Taken(t.snaps, j) && j.snap != job.snap
    {
    }
    ClaimsTake(s, t, job);
    ClaimersTake(s, t, pid, job);
  }

  lemma ClaimsTake(s: State, t: State, job: Job)
    requires ClaimsOk(s) && t.claims == s.claims && t.verdicts == s.verdicts && t.marker == s.marker && t.kept == s.kept
    requires forall j :: Taken(s.snaps, j) ==> Taken(t.snaps, j)
    requires t.marker.Some? ==> t.marker.value.snap in t.archives
    ensures ClaimsOk(t)
  {
  }

  lemma ClaimersTake(s: State, t: State, pid: nat, job: Job)
    requires ClaimersOk(s) && pid in s.procs && t.procs == s.procs[pid := Claiming(job)] && t.claims == s.claims
    requires Taken(t.snaps, job) && job.snap !in t.claims
    requires forall j :: Taken(s.snaps, j) ==> Taken(t.snaps, j) && j.snap != job.snap
    ensures ClaimersOk(t)
  {
    forall q | q in t.procs && t.procs[q].Claiming?
      ensures Taken(t.snaps, t.procs[q].job) && t.procs[q].job.snap !in t.claims
      ensures q != pid ==> t.procs[q].job.snap != job.snap
    {
      assert q != pid ==> s.procs[q] == t.procs[q];
    }
  }

  lemma SnapshotIsWellFormed(s: State, job: Job)
    requires ValidJob(job)
    ensures WellFormed(SnapshotOf(s, job)) && SnapshotOf(s, job).covered == job.covered
  {
    var seen := if job.inPlace && s.accepted.Some? then s.files[RouterYaml := s.accepted.value] else s.files;
    SavedPaths(seen, job.covered, map[]);
    forall e | e in Saved(seen, job.covered, map[])
      ensures SavedIn(Saved(seen, job.covered, map[]), e.path) == Some(e.content)
    {
      SavedExactly(seen, job.covered, map[], e.path);
    }
  }

  lemma InvClaimMarker(s: State, pid: nat)
    requires Inv(s) && CanClaim(s, pid) && KeepsArchive(s, ClaimMarker(pid))
    ensures var t := Claimed(s, pid); Records(t) && FilesOk(t) && Judges(s, t)
  {
    if s.marker.Some? {
      InvClaimRefused(s, pid);
    } else {
      RecordsClaim(s, pid);
      NobodyActive(s);
      FilesClaim(s, pid);
    }
  }

  lemma InvClaimRefused(s: State, pid: nat)
    requires Inv(s) && CanClaim(s, pid) && s.marker.Some?
    ensures var t := Claimed(s, pid); Records(t) && FilesOk(t) && Judges(s, t)
  {
    var t := Claimed(s, pid);
    WithoutOther(s.archives, s.procs[pid].job.snap, s.marker.value.snap);
    RecordsSame(s, t);
    HolderProgress(s, t);
  }

  lemma {:induction false} WithoutOther(archives: seq<nat>, x: nat, y: nat)
    requires y in archives && x != y
    ensures y in Without(archives, x)
  {
    if archives[0] != y {
      WithoutOther(archives[1..], x, y);
    }
  }

  lemma NobodyActive(s: State)
    requires Exclusion(s) && s.marker.None?
    ensures NoneActive(s)
  {
  }

  lemma FilesClaim(s: State, pid: nat)
    requires NoneActive(s) && CanClaim(s, pid) && s.marker.None?
    requires s.procs[pid].job.snap !in s.kept && s.procs[pid].job.snap in s.snaps
    ensures FilesOk(Claimed(s, pid))
  {
    var t, job := Claimed(s, pid), s.procs[pid].job;
    assert job.acts[..0] == [];
    assert LeftBy(t.files, t.snaps[job.snap], t.claims[job.snap], 0);
    assert t.procs == s.procs[pid := Checking(s.procs[pid].job)];
    assert forall q :: q in t.procs && Active(t.procs[q]) ==> q == pid;
  }

  lemma RecordsClaim(s: State, pid: nat)
    requires Records(s) && CanClaim(s, pid) && s.marker.None? && s.procs[pid].job.snap in s.archives
    ensures var t := Claimed(s, pid); Records(t) && Judges(s, t)
    ensures s.procs[pid].job.snap !in s.kept && s.procs[pid].job.snap in s.snaps
  {
    ClaimersClaim(s, pid);
    assert Taken(s.snaps, s.procs[pid].job) && s.procs[pid].job.snap !in s.claims;
    ClaimsClaim(s, pid);
  }

  lemma ClaimsClaim(s: State, pid: nat)
    requires ClaimsOk(s) && CanClaim(s, pid) && s.marker.None?
    requires Taken(s.snaps, s.procs[pid].job) && s.procs[pid].job.snap !in s.claims &&
             s.procs[pid].job.snap in s.archives
    ensures var t := Claimed(s, pid); ClaimsOk(t) && Judges(s, t)
  {
    ClaimsAdd(s, Claimed(s, pid), s.procs[pid].job);
  }

  lemma ClaimsAdd(s: State, t: State, job: Job)
    requires ClaimsOk(s) && s.marker.None? && Taken(s.snaps, job) && job.snap !in s.claims && job.snap in s.archives
    requires t.claims == s.claims[job.snap := Claim(job, s.files, s.may)] && t.snaps == s.snaps
    requires t.verdicts == s.verdicts && t.archives == s.archives && t.kept == s.kept
    requires t.marker.Some? && t.marker.value.snap == job.snap
    ensures ClaimsOk(t) && Judges(s, t)
  {
  }

  lemma ClaimersClaim(s: State, pid: nat)
    requires Records(s) && CanClaim(s, pid) && s.marker.None?
    ensures ClaimersOk(Claimed(s, pid))
  {
    var t := Claimed(s, pid);
    assert t.procs == s.procs[pid := Checking(s.procs[pid].job)];
    assert t.claims.Keys == s.claims.Keys + {s.procs[pid].job.snap} && t.snaps == s.snaps;
    ClaimerIsFirst(s, t, pid);
  }

  lemma ClaimerIsFirst(s: State, t: State, pid: nat)
    requires ClaimersOk(s) && CanClaim(s, pid) && t.snaps == s.snaps
    requires t.procs == s.procs[pid := Checking(s.procs[pid].job)]
    requires t.claims.Keys == s.claims.Keys + {s.procs[pid].job.snap}
    ensures ClaimersOk(t)
  {
    forall q | q in t.procs && t.procs[q].Claiming?
      ensures Taken(t.snaps, t.procs[q].job) && t.procs[q].job.snap !in t.claims
    {
      assert q != pid && s.procs[q] == t.procs[q];
      assert !BothClaim(s.procs[q], s.procs[pid]);
    }
  }

  // One process turns into another, and nothing else of the records changes.
  ghost predicate SameRecords(s: State, t: State, pid: nat) {
    && t.claims == s.claims && t.snaps == s.snaps && t.verdicts == s.verdicts && t.archives == s.archives
    && pid in t.procs && t.procs == s.procs[pid := t.procs[pid]]
    && !t.procs[pid].Planning? && !t.procs[pid].Claiming?
  }

  // What the open change asks of the files, given what its holder has turned into.
  ghost predicate GoesOn(t: State, c: Claim, snap: Snapshot, p: Proc) {
    && OpenFiles(t, c, snap)
    && (t.marker.Some? && t.marker.value.st == Pending ==>
          !Stale(c.job, c.base) && SameFiles(t.files, Perform(c.base, c.job.acts)))
    && (Active(p) ==> Progress(t, c, snap, p))
  }

  // The one holder moves on, the marker still naming its change.
  lemma HolderMoves(s: State, t: State, pid: nat)
    requires Inv(s) && pid in s.procs && Active(s.procs[pid]) && SameRecords(s, t, pid)
    requires s.marker.Some? && t.marker.Some? && t.marker.value.snap == s.marker.value.snap
    requires forall x :: x in t.kept ==> x in s.kept || x == s.marker.value.snap
    requires var x := s.marker.value.snap;
             x in s.claims && x in s.snaps && GoesOn(t, s.claims[x], s.snaps[x], t.procs[pid])
    ensures Records(t) && FilesOk(t) && Judges(s, t)
  {
    RecordsSame(s, t);
    HolderOwns(s, pid);
    assert forall q :: q in t.procs && Active(t.procs[q]) ==> q == pid;
  }

  // What the invariant says of the holder.
  lemma HolderAt(s: State, pid: nat)
    requires Inv(s) && pid in s.procs && Active(s.procs[pid])
    ensures s.marker.Some? && s.marker.value.snap in s.claims && s.marker.value.snap in s.snaps
    ensures var x := s.marker.value.snap;
            && Owns(s.marker.value, pid, s.procs[pid])
            && Taken(s.snaps, s.claims[x].job) && s.claims[x].job.snap == x
            && Progress(s, s.claims[x], s.snaps[x], s.procs[pid])
            && OpenFiles(s, s.claims[x], s.snaps[x]) && Archived(s, x)
  {
    assert Taken(s.snaps, s.claims[s.marker.value.snap].job);
    HolderOwns(s, pid);
  }

  lemma InvCheckBase(s: State, pid: nat)
    requires Inv(s) && CanCheck(s, pid)
    ensures var t := Checked(s, pid); Records(t) && FilesOk(t) && Judges(s, t)
  {
    HolderAt(s, pid);
    CheckGoesOn(s, pid, s.claims[s.marker.value.snap], s.snaps[s.marker.value.snap]);
    HolderMoves(s, Checked(s, pid), pid);
  }

  lemma CheckGoesOn(s: State, pid: nat, c: Claim, snap: Snapshot)
    requires CanCheck(s, pid) && Progress(s, c, snap, s.procs[pid]) && OpenFiles(s, c, snap)
    requires s.marker.Some? && s.marker.value.st == Applying
    ensures var t := Checked(s, pid);
            SameRecords(s, t, pid) && t.marker == s.marker && t.kept == s.kept && GoesOn(t, c, snap, t.procs[pid])
  {
    var t := Checked(s, pid);
    assert s.procs[pid].job.acts[..0] == [];
    assert SameAt(RouterYaml, At(s.files, RouterYaml), At(c.base, RouterYaml));
    OpenStill(s, t, c, snap);
  }

  lemma InvDoAct(s: State, pid: nat)
    requires Inv(s) && CanAct(s, pid)
    ensures var t := Acted(s, pid); Records(t) && FilesOk(t) && Judges(s, t)
  {
    HolderAt(s, pid);
    ActGoesOn(s, pid, s.claims[s.marker.value.snap], s.snaps[s.marker.value.snap]);
    HolderMoves(s, Acted(s, pid), pid);
  }

  lemma ActGoesOn(s: State, pid: nat, c: Claim, snap: Snapshot)
    requires CanAct(s, pid) && Progress(s, c, snap, s.procs[pid]) && OpenFiles(s, c, snap)
    requires ValidJob(c.job) && snap.covered == c.job.covered
    requires s.marker.Some? && s.marker.value.st == Applying
    ensures var t := Acted(s, pid);
            SameRecords(s, t, pid) && t.marker == s.marker && t.kept == s.kept && GoesOn(t, c, snap, t.procs[pid])
  {
    var t, p := Acted(s, pid), s.procs[pid];
    ActShape(s, pid);
    ActKeepsProgress(s, pid, c, snap);
    InPlaceIsLeft(t.files, snap, c, p.done + 1);
    ActedOpen(s, t, c, snap, p.job.acts[p.done]);
  }

  lemma ActShape(s: State, pid: nat)
    requires CanAct(s, pid)
    ensures var t, p, act := Acted(s, pid), s.procs[pid], s.procs[pid].job.acts[s.procs[pid].done];
            && SameRecords(s, t, pid) && t.marker == s.marker && t.kept == s.kept
            && t.procs[pid] == p.(done := p.done + 1)
            && if act.Write? then t.files == PutFile(s.files, act.path, act.value) &&
               t.may == MayAfter(s, act.path, act.value)
               else Still(s, t)
  {
  }

  lemma ActKeepsProgress(s: State, pid: nat, c: Claim, snap: Snapshot)
    requires CanAct(s, pid) && Progress(s, c, snap, s.procs[pid])
    ensures Progress(Acted(s, pid), c, snap, s.procs[pid].(done := s.procs[pid].done + 1))
  {
    var p := s.procs[pid];
    ActProgress(s.files, Acted(s, pid).files, c.base, p.job.acts, p.done);
  }

  // The files as after k acts.
  lemma InPlaceIsLeft(f: Files, snap: Snapshot, c: Claim, k: nat)
    requires k <= |c.job.acts| && SameFiles(f, Perform(c.base, c.job.acts[..k]))
    ensures Left(f, snap, c)
  {
    forall p | MayKeep(snap, p)
      ensures AsLeft(c, k, p, At(f, p))
    {
      assert SameAt(p, At(f, p), At(Perform(c.base, c.job.acts[..k]), p));
    }
    assert LeftBy(f, snap, c, k);
  }

  lemma ActedOpen(s: State, t: State, c: Claim, snap: Snapshot, act: Act)
    requires OpenFiles(s, c, snap) && Left(t.files, snap, c) && KeptBy(s, c.job.snap) == map[] && t.kept == s.kept
    requires if act.Write? then act.path in snap.covered && t.files == PutFile(s.files, act.path, act.value)
                                && t.may == MayAfter(s, act.path, act.value)
             else Still(s, t)
    ensures OpenFiles(t, c, snap)
  {
    forall p | p !in snap.covered
      ensures Untouched(t, c, p)
    {
      assert Untouched(s, c, p);
    }
  }

  lemma ActProgress(f: Files, g: Files, base: Files, acts: seq<Act>, k: nat)
    requires k < |acts| && SameFiles(f, Perform(base, acts[..k]))
    requires g == if acts[k].Write? then PutFile(f, acts[k].path, acts[k].value) else f
    ensures SameFiles(g, Perform(base, acts[..k + 1]))
  {
    assert acts[..k + 1][..k] == acts[..k] && acts[..k + 1][k] == acts[k];
    var h, h' := Perform(base, acts[..k]), Perform(base, acts[..k + 1]);
    assert h' == if acts[k].Write? then PutFile(h, acts[k].path, acts[k].value) else h;
    forall p
      ensures SameAt(p, At(g, p), At(h', p))
    {
      assert SameAt(p, At(f, p), At(h, p));
    }
  }

  lemma InvFail(s: State, pid: nat)
    requires Inv(s) && CanFail(s, pid)
    ensures var t := Failed(s, pid); Records(t) && FilesOk(t) && Judges(s, t)
  {
    HolderAt(s, pid);
    FailGoesOn(s, pid, s.claims[s.marker.value.snap], s.snaps[s.marker.value.snap]);
    HolderMoves(s, Failed(s, pid), pid);
  }

  lemma FailGoesOn(s: State, pid: nat, c: Claim, snap: Snapshot)
    requires CanFail(s, pid) && Progress(s, c, snap, s.procs[pid]) && OpenFiles(s, c, snap)
    requires Archived(s, c.job.snap) && snap.covered == c.job.covered && s.marker.Some? && s.marker.value.st == Applying
    ensures var t := Failed(s, pid);
            SameRecords(s, t, pid) && t.marker == s.marker && t.kept == s.kept && GoesOn(t, c, snap, t.procs[pid])
  {
    OpenStill(s, Failed(s, pid), c, snap);
  }

  lemma InvArm(s: State, pid: nat)
    requires Inv(s) && CanArm(s, pid)
    ensures var t := Armed(s, pid); Records(t) && FilesOk(t) && Judges(s, t)
  {
    HolderAt(s, pid);
    ArmGoesOn(s, pid, s.claims[s.marker.value.snap], s.snaps[s.marker.value.snap]);
    HolderMoves(s, Armed(s, pid), pid);
  }

  lemma ArmGoesOn(s: State, pid: nat, c: Claim, snap: Snapshot)
    requires CanArm(s, pid) && Progress(s, c, snap, s.procs[pid]) && OpenFiles(s, c, snap) && s.marker.Some?
    ensures var t := Armed(s, pid);
            && SameRecords(s, t, pid) && t.kept == s.kept && GoesOn(t, c, snap, t.procs[pid])
            && t.marker.Some? && t.marker.value.snap == s.procs[pid].job.snap
  {
    assert s.procs[pid].job.acts[..|s.procs[pid].job.acts|] == s.procs[pid].job.acts;
    OpenStill(s, Armed(s, pid), c, snap);
  }

  lemma InvSucceed(s: State, pid: nat)
    requires Inv(s) && CanSucceed(s, pid)
    ensures var t := Succeeded(s, pid); Records(t) && FilesOk(t) && Judges(s, t)
  {
    HolderAt(s, pid);
    SucceedGoesOn(s, pid, s.claims[s.marker.value.snap], s.snaps[s.marker.value.snap]);
    HolderMoves(s, Succeeded(s, pid), pid);
  }

  lemma SucceedGoesOn(s: State, pid: nat, c: Claim, snap: Snapshot)
    requires CanSucceed(s, pid) && Progress(s, c, snap, s.procs[pid]) && OpenFiles(s, c, snap)
    requires s.marker.Some? && s.marker.value.st == Applying
    ensures var t := Succeeded(s, pid);
            SameRecords(s, t, pid) && t.marker == s.marker && t.kept == s.kept && GoesOn(t, c, snap, t.procs[pid])
  {
    assert s.procs[pid].job.acts[..|s.procs[pid].job.acts|] == s.procs[pid].job.acts;
    OpenStill(s, Succeeded(s, pid), c, snap);
  }

  // No state in which the holder restores is pending.
  lemma RestoringMark(s: State, pid: nat)
    requires Inv(s) && pid in s.procs && Restores(s.procs[pid])
    ensures s.marker.Some? && s.marker.value.st != Pending && s.procs[pid].snap == s.marker.value.snap
  {
    HolderOwns(s, pid);
  }

  lemma InvRestoreOne(s: State, pid: nat, path: Path)
    requires Inv(s) && CanRestore(s, pid, path)
    ensures var t := RestoredOne(s, pid, path); Records(t) && FilesOk(t) && Judges(s, t)
  {
    HolderAt(s, pid);
    RestoringMark(s, pid);
    RestoreGoesOn(s, pid, path, s.claims[s.marker.value.snap], s.snaps[s.marker.value.snap]);
    HolderMoves(s, RestoredOne(s, pid, path), pid);
  }

  lemma RestoreGoesOn(s: State, pid: nat, path: Path, c: Claim, snap: Snapshot)
    requires CanRestore(s, pid, path) && Progress(s, c, snap, s.procs[pid]) && OpenFiles(s, c, snap)
    requires s.procs[pid].snap == c.job.snap && s.snaps[c.job.snap] == snap
    requires s.marker.Some? && s.marker.value.st != Pending
    ensures var t := RestoredOne(s, pid, path);
            && SameRecords(s, t, pid) && t.marker == s.marker && GoesOn(t, c, snap, t.procs[pid])
            && forall x :: x in t.kept ==> x in s.kept || x == c.job.snap
  {
    RestoreProgress(s, RestoredOne(s, pid, path), c, snap, s.procs[pid], path);
  }

  // One file put back, and no longer kept if an earlier restore kept it.
  lemma RestoreProgress(s: State, t: State, c: Claim, snap: Snapshot, p: Proc, path: Path)
    requires Restores(p) && Progress(s, c, snap, p) && OpenFiles(s, c, snap) && p.snap == c.job.snap &&
             path in snap.covered
    requires t.files == PutFile(s.files, path, PutBackAt(s.files, snap, path))
    requires forall q :: q != path ==> May(Store(t.files, t.may), q) == May(Store(s.files, s.may), q)
    requires KeptBy(t, p.snap) == KeptBy(s, p.snap) - {path}
    ensures Progress(t, c, snap, p.(todo := p.todo - {path})) && OpenFiles(t, c, snap)
  {
    PutBackIsRestored(s.files, snap, path);
    forall q | q in snap.covered && q !in p.todo - {path}
      ensures DoneWith(t, p.snap, snap, q)
    {
      assert q != path ==> DoneWith(s, p.snap, snap, q);
    }
    var k: nat :| LeftBy(s.files, snap, c, k);
    assert LeftBy(t.files, snap, c, k);
  }

  lemma InvKeepOne(s: State, pid: nat, path: Path)
    requires Inv(s) && CanKeep(s, pid, path)
    ensures var t := KeptOne(s, pid, path); Records(t) && FilesOk(t) && Judges(s, t)
  {
    HolderAt(s, pid);
    RestoringMark(s, pid);
    KeepGoesOn(s, pid, path, s.claims[s.marker.value.snap], s.snaps[s.marker.value.snap]);
    HolderMoves(s, KeptOne(s, pid, path), pid);
  }

  lemma KeepGoesOn(s: State, pid: nat, path: Path, c: Claim, snap: Snapshot)
    requires CanKeep(s, pid, path) && Progress(s, c, snap, s.procs[pid]) && OpenFiles(s, c, snap)
    requires s.procs[pid].snap == c.job.snap && s.snaps[c.job.snap] == snap
    requires s.marker.Some? && s.marker.value.st != Pending
    ensures var t := KeptOne(s, pid, path);
            && SameRecords(s, t, pid) && t.marker == s.marker && GoesOn(t, c, snap, t.procs[pid])
            && forall x :: x in t.kept ==> x in s.kept || x == c.job.snap
  {
    KeepProgress(s, KeptOne(s, pid, path), c, snap, s.procs[pid], path);
  }

  lemma KeepProgress(s: State, t: State, c: Claim, snap: Snapshot, p: Proc, path: Path)
    requires Restores(p) && Progress(s, c, snap, p) && OpenFiles(s, c, snap) && p.snap == c.job.snap &&
             MayKeep(snap, path)
    requires t.files == s.files && t.may == s.may
    requires KeptBy(t, p.snap) == KeptBy(s, p.snap)[path := At(s.files, path)]
    ensures Progress(t, c, snap, p.(todo := p.todo - {path})) && OpenFiles(t, c, snap)
  {
    forall q | q in snap.covered && q !in p.todo - {path}
      ensures DoneWith(t, p.snap, snap, q)
    {
      assert q != path ==> DoneWith(s, p.snap, snap, q);
    }
  }

  lemma PutBackIsRestored(f: Files, snap: Snapshot, p: Path)
    requires p in snap.covered
    ensures RestoredAt(PutFile(f, p, PutBackAt(f, snap, p)), snap, p)
    ensures forall g :: At(g, p) == PutBackAt(f, snap, p) ==> RestoredAt(g, snap, p)
  {
    var c := SavedIn(snap.entries, p);
    if p == SecretsYaml && c.Some? {
      KeepPasswordRest(c.value, At(f, p));
    }
  }

  lemma InvEndRestore(s: State, pid: nat)
    requires Inv(s) && CanEndRestore(s, pid)
    ensures var t := Restored(s, pid); Records(t) && FilesOk(t) && Judges(s, t)
  {
    HolderAt(s, pid);
    RestoringMark(s, pid);
    EndGoesOn(s, pid, s.claims[s.marker.value.snap], s.snaps[s.marker.value.snap]);
    HolderMoves(s, Restored(s, pid), pid);
  }

  lemma EndGoesOn(s: State, pid: nat, c: Claim, snap: Snapshot)
    requires CanEndRestore(s, pid) && Progress(s, c, snap, s.procs[pid]) && OpenFiles(s, c, snap)
    requires s.marker.Some? && s.marker.value.st != Pending
    ensures var t := Restored(s, pid);
            SameRecords(s, t, pid) && t.marker == s.marker && t.kept == s.kept && GoesOn(t, c, snap, t.procs[pid])
  {
    var t := Restored(s, pid);
    OpenStill(s, t, c, snap);
    StillProgress(s, t, c, snap, s.procs[pid]);
  }

  // The marker goes with a verdict, and nobody plans or claims anew.
  ghost predicate MarkerLeaves(s: State, t: State, verdict: Verdict) {
    && s.marker.Some? && t.marker.None?
    && t.claims == s.claims && t.snaps == s.snaps && t.verdicts == s.verdicts[s.marker.value.snap := verdict]
    && (forall x :: x in t.kept ==> x in s.kept)
    && forall pid :: pid in t.procs && (t.procs[pid].Planning? || t.procs[pid].Claiming?) ==>
         pid in s.procs && t.procs[pid] == s.procs[pid]
  }

  // The marker goes: nothing is held any more, and the change that was open has its verdict.
  lemma MarkerGoes(s: State, t: State, verdict: Verdict)
    requires Inv(s) && MarkerLeaves(s, t, verdict)
    requires var x := s.marker.value.snap; x in s.snaps && x in s.claims ==> Fulfilled(t, x)
    ensures Records(t) && FilesOk(t) && Judges(s, t)
  {
    assert Taken(s.snaps, s.claims[s.marker.value.snap].job);
    ClaimsSettled(s, t, verdict);
    ClaimersStay(s, t);
  }

  lemma ClaimsSettled(s: State, t: State, verdict: Verdict)
    requires ClaimsOk(s) && s.marker.Some? && t.marker.None?
    requires t.claims == s.claims && t.snaps == s.snaps && t.verdicts == s.verdicts[s.marker.value.snap := verdict]
    requires forall x :: x in t.kept ==> x in s.kept
    ensures ClaimsOk(t)
  {
  }

  lemma ClaimersStay(s: State, t: State)
    requires ClaimersOk(s) && t.claims == s.claims && t.snaps == s.snaps
    requires forall pid :: pid in t.procs && (t.procs[pid].Planning? || t.procs[pid].Claiming?) ==>
                             pid in s.procs && t.procs[pid] == s.procs[pid]
    ensures ClaimersOk(t)
  {
  }

  lemma RestoredIsBack(s: State, c: Claim, snap: Snapshot)
    requires OpenFiles(s, c, snap) && AllDone(s, c.job.snap, snap, {})
    ensures BackTo(s.files, snap, c, KeptBy(s, c.job.snap))
  {
    var k: nat :| LeftBy(s.files, snap, c, k);
    assert KeptFrom(KeptBy(s, c.job.snap), snap, c, k);
  }

  lemma InvRemoveMarker(s: State, pid: nat)
    requires Inv(s) && CanRemove(s, pid)
    ensures var t := Removed(s, pid); Records(t) && FilesOk(t) && Judges(s, t)
  {
    HolderAt(s, pid);
    RemoveFulfils(s, pid, s.claims[s.marker.value.snap], s.snaps[s.marker.value.snap]);
    MarkerGoes(s, Removed(s, pid), s.procs[pid].verdict);
  }

  lemma RemoveFulfils(s: State, pid: nat, c: Claim, snap: Snapshot)
    requires CanRemove(s, pid) && s.marker.Some? && s.marker.value.snap == s.procs[pid].snap == c.job.snap
    requires c.job.snap in s.claims && s.claims[c.job.snap] == c && c.job.snap in s.snaps && s.snaps[c.job.snap] == snap
    requires Progress(s, c, snap, s.procs[pid]) && OpenFiles(s, c, snap)
    ensures MarkerLeaves(s, Removed(s, pid), s.procs[pid].verdict) && Fulfilled(Removed(s, pid), c.job.snap)
  {
    if s.procs[pid].verdict == Undone {
      RestoredIsBack(s, c, snap);
    }
  }

  lemma InvConfirmRemove(s: State, pid: nat)
    requires Inv(s) && CanConfirm(s, pid)
    ensures var t := Confirmed(s, pid); Records(t) && FilesOk(t) && Judges(s, t)
  {
    ConfirmFulfils(s, pid);
    MarkerGoes(s, Confirmed(s, pid), Kept);
  }

  lemma ConfirmFulfils(s: State, pid: nat)
    requires Exclusion(s) && FilesOk(s) && ClaimsOk(s) && CanConfirm(s, pid)
    ensures s.marker.Some? && s.marker.value.snap in s.snaps
    ensures Fulfilled(Confirmed(s, pid), s.marker.value.snap)
  {
    assert Taken(s.snaps, s.claims[s.marker.value.snap].job);
  }

  lemma InvSetReverting(s: State, pid: nat)
    requires Inv(s) && CanMark(s, pid)
    ensures var t := Marked(s, pid); Records(t) && FilesOk(t) && Judges(s, t)
  {
    var t := Marked(s, pid);
    LockedReads(s, pid);
    OpenArchived(s);
    RevertTo(s, pid);
    RecordsSame(s, t);
    RevertStarts(s, t, pid, t.procs[pid]);
  }

  lemma LockedReads(s: State, pid: nat)
    requires Exclusion(s) && pid in s.procs && Locked(s.procs[pid])
    ensures s.marker.Some? && StillRead(s, s.marker.value, s.procs[pid]) && NoneActive(s)
  {
    HolderOwns(s, pid);
  }

  lemma RevertTo(s: State, pid: nat)
    requires CanMark(s, pid) && s.marker.Some? && StillRead(s, s.marker.value, s.procs[pid])
    requires Archived(s, s.marker.value.snap)
    ensures var t := Marked(s, pid);
            && Still(s, t) && t.claims == s.claims && t.snaps == s.snaps && t.verdicts == s.verdicts
            && t.archives == s.archives && t.marker == Some(s.marker.value.(st := Reverting))
            && pid in t.procs && t.procs == s.procs[pid := t.procs[pid]]
            && !t.procs[pid].Planning? && !t.procs[pid].Claiming?
            && (Active(t.procs[pid]) ==>
                  && Restores(t.procs[pid]) && t.procs[pid].snap == s.marker.value.snap
                  && t.procs[pid].todo == CoveredSet(s.snaps[s.marker.value.snap]))
  {
    MarksRead(s, s.procs[pid]);
  }

  // Whoever starts to revert has every covered file still to restore.
  lemma RevertStarts(s: State, t: State, pid: nat, p: Proc)
    requires Inv(s) && s.marker.Some? && NoneActive(s)
    requires Still(s, t) && t.claims == s.claims && t.snaps == s.snaps
    requires t.marker == Some(s.marker.value.(st := Reverting))
    requires t.procs == s.procs[pid := p]
    requires Active(p) ==> Restores(p) && p.snap == s.marker.value.snap
    requires Active(p) && p.snap in s.snaps ==> p.todo == CoveredSet(s.snaps[p.snap])
    ensures FilesOk(t)
  {
    OpenArchived(s);
    OpenStill(s, t, s.claims[s.marker.value.snap], s.snaps[s.marker.value.snap]);
    assert forall q :: q in t.procs && Active(t.procs[q]) ==> q == pid;
  }

  lemma InvPowerCycle(s: State, image: Files)
    requires Inv(s) && CanCut(s, image)
    ensures var t := Booted(s, image); Records(t) && FilesOk(t) && Judges(s, t)
  {
    var t := Booted(s, image);
    if s.marker.Some? {
      var x := s.marker.value.snap;
      OpenArchived(s);
      BootBacks(s, image, s.claims[x], s.snaps[x]);
      MarkerGoes(s, t, UndoneAtBoot);
    } else {
      ClaimersGone(s, t);
    }
  }

  lemma OpenArchived(s: State)
    requires Inv(s) && s.marker.Some?
    ensures var x := s.marker.value.snap;
            && x in s.claims && x in s.snaps && Archived(s, x) && s.claims[x].job.snap == x
            && WellFormed(s.snaps[x]) && OpenFiles(s, s.claims[x], s.snaps[x])
  {
    assert Taken(s.snaps, s.claims[s.marker.value.snap].job);
  }

  // Without an open change the boot step leaves the claims alone.
  lemma ClaimersGone(s: State, t: State)
    requires Records(s) && s.marker.None? && t.marker.None? && t.procs == map[]
    requires t.claims == s.claims && t.snaps == s.snaps && t.verdicts == s.verdicts && t.kept == s.kept
    ensures Records(t) && FilesOk(t) && Judges(s, t)
  {
  }

  // Whatever the power cut left of the files, the boot step brings those of the snapshot.
  lemma BootBacks(s: State, image: Files, c: Claim, snap: Snapshot)
    requires CrashImage(Store(s.files, s.may), image) && WellFormed(snap) && OpenFiles(s, c, snap)
    ensures BackAtBoot(RestoreAll(image, snap), snap, c)
  {
    forall p
      ensures if p in snap.covered then RestoredAt(RestoreAll(image, snap), snap, p)
              else At(RestoreAll(image, snap), p) in MayAt(c, p)
    {
      RestoreEffect(Boots(image), snap, p);
      if p in snap.covered {
        PutBackIsRestored(image, snap, p);
      } else {
        assert Untouched(s, c, p);
      }
    }
  }

  lemma InvEdit(s: State, path: Path, value: Option<Content>)
    requires Inv(s) && CanEdit(s, path)
    ensures var t := Puts(s, path, value); Records(t) && FilesOk(t) && Judges(s, t)
  {
    RecordsSame(s, Puts(s, path, value));
  }

  lemma SetPasswordApart(s: State, password: string)
    requires CanSetPassword(s)
    ensures var t := PasswordSet(s, password);
            Apart(s, t)
  {
    var t := PasswordSet(s, password);
    var was := if SecretsYaml in s.files then s.files[SecretsYaml].keys else map[];
    assert t.files[SecretsYaml].keys - {PASSWORD_KEY} == was - {PASSWORD_KEY};
  }

  lemma InvSetPassword(s: State, password: string)
    requires Inv(s) && CanSetPassword(s)
    ensures var t := PasswordSet(s, password); Records(t) && FilesOk(t) && Judges(s, t)
  {
    var t := PasswordSet(s, password);
    RecordsSame(s, t);
    SetPasswordApart(s, password);
    ApartOk(s, t);
  }

  lemma ApartOk(s: State, t: State)
    requires Inv(s) && Apart(s, t)
    requires t.procs == s.procs && t.marker == s.marker && t.claims == s.claims && t.snaps == s.snaps
    ensures FilesOk(t)
  {
    if s.marker.Some? {
      var x := s.marker.value.snap;
      OpenArchived(s);
      ApartFiles(s, t, s.claims[x], s.snaps[x]);
      if SameFiles(s.files, Perform(s.claims[x].base, s.claims[x].job.acts)) {
        SameApart(s, t, Perform(s.claims[x].base, s.claims[x].job.acts));
      }
      forall pid | pid in t.procs && Active(t.procs[pid])
        ensures Progress(t, t.claims[x], t.snaps[x], t.procs[pid])
      {
        ApartProgress(s, t, s.claims[x], s.snaps[x], s.procs[pid]);
      }
    }
  }

  // The files of t are those of s, the web password aside.
  ghost predicate Apart(s: State, t: State) {
    && t.kept == s.kept
    && (forall p :: p != SecretsYaml ==>
          At(t.files, p) == At(s.files, p) && May(Store(t.files, t.may), p) == May(Store(s.files, s.may), p))
    && PasswordApart(At(t.files, SecretsYaml), At(s.files, SecretsYaml))
  }

  lemma SameApart(s: State, t: State, g: Files)
    requires Apart(s, t) && SameFiles(s.files, g)
    ensures SameFiles(t.files, g)
  {
    forall p
      ensures SameAt(p, At(t.files, p), At(g, p))
    {
      assert SameAt(p, At(s.files, p), At(g, p));
    }
  }

  lemma ApartFiles(s: State, t: State, c: Claim, snap: Snapshot)
    requires Apart(s, t) && OpenFiles(s, c, snap) && SecretsYaml in snap.covered
    ensures OpenFiles(t, c, snap)
  {
    var k: nat :| LeftBy(s.files, snap, c, k);
    assert LeftBy(t.files, snap, c, k);
  }

  lemma ApartProgress(s: State, t: State, c: Claim, snap: Snapshot, p: Proc)
    requires Active(p) && Apart(s, t) && Progress(s, c, snap, p)
    ensures Progress(t, c, snap, p)
  {
    if SameFiles(s.files, c.base) {
      SameApart(s, t, c.base);
    }
    if p.Writing? {
      SameApart(s, t, Perform(c.base, p.job.acts[..p.done]));
    }
    if SameFiles(s.files, Perform(c.base, c.job.acts)) {
      SameApart(s, t, Perform(c.base, c.job.acts));
    }
    forall x, q | DoneWith(s, x, snap, q)
      ensures DoneWith(t, x, snap, q)
    {
    }
  }

  // ---- every step, every run ----

  predicate Quiet(a: Action) {
    || a.StartConfirm? || a.StartWebRevert? || a.StartCommand? || a.StartTimer? || a.Accept? || a.LockAndRead?
    || a.StartRollback? || a.Kill?
  }

  lemma InvQuiet(s: State, a: Action)
    requires Records(s) && FilesOk(s) && Enabled(s, a) && Quiet(a)
    ensures var t := Next(s, a); Records(t) && FilesOk(t) && t.verdicts == s.verdicts
  {
    match a {
      case Accept(pid) => AcceptIsBystander(s, pid);
      case Kill(pid) => EndIsBystander(s, pid);
      case LockAndRead(pid) => LockingIsBystander(s, pid);
      case StartTimer(pid) => TimerIsBystander(s, pid);
      case StartRollback(pid) => RollbackIsBystander(s, pid);
      case StartConfirm(token) => SpawnIsBystander(s, Confirming(token));
      case StartWebRevert => SpawnIsBystander(s, WebRevert);
      case StartCommand => SpawnIsBystander(s, Command(None));
    }
    BystanderKeeps(s, Next(s, a));
  }

  // Steps of the process that holds the open change.
  predicate ByHolder(a: Action) {
    a.CheckBase? || a.DoAct? || a.Fail? || a.Arm? || a.Succeed? || a.RestoreOne? || a.KeepOne? ||
    a.EndRestore? || a.RemoveMarker?
  }

  lemma InvHolder(s: State, a: Action)
    requires Inv(s) && Enabled(s, a) && ByHolder(a)
    ensures var t := Next(s, a); Records(t) && FilesOk(t) && Judges(s, t)
  {
    match a
    case CheckBase(pid) => InvCheckBase(s, pid);
    case DoAct(pid) => InvDoAct(s, pid);
    case Fail(pid) => InvFail(s, pid);
    case Arm(pid) => InvArm(s, pid);
    case Succeed(pid) => InvSucceed(s, pid);
    case RestoreOne(pid, path) => InvRestoreOne(s, pid, path);
    case KeepOne(pid, path) => InvKeepOne(s, pid, path);
    case EndRestore(pid) => InvEndRestore(s, pid);
    case RemoveMarker(pid) => InvRemoveMarker(s, pid);
  }

  lemma InvOther(s: State, a: Action)
    requires Inv(s) && Enabled(s, a) && KeepsArchive(s, a) && !ByHolder(a) && !Quiet(a)
    ensures var t := Next(s, a); Records(t) && FilesOk(t) && Judges(s, t)
  {
    match a
    case StartApply(job) => InvStartApply(s, job);
    case TakeSnapshot(pid) => InvTakeSnapshot(s, pid);
    case ClaimMarker(pid) => InvClaimMarker(s, pid);
    case SetReverting(pid) => InvSetReverting(s, pid);
    case ConfirmRemove(pid) => InvConfirmRemove(s, pid);
    case PowerCycle(image) => InvPowerCycle(s, image);
    case Edit(path, value) => InvEdit(s, path, value);
    case SetPassword(password) => InvSetPassword(s, password);
  }

  lemma InvStep(s: State, a: Action)
    requires Inv(s) && Enabled(s, a) && Polite(s, a) && KeepsArchive(s, a)
    ensures Inv(Next(s, a)) && Judges(s, Next(s, a))
  {
    ExclusionStep(s, a);
    if ByHolder(a) {
      InvHolder(s, a);
    } else if Quiet(a) {
      InvQuiet(s, a);
    } else {
      InvOther(s, a);
    }
  }

  // states[0] is a start, and each state follows from the one before by the action between them.
  ghost predicate Behaviour(states: seq<State>, actions: seq<Action>) {
    && |states| == |actions| + 1
    && (exists f, acc :: states[0] == Init(f, acc))
    && forall i {:trigger actions[i]} :: 0 <= i < |actions| ==>
         && Enabled(states[i], actions[i]) && states[i + 1] == Next(states[i], actions[i])
         && Polite(states[i], actions[i]) && KeepsArchive(states[i], actions[i])
  }

  lemma {:induction false} InvRun(states: seq<State>, actions: seq<Action>, n: nat)
    requires Behaviour(states, actions) && n < |states|
    ensures Inv(states[n])
  {
    if n > 0 {
      InvRun(states, actions, n - 1);
      InvStep(states[n - 1], actions[n - 1]);
    }
  }

  lemma {:induction false} VerdictStays(states: seq<State>, actions: seq<Action>, n: nat, m: nat, x: nat)
    requires Behaviour(states, actions) && n <= m < |states|
    requires x in states[n].verdicts
    ensures x in states[m].verdicts && states[m].verdicts[x] == states[n].verdicts[x]
    decreases m - n
  {
    if n < m {
      VerdictStays(states, actions, n, m - 1, x);
      InvRun(states, actions, m - 1);
      InvStep(states[m - 1], actions[m - 1]);
    }
  }

  /** Settling, over every run: two processes never hold changes together; every claimed change but the
      one the marker names has exactly one verdict, which never changes; and at the step that gives a
      change its verdict the marker goes and the files are those it applied (kept), those of its snapshot
      (undone) or those at its claim (withdrawn), the web password aside. */
  lemma Settling(states: seq<State>, actions: seq<Action>, n: nat)
    requires Behaviour(states, actions) && n < |states|
    ensures var procs := states[n].procs;
            forall p, q :: p in procs && q in procs && Active(procs[p]) && Active(procs[q]) ==> p == q
    ensures forall x :: x in states[n].claims ==>
              (x in states[n].verdicts <==> !(states[n].marker.Some? && states[n].marker.value.snap == x))
    ensures forall x, m :: x in states[n].verdicts && n <= m < |states| ==>
              x in states[m].verdicts && states[m].verdicts[x] == states[n].verdicts[x]
    ensures n > 0 ==> Judges(states[n - 1], states[n])
  {
    InvRun(states, actions, n);
    if n > 0 {
      InvRun(states, actions, n - 1);
      InvStep(states[n - 1], actions[n - 1]);
    }
    forall x, m | x in states[n].verdicts && n <= m < |states|
      ensures x in states[m].verdicts && states[m].verdicts[x] == states[n].verdicts[x]
    {
      VerdictStays(states, actions, n, m, x);
    }
  }

  // The marker's course: none, applying, pending, reverting and back to none.
  predicate MarkerCourse(m: Option<Mark>, m': Option<Mark>) {
    match (m, m')
    case (None, None) => true
    case (None, Some(b)) => b.st == Applying
    case (Some(a), None) => true
    case (Some(a), Some(b)) =>
      a.snap == b.snap && (a.st == b.st || (a.st == Applying && b.st == Pending) || b.st == Reverting)
  }

  predicate LeavesMarker(a: Action) {
    !(a.ClaimMarker? || a.Arm? || a.RemoveMarker? || a.SetReverting? || a.ConfirmRemove? || a.PowerCycle?)
  }

  lemma MarkerStays(s: State, a: Action)
    requires Enabled(s, a) && LeavesMarker(a)
    ensures Next(s, a).marker == s.marker
  {
    if Quiet(a) {
      MarkerStaysQuiet(s, a);
    } else if ByHolder(a) {
      MarkerStaysHolder(s, a);
    }
  }

  lemma MarkerStaysQuiet(s: State, a: Action)
    requires Enabled(s, a) && Quiet(a)
    ensures Next(s, a).marker == s.marker
  {
    match a
    case Accept(pid) => AcceptIsBystander(s, pid);
    case Kill(pid) => EndIsBystander(s, pid);
    case LockAndRead(pid) => LockingIsBystander(s, pid);
    case StartTimer(pid) => TimerIsBystander(s, pid);
    case StartRollback(pid) => RollbackIsBystander(s, pid);
    case _ =>
  }

  lemma MarkerStaysHolder(s: State, a: Action)
    requires Enabled(s, a) && ByHolder(a) && LeavesMarker(a)
    ensures Next(s, a).marker == s.marker
  {
    match a
    case CheckBase(pid) => assert Checked(s, pid).marker == s.marker;
    case DoAct(pid) => assert Acted(s, pid).marker == s.marker;
    case Fail(pid) => assert Failed(s, pid).marker == s.marker;
    case Succeed(pid) => assert Succeeded(s, pid).marker == s.marker;
    case RestoreOne(pid, p) => assert RestoredOne(s, pid, p).marker == s.marker;
    case KeepOne(pid, p) => assert KeptOne(s, pid, p).marker == s.marker;
    case EndRestore(pid) => assert Restored(s, pid).marker == s.marker;
  }

  lemma MarkerClears(s: State, a: Action)
    requires Enabled(s, a) && (a.RemoveMarker? || a.ConfirmRemove? || a.PowerCycle?)
    ensures Next(s, a).marker == s.marker || Next(s, a).marker == None
  {
    match a
    case RemoveMarker(pid) => RemoveClears(s, pid);
    case ConfirmRemove(pid) => assert Confirmed(s, pid).marker == None;
    case PowerCycle(image) => assert Booted(s, image).marker == None;
  }

  lemma RemoveClears(s: State, pid: nat)
    requires CanRemove(s, pid)
    ensures Removed(s, pid).marker == s.marker || Removed(s, pid).marker == None
  {
  }

  lemma MarkerReverts(s: State, pid: nat)
    requires Inv(s) && CanMark(s, pid)
    ensures s.marker.Some? && Marked(s, pid).marker == Some(s.marker.value.(st := Reverting))
  {
    LockedReads(s, pid);
    OpenArchived(s);
    RevertTo(s, pid);
  }

  lemma MarkerClaimed(s: State, pid: nat)
    requires CanClaim(s, pid)
    ensures s.marker.Some? ==> Claimed(s, pid).marker == s.marker
    ensures s.marker.None? ==>
              Claimed(s, pid).marker == Some(Mark(s.procs[pid].job.snap, Applying, pid, None))
  {
  }

  lemma MarkerArmed(s: State, pid: nat)
    requires Inv(s) && CanArm(s, pid)
    ensures s.marker.Some? && s.marker.value.st == Applying
    ensures var m := Armed(s, pid).marker; m.Some? && m.value.st == Pending && m.value.snap == s.marker.value.snap
  {
    HolderAt(s, pid);
  }

  /** The marker only follows its course: it never passes from one change to another without being
      removed, and never comes back from reverting to anything but none. */
  lemma MarkerFollowsCourse(s: State, a: Action)
    requires Inv(s) && Enabled(s, a)
    ensures MarkerCourse(s.marker, Next(s, a).marker)
    ensures s.marker.Some? && s.marker.value.st == Reverting ==>
              Next(s, a).marker.None? || Next(s, a).marker.value.st == Reverting
  {
    if LeavesMarker(a) {
      MarkerStays(s, a);
    } else if a.Arm? {
      MarkerArmed(s, a.pid);
    } else if a.ClaimMarker? {
      MarkerClaimed(s, a.pid);
    } else if a.SetReverting? {
      MarkerReverts(s, a.pid);
    } else {
      MarkerClears(s, a);
    }
  }

  /** A timer left from a change that is settled ends without touching anything when it gets the lock,
      whatever change is open by then. */
  lemma OldTimerIsHarmless(states: seq<State>, actions: seq<Action>, n: nat, pid: nat)
    requires Behaviour(states, actions) && n < |states|
    requires Enabled(states[n], LockAndRead(pid)) && states[n].procs[pid].Timer?
    requires states[n].procs[pid].snap in states[n].verdicts
    ensures var s := states[n]; Entered(s, pid) == s.(procs := s.procs - {pid})
  {
    InvRun(states, actions, n);
    SettledTimer(states[n], pid);
  }

  lemma SettledTimer(s: State, pid: nat)
    requires ClaimsOk(s) && CanEnter(s, pid) && s.procs[pid].Timer? && s.procs[pid].snap in s.verdicts
    ensures Entered(s, pid) == s.(procs := s.procs - {pid})
  {
    assert s.marker.Some? ==> s.marker.value.snap != s.procs[pid].snap;
    TimerLeaves(s, pid);
  }

  lemma TimerLeaves(s: State, pid: nat)
    requires CanEnter(s, pid) && s.procs[pid].Timer?
    requires s.marker.Some? ==> s.marker.value.snap != s.procs[pid].snap
    ensures Entered(s, pid) == s.(procs := s.procs - {pid})
  {
  }
}
