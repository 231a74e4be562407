/** The processes that make and settle changes, interleaved at every step: appliers, confirm timers,
    `mr confirm` and the one-time token, the web revert, `mr rollback`, kills and power cycles.

    They share the files, the pending marker and a lock.  The marker is created exclusively; it leaves
    the pending state only under the lock; it is removed without it.  Each file keeps the values a power
    cut may bring back until everything is synced, which the removal of the marker does first. */
module SettleProtocol {
  import opened Wrappers
  import opened FlashStore
  import opened Snapshots
  import opened CrashSafety

  datatype Act = Write(path: Path, value: Option<Content>) | Stage

  // One apply: its snapshot's name and paths, what it writes in order, whether it asks for confirmation,
  // the router.yaml it was built from, when the client named one, and how many snapshots its config keeps.
  datatype Job = Job(snap: nat, covered: seq<Path>, acts: seq<Act>, inPlace: bool, confirm: bool, token: Option<nat>,
                     base: Option<Content>, keep: nat)

  datatype Mark = Mark(snap: nat, st: MarkerState, pid: nat, token: Option<nat>)

  // Abandoned: the boot step found no archive to restore, and set the marker aside.
  datatype Verdict = Kept | Undone | UndoneAtBoot | Withdrawn | Abandoned

  datatype Proc =
    | Planning(job: Job)                       // before its snapshot
    | Claiming(job: Job)                       // snapshot on flash
    | Checking(job: Job)                       // marker claimed
    | Writing(job: Job, done: nat)             // not stale
    | Spawning(snap: nat)                      // marker pending, timer not started
    | Undoing(snap: nat, todo: set<Path>)      // restore inside rollback
    | Commanding(snap: nat, todo: set<Path>)   // restore inside mr rollback
    | Clearing(snap: nat, verdict: Verdict, any: bool)
    | Accepting                                // staged copies about to become the accepted ones
    | Timer(snap: nat)
    | TimerLocked(read: Mark)                  // the marker read under the lock
    | Confirming(token: Option<nat>)           // None: a session; Some: the one-time token
    | ConfirmLocked(read: Mark)
    | WebRevert
    | WebRevertLocked(read: Mark)
    | WebSpawning(snap: nat)
    | Command(name: Option<nat>)               // the web revert names its snapshot, the console none
    | CommandLocked(snap: nat, found: Option<Mark>)

  // The files at the claim, and the values a power cut could have brought back then.
  datatype Claim = Claim(job: Job, base: Files, may: map<Path, set<Option<Content>>>)

  // What a rollback found under the paths it kept.
  type KeptFiles = map<Path, Option<Content>>

  datatype State = State(
    files: Files,
    may: map<Path, set<Option<Content>>>,
    marker: Option<Mark>,
    lock: Option<nat>,
    procs: map<nat, Proc>,
    nextPid: nat,
    snaps: map<nat, Snapshot>,      // all that were ever taken
    archives: seq<nat>,             // those still there, the newest last
    staged: Option<Content>,
    accepted: Option<Content>,
    // history
    claims: map<nat, Claim>,
    verdicts: map<nat, Verdict>,
    kept: map<nat, KeptFiles>)

  datatype Action =
    | StartApply(job: Job)
    | StartConfirm(token: Option<nat>)
    | StartWebRevert
    | StartCommand
    | TakeSnapshot(pid: nat)
    | ClaimMarker(pid: nat)
    | CheckBase(pid: nat)
    | DoAct(pid: nat)
    | Fail(pid: nat)
    | Arm(pid: nat)
    | StartTimer(pid: nat)
    | Succeed(pid: nat)
    | RestoreOne(pid: nat, path: Path)
    | KeepOne(pid: nat, path: Path)
    | EndRestore(pid: nat)
    | RemoveMarker(pid: nat)
    | Accept(pid: nat)
    | LockAndRead(pid: nat)
    | SetReverting(pid: nat)
    | ConfirmRemove(pid: nat)
    | StartRollback(pid: nat)
    | Kill(pid: nat)
    | PowerCycle(image: Files)
    | Edit(path: Path, value: Option<Content>)
    | SetPassword(password: string)

  function Init(files: Files, accepted: Option<Content>): State {
    State(files, map[], None, None, map[], 0, map[], [], None, accepted, map[], map[], map[])
  }

  predicate ValidJob(j: Job) {
    && (forall p :: p in j.covered ==> Managed(p))
    && RouterYaml in j.covered && SecretsYaml in j.covered
    && (forall a :: a in j.acts && a.Write? ==> a.path in j.covered)
    && (exists k :: 0 <= k < |j.acts| && StagesAt(j.acts, k))
  }

  // The config files are in place when they are staged, and are not written after.
  predicate StagesAt(acts: seq<Act>, k: nat)
    requires k < |acts|
  {
    && acts[k].Stage?
    && (forall i :: 0 <= i < |acts| && i != k ==> acts[i].Write?)
    && (forall i :: k < i < |acts| ==> acts[i].path != RouterYaml)
  }

  function Perform(f: Files, acts: seq<Act>): Files {
    if acts == [] then f
    else
      var g := Perform(f, acts[..|acts| - 1]);
      var a := acts[|acts| - 1];
      if a.Write? then PutFile(g, a.path, a.value) else g
  }

  // The router.yaml the candidate was built from is not the live one any more.
  predicate Stale(j: Job, f: Files) {
    j.base.Some? && At(f, RouterYaml) != j.base
  }

  // An edit in place is saved as last accepted.
  function SnapshotOf(s: State, j: Job): Snapshot {
    var seen := if j.inPlace && s.accepted.Some? then s.files[RouterYaml := s.accepted.value] else s.files;
    Snapshot(Saved(seen, j.covered, map[]), j.covered)
  }

  // A process that may write files or remove the marker on its own.
  predicate Active(p: Proc) {
    p.Checking? || p.Writing? || p.Undoing? || p.Commanding? || p.Clearing?
  }

  predicate Locked(p: Proc) {
    p.TimerLocked? || p.ConfirmLocked? || p.WebRevertLocked? || p.CommandLocked?
  }

  // The marker a process in the critical section has read.
  function ReadBy(p: Proc): Option<Mark>
    requires Locked(p)
  {
    if p.CommandLocked? then p.found else Some(p.read)
  }

  function SnapOf(p: Proc): nat
    requires Active(p)
  {
    if p.Checking? || p.Writing? then p.job.snap else p.snap
  }

  // ---- steps ----

  predicate Is(s: State, pid: nat) {
    pid in s.procs
  }

  // What a process that gets the lock does next, from the marker it reads; None: it ends.  A bare
  // `mr rollback` without a marker finds no archive under the last name of the history.
  function AfterLock(s: State, p: Proc): (next: Option<Proc>)
    ensures next.Some? ==> Locked(next.value)
  {
    if s.marker.None? then
      if p.Command? && p.name.Some? then Some(CommandLocked(p.name.value, None)) else None
    else
      var m := s.marker.value;
      match p
      case Timer(snap) =>
        if m.snap == snap && m.st == Pending then Some(TimerLocked(m)) else None
      case Confirming(token) =>
        if m.st == Pending && (token.None? || m.token == token) then Some(ConfirmLocked(m)) else None
      case WebRevert =>
        if m.st == Pending then Some(WebRevertLocked(m)) else None
      case Command(name) =>
        if m.st == Applying && m.pid in s.procs then None
        else Some(CommandLocked(if name.Some? then name.value else m.snap, Some(m)))
      case _ => None
  }

  predicate WroteAll(p: Proc) {
    p.Writing? && p.done == |p.job.acts|
  }

  predicate Restores(p: Proc) {
    p.Undoing? || p.Commanding?
  }

  // The archive of the snapshot is there to be read.
  predicate Archived(s: State, x: nat) {
    x in s.archives && x in s.snaps
  }

  // A per-WAN file the snapshot has no content for: a live restore keeps it if its service will not stop.
  predicate MayKeep(snap: Snapshot, p: Path) {
    p.WanFile? && p in snap.covered && SavedIn(snap.entries, p) == None
  }

  predicate CanStart(s: State, job: Job) {
    ValidJob(job) && s.marker.None?
  }

  predicate CanSnap(s: State, pid: nat) {
    Is(s, pid) && s.procs[pid].Planning? && s.procs[pid].job.snap !in s.snaps
  }

  predicate CanClaim(s: State, pid: nat) {
    Is(s, pid) && s.procs[pid].Claiming?
  }

  predicate CanCheck(s: State, pid: nat) {
    Is(s, pid) && s.procs[pid].Checking?
  }

  predicate CanAct(s: State, pid: nat) {
    Is(s, pid) && s.procs[pid].Writing? && s.procs[pid].done < |s.procs[pid].job.acts|
  }

  predicate CanFail(s: State, pid: nat) {
    Is(s, pid) && s.procs[pid].Writing?
  }

  predicate CanArm(s: State, pid: nat) {
    Is(s, pid) && WroteAll(s.procs[pid]) && s.procs[pid].job.confirm
  }

  predicate CanStartTimer(s: State, pid: nat) {
    Is(s, pid) && s.procs[pid].Spawning?
  }

  predicate CanSucceed(s: State, pid: nat) {
    Is(s, pid) && WroteAll(s.procs[pid]) && !s.procs[pid].job.confirm
  }

  predicate CanRestore(s: State, pid: nat, p: Path) {
    Is(s, pid) && Restores(s.procs[pid]) && p in s.procs[pid].todo && s.procs[pid].snap in s.snaps
  }

  predicate CanKeep(s: State, pid: nat, p: Path) {
    && Is(s, pid) && Restores(s.procs[pid]) && p in s.procs[pid].todo
    && s.procs[pid].snap in s.snaps && MayKeep(s.snaps[s.procs[pid].snap], p)
  }

  predicate CanEndRestore(s: State, pid: nat) {
    Is(s, pid) && Restores(s.procs[pid]) && s.procs[pid].todo == {}
  }

  predicate CanRemove(s: State, pid: nat) {
    Is(s, pid) && s.procs[pid].Clearing?
  }

  predicate CanAccept(s: State, pid: nat) {
    Is(s, pid) && s.procs[pid].Accepting?
  }

  predicate CanEnter(s: State, pid: nat) {
    Is(s, pid) && s.lock.None? &&
    (s.procs[pid].Timer? || s.procs[pid].Confirming? || s.procs[pid].WebRevert? || s.procs[pid].Command?)
  }

  predicate CanMark(s: State, pid: nat) {
    && Is(s, pid)
    && (s.procs[pid].TimerLocked? || s.procs[pid].WebRevertLocked? || s.procs[pid].CommandLocked?)
  }

  predicate CanConfirm(s: State, pid: nat) {
    Is(s, pid) && s.procs[pid].ConfirmLocked?
  }

  predicate CanStartRollback(s: State, pid: nat) {
    Is(s, pid) && s.procs[pid].WebSpawning?
  }

  ghost predicate CanCut(s: State, image: Files) {
    CrashImage(Store(s.files, s.may), image)
  }

  predicate CanEdit(s: State, p: Path) {
    s.marker.None? && Managed(p)
  }

  predicate CanSetPassword(s: State) {
    SecretsYaml in s.files ==> s.files[SecretsYaml].Secrets?
  }

  ghost predicate Enabled(s: State, a: Action) {
    match a
    case StartApply(job) => CanStart(s, job)
    case StartConfirm(_) => true
    case StartWebRevert => true
    case StartCommand => true
    case TakeSnapshot(pid) => CanSnap(s, pid)
    case ClaimMarker(pid) => CanClaim(s, pid)
    case CheckBase(pid) => CanCheck(s, pid)
    case DoAct(pid) => CanAct(s, pid)
    case Fail(pid) => CanFail(s, pid)
    case Arm(pid) => CanArm(s, pid)
    case StartTimer(pid) => CanStartTimer(s, pid)
    case Succeed(pid) => CanSucceed(s, pid)
    case RestoreOne(pid, p) => CanRestore(s, pid, p)
    case KeepOne(pid, p) => CanKeep(s, pid, p)
    case EndRestore(pid) => CanEndRestore(s, pid)
    case RemoveMarker(pid) => CanRemove(s, pid)
    case Accept(pid) => CanAccept(s, pid)
    case LockAndRead(pid) => CanEnter(s, pid)
    case SetReverting(pid) => CanMark(s, pid)
    case ConfirmRemove(pid) => CanConfirm(s, pid)
    case StartRollback(pid) => CanStartRollback(s, pid)
    case Kill(pid) => Is(s, pid)
    case PowerCycle(image) => CanCut(s, image)
    case Edit(p, _) => CanEdit(s, p)
    case SetPassword(_) => CanSetPassword(s)
  }

  function Spawn(s: State, p: Proc): State {
    s.(procs := s.procs[s.nextPid := p], nextPid := s.nextPid + 1)
  }

  // The lock when the process leaves the critical section, or ends.
  function Released(s: State, pid: nat): Option<nat> {
    if s.lock == Some(pid) then None else s.lock
  }

  function Ends(s: State, pid: nat): State {
    s.(procs := s.procs - {pid}, lock := Released(s, pid))
  }

  function CoveredSet(snap: Snapshot): set<Path> {
    set p | p in snap.covered
  }

  // The crash values after a rename of a file into place, or its removal.
  function MayAfter(s: State, p: Path, v: Option<Content>): map<Path, set<Option<Content>>> {
    s.may[p := May(Store(s.files, s.may), p) + {v}]
  }

  function Puts(s: State, p: Path, v: Option<Content>): State {
    s.(files := PutFile(s.files, p, v), may := MayAfter(s, p, v))
  }

  function RestoreAll(f: Files, snap: Snapshot): Files {
    Run(Boots(f), RestoreOps(f, snap)).live
  }

  function KeptBy(s: State, x: nat): KeptFiles {
    if x in s.kept then s.kept[x] else map[]
  }

  // The newest archives, so many of them; the last one always stays.
  function Pruned(archives: seq<nat>, keep: nat): seq<nat> {
    var n := if keep == 0 then 1 else keep;
    if |archives| <= n then archives else archives[|archives| - n..]
  }

  function Without(archives: seq<nat>, x: nat): seq<nat> {
    if archives == [] then []
    else (if archives[0] == x then [] else [archives[0]]) + Without(archives[1..], x)
  }

  // The verdicts once the marker has gone.
  function Judged(s: State, verdict: Verdict): map<nat, Verdict> {
    if s.marker.Some? then s.verdicts[s.marker.value.snap := verdict] else s.verdicts
  }

  // The marker as the process writes it before it restores: the record it has read, now reverting.
  function Reverted(s: State, p: Proc): Option<Mark>
    requires Locked(p)
  {
    var read := ReadBy(p);
    if read.None? || read.value.st == Reverting then s.marker else Some(read.value.(st := Reverting))
  }

  // What it does then; None: there is no archive to restore, and it ends.
  function AfterMark(s: State, p: Proc): Option<Proc>
    requires Locked(p)
  {
    if p.WebRevertLocked? then Some(WebSpawning(p.read.snap))
    else
      var x := if p.CommandLocked? then p.snap else p.read.snap;
      if !Archived(s, x) then None
      else if p.CommandLocked? then Some(Commanding(x, CoveredSet(s.snaps[x])))
      else Some(Undoing(x, CoveredSet(s.snaps[x])))
  }

  // And after a restore that found no archive: only the command takes its mark back.
  function GivenUp(s: State, p: Proc): Option<Mark>
    requires Locked(p)
  {
    if p.CommandLocked? && p.found.Some?
    then Some(p.found.value.(st := if p.found.value.st == Applying then Applying else Pending))
    else Reverted(s, p)
  }

  function Started(s: State, job: Job): State {
    Spawn(s, Planning(job))
  }

  function Snapped(s: State, pid: nat): State
    requires CanSnap(s, pid)
  {
    var job := s.procs[pid].job;
    s.(procs := s.procs[pid := Claiming(job)], snaps := s.snaps[job.snap := SnapshotOf(s, job)],
       archives := Pruned(s.archives + [job.snap], job.keep))
  }

  function Claimed(s: State, pid: nat): State
    requires CanClaim(s, pid)
  {
    var job := s.procs[pid].job;
    if s.marker.Some? then
      s.(procs := s.procs - {pid}, lock := Released(s, pid), archives := Without(s.archives, job.snap))
    else
      s.(procs := s.procs[pid := Checking(job)], marker := Some(Mark(job.snap, Applying, pid, None)),
         claims := s.claims[job.snap := Claim(job, s.files, s.may)])
  }

  function Checked(s: State, pid: nat): State
    requires CanCheck(s, pid)
  {
    var job := s.procs[pid].job;
    s.(procs := s.procs[pid := if Stale(job, s.files) then Clearing(job.snap, Withdrawn, false) else Writing(job, 0)])
  }

  function Acted(s: State, pid: nat): State
    requires CanAct(s, pid)
  {
    var p := s.procs[pid];
    var act := p.job.acts[p.done];
    if act.Write? then
      s.(procs := s.procs[pid := p.(done := p.done + 1)], files := PutFile(s.files, act.path, act.value),
         may := MayAfter(s, act.path, act.value))
    else
      s.(procs := s.procs[pid := p.(done := p.done + 1)], staged := At(s.files, RouterYaml))
  }

  function Failed(s: State, pid: nat): State
    requires CanFail(s, pid)
  {
    var job := s.procs[pid].job;
    if Archived(s, job.snap) then s.(procs := s.procs[pid := Undoing(job.snap, set p | p in job.covered)])
    else Ends(s, pid)
  }

  function Armed(s: State, pid: nat): State
    requires CanArm(s, pid)
  {
    var job := s.procs[pid].job;
    s.(procs := s.procs[pid := Spawning(job.snap)], marker := Some(Mark(job.snap, Pending, pid, job.token)))
  }

  function TimerStarted(s: State, pid: nat): State
    requires CanStartTimer(s, pid)
  {
    s.(procs := (s.procs - {pid})[s.nextPid := Timer(s.procs[pid].snap)], nextPid := s.nextPid + 1,
       lock := Released(s, pid))
  }

  function Succeeded(s: State, pid: nat): State
    requires CanSucceed(s, pid)
  {
    s.(procs := s.procs[pid := Clearing(s.procs[pid].job.snap, Kept, false)])
  }

  function RestoredOne(s: State, pid: nat, p: Path): State
    requires CanRestore(s, pid, p)
  {
    var proc := s.procs[pid];
    var v := PutBackAt(s.files, s.snaps[proc.snap], p);
    s.(procs := s.procs[pid := proc.(todo := proc.todo - {p})], files := PutFile(s.files, p, v),
       may := MayAfter(s, p, v),
       kept := s.kept[proc.snap := KeptBy(s, proc.snap) - {p}])
  }

  function KeptOne(s: State, pid: nat, p: Path): State
    requires CanKeep(s, pid, p)
  {
    var proc := s.procs[pid];
    s.(procs := s.procs[pid := proc.(todo := proc.todo - {p})],
       kept := s.kept[proc.snap := KeptBy(s, proc.snap)[p := At(s.files, p)]])
  }

  function Restored(s: State, pid: nat): State
    requires CanEndRestore(s, pid)
  {
    var proc := s.procs[pid];
    s.(procs := s.procs[pid := Clearing(proc.snap, Undone, proc.Commanding?)],
       staged := if proc.Undoing? then None else s.staged)
  }

  // Everything is synced and the marker goes, if it is the right one; both are on flash when this is over.
  function Removed(s: State, pid: nat): State
    requires CanRemove(s, pid)
  {
    var p := s.procs[pid];
    var mine := p.any || (s.marker.Some? && s.marker.value.snap == p.snap);
    s.(procs := if p.verdict == Kept then s.procs[pid := Accepting] else s.procs - {pid},
       lock := if p.verdict == Kept then s.lock else Released(s, pid),
       archives := if p.verdict == Withdrawn then Without(s.archives, p.snap) else s.archives,
       marker := if mine then None else s.marker, may := if mine then map[] else s.may,
       verdicts := if mine then Judged(s, p.verdict) else s.verdicts)
  }

  function Accepted(s: State, pid: nat): State
    requires CanAccept(s, pid)
  {
    s.(procs := s.procs - {pid}, lock := Released(s, pid), accepted := if s.staged.Some? then s.staged else s.accepted,
       staged := None)
  }

  function Entered(s: State, pid: nat): State
    requires CanEnter(s, pid)
  {
    var next := AfterLock(s, s.procs[pid]);
    if next.Some? then s.(procs := s.procs[pid := next.value], lock := Some(pid)) else Ends(s, pid)
  }

  function Marked(s: State, pid: nat): State
    requires CanMark(s, pid)
  {
    var p := s.procs[pid];
    var next := AfterMark(s, p);
    s.(procs := if next.Some? then s.procs[pid := next.value] else s.procs - {pid}, lock := Released(s, pid),
       marker := if next.Some? then Reverted(s, p) else GivenUp(s, p))
  }

  function Confirmed(s: State, pid: nat): State
    requires CanConfirm(s, pid)
  {
    s.(procs := s.procs[pid := Accepting], marker := None, may := map[], verdicts := Judged(s, Kept))
  }

  function RollbackStarted(s: State, pid: nat): State
    requires CanStartRollback(s, pid)
  {
    s.(procs := (s.procs - {pid})[s.nextPid := Command(Some(s.procs[pid].snap))], nextPid := s.nextPid + 1,
       lock := Released(s, pid))
  }

  // The boot step: a change the marker names is undone from its archive.
  function Booted(s: State, image: Files): State {
    if s.marker.None? then s.(procs := map[], lock := None, files := image, may := map[])
    else
      var x := s.marker.value.snap;
      if Archived(s, x) then
        s.(procs := map[], lock := None, files := RestoreAll(image, s.snaps[x]), may := map[], staged := None,
           marker := None, kept := s.kept - {x}, verdicts := Judged(s, UndoneAtBoot))
      else
        s.(procs := map[], lock := None, files := image, may := map[], marker := None, verdicts := Judged(s, Abandoned))
  }

  function PasswordSet(s: State, pw: string): State
    requires CanSetPassword(s)
  {
    var was := if SecretsYaml in s.files then s.files[SecretsYaml].keys else map[];
    Puts(s, SecretsYaml, Some(Secrets(was[PASSWORD_KEY := pw])))
  }

  ghost function Next(s: State, a: Action): State
    requires Enabled(s, a)
  {
    match a
    case StartApply(job) => Started(s, job)
    case StartConfirm(token) => Spawn(s, Confirming(token))
    case StartWebRevert => Spawn(s, WebRevert)
    case StartCommand => Spawn(s, Command(None))
    case TakeSnapshot(pid) => Snapped(s, pid)
    case ClaimMarker(pid) => Claimed(s, pid)
    case CheckBase(pid) => Checked(s, pid)
    case DoAct(pid) => Acted(s, pid)
    case Fail(pid) => Failed(s, pid)
    case Arm(pid) => Armed(s, pid)
    case StartTimer(pid) => TimerStarted(s, pid)
    case Succeed(pid) => Succeeded(s, pid)
    case RestoreOne(pid, p) => RestoredOne(s, pid, p)
    case KeepOne(pid, p) => KeptOne(s, pid, p)
    case EndRestore(pid) => Restored(s, pid)
    case RemoveMarker(pid) => Removed(s, pid)
    case Accept(pid) => Accepted(s, pid)
    case LockAndRead(pid) => Entered(s, pid)
    case SetReverting(pid) => Marked(s, pid)
    case ConfirmRemove(pid) => Confirmed(s, pid)
    case StartRollback(pid) => RollbackStarted(s, pid)
    case Kill(pid) => Ends(s, pid)
    case PowerCycle(image) => Booted(s, image)
    case Edit(p, v) => Puts(s, p, v)
    case SetPassword(pw) => PasswordSet(s, pw)
  }

  // ---- runs ----

  // Each state follows from the one before by the action between them.
  ghost predicate Runs(states: seq<State>, actions: seq<Action>) {
    && |states| == |actions| + 1
    && forall i {:trigger actions[i]} :: 0 <= i < |actions| ==>
         Enabled(states[i], actions[i]) && states[i + 1] == Next(states[i], actions[i])
  }

  ghost predicate NoneActive(s: State) {
    forall pid :: pid in s.procs ==> !Active(s.procs[pid])
  }

  // An explicit rollback starts only while no other rollback of the change runs, and one that names a
  // snapshot only while the marker is that change's.
  ghost predicate Polite(s: State, a: Action) {
    a.LockAndRead? && Is(s, a.pid) && s.procs[a.pid].Command? ==>
      var name := s.procs[a.pid].name;
      if s.marker.None? then name.None?
      else
        || (s.marker.value.st == Applying && s.marker.value.pid in s.procs)
        || ((name.None? || name.value == s.marker.value.snap) && (s.marker.value.st == Reverting ==> NoneActive(s)))
  }

  // Pruning the history leaves the archive of the open change alone, and of a change that is claimed.
  ghost predicate KeepsArchive(s: State, a: Action)
    requires Enabled(s, a)
  {
    && (a.TakeSnapshot? && s.marker.Some? ==> s.marker.value.snap in Next(s, a).archives)
    && (a.ClaimMarker? && s.marker.None? ==> s.procs[a.pid].job.snap in s.archives)
  }
}
