/** What comes of waiting for the lock, over every run: a change that asks for confirmation is kept by a
    confirm only, by one from a session or with the change's own token; and who gets the lock acts exactly
    when the marker entitles it to. */
module LockOutcomes {
  import opened Wrappers
  import opened FlashStore
  import opened Snapshots
  import opened CrashSafety
  import opened SettleProtocol
  import opened SettleSafety
  import opened SettleHistory
  import opened UndoneChanges
  import opened HistoryPruning

  // ---- what a step does to processes other than its own ----

  function Actor(a: Action): Option<nat> {
    match a
    case StartApply(_) => None
    case StartConfirm(_) => None
    case StartWebRevert => None
    case StartCommand => None
    case PowerCycle(_) => None
    case Edit(_, _) => None
    case SetPassword(_) => None
    case _ => Some(a.pid)
  }

  // Other processes are as they were; those that are new have new numbers.
  ghost predicate OthersStay(s: State, t: State, a: Action) {
    && s.nextPid <= t.nextPid
    && forall q :: q in t.procs && q < s.nextPid && Actor(a) != Some(q) ==> q in s.procs && t.procs[q] == s.procs[q]
  }

  lemma OthersStep(s: State, a: Action)
    requires Enabled(s, a)
    ensures OthersStay(s, Next(s, a), a)
  {
    if ByHolder(a) {
      HolderTurns(s, a);
      PidsOfHolder(s, a);
    } else if Quiet(a) {
      OthersOfQuiet(s, a);
    } else if a.SetReverting? || a.ConfirmRemove? {
      LockedTurns(s, a);
      PidsOfLocked(s, a);
    } else {
      OthersAside(s, a);
    }
  }

  lemma PidsOfHolder(s: State, a: Action)
    requires Enabled(s, a) && ByHolder(a)
    ensures Next(s, a).nextPid == s.nextPid
  {
    match a
    case CheckBase(pid) => assert Checked(s, pid).nextPid == s.nextPid;
    case DoAct(pid) => assert Acted(s, pid).nextPid == s.nextPid;
    case Fail(pid) => assert Failed(s, pid).nextPid == s.nextPid;
    case Arm(pid) => assert Armed(s, pid).nextPid == s.nextPid;
    case Succeed(pid) => assert Succeeded(s, pid).nextPid == s.nextPid;
    case RestoreOne(pid, p) => assert RestoredOne(s, pid, p).nextPid == s.nextPid;
    case KeepOne(pid, p) => assert KeptOne(s, pid, p).nextPid == s.nextPid;
    case EndRestore(pid) => assert Restored(s, pid).nextPid == s.nextPid;
    case RemoveMarker(pid) => assert Removed(s, pid).nextPid == s.nextPid;
  }

  lemma PidsOfLocked(s: State, a: Action)
    requires Enabled(s, a) && (a.SetReverting? || a.ConfirmRemove?)
    ensures Next(s, a).nextPid == s.nextPid
  {
    match a
    case SetReverting(pid) => assert Marked(s, pid).nextPid == s.nextPid;
    case ConfirmRemove(pid) => assert Confirmed(s, pid).nextPid == s.nextPid;
  }

  lemma OthersOfQuiet(s: State, a: Action)
    requires Enabled(s, a) && Quiet(a)
    ensures OthersStay(s, Next(s, a), a)
  {
    match a
    case StartConfirm(token) => assert OthersStay(s, Spawn(s, Confirming(token)), a);
    case StartWebRevert => assert OthersStay(s, Spawn(s, WebRevert), a);
    case StartCommand => assert OthersStay(s, Spawn(s, Command(None)), a);
    case StartTimer(pid) => assert OthersStay(s, TimerStarted(s, pid), a);
    case StartRollback(pid) => assert OthersStay(s, RollbackStarted(s, pid), a);
    case _ => OthersOfWaiter(s, a);
  }

  lemma OthersOfWaiter(s: State, a: Action)
    requires Enabled(s, a) && (a.Accept? || a.Kill? || a.LockAndRead?)
    ensures OthersStay(s, Next(s, a), a)
  {
    match a
    case Accept(pid) => assert OthersStay(s, Accepted(s, pid), a);
    case Kill(pid) => assert OthersStay(s, Ends(s, pid), a);
    case LockAndRead(pid) => EnteredOthers(s, pid);
  }

  lemma EnteredOthers(s: State, pid: nat)
    requires CanEnter(s, pid)
    ensures OthersStay(s, Entered(s, pid), LockAndRead(pid))
  {
  }

  lemma OthersAside(s: State, a: Action)
    requires Enabled(s, a)
    requires a.StartApply? || a.TakeSnapshot? || a.ClaimMarker? || a.PowerCycle? || a.Edit? || a.SetPassword?
    ensures OthersStay(s, Next(s, a), a)
  {
    if a.StartApply? || a.TakeSnapshot? || a.ClaimMarker? {
      OthersOfClaimer(s, a);
    } else {
      OthersAtRest(s, a);
    }
  }

  lemma OthersOfClaimer(s: State, a: Action)
    requires Enabled(s, a) && (a.StartApply? || a.TakeSnapshot? || a.ClaimMarker?)
    ensures OthersStay(s, Next(s, a), a)
  {
    match a
    case StartApply(job) => assert OthersStay(s, Started(s, job), a);
    case TakeSnapshot(pid) => assert OthersStay(s, Snapped(s, pid), a);
    case ClaimMarker(pid) => ClaimedOthers(s, pid);
  }

  lemma OthersAtRest(s: State, a: Action)
    requires Enabled(s, a) && (a.PowerCycle? || a.Edit? || a.SetPassword?)
    ensures OthersStay(s, Next(s, a), a)
  {
    match a
    case PowerCycle(image) => assert Booted(s, image).procs == map[] && Booted(s, image).nextPid == s.nextPid;
    case Edit(p, v) => assert OthersStay(s, Puts(s, p, v), a);
    case SetPassword(pw) => assert OthersStay(s, PasswordSet(s, pw), a);
  }

  lemma ClaimedOthers(s: State, pid: nat)
    requires CanClaim(s, pid)
    ensures OthersStay(s, Claimed(s, pid), ClaimMarker(pid))
  {
  }

  // ---- the token of the open change ----

  // The marker of a pending change holds the token its apply was given.
  ghost predicate TokenOk(s: State) {
    s.marker.Some? && s.marker.value.st == Pending ==>
      s.marker.value.snap in s.claims && s.marker.value.token == s.claims[s.marker.value.snap].job.token
  }

  lemma TokenStep(s: State, a: Action)
    requires Inv(s) && TokenOk(s) && Enabled(s, a)
    ensures TokenOk(Next(s, a))
  {
    if s.marker.Some? && s.marker.value.snap in s.claims {
      ClaimStep(s, a, s.marker.value.snap);
    }
    if LeavesMarker(a) {
      MarkerStays(s, a);
    } else if a.Arm? {
      ArmedToken(s, a.pid);
      assert Next(s, a) == Armed(s, a.pid);
    } else if a.ClaimMarker? {
      MarkerClaimed(s, a.pid);
      assert Next(s, a) == Claimed(s, a.pid);
    } else if a.SetReverting? {
      MarkerReverts(s, a.pid);
      assert Next(s, a) == Marked(s, a.pid);
    } else {
      MarkerClears(s, a);
    }
  }

  lemma ArmedToken(s: State, pid: nat)
    requires Inv(s) && CanArm(s, pid)
    ensures TokenOk(Armed(s, pid))
  {
    HolderAt(s, pid);
  }

  lemma {:induction false} TokenRun(states: seq<State>, actions: seq<Action>, n: nat)
    requires Behaviour(states, actions) && n <= |actions|
    ensures TokenOk(states[n])
  {
    if n > 0 {
      TokenRun(states, actions, n - 1);
      TokenNext(states, actions, n - 1);
    }
  }

  lemma TokenNext(states: seq<State>, actions: seq<Action>, n: nat)
    requires Behaviour(states, actions) && n < |actions| && TokenOk(states[n])
    ensures TokenOk(states[n + 1])
  {
    var a := actions[n];
    InvRun(states, actions, n);
    TokenStep(states[n], a);
  }

  // ---- confirms ----

  // The process is a confirm with this token, or was one; in the critical section it has read that token.
  predicate ConfirmerWith(s: State, pid: nat, token: Option<nat>) {
    pid < s.nextPid &&
    (pid in s.procs ==>
       || s.procs[pid] == Confirming(token)
       || (s.procs[pid].ConfirmLocked? && s.procs[pid].read.st == Pending
           && (token.None? || s.procs[pid].read.token == token))
       || s.procs[pid] == Accepting)
  }

  lemma ConfirmerStep(s: State, a: Action, pid: nat, token: Option<nat>)
    requires Enabled(s, a) && ConfirmerWith(s, pid, token)
    ensures ConfirmerWith(Next(s, a), pid, token)
  {
    OthersStep(s, a);
    if Actor(a) == Some(pid) {
      ConfirmerActs(s, a, pid, token);
    }
  }

  lemma ConfirmerActs(s: State, a: Action, pid: nat, token: Option<nat>)
    requires Enabled(s, a) && ConfirmerWith(s, pid, token) && Actor(a) == Some(pid)
    ensures ConfirmerWith(Next(s, a), pid, token)
  {
    if a.LockAndRead? {
      ConfirmerEnters(s, pid, token);
      assert Next(s, a) == Entered(s, pid);
    } else if a.ConfirmRemove? {
      assert Next(s, a) == Confirmed(s, pid);
    } else if a.Accept? {
      assert Next(s, a) == Accepted(s, pid);
    } else {
      ConfirmerHolds(s, a, pid, token);
      assert Next(s, a) == Ends(s, pid);
    }
  }

  lemma ConfirmerEnters(s: State, pid: nat, token: Option<nat>)
    requires CanEnter(s, pid) && ConfirmerWith(s, pid, token)
    ensures ConfirmerWith(Entered(s, pid), pid, token)
  {
  }

  // A confirm takes part in nothing else.
  lemma ConfirmerHolds(s: State, a: Action, pid: nat, token: Option<nat>)
    requires Enabled(s, a) && ConfirmerWith(s, pid, token) && Actor(a) == Some(pid)
    ensures a.LockAndRead? || a.ConfirmRemove? || a.Accept? || a.Kill?
  {
  }

  // Step j starts the confirm that is process pid.
  predicate StartsConfirm(states: seq<State>, actions: seq<Action>, j: nat, pid: nat, token: Option<nat>)
    requires j < |actions| < |states|
  {
    actions[j] == StartConfirm(token) && states[j].nextPid == pid
  }

  lemma {:induction false} ConfirmerRun(states: seq<State>, actions: seq<Action>, j: nat, n: nat, pid: nat,
                                        token: Option<nat>)
    requires Behaviour(states, actions) && j < n <= |actions| && StartsConfirm(states, actions, j, pid, token)
    ensures ConfirmerWith(states[n], pid, token)
    decreases n
  {
    if n == j + 1 {
      var a := actions[j];
      assert states[n] == Spawn(states[j], Confirming(token));
    } else {
      ConfirmerRun(states, actions, j, n - 1, pid, token);
      ConfirmerNext(states, actions, n - 1, pid, token);
    }
  }

  lemma ConfirmerNext(states: seq<State>, actions: seq<Action>, n: nat, pid: nat, token: Option<nat>)
    requires Behaviour(states, actions) && n < |actions| && ConfirmerWith(states[n], pid, token)
    ensures ConfirmerWith(states[n + 1], pid, token)
  {
    var a := actions[n];
    ConfirmerStep(states[n], a, pid, token);
  }

  // ---- every confirm was started ----

  predicate Confirms(s: State, pid: nat) {
    pid in s.procs && (s.procs[pid].Confirming? || s.procs[pid].ConfirmLocked?)
  }

  // A new confirm is the one a step starts.
  lemma NewConfirm(s: State, a: Action, pid: nat)
    requires Exclusion(s) && Enabled(s, a) && Confirms(Next(s, a), pid) && !Confirms(s, pid)
    ensures a.StartConfirm? && pid == s.nextPid
  {
    OthersStep(s, a);
    if Actor(a) == Some(pid) {
      NotByItself(s, a, pid);
    } else {
      NotBySpawn(s, a, pid);
    }
  }

  lemma NotByItself(s: State, a: Action, pid: nat)
    requires Enabled(s, a) && Actor(a) == Some(pid) && !Confirms(s, pid)
    ensures !Confirms(Next(s, a), pid)
  {
    if ByHolder(a) {
      HolderIsNoConfirm(s, a);
    } else if a.SetReverting? || a.ConfirmRemove? {
      LockedIsNoConfirm(s, a);
    } else {
      OtherIsNoConfirm(s, a, pid);
    }
  }

  lemma HolderIsNoConfirm(s: State, a: Action)
    requires Enabled(s, a) && ByHolder(a)
    ensures !Confirms(Next(s, a), a.pid)
  {
    match a
    case CheckBase(pid) => assert !Confirms(Checked(s, pid), pid);
    case DoAct(pid) => assert !Confirms(Acted(s, pid), pid);
    case Fail(pid) => assert !Confirms(Failed(s, pid), pid);
    case Arm(pid) => assert !Confirms(Armed(s, pid), pid);
    case Succeed(pid) => assert !Confirms(Succeeded(s, pid), pid);
    case RestoreOne(pid, p) => assert !Confirms(RestoredOne(s, pid, p), pid);
    case KeepOne(pid, p) => assert !Confirms(KeptOne(s, pid, p), pid);
    case EndRestore(pid) => assert !Confirms(Restored(s, pid), pid);
    case RemoveMarker(pid) => assert !Confirms(Removed(s, pid), pid);
  }

  lemma LockedIsNoConfirm(s: State, a: Action)
    requires Enabled(s, a) && (a.SetReverting? || a.ConfirmRemove?)
    ensures !Confirms(Next(s, a), a.pid)
  {
    match a
    case SetReverting(pid) => assert !Confirms(Marked(s, pid), pid);
    case ConfirmRemove(pid) => assert !Confirms(Confirmed(s, pid), pid);
  }

  lemma OtherIsNoConfirm(s: State, a: Action, pid: nat)
    requires Enabled(s, a) && Actor(a) == Some(pid) && !Confirms(s, pid)
    requires !ByHolder(a) && !a.SetReverting? && !a.ConfirmRemove?
    ensures !Confirms(Next(s, a), pid)
  {
    match a
    case TakeSnapshot(_) => assert !Confirms(Snapped(s, pid), pid);
    case ClaimMarker(_) => assert !Confirms(Claimed(s, pid), pid);
    case StartTimer(_) =>
      assert TimerStarted(s, pid).procs == (s.procs - {pid})[s.nextPid := Timer(s.procs[pid].snap)];
    case Accept(_) => assert !Confirms(Accepted(s, pid), pid);
    case LockAndRead(_) => EntersNoConfirm(s, pid);
    case StartRollback(_) =>
      assert RollbackStarted(s, pid).procs == (s.procs - {pid})[s.nextPid := Command(Some(s.procs[pid].snap))];
    case Kill(_) => assert !Confirms(Ends(s, pid), pid);
  }

  lemma EntersNoConfirm(s: State, pid: nat)
    requires CanEnter(s, pid) && !s.procs[pid].Confirming?
    ensures !Confirms(Entered(s, pid), pid)
  {
  }

  lemma NotBySpawn(s: State, a: Action, pid: nat)
    requires Exclusion(s) && Enabled(s, a) && Actor(a) != Some(pid) && pid >= s.nextPid && Confirms(Next(s, a), pid)
    ensures a.StartConfirm? && pid == s.nextPid
  {
    if ByHolder(a) {
      HolderTurns(s, a);
    } else if a.SetReverting? || a.ConfirmRemove? {
      LockedTurns(s, a);
    } else if Quiet(a) {
      QuietSpawns(s, a, pid);
    } else {
      OtherSpawns(s, a, pid);
    }
  }

  lemma QuietSpawns(s: State, a: Action, pid: nat)
    requires Exclusion(s) && Enabled(s, a) && Quiet(a) && Actor(a) != Some(pid) && pid >= s.nextPid
    ensures Confirms(Next(s, a), pid) ==> a.StartConfirm? && pid == s.nextPid
  {
    match a
    case Accept(q) => assert pid !in Accepted(s, q).procs;
    case Kill(q) => assert pid !in Ends(s, q).procs;
    case LockAndRead(q) => assert pid !in Entered(s, q).procs;
    case _ => StartSpawns(s, a, pid);
  }

  lemma StartSpawns(s: State, a: Action, pid: nat)
    requires Exclusion(s) && Enabled(s, a) && pid >= s.nextPid
    requires a.StartConfirm? || a.StartWebRevert? || a.StartCommand? || a.StartTimer? || a.StartRollback?
    ensures Confirms(Next(s, a), pid) ==> a.StartConfirm? && pid == s.nextPid
  {
    match a
    case StartConfirm(token) => assert Spawn(s, Confirming(token)).procs == s.procs[s.nextPid := Confirming(token)];
    case StartWebRevert => assert Spawn(s, WebRevert).procs == s.procs[s.nextPid := WebRevert];
    case StartCommand => assert Spawn(s, Command(None)).procs == s.procs[s.nextPid := Command(None)];
    case StartTimer(q) => assert TimerStarted(s, q).procs == (s.procs - {q})[s.nextPid := Timer(s.procs[q].snap)];
    case StartRollback(q) =>
      assert RollbackStarted(s, q).procs == (s.procs - {q})[s.nextPid := Command(Some(s.procs[q].snap))];
  }

  lemma OtherSpawns(s: State, a: Action, pid: nat)
    requires Exclusion(s) && Enabled(s, a) && Actor(a) != Some(pid) && pid >= s.nextPid
    requires a.StartApply? || a.TakeSnapshot? || a.ClaimMarker? || a.PowerCycle? || a.Edit? || a.SetPassword?
    ensures !Confirms(Next(s, a), pid)
  {
    if a.StartApply? || a.TakeSnapshot? || a.ClaimMarker? {
      ClaimerSpawns(s, a, pid);
    } else {
      NoneSpawns(s, a, pid);
    }
  }

  lemma ClaimerSpawns(s: State, a: Action, pid: nat)
    requires Exclusion(s) && Enabled(s, a) && Actor(a) != Some(pid) && pid >= s.nextPid
    requires a.StartApply? || a.TakeSnapshot? || a.ClaimMarker?
    ensures !Confirms(Next(s, a), pid)
  {
    match a
    case StartApply(job) => assert Started(s, job).procs == s.procs[s.nextPid := Planning(job)];
    case TakeSnapshot(q) => assert Snapped(s, q).procs == s.procs[q := Claiming(s.procs[q].job)];
    case ClaimMarker(q) => assert pid !in Claimed(s, q).procs;
  }

  lemma NoneSpawns(s: State, a: Action, pid: nat)
    requires Exclusion(s) && Enabled(s, a) && pid >= s.nextPid && (a.PowerCycle? || a.Edit? || a.SetPassword?)
    ensures !Confirms(Next(s, a), pid)
  {
    match a
    case PowerCycle(image) => assert Booted(s, image).procs == map[];
    case Edit(p, v) => assert Puts(s, p, v).procs == s.procs;
    case SetPassword(pw) => assert PasswordSet(s, pw).procs == s.procs;
  }

  lemma {:induction false} ConfirmWasStarted(states: seq<State>, actions: seq<Action>, n: nat, pid: nat)
    returns (j: nat, token: Option<nat>)
    requires Behaviour(states, actions) && n <= |actions| && Confirms(states[n], pid)
    ensures j < n && StartsConfirm(states, actions, j, pid, token)
    decreases n
  {
    var a := actions[n - 1];
    InvRun(states, actions, n - 1);
    if Confirms(states[n - 1], pid) {
      j, token := ConfirmWasStarted(states, actions, n - 1, pid);
    } else {
      NewConfirm(states[n - 1], a, pid);
      j, token := n - 1, a.token;
    }
  }

  // ---- the laws ----

  /** Tokens, over every run: a confirm that keeps a change was started by a session, or with the token
      that the change was applied with. So a change without a token is kept by a session's confirm only. */
  lemma ConfirmedByItsToken(states: seq<State>, actions: seq<Action>, n: nat, pid: nat)
    returns (j: nat, token: Option<nat>)
    requires Behaviour(states, actions) && n < |actions| && actions[n] == ConfirmRemove(pid)
    ensures j < n && StartsConfirm(states, actions, j, pid, token)
    ensures states[n].marker.Some? && states[n].marker.value.snap in states[n].claims
    ensures token.Some? ==> states[n].claims[states[n].marker.value.snap].job.token == token
    ensures states[n + 1].verdicts == states[n].verdicts[states[n].marker.value.snap := Kept]
  {
    var s := states[n];
    assert Confirms(s, pid);
    j, token := ConfirmWasStarted(states, actions, n, pid);
    ConfirmerRun(states, actions, j, n, pid, token);
    TokenRun(states, actions, n);
    InvRun(states, actions, n);
    ConfirmsMarker(s, pid);
  }

  lemma ConfirmsMarker(s: State, pid: nat)
    requires Inv(s) && CanConfirm(s, pid)
    ensures s.marker == Some(s.procs[pid].read) && s.marker.value.st == Pending && s.marker.value.snap in s.claims
    ensures Confirmed(s, pid).verdicts == s.verdicts[s.marker.value.snap := Kept]
  {
    HolderOwns(s, pid);
  }

  /** And any confirm that gets the lock goes on exactly if a change is pending, and its token, if it has
      one, is that change's; otherwise it ends and nothing else happens. */
  lemma ConfirmGoesOnIff(states: seq<State>, actions: seq<Action>, j: nat, n: nat, pid: nat, token: Option<nat>)
    requires Behaviour(states, actions) && j < n < |actions| && StartsConfirm(states, actions, j, pid, token)
    requires actions[n] == LockAndRead(pid)
    ensures var m := states[n].marker;
            if m.Some? && m.value.st == Pending && m.value.snap in states[n].claims
               && (token.None? || states[n].claims[m.value.snap].job.token == token)
            then pid in states[n + 1].procs && CanConfirm(states[n + 1], pid)
            else states[n + 1] == states[n].(procs := states[n].procs - {pid})
  {
    var a := actions[n];
    ConfirmerRun(states, actions, j, n, pid, token);
    TokenRun(states, actions, n);
    assert CanEnter(states[n], pid) && states[n + 1] == Entered(states[n], pid);
    ConfirmEntered(states[n], pid, token);
  }

  lemma ConfirmEntered(s: State, pid: nat, token: Option<nat>)
    requires CanEnter(s, pid) && s.procs[pid] == Confirming(token) && TokenOk(s)
    ensures if s.marker.Some? && s.marker.value.st == Pending && s.marker.value.snap in s.claims
               && (token.None? || s.claims[s.marker.value.snap].job.token == token)
            then pid in Entered(s, pid).procs && CanConfirm(Entered(s, pid), pid)
            else Entered(s, pid) == s.(procs := s.procs - {pid})
  {
  }

  // ---- a change that asks for confirmation ----

  // Only a change that does not ask for confirmation is about to be kept by its applier.
  ghost predicate UnaskedKept(s: State) {
    forall pid :: KeepsNext(s, pid) ==> KeepsUnasked(s, pid)
  }

  // The process is about to remove the marker of a change it keeps.
  predicate KeepsNext(s: State, pid: nat) {
    pid in s.procs && s.procs[pid].Clearing? && s.procs[pid].verdict == Kept
  }

  lemma UnaskedStep(s: State, a: Action)
    requires Inv(s) && UnaskedKept(s) && Enabled(s, a)
    ensures UnaskedKept(Next(s, a))
  {
    forall pid | KeepsNext(Next(s, a), pid)
      ensures KeepsUnasked(Next(s, a), pid)
    {
      UnaskedFor(s, a, pid);
    }
  }

  predicate KeepsUnasked(s: State, pid: nat) {
    KeepsNext(s, pid) && s.procs[pid].snap in s.claims && !s.claims[s.procs[pid].snap].job.confirm
  }

  lemma UnaskedFor(s: State, a: Action, pid: nat)
    requires Inv(s) && UnaskedKept(s) && Enabled(s, a) && KeepsNext(Next(s, a), pid)
    ensures KeepsUnasked(Next(s, a), pid)
  {
    if KeepsNext(s, pid) && s.procs[pid] == Next(s, a).procs[pid] {
      ClaimStep(s, a, s.procs[pid].snap);
    } else {
      NewKeeper(s, a, pid);
      SucceededUnasked(s, pid);
    }
  }

  lemma SucceededUnasked(s: State, pid: nat)
    requires Inv(s) && CanSucceed(s, pid)
    ensures KeepsUnasked(Succeeded(s, pid), pid)
  {
    HolderAt(s, pid);
  }

  // Who is about to keep a change has just written all of it, without asking.
  lemma NewKeeper(s: State, a: Action, pid: nat)
    requires Exclusion(s) && Enabled(s, a) && KeepsNext(Next(s, a), pid)
    requires !(KeepsNext(s, pid) && s.procs[pid] == Next(s, a).procs[pid])
    ensures a == Succeed(pid) && CanSucceed(s, pid) && Next(s, a) == Succeeded(s, pid)
  {
    if ByHolder(a) {
      HolderTurns(s, a);
      NewKeeperHolds(s, a);
    } else if Quiet(a) {
      QuietKeepers(s, a);
    } else if a.SetReverting? || a.ConfirmRemove? {
      LockedTurns(s, a);
      LockedKeepsNone(s, a);
    } else {
      OtherKeepers(s, a);
    }
  }

  lemma QuietKeepers(s: State, a: Action)
    requires Enabled(s, a) && Quiet(a)
    ensures forall pid :: KeepsNext(Next(s, a), pid) ==> KeepsNext(s, pid) && s.procs[pid] == Next(s, a).procs[pid]
  {
    match a
    case StartConfirm(token) => SpawnIsBystander(s, Confirming(token));
    case StartWebRevert => SpawnIsBystander(s, WebRevert);
    case StartCommand => SpawnIsBystander(s, Command(None));
    case Accept(pid) => AcceptIsBystander(s, pid);
    case Kill(pid) => EndIsBystander(s, pid);
    case LockAndRead(pid) => LockingIsBystander(s, pid);
    case StartTimer(pid) => TimerIsBystander(s, pid);
    case StartRollback(pid) => RollbackIsBystander(s, pid);
  }

  lemma NewKeeperHolds(s: State, a: Action)
    requires Enabled(s, a) && ByHolder(a) && KeepsNext(Next(s, a), a.pid)
    ensures a.Succeed? && Next(s, a) == Succeeded(s, a.pid)
  {
  }

  lemma LockedKeepsNone(s: State, a: Action)
    requires Enabled(s, a) && (a.SetReverting? || a.ConfirmRemove?)
    ensures !KeepsNext(Next(s, a), a.pid)
  {
    match a
    case SetReverting(pid) => assert !KeepsNext(Marked(s, pid), pid);
    case ConfirmRemove(pid) => assert !KeepsNext(Confirmed(s, pid), pid);
  }

  lemma OtherKeepers(s: State, a: Action)
    requires Enabled(s, a)
    requires a.StartApply? || a.TakeSnapshot? || a.ClaimMarker? || a.PowerCycle? || a.Edit? || a.SetPassword?
    ensures forall pid :: KeepsNext(Next(s, a), pid) ==> KeepsNext(s, pid) && s.procs[pid] == Next(s, a).procs[pid]
  {
    if a.StartApply? || a.TakeSnapshot? || a.ClaimMarker? {
      ClaimerKeepers(s, a);
    } else {
      KeepersAtRest(s, a);
    }
  }

  lemma ClaimerKeepers(s: State, a: Action)
    requires Enabled(s, a) && (a.StartApply? || a.TakeSnapshot? || a.ClaimMarker?)
    ensures forall pid :: KeepsNext(Next(s, a), pid) ==> KeepsNext(s, pid) && s.procs[pid] == Next(s, a).procs[pid]
  {
    match a
    case StartApply(job) => assert Started(s, job).procs == s.procs[s.nextPid := Planning(job)];
    case TakeSnapshot(q) => assert Snapped(s, q).procs == s.procs[q := Claiming(s.procs[q].job)];
    case ClaimMarker(q) => ClaimerKeepsNone(s, q);
  }

  lemma KeepersAtRest(s: State, a: Action)
    requires Enabled(s, a) && (a.PowerCycle? || a.Edit? || a.SetPassword?)
    ensures forall pid :: KeepsNext(Next(s, a), pid) ==> KeepsNext(s, pid) && s.procs[pid] == Next(s, a).procs[pid]
  {
    match a
    case PowerCycle(image) => assert Booted(s, image).procs == map[];
    case Edit(p, v) => assert Puts(s, p, v).procs == s.procs;
    case SetPassword(pw) => assert PasswordSet(s, pw).procs == s.procs;
  }

  lemma ClaimerKeepsNone(s: State, pid: nat)
    requires CanClaim(s, pid)
    ensures forall q :: KeepsNext(Claimed(s, pid), q) ==> KeepsNext(s, q) && s.procs[q] == Claimed(s, pid).procs[q]
  {
  }

  lemma {:induction false} UnaskedRun(states: seq<State>, actions: seq<Action>, n: nat)
    requires Behaviour(states, actions) && n <= |actions|
    ensures UnaskedKept(states[n])
  {
    if n > 0 {
      UnaskedRun(states, actions, n - 1);
      UnaskedNext(states, actions, n - 1);
    }
  }

  lemma UnaskedNext(states: seq<State>, actions: seq<Action>, n: nat)
    requires Behaviour(states, actions) && n < |actions| && UnaskedKept(states[n])
    ensures UnaskedKept(states[n + 1])
  {
    var a := actions[n];
    InvRun(states, actions, n);
    UnaskedStep(states[n], a);
  }

  /** Over every run, a change that asks for confirmation is kept by a confirm only. */
  lemma AskedIsConfirmed(states: seq<State>, actions: seq<Action>, n: nat, x: nat)
    requires Behaviour(states, actions) && n < |actions|
    requires x !in states[n].verdicts && x in states[n + 1].verdicts && states[n + 1].verdicts[x] == Kept
    requires x in states[n].claims && states[n].claims[x].job.confirm
    ensures actions[n].ConfirmRemove?
  {
    var a := actions[n];
    InvRun(states, actions, n);
    UnaskedRun(states, actions, n);
    KeepingStep(states[n], a, x);
  }

  lemma KeepingStep(s: State, a: Action, x: nat)
    requires Inv(s) && UnaskedKept(s) && Enabled(s, a) && x in s.claims && s.claims[x].job.confirm
    requires x !in s.verdicts
    ensures x in Next(s, a).verdicts && Next(s, a).verdicts[x] == Kept ==> a.ConfirmRemove?
  {
    if a.RemoveMarker? {
      RemovalKeepsNone(s, a.pid, x);
    } else if a.PowerCycle? {
      BootKeepsNone(s, a.image, x);
    } else if !a.ConfirmRemove? {
      VerdictsStay(s, a);
    }
  }

  lemma RemovalKeepsNone(s: State, pid: nat, x: nat)
    requires Inv(s) && UnaskedKept(s) && CanRemove(s, pid)
    requires x in s.claims && s.claims[x].job.confirm && x !in s.verdicts
    ensures var v := Removed(s, pid).verdicts; x in v ==> v[x] != Kept
  {
    HolderOwns(s, pid);
    assert KeepsNext(s, pid) ==> KeepsUnasked(s, pid);
  }

  lemma BootKeepsNone(s: State, image: Files, x: nat)
    requires x !in s.verdicts
    ensures var v := Booted(s, image).verdicts; x in v ==> v[x] != Kept
  {
  }

  lemma VerdictsStay(s: State, a: Action)
    requires Enabled(s, a) && !a.RemoveMarker? && !a.PowerCycle? && !a.ConfirmRemove?
    ensures Next(s, a).verdicts == s.verdicts
  {
    if ByHolder(a) {
      VerdictsOfHolder(s, a);
    } else if Quiet(a) {
      VerdictsOfQuiet(s, a);
    } else {
      VerdictsOfOther(s, a);
    }
  }

  lemma VerdictsOfHolder(s: State, a: Action)
    requires Enabled(s, a) && ByHolder(a) && !a.RemoveMarker?
    ensures Next(s, a).verdicts == s.verdicts
  {
    match a
    case CheckBase(pid) => assert Checked(s, pid).verdicts == s.verdicts;
    case DoAct(pid) => assert Acted(s, pid).verdicts == s.verdicts;
    case Fail(pid) => assert Failed(s, pid).verdicts == s.verdicts;
    case Arm(pid) => assert Armed(s, pid).verdicts == s.verdicts;
    case Succeed(pid) => assert Succeeded(s, pid).verdicts == s.verdicts;
    case RestoreOne(pid, p) => assert RestoredOne(s, pid, p).verdicts == s.verdicts;
    case KeepOne(pid, p) => assert KeptOne(s, pid, p).verdicts == s.verdicts;
    case EndRestore(pid) => assert Restored(s, pid).verdicts == s.verdicts;
  }

  lemma VerdictsOfQuiet(s: State, a: Action)
    requires Enabled(s, a) && Quiet(a)
    ensures Next(s, a).verdicts == s.verdicts
  {
    match a
    case Accept(pid) => AcceptIsBystander(s, pid);
    case Kill(pid) => EndIsBystander(s, pid);
    case LockAndRead(pid) => LockingIsBystander(s, pid);
    case StartTimer(pid) => TimerIsBystander(s, pid);
    case StartRollback(pid) => RollbackIsBystander(s, pid);
    case _ =>
  }

  lemma VerdictsOfOther(s: State, a: Action)
    requires Enabled(s, a)
    requires a.StartApply? || a.TakeSnapshot? || a.ClaimMarker? || a.SetReverting? || a.Edit? || a.SetPassword?
    ensures Next(s, a).verdicts == s.verdicts
  {
    match a
    case StartApply(job) => assert Started(s, job).verdicts == s.verdicts;
    case TakeSnapshot(q) => assert Snapped(s, q).verdicts == s.verdicts;
    case ClaimMarker(q) => assert Claimed(s, q).verdicts == s.verdicts;
    case SetReverting(q) => assert Marked(s, q).verdicts == s.verdicts;
    case Edit(p, v) => assert Puts(s, p, v).verdicts == s.verdicts;
    case SetPassword(pw) => assert PasswordSet(s, pw).verdicts == s.verdicts;
  }

  // ---- timers and rollbacks ----

  // The process restores all the snapshot x covers, under a marker that says so.
  predicate RollsBackAll(s: State, pid: nat, x: nat) {
    && pid in s.procs && x in s.snaps && Restores(s.procs[pid])
    && s.procs[pid].snap == x && s.procs[pid].todo == CoveredSet(s.snaps[x])
    && s.marker.Some? && s.marker.value.snap == x && s.marker.value.st == Reverting
  }

  /** A timer that gets the lock goes on exactly if its own change is pending, and then rolls all of it
      back; otherwise it ends and nothing else happens. */
  lemma TimerActsIff(s: State, pid: nat)
    requires Inv(s) && CanEnter(s, pid) && s.procs[pid].Timer?
    ensures var x, t := s.procs[pid].snap, Entered(s, pid);
            if s.marker.Some? && s.marker.value.snap == x && s.marker.value.st == Pending
            then CanMark(t, pid) && RollsBackAll(Marked(t, pid), pid, x)
            else t == s.(procs := s.procs - {pid})
  {
    if s.marker.Some? {
      OpenArchived(s);
    }
    TimerEntered(s, pid);
  }

  lemma TimerEntered(s: State, pid: nat)
    requires CanEnter(s, pid) && s.procs[pid].Timer?
    requires s.marker.Some? ==> Archived(s, s.marker.value.snap)
    ensures var x, t := s.procs[pid].snap, Entered(s, pid);
            if s.marker.Some? && s.marker.value.snap == x && s.marker.value.st == Pending
            then CanMark(t, pid) && RollsBackAll(Marked(t, pid), pid, x)
            else t == s.(procs := s.procs - {pid})
  {
  }

  /** A web revert that gets the lock goes on exactly if a change is pending, marks it, and starts the
      rollback that names it. */
  lemma WebRevertActsIff(s: State, pid: nat)
    requires CanEnter(s, pid) && s.procs[pid].WebRevert?
    ensures var t := Entered(s, pid);
            if s.marker.Some? && s.marker.value.st == Pending
            then CanMark(t, pid) && Marked(t, pid).procs == s.procs[pid := WebSpawning(s.marker.value.snap)]
                 && Marked(t, pid).marker == Some(s.marker.value.(st := Reverting))
            else t == s.(procs := s.procs - {pid})
  {
    if s.marker.Some? && s.marker.value.st == Pending {
      var t := Entered(s, pid);
      assert t == s.(procs := s.procs[pid := WebRevertLocked(s.marker.value)], lock := Some(pid));
      WebRevertMarks(t, pid);
      assert t.procs[pid := WebSpawning(s.marker.value.snap)] == s.procs[pid := WebSpawning(s.marker.value.snap)];
    }
  }

  lemma WebRevertMarks(t: State, pid: nat)
    requires CanMark(t, pid) && t.procs[pid].WebRevertLocked? && t.procs[pid].read.st == Pending
    ensures var m := t.procs[pid].read;
            && Marked(t, pid).procs == t.procs[pid := WebSpawning(m.snap)]
            && Marked(t, pid).marker == Some(m.(st := Reverting))
  {
  }

  /** A console `mr rollback` that gets the lock goes on exactly if there is a marker but not of an apply that
      still runs, and then rolls all of that change back. */
  lemma CommandActsIff(s: State, pid: nat)
    requires Inv(s) && CanEnter(s, pid) && s.procs[pid] == Command(None)
    ensures var t := Entered(s, pid);
            if s.marker.Some? && (s.marker.value.st == Applying ==> s.marker.value.pid !in s.procs)
            then CanMark(t, pid) && RollsBackAll(Marked(t, pid), pid, s.marker.value.snap)
            else t == s.(procs := s.procs - {pid})
  {
    if s.marker.Some? {
      OpenArchived(s);
    }
    CommandEntered(s, pid);
  }

  lemma CommandEntered(s: State, pid: nat)
    requires CanEnter(s, pid) && s.procs[pid] == Command(None)
    requires s.marker.Some? ==> Archived(s, s.marker.value.snap)
    ensures var t := Entered(s, pid);
            if s.marker.Some? && (s.marker.value.st == Applying ==> s.marker.value.pid !in s.procs)
            then CanMark(t, pid) && RollsBackAll(Marked(t, pid), pid, s.marker.value.snap)
            else t == s.(procs := s.procs - {pid})
  {
  }
}
