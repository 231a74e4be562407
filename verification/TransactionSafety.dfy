/** What the methods of the router and the crash lemmas add up to: whatever becomes of an apply, and
    wherever the power goes, the router comes back with the files of before or with those of the change. */
module TransactionSafety {
  import opened Wrappers
  import opened FlashStore
  import opened Snapshots
  import opened CrashSafety
  import opened ApplyTransaction

  // Every managed file is on flash as it is.
  ghost predicate AtRest(s: Store) {
    forall p :: Managed(p) ==> May(s, p) == {At(s.live, p)}
  }

  // The web password aside.
  ghost predicate AsBefore(f: Files, candidate: bool, d: Files) {
    forall p :: Managed(p) ==>
      if p == SecretsYaml then SameButPassword(At(d, p), Before(f, candidate, p))
      else At(d, p) == Before(f, candidate, p)
  }

  ghost predicate SameManaged(f: Files, g: Files) {
    forall p :: Managed(p) ==> At(f, p) == At(g, p)
  }

  // The router after the last of the boots.
  function Finally(ds: seq<Files>): Files
    requires ds != []
  {
    var last := ds[|ds| - 1];
    Run(Boots(last), BootOps(last)).live
  }

  lemma RolledBackIsBefore(ch: Change, candidate: bool, d: Files)
    requires AtRest(ch.base) && SavesBefore(ch, ch.base.live, candidate) && RolledBack(ch, d)
    ensures AsBefore(ch.base.live, candidate, d)
  {
    forall p | Managed(p)
      ensures if p == SecretsYaml then SameButPassword(At(d, p), Before(ch.base.live, candidate, p))
              else At(d, p) == Before(ch.base.live, candidate, p)
    {
      if p in ch.snap.covered {
        assert SavedIn(ch.snap.entries, p) == Before(ch.base.live, candidate, p);
      } else {
        assert At(d, p) in May(ch.base, p);
      }
    }
  }

  lemma UntouchedIsSame(ch: Change, d: Files)
    requires AtRest(ch.base) && Untouched(ch, d)
    ensures SameManaged(d, ch.base.live)
  {
    forall p | Managed(p)
      ensures At(d, p) == At(ch.base.live, p)
    {
      assert At(d, p) in May(ch.base, p);
    }
  }

  lemma SettlingKeepsFiles(s: Store, after: seq<Op>)
    requires forall op :: op in after ==> Aftermath(op)
    ensures SameManaged(Run(Run(s, SETTLE_OPS), after).live, s.live)
  {
    UnrollSettle(s);
    forall p | Managed(p)
      ensures At(Run(Run(s, SETTLE_OPS), after).live, p) == At(s.live, p)
    {
      assert forall k :: 0 <= k < |after| ==> after[k] in after;
      RunKeeps(Run(s, SETTLE_OPS), after, p);
    }
  }

  // The file operations of a change are those of its claim and body.
  lemma ChangeFiles(ch: Change, body: seq<Op>, after: seq<Op>)
    requires forall op :: op in after ==> Aftermath(op)
    ensures SameManaged(Run(ch.base, ChangeOps(ch, Claimed(ch), body, after)).live,
                        Run(ch.base, ClaimOps(ch, Claimed(ch)) + body).live)
  {
    ChangeRun(ch, Claimed(ch), body, after);
    RunAppend(ch.base, ClaimOps(ch, Claimed(ch)), body);
    SettlingKeepsFiles(Run(ch.base, ClaimOps(ch, Claimed(ch)) + body), after);
  }

  /** Crash safety of a whole apply, whatever its outcome: the power goes after any of its operations,
      and then during any number of boots.  In the end the router has the files the apply left when its
      marker was off the flash by then, those of before when it was not, and nothing in between; there
      is no marker either way. */
  lemma ApplySurvivesPowerCuts(ch: Change, disk: Store, body: seq<Op>, after: seq<Op>, candidate: bool, i: nat,
                               ds: seq<Files>)
    requires Ran(ch, disk, body, after) && AtRest(ch.base) && SavesBefore(ch, ch.base.live, candidate)
    requires i <= |ChangeOps(ch, Claimed(ch), body, after)| && BootChain(ds)
    requires CrashImage(Run(ch.base, ChangeOps(ch, Claimed(ch), body, after)[..i]), ds[0])
    ensures At(Finally(ds), Marker) == None
    ensures if Readable(At(ds[0], Marker)) then AsBefore(ch.base.live, candidate, Finally(ds))
            else if i > |ClaimOps(ch, Claimed(ch))| + |body| then SameManaged(Finally(ds), disk.live)
            else SameManaged(Finally(ds), ch.base.live)
  {
    CrashSafe(ch, Claimed(ch), body, after, i, ds);
    if Readable(At(ds[0], Marker)) {
      RolledBackIsBefore(ch, candidate, Finally(ds));
    } else if i > |ClaimOps(ch, Claimed(ch))| + |body| {
      ChangeFiles(ch, body, after);
    } else {
      UntouchedIsSame(ch, Finally(ds));
    }
  }

  /** An accepted apply of a candidate: after any power cuts the router runs the change as accepted, or
      what it ran before, the web password aside. */
  lemma AcceptedIsAllOrNothing(ch: Change, disk: Store, body: seq<Op>, after: seq<Op>, r: Rendering,
                               cand: Option<Candidate>, stuck: set<Path>, i: nat, ds: seq<Files>)
    requires Accepted(ch, disk, body, after, r, cand, stuck) && ValidRendering(r) && cand.Some?
    requires AtRest(ch.base) && SavesBefore(ch, ch.base.live, true)
    requires i <= |ChangeOps(ch, Claimed(ch), body, after)| && BootChain(ds)
    requires CrashImage(Run(ch.base, ChangeOps(ch, Claimed(ch), body, after)[..i]), ds[0])
    ensures InPlace(ch.base.live, Finally(ds), r, cand, stuck) || AsBefore(ch.base.live, true, Finally(ds))
  {
    ApplySurvivesPowerCuts(ch, disk, body, after, true, i, ds);
    if SameManaged(Finally(ds), disk.live) {
      InPlaceSame(ch.base.live, disk.live, Finally(ds), r, cand, stuck);
    }
  }

  /** A change that is under way, waiting for confirmation or left by a killed apply, is one change with
      whatever settles it: a confirm, its timer or an explicit rollback adds operations its owner may
      issue, and then the marker goes.  So the crash lemmas hold from its snapshot to the end of its
      settling. */
  lemma UnderwaySettlesAsOneChange(ch: Change, disk: Store, body: seq<Op>, more: seq<Op>, after: seq<Op>)
    requires Underway(ch, disk, body) && AllOwned(ch, more)
    requires forall op :: op in after ==> Aftermath(op)
    ensures Open(ch, disk) && Issues(ch, Claimed(ch), body + more, after)
    ensures Run(Run(Run(disk, more), SETTLE_OPS), after) == Run(ch.base, ChangeOps(ch, Claimed(ch), body + more, after))
  {
    var claim := ClaimOps(ch, Claimed(ch));
    ClaimOpens(ch, Claimed(ch));
    OpenStays(ch, Run(ch.base, claim), body);
    RunAppend(ch.base, claim, body);
    RunAppend(Run(ch.base, claim), body, more);
    ChangeRun(ch, Claimed(ch), body + more, after);
  }

  /** Confirming: the power goes after any of the operations of the change and of its confirmation; in
      the end the change is live as it waited, or it is as before. */
  lemma ConfirmSurvivesPowerCuts(ch: Change, disk: Store, body: seq<Op>, r: Rendering, cand: Option<Candidate>,
                                 stuck: set<Path>, after: seq<Op>, candidate: bool, i: nat, ds: seq<Files>)
    requires Awaiting(ch, disk, body, r, cand, stuck) && forall op :: op in after ==> Aftermath(op)
    requires AtRest(ch.base) && SavesBefore(ch, ch.base.live, candidate)
    requires i <= |ChangeOps(ch, Claimed(ch), body, after)| && BootChain(ds)
    requires CrashImage(Run(ch.base, ChangeOps(ch, Claimed(ch), body, after)[..i]), ds[0])
    ensures At(Finally(ds), Marker) == None
    ensures || SameManaged(Finally(ds), disk.live)
            || AsBefore(ch.base.live, candidate, Finally(ds))
            || SameManaged(Finally(ds), ch.base.live)
  {
    UnderwaySettlesAsOneChange(ch, disk, body, [], after);
    assert body + [] == body && Run(disk, []) == disk;
    SettlingKeepsFiles(disk, after);
    CrashSafe(ch, Claimed(ch), body, after, i, ds);
    if Readable(At(ds[0], Marker)) {
      RolledBackIsBefore(ch, candidate, Finally(ds));
    } else if i <= |ClaimOps(ch, Claimed(ch))| + |body| {
      UntouchedIsSame(ch, Finally(ds));
    }
  }

  /** Undoing a change that waits for confirmation, or that a killed apply has left half done: whichever
      rollback runs (Unwound), and wherever the power goes on the way, in the end no marker is left and
      the files are those of before or those the rollback left. */
  lemma RollbackSurvivesPowerCuts(ch: Change, disk: Store, body: seq<Op>, done: Store, more: seq<Op>, kept: set<Path>,
                                  candidate: bool, i: nat, ds: seq<Files>)
    requires Underway(ch, disk, body) && Unwound(ch, disk, done, more, kept)
    requires AtRest(ch.base) && SavesBefore(ch, ch.base.live, candidate)
    requires i <= |ChangeOps(ch, Claimed(ch), body + more, [])| && BootChain(ds)
    requires CrashImage(Run(ch.base, ChangeOps(ch, Claimed(ch), body + more, [])[..i]), ds[0])
    ensures At(Finally(ds), Marker) == None
    ensures || SameManaged(Finally(ds), done.live)
            || AsBefore(ch.base.live, candidate, Finally(ds))
            || SameManaged(Finally(ds), ch.base.live)
  {
    UnderwaySettlesAsOneChange(ch, disk, body, more, []);
    RunAppend(disk, more, SETTLE_OPS);
    assert Run(done, []) == done;
    assert Ran(ch, done, body + more, []);
    ApplySurvivesPowerCuts(ch, done, body + more, [], candidate, i, ds);
  }
}
