/** What a power cut may leave of a change, and what the next boot makes of it.

    A change is a transaction: a snapshot and the pending marker reach the flash before its first
    write, and the removal of the marker, after a full sync, is its commit.  The lemmas here speak
    of operation lists; the router's methods are proved to issue such lists. */
module CrashSafety {
  import opened Wrappers
  import opened FlashStore
  import opened Snapshots

  // The change whose snapshot is `id`, taken when the flash was `base`.
  datatype Change = Change(id: nat, snap: Snapshot, base: Store)

  predicate Names(v: Option<Content>, id: nat) {
    v.Some? && v.value.Record? && v.value.marker.snapshot == id
  }

  // A marker the boot step acts on (an empty file, the first half of a claim, is not one).
  predicate Readable(v: Option<Content>) {
    v.Some? && v.value.Record?
  }

  // An operation of the change's owner between claim and commit.
  predicate Owned(ch: Change, op: Op) {
    op.Put? ==>
      && op.path != SnapshotFile(ch.id)
      && (op.path == Marker ==> Names(op.value, ch.id))
      && (Managed(op.path) ==> op.path in ch.snap.covered)
  }

  // The change is claimed and not settled: its marker and snapshot are on flash, and no file
  // outside the snapshot was touched.
  ghost predicate Open(ch: Change, s: Store) {
    && Sound(s)
    && WellFormed(ch.snap)
    && (forall v :: v in May(s, Marker) ==> Names(v, ch.id))
    && May(s, SnapshotFile(ch.id)) == {Some(Archive(ch.snap))}
    && (forall p :: Managed(p) && p !in ch.snap.covered ==> May(s, p) <= May(ch.base, p))
  }

  // A flash image the boot step rolls back.
  ghost predicate Recoverable(ch: Change, d: Files) {
    && WellFormed(ch.snap)
    && Names(At(d, Marker), ch.id)
    && At(d, SnapshotFile(ch.id)) == Some(Archive(ch.snap))
    && (forall p :: Managed(p) && p !in ch.snap.covered ==> At(d, p) in May(ch.base, p))
  }

  // No marker, and every managed file as a power cut before the change could have left it.
  ghost predicate Untouched(ch: Change, d: Files) {
    && !Readable(At(d, Marker))
    && (forall p :: Managed(p) ==> At(d, p) in May(ch.base, p))
  }

  // No marker, and every managed file exactly as in fin.
  ghost predicate Settled(d: Files, fin: Files) {
    && At(d, Marker) == None
    && (forall p :: Managed(p) ==> At(d, p) == At(fin, p))
  }

  // Every managed file as before the change: what the snapshot covers as saved there, the password
  // aside, and the rest as it was.
  ghost predicate RolledBack(ch: Change, d: Files) {
    forall p :: Managed(p) ==>
                  if p !in ch.snap.covered then At(d, p) in May(ch.base, p)
                  else if p == SecretsYaml then SameButPassword(At(d, p), SavedIn(ch.snap.entries, p))
                  else At(d, p) == SavedIn(ch.snap.entries, p)
  }

  // ---- the three parts of a change ----

  function ClaimOps(ch: Change, rec: MarkerRecord): seq<Op> {
    [Put(SnapshotFile(ch.id), Some(Archive(ch.snap))), SyncOne(SnapshotFile(ch.id)),
     Put(Marker, Some(Text(""))), Put(Marker, Some(Record(rec))), SyncOne(Marker)]
  }

  const SETTLE_OPS := [SyncAll, Put(Marker, None), SyncOne(Marker)]

  // Where a change may start: no marker, and no file of the new snapshot's name.
  ghost predicate Startable(ch: Change) {
    && Sound(ch.base)
    && WellFormed(ch.snap)
    && May(ch.base, Marker) == {None}
    && May(ch.base, SnapshotFile(ch.id)) == {None}
  }

  lemma ClaimOpens(ch: Change, rec: MarkerRecord)
    requires Startable(ch) && rec.snapshot == ch.id
    ensures Open(ch, Run(ch.base, ClaimOps(ch, rec)))
  {
    var ops := ClaimOps(ch, rec);
    UnrollClaim(ch, rec);
    RunSound(ch.base, ops);
    forall p | Managed(p)
      ensures May(Run(ch.base, ops), p) <= May(ch.base, p)
    {
      RunKeeps(ch.base, ops, p);
    }
  }

  lemma UnrollClaim(ch: Change, rec: MarkerRecord)
    ensures var b, ops := ch.base, ClaimOps(ch, rec);
            && Run(b, ops[..0]) == b
            && Run(b, ops[..1]) == Step(b, ops[0])
            && Run(b, ops[..2]) == Step(Run(b, ops[..1]), ops[1])
            && Run(b, ops[..3]) == Step(Run(b, ops[..2]), ops[2])
            && Run(b, ops[..4]) == Step(Run(b, ops[..3]), ops[3])
            && Run(b, ops) == Step(Run(b, ops[..4]), ops[4])
  {
    var b, ops := ch.base, ClaimOps(ch, rec);
    assert ops[..5] == ops;
    forall i | 0 < i <= 5
      ensures Run(b, ops[..i]) == Step(Run(b, ops[..i - 1]), ops[i - 1])
    {
      assert ops[..i][..i - 1] == ops[..i - 1];
    }
  }

  // A power cut while the change is being claimed: nothing is changed yet, or it is rolled back.
  lemma ClaimCut(ch: Change, rec: MarkerRecord, i: nat, d: Files)
    requires Startable(ch) && rec.snapshot == ch.id
    requires i <= |ClaimOps(ch, rec)|
    requires CrashImage(Run(ch.base, ClaimOps(ch, rec)[..i]), d)
    ensures Recoverable(ch, d) || Untouched(ch, d)
  {
    var s := Run(ch.base, ClaimOps(ch, rec)[..i]);
    ClaimMay(ch, rec, i);
    assert At(d, Marker) in May(s, Marker);
    assert At(d, SnapshotFile(ch.id)) in May(s, SnapshotFile(ch.id));
    ClaimTouchesNothing(ch, rec, i, d);
  }

  // What may be on flash while the change is being claimed: a marker that names it only behind its snapshot.
  lemma ClaimMay(ch: Change, rec: MarkerRecord, i: nat)
    requires Startable(ch) && i <= |ClaimOps(ch, rec)|
    ensures var s := Run(ch.base, ClaimOps(ch, rec)[..i]);
            && (forall v :: v in May(s, Marker) ==> v in {None, Some(Text("")), Some(Record(rec))})
            && (i < 4 ==> Some(Record(rec)) !in May(s, Marker))
            && (i >= 2 ==> May(s, SnapshotFile(ch.id)) == {Some(Archive(ch.snap))})
  {
    MarkerMay(ch, rec, i);
    if i >= 2 {
      SnapshotMay(ch, rec, i);
    }
  }

  lemma MarkerMay(ch: Change, rec: MarkerRecord, i: nat)
    requires Startable(ch) && i <= |ClaimOps(ch, rec)|
    ensures var may := May(Run(ch.base, ClaimOps(ch, rec)[..i]), Marker);
            may <= {None, Some(Text("")), Some(Record(rec))} && (i < 4 ==> Some(Record(rec)) !in may)
  {
    UnrollClaim(ch, rec);
    assert ClaimOps(ch, rec)[..5] == ClaimOps(ch, rec);
  }

  lemma {:induction false} SnapshotMay(ch: Change, rec: MarkerRecord, i: nat)
    requires Startable(ch) && 2 <= i <= |ClaimOps(ch, rec)|
    ensures May(Run(ch.base, ClaimOps(ch, rec)[..i]), SnapshotFile(ch.id)) == {Some(Archive(ch.snap))}
  {
    if i == 2 {
      UnrollClaim(ch, rec);
    } else {
      SnapshotMay(ch, rec, i - 1);
      var ops := ClaimOps(ch, rec);
      assert ops[..i][..i - 1] == ops[..i - 1];
      assert ops[i - 1] in {Put(Marker, Some(Text(""))), Put(Marker, Some(Record(rec))), SyncOne(Marker)};
    }
  }

  lemma ClaimTouchesNothing(ch: Change, rec: MarkerRecord, i: nat, d: Files)
    requires i <= |ClaimOps(ch, rec)| && CrashImage(Run(ch.base, ClaimOps(ch, rec)[..i]), d) && Sound(ch.base)
    ensures forall p :: Managed(p) ==> At(d, p) in May(ch.base, p)
  {
    var ops := ClaimOps(ch, rec);
    forall p | Managed(p)
      ensures At(d, p) in May(ch.base, p)
    {
      RunKeeps(ch.base, ops[..i], p);
      assert At(d, p) in May(Run(ch.base, ops[..i]), p);
    }
  }

  lemma {:induction false} OpenStays(ch: Change, s: Store, ops: seq<Op>)
    requires Open(ch, s)
    requires forall op :: op in ops ==> Owned(ch, op)
    ensures Open(ch, Run(s, ops))
  {
    if ops != [] {
      OpenStays(ch, s, ops[..|ops| - 1]);
      var r, op := Run(s, ops[..|ops| - 1]), ops[|ops| - 1];
      assert Owned(ch, op);
      RunSound(s, ops);
      forall p | Managed(p) && p !in ch.snap.covered
        ensures May(Step(r, op), p) <= May(ch.base, p)
      {
        assert At(r.live, p) in May(r, p);
      }
      assert At(r.live, Marker) in May(r, Marker);
      assert At(r.live, SnapshotFile(ch.id)) in May(r, SnapshotFile(ch.id));
    }
  }

  lemma OpenCut(ch: Change, s: Store, d: Files)
    requires Open(ch, s) && CrashImage(s, d)
    ensures Recoverable(ch, d)
  {
    assert At(d, Marker) in May(s, Marker);
    assert At(d, SnapshotFile(ch.id)) in May(s, SnapshotFile(ch.id));
    forall p | Managed(p) && p !in ch.snap.covered
      ensures At(d, p) in May(ch.base, p)
    {
      assert At(d, p) in May(s, p);
    }
  }

  lemma UnrollSettle(s: Store)
    ensures Run(s, SETTLE_OPS[..0]) == s
    ensures Run(s, SETTLE_OPS[..1]) == Step(s, SyncAll)
    ensures Run(s, SETTLE_OPS[..2]) == Step(Step(s, SyncAll), Put(Marker, None))
    ensures Run(s, SETTLE_OPS) == Store(PutFile(s.live, Marker, None), map[])
  {
    assert SETTLE_OPS[..3] == SETTLE_OPS;
    forall i | 0 < i <= 3
      ensures Run(s, SETTLE_OPS[..i]) == Step(Run(s, SETTLE_OPS[..i - 1]), SETTLE_OPS[i - 1])
    {
      assert SETTLE_OPS[..i][..i - 1] == SETTLE_OPS[..i - 1];
    }
    var s2 := Run(s, SETTLE_OPS[..2]);
    assert s2.may.Keys == {Marker};
    assert s2.may - {Marker} == map[];
  }

  // The commit: the marker never reaches the flash as gone while another file is in flight.
  lemma SettleCut(ch: Change, s: Store, i: nat, d: Files)
    requires Open(ch, s)
    requires i <= |SETTLE_OPS|
    requires CrashImage(Run(s, SETTLE_OPS[..i]), d)
    ensures Recoverable(ch, d) || Settled(d, s.live)
  {
    var r := Run(s, SETTLE_OPS[..i]);
    UnrollSettle(s);
    if i == 0 {
      OpenCut(ch, s, d);
    } else {
      assert SETTLE_OPS[..3] == SETTLE_OPS;
      assert At(d, Marker) in May(r, Marker);
      assert At(s.live, Marker) in May(s, Marker);
      forall p | p != Marker
        ensures At(d, p) == At(s.live, p)
      {
        SyncedImage(r, d, p);
      }
      assert At(s.live, SnapshotFile(ch.id)) in May(s, SnapshotFile(ch.id));
      forall p | Managed(p) && p !in ch.snap.covered
        ensures At(s.live, p) in May(ch.base, p)
      {
        assert At(s.live, p) in May(s, p);
      }
    }
  }

  // Bookkeeping after the commit: renames the accepted copies, never a managed file or the marker.
  predicate Aftermath(op: Op) {
    op.Put? ==> op.path != Marker && !Managed(op.path)
  }

  lemma {:induction false} AftermathKeeps(s: Store, fin: Files, ops: seq<Op>)
    requires Sound(s) && May(s, Marker) == {None}
    requires forall p :: Managed(p) ==> May(s, p) == {At(fin, p)}
    requires forall op :: op in ops ==> Aftermath(op)
    ensures var r := Run(s, ops);
            May(r, Marker) == {None} && forall p :: Managed(p) ==> May(r, p) == {At(fin, p)}
    decreases |ops|
  {
    if ops != [] {
      AftermathKeeps(s, fin, ops[..|ops| - 1]);
      RunSound(s, ops[..|ops| - 1]);
      var r, op := Run(s, ops[..|ops| - 1]), ops[|ops| - 1];
      assert Aftermath(op);
      forall p | Managed(p) || p == Marker
        ensures May(Step(r, op), p) == May(r, p)
      {
        assert At(r.live, p) in May(r, p);
      }
    }
  }

  function ChangeOps(ch: Change, rec: MarkerRecord, body: seq<Op>, after: seq<Op>): seq<Op> {
    ClaimOps(ch, rec) + body + SETTLE_OPS + after
  }

  ghost predicate Issues(ch: Change, rec: MarkerRecord, body: seq<Op>, after: seq<Op>) {
    && Startable(ch)
    && rec.snapshot == ch.id
    && (forall op :: op in body ==> Owned(ch, op))
    && (forall op :: op in after ==> Aftermath(op))
  }

  /** The power goes at any point of a change, from its snapshot to the bookkeeping after its commit:
      the flash then holds an untouched router, one the boot step rolls back, or exactly the
      committed files, and the last only once the marker is gone. */
  lemma PowerCut(ch: Change, rec: MarkerRecord, body: seq<Op>, after: seq<Op>, i: nat, d: Files)
    requires Issues(ch, rec, body, after)
    requires i <= |ChangeOps(ch, rec, body, after)|
    requires CrashImage(Run(ch.base, ChangeOps(ch, rec, body, after)[..i]), d)
    ensures || Recoverable(ch, d)
            || (i < |ClaimOps(ch, rec)| && Untouched(ch, d))
            || (i > |ClaimOps(ch, rec)| + |body| &&
                Settled(d, Run(ch.base, ClaimOps(ch, rec) + body).live))
  {
    var claim := ClaimOps(ch, rec);
    var ops := ChangeOps(ch, rec, body, after);
    var c, b := |claim|, |claim| + |body|;
    ClaimOpens(ch, rec);
    var claimed := Run(ch.base, claim);
    if i < c {
      assert ops[..i] == claim[..i];
      ClaimCut(ch, rec, i, d);
    } else if i <= b {
      assert ops[..i] == claim + body[..i - c];
      RunAppend(ch.base, claim, body[..i - c]);
      OpenStays(ch, claimed, body[..i - c]);
      OpenCut(ch, Run(ch.base, ops[..i]), d);
    } else {
      RunAppend(ch.base, claim, body);
      OpenStays(ch, claimed, body);
      var done := Run(ch.base, claim + body);
      if i <= b + 3 {
        assert ops[..i] == claim + body + SETTLE_OPS[..i - b];
        RunAppend(ch.base, claim + body, SETTLE_OPS[..i - b]);
        SettleCut(ch, done, i - b, d);
      } else {
        var tail := after[..i - b - 3];
        assert ops[..i] == claim + body + SETTLE_OPS + tail;
        RunAppend(ch.base, claim + body, SETTLE_OPS);
        RunAppend(ch.base, claim + body + SETTLE_OPS, tail);
        AftermathCut(ch, done, tail, d);
      }
    }
  }

  // A power cut during the bookkeeping after the commit.
  lemma AftermathCut(ch: Change, done: Store, tail: seq<Op>, d: Files)
    requires Open(ch, done) && forall op :: op in tail ==> Aftermath(op)
    requires CrashImage(Run(Run(done, SETTLE_OPS), tail), d)
    ensures Settled(d, done.live)
  {
    var r := Run(Run(done, SETTLE_OPS), tail);
    UnrollSettle(done);
    RunSound(done, SETTLE_OPS);
    AftermathKeeps(Run(done, SETTLE_OPS), done.live, tail);
    assert At(d, Marker) in May(r, Marker);
    forall p | Managed(p)
      ensures At(d, p) == At(done.live, p)
    {
      assert At(d, p) in May(r, p);
    }
  }

  // ---- the boot step (rollbackAtBoot) ----

  // The live config files a rollback is about to replace are kept beside them.
  function KeepRejectedOps(f: Files, snap: Snapshot): seq<Op> {
    RejectedOp(f, snap, RouterYaml, "router.yaml") + RejectedOp(f, snap, SecretsYaml, "secrets.yaml")
  }

  function RejectedOp(f: Files, snap: Snapshot, p: Path, name: string): seq<Op> {
    if SavedIn(snap.entries, p).Some? && p in f && At(f, p) != SavedIn(snap.entries, p)
    then [Put(Rejected(name), At(f, p))]
    else []
  }

  const DROP_STAGED_OPS := [Put(StagedYaml, None), Put(StagedSecrets, None)]

  function BootOps(d: Files): seq<Op> {
    if !Readable(At(d, Marker)) then
      if Marker in d then [Put(MarkerAside, At(d, Marker)), Put(Marker, None)] else []
    else
      var archive := At(d, SnapshotFile(d[Marker].marker.snapshot));
      if archive.Some? && archive.value.Archive? then
        KeepRejectedOps(d, archive.value.snap) + RestoreOps(d, archive.value.snap)
        + DROP_STAGED_OPS + SETTLE_OPS
      else [Put(MarkerAside, At(d, Marker)), Put(Marker, None)]
  }

  function BootBody(d: Files, snap: Snapshot): seq<Op> {
    KeepRejectedOps(d, snap) + RestoreOps(d, snap) + DROP_STAGED_OPS
  }

  lemma BootOpens(ch: Change, d: Files)
    requires Recoverable(ch, d)
    ensures Open(ch, Boots(d))
    ensures forall op :: op in BootBody(d, ch.snap) ==> Owned(ch, op)
    ensures BootOps(d) == BootBody(d, ch.snap) + SETTLE_OPS
  {
    RestoreTouches(d, ch.snap);
    forall op | op in BootBody(d, ch.snap)
      ensures Owned(ch, op)
    {
      if op in RestoreOps(d, ch.snap) {
        assert Managed(op.path);
      }
    }
  }

  lemma RejectedKeep(d: Files, snap: Snapshot, p: Path)
    requires Managed(p)
    ensures At(Run(Boots(d), KeepRejectedOps(d, snap)).live, p) == At(d, p)
  {
    RunKeeps(Boots(d), KeepRejectedOps(d, snap), p);
  }

  lemma BootBodyEffect(ch: Change, d: Files, p: Path)
    requires WellFormed(ch.snap) && Managed(p)
    ensures At(Run(Boots(d), BootBody(d, ch.snap)).live, p) == PutBackAt(d, ch.snap, p)
  {
    var s := Boots(d);
    var rej, res := KeepRejectedOps(d, ch.snap), RestoreOps(d, ch.snap);
    RunAppend(s, rej + res, DROP_STAGED_OPS);
    RunAppend(s, rej, res);
    var s1, s2 := Run(s, rej), Run(s, rej + res);
    RejectedKeep(d, ch.snap, p);
    RejectedKeep(d, ch.snap, SecretsYaml);
    RestoreFromSame(s1, d, ch.snap, p);
    RunKeeps(s2, DROP_STAGED_OPS, p);
  }

  lemma PutBackIsRollback(ch: Change, d: Files, after: Files)
    requires Recoverable(ch, d)
    requires forall p :: Managed(p) ==> At(after, p) == PutBackAt(d, ch.snap, p)
    ensures RolledBack(ch, after)
  {
    forall p | Managed(p) && p in ch.snap.covered
      ensures if p == SecretsYaml then SameButPassword(At(after, p), SavedIn(ch.snap.entries, p))
              else At(after, p) == SavedIn(ch.snap.entries, p)
    {
      var c := SavedIn(ch.snap.entries, p);
      if p == SecretsYaml && c.Some? {
        KeepPasswordRest(c.value, At(d, p));
      }
    }
  }

  lemma KeepPasswordRest(c: Content, live: Option<Content>)
    ensures SameButPassword(Some(KeepPassword(c, live)), Some(c))
  {
    if c.Secrets? {
      assert KeepPassword(c, live).keys - {PASSWORD_KEY} == c.keys - {PASSWORD_KEY};
    }
  }

  lemma BootRestores(ch: Change, d: Files)
    requires Recoverable(ch, d)
    ensures RolledBack(ch, Run(Boots(d), BootBody(d, ch.snap)).live)
  {
    forall p | Managed(p)
      ensures At(Run(Boots(d), BootBody(d, ch.snap)).live, p) == PutBackAt(d, ch.snap, p)
    {
      BootBodyEffect(ch, d, p);
    }
    PutBackIsRollback(ch, d, Run(Boots(d), BootBody(d, ch.snap)).live);
  }

  // The restore writes the archived secrets.yaml with the current password in it, or leaves the file alone.
  predicate KeepsPassword(snap: Snapshot) {
    SecretsYaml in snap.covered ==>
      var saved := SavedIn(snap.entries, SecretsYaml); saved.Some? && saved.value.Secrets?
  }

  /** When the web password on flash at the start of a boot rollback is the one after it: exactly when
      the snapshot does not list secrets.yaml, or holds one that is a map of strings. */
  lemma PasswordSurvives(ch: Change, d: Files)
    requires Recoverable(ch, d)
    requires HasPassword(At(d, SecretsYaml))
    ensures var after := At(Run(Boots(d), BootOps(d)).live, SecretsYaml);
            (HasPassword(after) && after.value.keys[PASSWORD_KEY] == d[SecretsYaml].keys[PASSWORD_KEY])
            <==> KeepsPassword(ch.snap)
  {
    BootLeaves(ch, d, SecretsYaml);
  }

  /** A password first set while the change was open is erased: there was no secrets.yaml to save, so
      the restore removes the file. */
  lemma FirstPasswordIsErased(ch: Change, d: Files)
    requires Recoverable(ch, d)
    requires SecretsYaml in ch.snap.covered && SavedIn(ch.snap.entries, SecretsYaml) == None
    ensures At(Run(Boots(d), BootOps(d)).live, SecretsYaml) == None
  {
    BootLeaves(ch, d, SecretsYaml);
  }

  // What a whole boot leaves at p.
  lemma BootLeaves(ch: Change, d: Files, p: Path)
    requires Recoverable(ch, d) && Managed(p)
    ensures At(Run(Boots(d), BootOps(d)).live, p) == PutBackAt(d, ch.snap, p)
  {
    BootBodyEffect(ch, d, p);
    BootOpens(ch, d);
    RunAppend(Boots(d), BootBody(d, ch.snap), SETTLE_OPS);
    UnrollSettle(Run(Boots(d), BootBody(d, ch.snap)));
  }

  // A restore only looks at the live secrets.yaml.
  lemma RestoreFromSame(s: Store, d: Files, snap: Snapshot, p: Path)
    requires WellFormed(snap) && Managed(p)
    requires At(s.live, SecretsYaml) == At(d, SecretsYaml) && At(s.live, p) == At(d, p)
    ensures At(Run(s, RestoreOps(d, snap)).live, p) == PutBackAt(d, snap, p)
  {
    EntryOpsSame(s.live, d, snap.entries);
    RestoreEffect(s, snap, p);
  }

  lemma {:induction false} EntryOpsSame(f: Files, g: Files, es: seq<Entry>)
    requires At(f, SecretsYaml) == At(g, SecretsYaml)
    ensures EntryOps(f, es) == EntryOps(g, es)
    decreases |es|
  {
    if es != [] {
      EntryOpsSame(PutFile(f, es[0].path, EntryOp(f, es[0]).value), PutFile(g, es[0].path, EntryOp(g, es[0]).value),
                   es[1..]);
    }
  }

  // One boot of a recoverable image, the power going again after i of its operations.
  lemma BootCut(ch: Change, d: Files, i: nat, d': Files)
    requires Recoverable(ch, d)
    requires i <= |BootOps(d)|
    requires CrashImage(Run(Boots(d), BootOps(d)[..i]), d')
    ensures Recoverable(ch, d') || (At(d', Marker) == None && RolledBack(ch, d'))
  {
    var s, body := Boots(d), BootBody(d, ch.snap);
    BootOpens(ch, d);
    if i <= |body| {
      assert BootOps(d)[..i] == body[..i];
      OpenStays(ch, s, body[..i]);
      OpenCut(ch, Run(s, body[..i]), d');
    } else {
      assert BootOps(d)[..i] == body + SETTLE_OPS[..i - |body|];
      OpenStays(ch, s, body);
      RunAppend(s, body, SETTLE_OPS[..i - |body|]);
      SettleCut(ch, Run(s, body), i - |body|, d');
      BootRestores(ch, d);
    }
  }

  lemma BootCompletes(ch: Change, d: Files)
    requires Recoverable(ch, d)
    ensures var r := Run(Boots(d), BootOps(d));
            r.may == map[] && At(r.live, Marker) == None && RolledBack(ch, r.live)
  {
    var s, body := Boots(d), BootBody(d, ch.snap);
    BootOpens(ch, d);
    RunAppend(s, body, SETTLE_OPS);
    UnrollSettle(Run(s, body));
    BootRestores(ch, d);
    forall p | Managed(p)
      ensures At(Run(s, BootOps(d)).live, p) == At(Run(s, body).live, p)
    {
    }
  }

  // A boot that is cut short leads from one image to another.
  ghost predicate CutShort(d: Files, d': Files) {
    exists i :: 0 <= i <= |BootOps(d)| && CrashImage(Run(Boots(d), BootOps(d)[..i]), d')
  }

  // ds[0] is found at boot; every boot but the last is cut short, leaving the next image.
  ghost predicate BootChain(ds: seq<Files>) {
    && ds != []
    && forall k {:trigger ds[k]} :: 0 <= k < |ds| - 1 ==> CutShort(ds[k], ds[k + 1])
  }

  ghost predicate RolledBackForGood(ch: Change, d: Files) {
    At(d, Marker) == None && RolledBack(ch, d)
  }

  lemma SettledBoot(ch: Change, d: Files, d': Files)
    requires RolledBackForGood(ch, d) && CutShort(d, d')
    ensures RolledBackForGood(ch, d')
  {
    var i :| 0 <= i <= |BootOps(d)| && CrashImage(Run(Boots(d), BootOps(d)[..i]), d');
    assert BootOps(d) == [] && BootOps(d)[..i] == [];
    ImageOfBoot(d, d');
  }

  lemma RecoverableBoot(ch: Change, d: Files, d': Files)
    requires Recoverable(ch, d) && CutShort(d, d')
    ensures Recoverable(ch, d') || RolledBackForGood(ch, d')
  {
    var i :| 0 <= i <= |BootOps(d)| && CrashImage(Run(Boots(d), BootOps(d)[..i]), d');
    BootCut(ch, d, i, d');
  }

  ghost predicate BeingRolledBack(ch: Change, d: Files) {
    Recoverable(ch, d) || RolledBackForGood(ch, d)
  }

  lemma CutBoot(ch: Change, d: Files, d': Files)
    requires BeingRolledBack(ch, d) && CutShort(d, d')
    ensures BeingRolledBack(ch, d')
  {
    if Recoverable(ch, d) {
      RecoverableBoot(ch, d, d');
    } else {
      SettledBoot(ch, d, d');
    }
  }

  // What every link of a chain keeps, the chain keeps.
  lemma {:induction false} AlongChain(ds: seq<Files>, link: (Files, Files) -> bool, keeps: Files -> bool, k: nat)
    requires k < |ds| && keeps(ds[0])
    requires forall i {:trigger ds[i]} :: 0 <= i < |ds| - 1 ==> link(ds[i], ds[i + 1])
    requires forall d, d' :: keeps(d) && link(d, d') ==> keeps(d')
    ensures keeps(ds[k])
  {
    if k > 0 {
      AlongChain(ds, link, keeps, k - 1);
      assert link(ds[k - 1], ds[k]);
    }
  }

  lemma CutBoots(ch: Change, ds: seq<Files>, k: nat)
    requires BootChain(ds) && BeingRolledBack(ch, ds[0]) && k < |ds|
    ensures BeingRolledBack(ch, ds[k])
  {
    var link := (d: Files, d': Files) => CutShort(d, d');
    var keeps := (d: Files) => BeingRolledBack(ch, d);
    forall d, d' | keeps(d) && link(d, d')
      ensures keeps(d')
    {
      CutBoot(ch, d, d');
    }
    AlongChain(ds, link, keeps, k);
  }

  lemma ImageOfBoot(d: Files, d': Files)
    requires CrashImage(Boots(d), d')
    ensures forall p :: At(d', p) == At(d, p)
  {
    forall p
      ensures At(d', p) == At(d, p)
    {
      assert At(d', p) in May(Boots(d), p);
    }
  }

  /** Crash safety: the power goes during a change, and then again during any number of boots; the
      boot that completes leaves every managed file exactly as the change left it when the marker was
      gone from flash, and otherwise as before the change, with no marker either way. */
  lemma CrashSafe(ch: Change, rec: MarkerRecord, body: seq<Op>, after: seq<Op>, i: nat, ds: seq<Files>)
    requires Issues(ch, rec, body, after)
    requires i <= |ChangeOps(ch, rec, body, after)|
    requires BootChain(ds)
    requires CrashImage(Run(ch.base, ChangeOps(ch, rec, body, after)[..i]), ds[0])
    ensures var last := ds[|ds| - 1];
            var r := Run(Boots(last), BootOps(last));
            && At(r.live, Marker) == None
            && if Readable(At(ds[0], Marker)) then RolledBack(ch, r.live)
               else if i > |ClaimOps(ch, rec)| + |body|
               then Settled(r.live, Run(ch.base, ClaimOps(ch, rec) + body).live)
               else Untouched(ch, r.live)
  {
    var last := ds[|ds| - 1];
    PowerCut(ch, rec, body, after, i, ds[0]);
    if Readable(At(ds[0], Marker)) {
      CutBoots(ch, ds, |ds| - 1);
      if Recoverable(ch, last) {
        BootCompletes(ch, last);
      }
    } else {
      UnmarkedBoots(ds, |ds| - 1);
      UnmarkedBootRun(last, |BootOps(last)|);
      assert BootOps(last)[..|BootOps(last)|] == BootOps(last);
    }
  }

  // With no readable marker a boot sets an unreadable one aside and changes nothing else.
  lemma UnmarkedBootRun(d: Files, i: nat)
    requires !Readable(At(d, Marker)) && i <= |BootOps(d)|
    ensures var r := Run(Boots(d), BootOps(d)[..i]);
            && (forall p :: Managed(p) ==> At(r.live, p) == At(d, p) && May(r, p) == {At(d, p)})
            && (forall v :: v in May(r, Marker) ==> !Readable(v))
            && (i == |BootOps(d)| ==> At(r.live, Marker) == None)
  {
    var s, ops := Boots(d), BootOps(d);
    assert Run(s, []) == s;
    if i > 0 {
      assert ops[..i][..i - 1] == ops[..i - 1];
      if i > 1 {
        assert ops[..1][..0] == [];
        assert ops[..i - 1] == ops[..1];
      } else {
        assert ops[..i - 1] == [];
      }
    } else {
      assert ops[..i] == [];
    }
  }

  ghost predicate UnmarkedSame(d: Files, d': Files) {
    !Readable(At(d', Marker)) && forall p :: Managed(p) ==> At(d', p) == At(d, p)
  }

  lemma UnmarkedBoots(ds: seq<Files>, k: nat)
    requires BootChain(ds) && !Readable(At(ds[0], Marker)) && k < |ds|
    ensures UnmarkedSame(ds[0], ds[k])
  {
    var link := (d: Files, d': Files) => CutShort(d, d');
    var keeps := (d: Files) => UnmarkedSame(ds[0], d);
    forall d, d' | keeps(d) && link(d, d')
      ensures keeps(d')
    {
      UnmarkedBoot(d, d');
    }
    AlongChain(ds, link, keeps, k);
  }

  lemma UnmarkedBoot(d: Files, d': Files)
    requires !Readable(At(d, Marker)) && CutShort(d, d')
    ensures !Readable(At(d', Marker)) && forall p :: Managed(p) ==> At(d', p) == At(d, p)
  {
    var i :| 0 <= i <= |BootOps(d)| && CrashImage(Run(Boots(d), BootOps(d)[..i]), d');
    UnmarkedBootRun(d, i);
    var r := Run(Boots(d), BootOps(d)[..i]);
    assert At(d', Marker) in May(r, Marker);
    forall p | Managed(p)
      ensures At(d', p) == At(d, p)
    {
      assert At(d', p) in May(r, p);
    }
  }
}
