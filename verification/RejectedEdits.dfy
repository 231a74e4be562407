/** The live config files a rollback replaces: they stay beside it as *.rejected, also over boots that are
    cut short; and when a second boot replaces a kept secrets.yaml by the restored one. */
module RejectedEdits {
  import opened Wrappers
  import opened FlashStore
  import opened Snapshots
  import opened CrashSafety

  // A config file that the snapshot holds otherwise is kept beside it, as it was; else nothing is put there.
  ghost predicate EditKept(before: Files, after: Files, snap: Snapshot, p: Path, name: string) {
    var saved := SavedIn(snap.entries, p);
    At(after, Rejected(name)) ==
    if saved.Some? && At(before, p).Some? && At(before, p) != saved then At(before, p) else At(before, Rejected(name))
  }

  ghost predicate EditsKept(before: Files, after: Files, snap: Snapshot) {
    && EditKept(before, after, snap, RouterYaml, "router.yaml")
    && EditKept(before, after, snap, SecretsYaml, "secrets.yaml")
  }

  // The config files, and what they are called beside.
  predicate ConfigFile(p: Path, name: string) {
    (p == RouterYaml && name == "router.yaml") || (p == SecretsYaml && name == "secrets.yaml")
  }

  // ---- one rollback ----

  lemma OneKept(s: Store, snap: Snapshot, p: Path, name: string)
    requires !p.Rejected?
    ensures var t := Run(s, RejectedOp(s.live, snap, p, name)); EditKept(s.live, t.live, snap, p, name)
    ensures var t := Run(s, RejectedOp(s.live, snap, p, name));
            forall q: Path :: q != Rejected(name) ==> At(t.live, q) == At(s.live, q)
  {
    var ops := RejectedOp(s.live, snap, p, name);
    if ops != [] {
      RunOne(s, ops[0]);
    }
  }

  lemma BothKept(s: Store, snap: Snapshot)
    ensures EditsKept(s.live, Run(s, KeepRejectedOps(s.live, snap)).live, snap)
  {
    var a := RejectedOp(s.live, snap, RouterYaml, "router.yaml");
    var b := RejectedOp(s.live, snap, SecretsYaml, "secrets.yaml");
    OneKept(s, snap, RouterYaml, "router.yaml");
    var t := Run(s, a);
    assert b == RejectedOp(t.live, snap, SecretsYaml, "secrets.yaml");
    OneKept(t, snap, SecretsYaml, "secrets.yaml");
    RunAppend(s, a, b);
  }

  lemma KeptAlike(before: Files, f: Files, g: Files, snap: Snapshot)
    requires EditsKept(before, f, snap) && forall p: Path :: p.Rejected? ==> At(g, p) == At(f, p)
    ensures EditsKept(before, g, snap)
  {
  }

  // Operations that put nothing beside the config files leave what is kept there.
  lemma StaysKept(before: Files, s: Store, ops: seq<Op>, snap: Snapshot)
    requires EditsKept(before, s.live, snap)
    requires forall op :: op in ops && op.Put? ==> !op.path.Rejected?
    ensures EditsKept(before, Run(s, ops).live, snap)
  {
    assert forall i :: 0 <= i < |ops| ==> ops[i] in ops;
    RunKeeps(s, ops, Rejected("router.yaml"));
    RunKeeps(s, ops, Rejected("secrets.yaml"));
  }

  /** A boot that completes keeps the config files it replaces. */
  lemma BootKeepsEdits(ch: Change, d: Files)
    requires Recoverable(ch, d)
    ensures EditsKept(d, Run(Boots(d), BootOps(d)).live, ch.snap)
  {
    var rej, rest := KeepRejectedOps(d, ch.snap), AfterKeeping(d, ch.snap);
    BothKept(Boots(d), ch.snap);
    BootParts(ch, d);
    RunAppend(Boots(d), rej, rest);
    StaysKept(d, Run(Boots(d), rej), rest, ch.snap);
  }

  function AfterKeeping(d: Files, snap: Snapshot): seq<Op> {
    RestoreOps(d, snap) + (DROP_STAGED_OPS + SETTLE_OPS)
  }

  lemma BootParts(ch: Change, d: Files)
    requires Recoverable(ch, d)
    ensures BootOps(d) == KeepRejectedOps(d, ch.snap) + AfterKeeping(d, ch.snap)
    ensures forall op :: op in AfterKeeping(d, ch.snap) && op.Put? ==> !op.path.Rejected?
  {
    BootOpens(ch, d);
    Regroup(KeepRejectedOps(d, ch.snap), RestoreOps(d, ch.snap), DROP_STAGED_OPS, SETTLE_OPS);
    RestoreTouches(d, ch.snap);
  }

  lemma Regroup(a: seq<Op>, b: seq<Op>, c: seq<Op>, e: seq<Op>)
    ensures a + b + c + e == a + (b + (c + e))
  {
  }

  // ---- boots that are cut short ----

  lemma {:induction false} RunMay(s: Store, ops: seq<Op>, p: Path, vs: set<Option<Content>>)
    requires Sound(s)
    requires forall op :: op in ops && op.Put? && op.path == p ==> op.value in vs
    ensures May(Run(s, ops), p) <= May(s, p) + vs
  {
    if ops != [] {
      var init, op := ops[..|ops| - 1], ops[|ops| - 1];
      assert op in ops;
      RunMay(s, init, p, vs);
      RunSound(s, init);
      assert At(Run(s, init).live, p) in May(Run(s, init), p);
    }
  }

  // What the boot's operations put at a config file and beside it.
  lemma BootPuts(ch: Change, d: Files, p: Path, name: string, op: Op)
    requires Recoverable(ch, d) && ConfigFile(p, name) && op in BootOps(d) && op.Put?
    ensures op.path == p ==> op.value == PutBackAt(d, ch.snap, p)
    ensures op.path == Rejected(name) ==>
              op.value == At(d, p) && SavedIn(ch.snap.entries, p).Some? && At(d, p) != SavedIn(ch.snap.entries, p)
  {
    BootParts(ch, d);
    if op in KeepRejectedOps(d, ch.snap) {
    } else if op in RestoreOps(d, ch.snap) {
      RestorePuts(d, ch.snap, op);
    }
  }

  lemma RestorePuts(d: Files, snap: Snapshot, op: Op)
    requires WellFormed(snap) && op in RestoreOps(d, snap)
    ensures op.Put? && op.path in snap.covered && op.value == PutBackAt(d, snap, op.path)
  {
    if op in EntryOps(d, snap.entries) {
      EntryPuts(d, d, snap.entries, snap, op);
    } else {
      RemovePuts(snap.covered, snap.entries, op);
    }
  }

  lemma {:induction false} EntryPuts(d: Files, f: Files, es: seq<Entry>, snap: Snapshot, op: Op)
    requires WellFormed(snap) && (forall e :: e in es ==> e in snap.entries)
    requires At(f, SecretsYaml) == At(d, SecretsYaml) || At(f, SecretsYaml) == PutBackAt(d, snap, SecretsYaml)
    requires op in EntryOps(f, es)
    ensures op.Put? && op.path in snap.covered && op.value == PutBackAt(d, snap, op.path)
    decreases |es|
  {
    var first := EntryOp(f, es[0]);
    assert es[0] in snap.entries;
    if es[0].path == SecretsYaml {
      KeepPasswordTwice(es[0].content, At(d, SecretsYaml));
    }
    if op != first {
      EntryPuts(d, PutFile(f, es[0].path, first.value), es[1..], snap, op);
    }
  }

  lemma {:induction false} RemovePuts(paths: seq<Path>, es: seq<Entry>, op: Op)
    ensures op in RemoveOps(paths, es) ==>
              op.Put? && op.path in paths && op.value == None && SavedIn(es, op.path) == None
  {
    if paths != [] {
      RemovePuts(paths[1..], es, op);
    }
  }

  // What the boots since d can have left at a config file, and beside it: beside it also the restored file,
  // if that is not the archived one.
  predicate EditAround(d: Files, snap: Snapshot, p: Path, name: string, d': Files) {
    var saved, restored := SavedIn(snap.entries, p), PutBackAt(d, snap, p);
    && At(d', p) in {At(d, p), restored}
    && (At(d', Rejected(name)) in {At(d, Rejected(name)), At(d, p)}
        || (saved.Some? && restored != saved && At(d', Rejected(name)) == restored))
  }

  // Restoring again restores the same.
  lemma RestoresAlike(d: Files, snap: Snapshot, p: Path, name: string, d': Files)
    requires ConfigFile(p, name) && At(d', p) in {At(d, p), PutBackAt(d, snap, p)}
    ensures PutBackAt(d', snap, p) in {At(d, p), PutBackAt(d, snap, p)}
  {
    var saved := SavedIn(snap.entries, p);
    if p in snap.covered && saved.Some? && p == SecretsYaml {
      KeepPasswordTwice(saved.value, At(d, p));
    }
  }

  lemma AroundStep(ch: Change, d: Files, p: Path, name: string, e: Files, e': Files)
    requires Recoverable(ch, e) && ConfigFile(p, name) && EditAround(d, ch.snap, p, name, e) && CutShort(e, e')
    ensures EditAround(d, ch.snap, p, name, e')
  {
    var i :| 0 <= i <= |BootOps(e)| && CrashImage(Run(Boots(e), BootOps(e)[..i]), e');
    var ops, beside := BootOps(e)[..i], Rejected(name);
    forall op | op in ops && op.Put?
      ensures op.path == p ==> op.value == PutBackAt(e, ch.snap, p)
      ensures op.path == beside ==> op.value == At(e, p) && SavedIn(ch.snap.entries, p).Some?
                                    && At(e, p) != SavedIn(ch.snap.entries, p)
    {
      BootPuts(ch, e, p, name, op);
    }
    RunMay(Boots(e), ops, p, {PutBackAt(e, ch.snap, p)});
    RestoresAlike(d, ch.snap, p, name, e);
    assert At(e', p) in May(Run(Boots(e), ops), p);
    assert At(e', beside) in May(Run(Boots(e), ops), beside);
    BesideStep(ch.snap, e, p, name, ops);
  }

  lemma BesideStep(snap: Snapshot, e: Files, p: Path, name: string, ops: seq<Op>)
    requires forall op :: op in ops && op.Put? && op.path == Rejected(name) ==>
               op.value == At(e, p) && SavedIn(snap.entries, p).Some? && At(e, p) != SavedIn(snap.entries, p)
    ensures var kept := SavedIn(snap.entries, p).Some? && At(e, p) != SavedIn(snap.entries, p);
            May(Run(Boots(e), ops), Rejected(name)) <= {At(e, Rejected(name))} + if kept then {At(e, p)} else {}
  {
    var kept := SavedIn(snap.entries, p).Some? && At(e, p) != SavedIn(snap.entries, p);
    RunMay(Boots(e), ops, Rejected(name), if kept then {At(e, p)} else {});
  }

  ghost predicate AroundWhile(ch: Change, d: Files, p: Path, name: string, e: Files) {
    BeingRolledBack(ch, e) && EditAround(d, ch.snap, p, name, e)
  }

  lemma AroundBoot(ch: Change, d: Files, p: Path, name: string, e: Files, e': Files)
    requires ConfigFile(p, name) && AroundWhile(ch, d, p, name, e) && CutShort(e, e')
    ensures AroundWhile(ch, d, p, name, e')
  {
    CutBoot(ch, e, e');
    if Recoverable(ch, e) {
      AroundStep(ch, d, p, name, e, e');
    } else {
      var i :| 0 <= i <= |BootOps(e)| && CrashImage(Run(Boots(e), BootOps(e)[..i]), e');
      assert BootOps(e) == [] && BootOps(e)[..i] == [];
      ImageOfBoot(e, e');
    }
  }

  lemma AroundBoots(ch: Change, ds: seq<Files>, k: nat, p: Path, name: string)
    requires BootChain(ds) && Recoverable(ch, ds[0]) && k < |ds| && ConfigFile(p, name)
    ensures EditAround(ds[0], ch.snap, p, name, ds[k])
  {
    var link := (e: Files, e': Files) => CutShort(e, e');
    var keeps := (e: Files) => AroundWhile(ch, ds[0], p, name, e);
    forall e, e' | keeps(e) && link(e, e')
      ensures keeps(e')
    {
      AroundBoot(ch, ds[0], p, name, e, e');
    }
    AlongChain(ds, link, keeps, k);
  }

  /** Over any number of boots that are cut short, what is kept beside router.yaml is never the restored
      file: it is the edit, or, while that is not on flash yet, what was there before. */
  lemma RouterEditStays(ch: Change, ds: seq<Files>, k: nat)
    requires BootChain(ds) && Recoverable(ch, ds[0]) && k < |ds|
    ensures At(ds[k], Rejected("router.yaml")) in {At(ds[0], Rejected("router.yaml")), At(ds[0], RouterYaml)}
  {
    AroundBoots(ch, ds, k, RouterYaml, "router.yaml");
    if e :| e in ch.snap.entries && e.path == RouterYaml {
      assert RouterYaml in ch.snap.covered;
    } else {
      SavedOnlyListed(ch.snap.entries, RouterYaml);
    }
  }

  lemma {:induction false} SavedOnlyListed(es: seq<Entry>, p: Path)
    ensures SavedIn(es, p).Some? ==> exists e :: e in es && e.path == p
  {
    if es != [] {
      SavedOnlyListed(es[1..], p);
    }
  }

  // The restored secrets.yaml has the live password in it. If it is not the archived one for that, a boot that
  // finds it takes it for an edit.
  lemma RestoredIsTaken(ch: Change, d: Files)
    requires Recoverable(ch, d) && SavedIn(ch.snap.entries, SecretsYaml).Some?
    requires PutBackAt(d, ch.snap, SecretsYaml) != SavedIn(ch.snap.entries, SecretsYaml)
    requires PutBackAt(d, ch.snap, SecretsYaml).Some?
    ensures exists ds :: BootChain(ds) && ds[0] == d
                         && At(ds[|ds| - 1], Rejected("secrets.yaml")) == PutBackAt(d, ch.snap, SecretsYaml)
  {
    var d1 := CutAfterRestore(ch, d);
    var d2 := CutAfterKeeping(ch, d1);
    var ds := [d, d1, d2];
    assert BootChain(ds);
  }

  lemma CutAfterRestore(ch: Change, d: Files) returns (d': Files)
    requires Recoverable(ch, d)
    ensures CutShort(d, d') && Recoverable(ch, d') && At(d', SecretsYaml) == PutBackAt(d, ch.snap, SecretsYaml)
  {
    var body := BootBody(d, ch.snap);
    d' := Run(Boots(d), body).live;
    BootOpens(ch, d);
    LiveImage(d, body, SETTLE_OPS);
    OpenStays(ch, Boots(d), body);
    OpenCut(ch, Run(Boots(d), body), d');
    BootBodyEffect(ch, d, SecretsYaml);
  }

  lemma CutAfterKeeping(ch: Change, d: Files) returns (d': Files)
    requires Recoverable(ch, d)
    ensures CutShort(d, d') && EditKept(d, d', ch.snap, SecretsYaml, "secrets.yaml")
  {
    var rej := KeepRejectedOps(d, ch.snap);
    d' := Run(Boots(d), rej).live;
    BootParts(ch, d);
    LiveImage(d, rej, AfterKeeping(d, ch.snap));
    BothKept(Boots(d), ch.snap);
  }

  lemma LiveImage(d: Files, a: seq<Op>, b: seq<Op>)
    requires BootOps(d) == a + b
    ensures CutShort(d, Run(Boots(d), a).live) && CrashImage(Run(Boots(d), a), Run(Boots(d), a).live)
  {
    RunSound(Boots(d), a);
    assert BootOps(d)[..|a|] == a;
  }

  /** What is kept beside secrets.yaml is safe from boots that are cut short exactly if the restored file, the
      live password in it, is the archived one (or what is there already, or the file it replaces). */
  lemma SecretsEditStaysIff(ch: Change, d: Files)
    requires Recoverable(ch, d) && SavedIn(ch.snap.entries, SecretsYaml).Some?
    ensures var restored, beside := PutBackAt(d, ch.snap, SecretsYaml), At(d, Rejected("secrets.yaml"));
            (forall ds :: BootChain(ds) && ds[0] == d ==>
               At(ds[|ds| - 1], Rejected("secrets.yaml")) in {beside, At(d, SecretsYaml)})
            <==> restored in {SavedIn(ch.snap.entries, SecretsYaml), beside, At(d, SecretsYaml)}
  {
    var restored, beside := PutBackAt(d, ch.snap, SecretsYaml), At(d, Rejected("secrets.yaml"));
    var saved := SavedIn(ch.snap.entries, SecretsYaml);
    SavedOnlyListed(ch.snap.entries, SecretsYaml);
    if restored in {saved, beside, At(d, SecretsYaml)} {
      forall ds | BootChain(ds) && ds[0] == d
        ensures At(ds[|ds| - 1], Rejected("secrets.yaml")) in {beside, At(d, SecretsYaml)}
      {
        AroundBoots(ch, ds, |ds| - 1, SecretsYaml, "secrets.yaml");
      }
    } else {
      RestoredIsTaken(ch, d);
    }
  }
}
