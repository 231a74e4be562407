/** Apply, confirm, rollback and the boot step, as the steps they take on the flash.

    Every method also says which renames, removes and syncs it issues, in order (its ghost result ops),
    so that what is proved of that list holds at every point where the power may go.  Services, the
    firewall and the checks after an apply only decide which way a method goes. */
module ApplyTransaction {
  import opened Wrappers
  import opened FlashStore
  import opened Snapshots
  import opened CrashSafety
  import opened RejectedEdits

  datatype Outcome = Refused | Invalid | NothingToDo | Stale | Applied | AwaitingConfirm | Undone

  // A candidate from the web UI brings its own config files; an edit in place is already live.
  datatype Candidate = Candidate(yaml: Content, secrets: Content)

  // What the config renders: the generated files, the per-WAN files it wants, the module files it orphans.
  datatype Rendering = Rendering(files: seq<Entry>, wants: set<Path>, orphans: seq<Path>)

  ghost predicate ValidRendering(r: Rendering) {
    && (forall i :: 0 <= i < |r.files| ==>
          r.files[i].path.Generated? || (r.files[i].path.WanFile? && r.files[i].path in r.wants))
    && (forall i, j :: 0 <= i < j < |r.files| ==> r.files[i].path != r.files[j].path)
    && (forall p :: p in r.orphans ==> p.Generated? && forall i :: 0 <= i < |r.files| ==> r.files[i].path != p)
  }

  function Orphans(f: Files, wants: set<Path>): set<Path> {
    set p | p in f.Keys && p.WanFile? && p !in wants
  }

  // The live files are those of the config: nothing differs, and there is nothing to remove.
  ghost predicate AsRendered(r: Rendering, f: Files) {
    (forall e :: e in r.files ==> At(f, e.path) == Some(e.content)) && Orphans(f, r.wants) == {} && r.orphans == []
  }

  // The live files once the change is in: rendered files, candidate config, no orphans but those whose
  // service would not stop; everything else as it was.
  ghost predicate InPlace(before: Files, after: Files, r: Rendering, cand: Option<Candidate>, stuck: set<Path>) {
    && (forall e :: e in r.files ==> At(after, e.path) == Some(e.content))
    && (forall p :: p in stuck ==> p in Orphans(before, r.wants))
    && (forall p :: Managed(p) && (forall e :: e in r.files ==> e.path != p) ==>
          At(after, p) ==
          if p in r.orphans || (p in Orphans(before, r.wants) && p !in stuck) then None
          else CandidateAt(before, cand, p))
  }

  // Back as before the change, but for per-WAN files whose service would not stop.
  ghost predicate RolledBackExcept(ch: Change, d: Files, kept: set<Path>) {
    && (forall p :: p in kept ==> p.WanFile? && p in ch.snap.covered && SavedIn(ch.snap.entries, p) == None)
    && forall p :: Managed(p) && p !in kept ==>
         if p !in ch.snap.covered then At(d, p) in May(ch.base, p)
         else if p == SecretsYaml then SameButPassword(At(d, p), SavedIn(ch.snap.entries, p))
         else At(d, p) == SavedIn(ch.snap.entries, p)
  }

  ghost predicate AllOwned(ch: Change, ops: seq<Op>) {
    forall op :: op in ops ==> Owned(ch, op)
  }

  // The removals of a restore: of the paths listed, those without an archived file are gone, but the kept ones.
  ghost predicate Removed(before: Files, after: Files, paths: seq<Path>, es: seq<Entry>, kept: set<Path>) {
    && (forall p :: p in kept ==> p.WanFile? && p in paths && SavedIn(es, p) == None)
    && (forall p :: At(after, p) == if p in paths && p !in kept && SavedIn(es, p) == None then None else At(before, p))
  }

  lemma RemovedNext(before: Files, after: Files, paths: seq<Path>, p: Path, es: seq<Entry>, kept: set<Path>)
    requires Removed(before, after, paths, es, kept)
    ensures SavedIn(es, p) != None ==> Removed(before, after, paths + [p], es, kept)
    ensures SavedIn(es, p) == None ==> Removed(before, PutFile(after, p, None), paths + [p], es, kept - {p})
    ensures SavedIn(es, p) == None && p.WanFile? ==>
              Removed(before, after, paths + [p], es, if p in paths then kept else kept + {p})
  {
  }

  lemma {:induction false} RemoveOpsNext(covered: seq<Path>, i: nat, es: seq<Entry>)
    requires i < |covered|
    ensures covered[..i + 1] == covered[..i] + [covered[i]]
    ensures RemoveOps(covered[..i + 1], es) ==
            RemoveOps(covered[..i], es) + if SavedIn(es, covered[i]) == None then [Put(covered[i], None)] else []
    decreases i
  {
    if i > 0 {
      assert covered[..i + 1][1..] == covered[1..][..i];
      assert covered[..i][1..] == covered[1..][..i - 1];
      RemoveOpsNext(covered[1..], i - 1, es);
    } else {
      assert covered[..1][1..] == [];
    }
  }

  class Router {
    var disk: Store

    constructor (flash: Files)
      ensures disk == Boots(flash)
    {
      disk := Boots(flash);
    }

    method Do(op: Op)
      modifies this
      ensures disk == Step(old(disk), op)
    {
      disk := Step(disk, op);
    }

    // A write that fails leaves the old file and nothing else.
    method WriteAtomic(p: Path, c: Content) returns (ok: bool, ghost ops: seq<Op>)
      modifies this
      ensures ops == if ok then [Put(p, Some(c))] else []
      ensures disk == if ok then Step(old(disk), Put(p, Some(c))) else old(disk)
      ensures disk == Run(old(disk), ops)
    {
      ok, ops := *, [];
      if ok {
        Do(Put(p, Some(c)));
        ops := [Put(p, Some(c))];
        RunOne(old(disk), ops[0]);
      }
    }

    // Of an existing marker nothing is touched: checking and claiming are one step.
    method ClaimPending(rec: MarkerRecord) returns (ok: bool, ghost ops: seq<Op>)
      modifies this
      ensures ok <==> Marker !in old(disk).live
      ensures ops == if ok then [Put(Marker, Some(Text(""))), Put(Marker, Some(Record(rec))), SyncOne(Marker)] else []
      ensures disk == Run(old(disk), ops)
    {
      ops := [];
      if Marker in disk.live {
        return false, [];
      }
      Do(Put(Marker, Some(Text(""))));
      Do(Put(Marker, Some(Record(rec))));
      Do(SyncOne(Marker));
      ok, ops := true, [Put(Marker, Some(Text(""))), Put(Marker, Some(Record(rec))), SyncOne(Marker)];
      RunThree(old(disk), ops[0], ops[1], ops[2]);
    }

    method SetPending(rec: MarkerRecord) returns (ghost ops: seq<Op>)
      modifies this
      ensures ops == [Put(Marker, Some(Record(rec))), SyncOne(Marker)]
      ensures disk == Run(old(disk), ops)
      ensures disk.live == old(disk).live[Marker := Record(rec)]
    {
      Do(Put(Marker, Some(Record(rec))));
      Do(SyncOne(Marker));
      ops := [Put(Marker, Some(Record(rec))), SyncOne(Marker)];
      RunTwo(old(disk), ops[0], ops[1]);
    }

    // Removes the marker when it names id (None = any), everything written before synced first.
    method ClearPending(id: Option<nat>) returns (ghost ops: seq<Op>)
      modifies this
      ensures ops == if id.Some? && !Names(At(old(disk).live, Marker), id.value) then []
                     else if Marker in old(disk).live then SETTLE_OPS
                     else [SyncAll]
      ensures disk == Run(old(disk), ops)
    {
      if id.Some? && !Names(At(disk.live, Marker), id.value) {
        return [];
      }
      Do(SyncAll);
      ops := [SyncAll];
      RunOne(old(disk), SyncAll);
      if Marker in disk.live {
        Do(Put(Marker, None));
        Do(SyncOne(Marker));
        ops := SETTLE_OPS;
        RunThree(old(disk), ops[0], ops[1], ops[2]);
      }
    }

    method StageAccepted() returns (ghost ops: seq<Op>)
      modifies this
      ensures ops == [Put(StagedYaml, At(old(disk).live, RouterYaml)),
                      Put(StagedSecrets, At(old(disk).live, SecretsYaml))]
      ensures disk == Run(old(disk), ops)
      ensures At(disk.live, StagedYaml) == At(old(disk).live, RouterYaml)
      ensures At(disk.live, StagedSecrets) == At(old(disk).live, SecretsYaml)
      ensures forall p :: p != StagedYaml && p != StagedSecrets ==> At(disk.live, p) == At(old(disk).live, p)
    {
      Do(Put(StagedYaml, At(disk.live, RouterYaml)));
      Do(Put(StagedSecrets, At(disk.live, SecretsYaml)));
      ops := [Put(StagedYaml, At(old(disk).live, RouterYaml)), Put(StagedSecrets, At(old(disk).live, SecretsYaml))];
      RunTwo(old(disk), ops[0], ops[1]);
    }

    // Renames a staged copy over its accepted one, where there is one.
    method AcceptOne(staged: Path, accepted: Path) returns (ghost ops: seq<Op>)
      requires staged != accepted
      modifies this
      ensures ops == if staged in old(disk).live
                     then [Put(accepted, At(old(disk).live, staged)), Put(staged, None), SyncOne(accepted)]
                     else [SyncOne(accepted)]
      ensures disk == Run(old(disk), ops)
      ensures At(disk.live, accepted) == At(old(disk).live, if staged in old(disk).live then staged else accepted)
      ensures At(disk.live, staged) == None
      ensures forall p :: p != staged && p != accepted ==> At(disk.live, p) == At(old(disk).live, p)
    {
      ops := [SyncOne(accepted)];
      if staged in disk.live {
        Do(Put(accepted, At(disk.live, staged)));
        Do(Put(staged, None));
        ops := [Put(accepted, At(old(disk).live, staged)), Put(staged, None), SyncOne(accepted)];
        RunThree(old(disk), ops[0], ops[1], ops[2]);
      } else {
        RunOne(old(disk), ops[0]);
      }
      Do(SyncOne(accepted));
    }

    method AcceptStaged() returns (ghost ops: seq<Op>)
      modifies this
      ensures disk == Run(old(disk), ops)
      ensures forall op :: op in ops ==> Aftermath(op)
      ensures At(disk.live, StagedYaml) == At(disk.live, StagedSecrets) == None
      ensures At(disk.live, AcceptedYaml) ==
              At(old(disk).live, if StagedYaml in old(disk).live then StagedYaml else AcceptedYaml)
      ensures At(disk.live, AcceptedSecrets) ==
              At(old(disk).live, if StagedSecrets in old(disk).live then StagedSecrets else AcceptedSecrets)
      ensures forall p :: p !in {StagedYaml, StagedSecrets, AcceptedYaml, AcceptedSecrets} ==>
                            At(disk.live, p) == At(old(disk).live, p)
    {
      ghost var a := AcceptOne(StagedYaml, AcceptedYaml);
      ghost var b := AcceptOne(StagedSecrets, AcceptedSecrets);
      ops := a + b;
      RunAppend(old(disk), a, b);
    }

    method KeepRejected(snap: Snapshot) returns (ghost ops: seq<Op>)
      modifies this
      ensures ops == KeepRejectedOps(old(disk).live, snap)
      ensures disk == Run(old(disk), ops)
      ensures forall op :: op in ops ==> op.Put? && op.path.Rejected?
      ensures forall p: Path :: !p.Rejected? ==> At(disk.live, p) == At(old(disk).live, p)
      ensures EditsKept(old(disk).live, disk.live, snap)
    {
      BothKept(disk, snap);
      ghost var a := KeepOneRejected(snap, RouterYaml, "router.yaml");
      ghost var b := KeepOneRejected(snap, SecretsYaml, "secrets.yaml");
      ops := a + b;
      RunAppend(old(disk), a, b);
    }

    method KeepOneRejected(snap: Snapshot, p: Path, name: string) returns (ghost ops: seq<Op>)
      requires !p.Rejected?
      modifies this
      ensures ops == RejectedOp(old(disk).live, snap, p, name)
      ensures disk == Run(old(disk), ops)
      ensures forall q: Path :: !q.Rejected? ==> At(disk.live, q) == At(old(disk).live, q)
    {
      ops := [];
      if SavedIn(snap.entries, p).Some? && p in disk.live && At(disk.live, p) != SavedIn(snap.entries, p) {
        Do(Put(Rejected(name), At(disk.live, p)));
        ops := [Put(Rejected(name), At(old(disk).live, p))];
        RunOne(old(disk), ops[0]);
      }
    }

    method DropStaged() returns (ghost ops: seq<Op>)
      modifies this
      ensures ops == DROP_STAGED_OPS
      ensures disk == Run(old(disk), ops)
      ensures forall p :: p != StagedYaml && p != StagedSecrets ==> At(disk.live, p) == At(old(disk).live, p)
    {
      Do(Put(StagedYaml, None));
      Do(Put(StagedSecrets, None));
      ops := DROP_STAGED_OPS;
      RunTwo(old(disk), ops[0], ops[1]);
    }

    method RestoreEntries(snap: Snapshot) returns (ghost ops: seq<Op>)
      modifies this
      ensures ops == EntryOps(old(disk).live, snap.entries)
      ensures disk == Run(old(disk), ops)
    {
      ops := [];
      var i := 0;
      while i < |snap.entries|
        invariant 0 <= i <= |snap.entries|
        invariant disk == Run(old(disk), ops)
        invariant ops + EntryOps(disk.live, snap.entries[i..]) == EntryOps(old(disk).live, snap.entries)
      {
        ghost var was := disk;
        var op := EntryOp(disk.live, snap.entries[i]);
        assert snap.entries[i..][1..] == snap.entries[i + 1..];
        Do(op);
        RunAppend(old(disk), ops, [op]);
        RunOne(was, op);
        ops := ops + [op];
        i := i + 1;
      }
      assert snap.entries[i..] == [];
    }

    static lemma OneMore(start: Store, ops: seq<Op>, op: Op)
      ensures Run(start, ops + [op]) == Step(Run(start, ops), op)
    {
      assert (ops + [op])[..|ops|] == ops;
    }

    // Removes the covered paths the archive has no file for.
    method RestoreRemovals(snap: Snapshot, stop: bool) returns (ghost ops: seq<Op>, ghost kept: set<Path>)
      modifies this
      ensures disk == Run(old(disk), ops)
      ensures forall op :: op in ops ==> op.Put? && op.path in snap.covered
      ensures Removed(old(disk).live, disk.live, snap.covered, snap.entries, kept)
      ensures !stop ==> kept == {} && ops == RemoveOps(snap.covered, snap.entries)
    {
      kept, ops := {}, [];
      ghost var start := disk;
      var stopped: set<string> := {};
      var i := 0;
      while i < |snap.covered|
        invariant 0 <= i <= |snap.covered|
        invariant disk == Run(start, ops)
        invariant forall op :: op in ops ==> op.Put? && op.path in snap.covered
        invariant !stop ==> kept == {} && ops == RemoveOps(snap.covered[..i], snap.entries)
        invariant Removed(start.live, disk.live, snap.covered[..i], snap.entries, kept)
      {
        var p := snap.covered[i];
        RemovedNext(start.live, disk.live, snap.covered[..i], p, snap.entries, kept);
        RemoveOpsNext(snap.covered, i, snap.entries);
        if SavedIn(snap.entries, p) == None {
          var remove;
          remove, stopped := StopRemoved(p, stop, stopped);
          if remove {
            OneMore(start, ops, Put(p, None));
            Do(Put(p, None));
            ops := ops + [Put(p, None)];
            kept := kept - {p};
          } else {
            kept := if p in snap.covered[..i] then kept else kept + {p};
          }
        }
        i := i + 1;
      }
      assert snap.covered[..i] == snap.covered;
    }

    // Stops and disables the service of a per-WAN file that is about to go, once; a failed stop keeps the file.
    method StopRemoved(p: Path, stop: bool, stopped: set<string>) returns (remove: bool, stopped': set<string>)
      ensures !stop || !p.WanFile? ==> remove
    {
      remove, stopped' := true, stopped;
      if stop && p.WanFile? && p.service !in stopped {
        remove := *;
        if remove {
          stopped' := stopped + {p.service};
        }
      }
    }

    /** Puts a snapshot back. A live rollback (stop) keeps the per-WAN file of a new service that
        fails to stop; the boot step, before anything runs, keeps none. */
    method Restore(snap: Snapshot, stop: bool) returns (ghost ops: seq<Op>, ghost kept: set<Path>)
      requires WellFormed(snap)
      modifies this
      ensures disk == Run(old(disk), ops)
      ensures forall op :: op in ops ==> op.Put? && op.path in snap.covered
      ensures forall p :: p in kept ==> p.WanFile? && p in snap.covered && SavedIn(snap.entries, p) == None
      ensures !stop ==> kept == {} && ops == RestoreOps(old(disk).live, snap)
      ensures forall p ::
                At(disk.live, p) == if p in kept then At(old(disk).live, p) else PutBackAt(old(disk).live, snap, p)
    {
      ghost var a := RestoreEntries(snap);
      ghost var mid := disk;
      ghost var b;
      b, kept := RestoreRemovals(snap, stop);
      ops := a + b;
      RunAppend(old(disk), a, b);
      EntryOpsTouch(old(disk).live, snap.entries);
      forall p
        ensures At(disk.live, p) == if p in kept then At(old(disk).live, p) else PutBackAt(old(disk).live, snap, p)
      {
        EntryOpsEffect(old(disk), snap.entries, snap.entries, p);
        SavedHasEntry(snap.entries, p);
      }
    }

    // ---- apply ----

    // The rendered files whose content differs from the live one.
    method Plan(files: seq<Entry>) returns (changed: seq<Entry>)
      requires forall i, j :: 0 <= i < j < |files| ==> files[i].path != files[j].path
      ensures forall e :: e in changed <==> e in files && At(disk.live, e.path) != Some(e.content)
      ensures forall i, j :: 0 <= i < j < |changed| ==> changed[i].path != changed[j].path
    {
      changed := [];
      for i := 0 to |files|
        invariant forall e :: e in changed <==> e in files[..i] && At(disk.live, e.path) != Some(e.content)
        invariant forall k, j :: 0 <= k < j < |changed| ==> changed[k].path != changed[j].path
      {
        assert files[..i + 1] == files[..i] + [files[i]];
        forall k | 0 <= k < |changed|
          ensures changed[k].path != files[i].path
        {
          assert changed[k] in files[..i];
          var m :| 0 <= m < i && files[..i][m] == changed[k];
          assert files[m] == changed[k];
        }
        if At(disk.live, files[i].path) != Some(files[i].content) {
          changed := changed + [files[i]];
        }
      }
      assert files[..|files|] == files;
    }

    method OrphanPaths(wants: set<Path>) returns (paths: seq<Path>)
      ensures forall p :: p in paths <==> p in Orphans(disk.live, wants)
    {
      paths := [];
      var todo := Orphans(disk.live, wants);
      while todo != {}
        invariant forall p :: p in Orphans(disk.live, wants) <==> p in todo || p in paths
      {
        var p :| p in todo;
        paths := paths + [p];
        todo := todo - {p};
      }
    }

    // Where the accepted versions of the live config files are, for an edit made in place.
    method AcceptedSources() returns (src: map<Path, Path>)
      ensures src.Keys <= {RouterYaml, SecretsYaml}
      ensures RouterYaml in src <==> AcceptedYaml in disk.live || Generated("applied.yaml") in disk.live
      ensures RouterYaml in src ==>
                src[RouterYaml] == if AcceptedYaml in disk.live then AcceptedYaml else Generated("applied.yaml")
      ensures SecretsYaml in src <==> AcceptedSecrets in disk.live
      ensures SecretsYaml in src ==> src[SecretsYaml] == AcceptedSecrets
    {
      src := map[];
      if AcceptedYaml in disk.live {
        src := src[RouterYaml := AcceptedYaml];
      }
      if AcceptedSecrets in disk.live {
        src := src[SecretsYaml := AcceptedSecrets];
      }
      if RouterYaml !in src && Generated("applied.yaml") in disk.live {
        src := src[RouterYaml := Generated("applied.yaml")];
      }
    }

    // Writes files until one fails.
    method WriteAll(files: seq<Entry>) returns (ok: bool, ghost ops: seq<Op>)
      requires forall i, j :: 0 <= i < j < |files| ==> files[i].path != files[j].path
      modifies this
      ensures disk == Run(old(disk), ops)
      ensures forall op :: op in ops ==> op.Put? && exists e :: e in files && e.path == op.path
      ensures ok ==> forall e :: e in files ==> At(disk.live, e.path) == Some(e.content)
      ensures forall p :: (forall e :: e in files ==> e.path != p) ==> At(disk.live, p) == At(old(disk).live, p)
    {
      ok, ops := true, [];
      ghost var start := disk;
      var i := 0;
      while i < |files| && ok
        invariant 0 <= i <= |files|
        invariant disk == Run(start, ops)
        invariant WrittenUpTo(start.live, disk.live, files, i, ok, ops)
      {
        ghost var was := disk;
        ghost var op;
        ok, op := WriteAtomic(files[i].path, files[i].content);
        RunAppend(start, ops, op);
        WritesNext(start.live, was.live, disk.live, files, i, ok, ops, op);
        ops := ops + op;
        i := i + 1;
      }
    }

    // The first i files are written, unless one failed, and nothing else.
    static ghost predicate WrittenUpTo(before: Files, f: Files, files: seq<Entry>, i: nat, ok: bool, ops: seq<Op>)
      requires i <= |files|
    {
      && (forall op :: op in ops ==> op.Put? && exists e :: e in files && e.path == op.path)
      && (ok ==> forall k :: 0 <= k < i ==> At(f, files[k].path) == Some(files[k].content))
      && forall p :: (forall e :: e in files ==> e.path != p) ==> At(f, p) == At(before, p)
    }

    static lemma WritesNext(before: Files, f: Files, g: Files, files: seq<Entry>, i: nat, ok: bool, ops: seq<Op>,
                            more: seq<Op>)
      requires i < |files| && WrittenUpTo(before, f, files, i, true, ops)
      requires forall i, j :: 0 <= i < j < |files| ==> files[i].path != files[j].path
      requires forall op :: op in more ==> op.Put? && op.path == files[i].path
      requires ok ==> At(g, files[i].path) == Some(files[i].content)
      requires forall p :: p != files[i].path ==> At(g, p) == At(f, p)
      ensures WrittenUpTo(before, g, files, i + 1, ok, ops + more)
    {
      assert files[i] in files;
    }

    // Removes what the config no longer wants; a per-WAN file only after its service has stopped.
    method CleanupOrphans(r: Rendering) returns (ghost ops: seq<Op>, ghost stuck: set<Path>)
      requires ValidRendering(r)
      modifies this
      ensures disk == Run(old(disk), ops)
      ensures forall op :: op in ops ==>
                op.Put? && (op.path in r.orphans || op.path in Orphans(old(disk).live, r.wants))
      ensures stuck <= Orphans(old(disk).live, r.wants)
      ensures forall p :: At(disk.live, p) ==
                          if p in r.orphans || (p in Orphans(old(disk).live, r.wants) && p !in stuck) then None
                          else At(old(disk).live, p)
    {
      ops := [];
      ghost var start := disk;
      for i := 0 to |r.orphans|
        invariant disk == Run(start, ops)
        invariant forall op :: op in ops ==> op.Put? && op.path in r.orphans
        invariant forall p :: At(disk.live, p) == if p in r.orphans[..i] then None else At(start.live, p)
      {
        var p := r.orphans[i];
        RunAppend(start, ops, [Put(p, None)]);
        RunOne(disk, Put(p, None));
        Do(Put(p, None));
        ops := ops + [Put(p, None)];
        assert r.orphans[..i + 1] == r.orphans[..i] + [p];
      }
      assert r.orphans[..|r.orphans|] == r.orphans;
      assert Orphans(disk.live, r.wants) == Orphans(start.live, r.wants) by {
        forall p: Path | p.WanFile?
          ensures (p in disk.live) == (p in start.live)
        {
          assert p !in r.orphans;
          assert At(disk.live, p) == At(start.live, p);
        }
      }
      ghost var b;
      b, stuck := CleanupOrphanWANFiles(r.wants);
      RunAppend(start, ops, b);
      ops := ops + b;
    }

    method CleanupOrphanWANFiles(wants: set<Path>) returns (ghost ops: seq<Op>, ghost stuck: set<Path>)
      modifies this
      ensures disk == Run(old(disk), ops)
      ensures forall op :: op in ops ==> op.Put? && op.path in Orphans(old(disk).live, wants)
      ensures stuck <= Orphans(old(disk).live, wants)
      ensures forall p :: At(disk.live, p) ==
                          if p in Orphans(old(disk).live, wants) && p !in stuck then None else At(old(disk).live, p)
    {
      ops, stuck := [], {};
      ghost var start := disk;
      var paths := OrphanPaths(wants);
      var stopped: set<string> := {};
      for i := 0 to |paths|
        invariant disk == Run(start, ops)
        invariant forall op :: op in ops ==> op.Put? && op.path in paths
        invariant forall p :: p in stuck ==> p in paths[..i]
        invariant forall p :: At(disk.live, p) == if p in paths[..i] && p !in stuck then None else At(start.live, p)
      {
        var p := paths[i];
        assert paths[..i + 1] == paths[..i] + [p];
        var remove;
        remove, stopped := StopRemoved(p, true, stopped);
        if remove {
          RunAppend(start, ops, [Put(p, None)]);
          RunOne(disk, Put(p, None));
          Do(Put(p, None));
          ops := ops + [Put(p, None)];
          stuck := stuck - {p};
        } else {
          stuck := if p in paths[..i] then stuck else stuck + {p};
        }
      }
      assert paths[..|paths|] == paths;
    }

    // Keeps the rejected edit aside, puts the snapshot back, forgets the staged copies.
    method PutSnapshotBack(snap: Snapshot, stop: bool) returns (ghost ops: seq<Op>, ghost kept: set<Path>)
      requires WellFormed(snap)
      modifies this
      ensures disk == Run(old(disk), ops)
      ensures forall op :: op in ops ==>
                op.Put? && (op.path in snap.covered || op.path.Rejected? || op.path in {StagedYaml, StagedSecrets})
      ensures forall p :: p in kept ==> p.WanFile? && p in snap.covered && SavedIn(snap.entries, p) == None
      ensures !stop ==> kept == {} && ops == BootBody(old(disk).live, snap)
      ensures forall p :: Managed(p) ==>
                At(disk.live, p) == if p in kept then At(old(disk).live, p) else PutBackAt(old(disk).live, snap, p)
      ensures At(disk.live, AcceptedYaml) == At(old(disk).live, AcceptedYaml)
      ensures At(disk.live, AcceptedSecrets) == At(old(disk).live, AcceptedSecrets)
      ensures EditsKept(old(disk).live, disk.live, snap)
    {
      ghost var start := disk;
      ghost var a := KeepRejected(snap);
      ghost var mid := disk;
      ghost var b, c;
      b, kept := Restore(snap, stop);
      ghost var restored := disk;
      c := DropStaged();
      ops := a + b + c;
      assert disk == Run(start, ops) by {
        RunAppend(start, a + b, c);
        RunAppend(start, a, b);
      }
      assert !stop ==> ops == BootBody(start.live, snap) by {
        assert At(mid.live, SecretsYaml) == At(start.live, SecretsYaml);
        EntryOpsSame(mid.live, start.live, snap.entries);
      }
      PutBackInAll(start.live, mid.live, restored.live, disk.live, snap, kept);
    }

    static lemma PutBackInAll(start: Files, mid: Files, restored: Files, done: Files, snap: Snapshot, kept: set<Path>)
      requires WellFormed(snap) && EditsKept(start, mid, snap) && forall p :: p in kept ==> p in snap.covered
      requires forall p: Path :: !p.Rejected? ==> At(mid, p) == At(start, p)
      requires forall p :: At(restored, p) == if p in kept then At(mid, p) else PutBackAt(mid, snap, p)
      requires forall p :: p != StagedYaml && p != StagedSecrets ==> At(done, p) == At(restored, p)
      ensures forall p :: Managed(p) ==>
                At(done, p) == if p in kept then At(start, p) else PutBackAt(start, snap, p)
      ensures At(done, AcceptedYaml) == At(start, AcceptedYaml)
      ensures At(done, AcceptedSecrets) == At(start, AcceptedSecrets)
      ensures EditsKept(start, done, snap)
    {
      assert forall p :: !Managed(p) && p != StagedYaml && p != StagedSecrets ==> At(done, p) == At(mid, p);
    }

    /** Restores the change's snapshot and settles it; the marker goes only when the old files are back. */
    method Rollback(id: nat, ghost ch: Change) returns (ghost body: seq<Op>, ghost kept: set<Path>)
      requires Open(ch, disk) && ch.id == id
      modifies this
      ensures AllOwned(ch, body)
      ensures disk == Run(old(disk), body + SETTLE_OPS)
      ensures At(disk.live, Marker) == None && disk.may == map[]
      ensures RolledBackExcept(ch, disk.live, kept)
      ensures forall p :: p in kept ==> At(disk.live, p) == At(old(disk).live, p)
      ensures At(disk.live, AcceptedYaml) == At(old(disk).live, AcceptedYaml)
      ensures At(disk.live, AcceptedSecrets) == At(old(disk).live, AcceptedSecrets)
      ensures EditsKept(old(disk).live, disk.live, ch.snap)
    {
      ghost var start := disk;
      assert At(disk.live, SnapshotFile(id)) in May(disk, SnapshotFile(id));
      var snap := disk.live[SnapshotFile(id)].snap;
      body, kept := PutSnapshotBack(snap, true);
      OwnedRestore(ch, body);
      OpenStays(ch, start, body);
      RollbackRestores(ch, start, disk.live, kept);
      ghost var restored := disk;
      assert At(disk.live, Marker) in May(disk, Marker);
      ghost var settle := ClearPending(Some(id));
      UnrollSettle(restored);
      RunAppend(start, body, SETTLE_OPS);
      assert forall p :: p != Marker ==> At(disk.live, p) == At(restored.live, p);
      KeptAlike(start.live, restored.live, disk.live, snap);
    }

    // The candidate's files replace the live ones; false when one cannot be read or written.
    method Install(cand: Option<Candidate>) returns (ok: bool, ghost ops: seq<Op>)
      modifies this
      ensures disk == Run(old(disk), ops)
      ensures forall op :: op in ops ==> op.Put? && cand.Some? && op.path in {RouterYaml, SecretsYaml}
      ensures forall p :: p != RouterYaml && p != SecretsYaml ==> At(disk.live, p) == At(old(disk).live, p)
      ensures cand == None ==> ok && disk == old(disk)
      ensures ok && cand.Some? ==>
                && At(disk.live, RouterYaml) == Some(cand.value.yaml)
                && At(disk.live, SecretsYaml) == Some(cand.value.secrets)
    {
      ok, ops := true, [];
      if cand.Some? {
        ok := *;
        if ok {
          ghost var a, b;
          ok, a := WriteAtomic(RouterYaml, cand.value.yaml);
          ops := a;
          if ok {
            ok, b := WriteAtomic(SecretsYaml, cand.value.secrets);
            ops := a + b;
            RunAppend(old(disk), a, b);
          }
        }
      }
    }

    // Candidate config, staged copies, rendered files; false when a write failed.
    method WriteNew(changed: seq<Entry>, cand: Option<Candidate>) returns (ok: bool, ghost ops: seq<Op>)
      requires forall e :: e in changed ==> e.path.Generated? || e.path.WanFile?
      requires forall i, j :: 0 <= i < j < |changed| ==> changed[i].path != changed[j].path
      modifies this
      ensures disk == Run(old(disk), ops)
      ensures forall op :: op in ops ==> op.Put? && (op.path in {RouterYaml, SecretsYaml, StagedYaml, StagedSecrets} ||
                                                     exists e :: e in changed && e.path == op.path)
      ensures ok ==> forall e :: e in changed ==> At(disk.live, e.path) == Some(e.content)
      ensures ok ==> forall p :: Managed(p) && (forall e :: e in changed ==> e.path != p) ==>
                       At(disk.live, p) == CandidateAt(old(disk).live, cand, p)
      ensures ok ==> At(disk.live, StagedYaml) == At(disk.live, RouterYaml)
      ensures ok ==> At(disk.live, StagedSecrets) == At(disk.live, SecretsYaml)
      ensures forall p: Path :: p.Rejected? || (cand == None && p in {RouterYaml, SecretsYaml}) ==>
                            At(disk.live, p) == At(old(disk).live, p)
    {
      ghost var start := disk;
      ghost var a, b, c;
      ok, a := Install(cand);
      ops := a;
      if ok {
        ghost var installed := disk;
        assert forall p :: Managed(p) ==> At(disk.live, p) == CandidateAt(start.live, cand, p);
        b := StageAccepted();
        ghost var staged := disk;
        assert forall p :: Managed(p) ==> At(staged.live, p) == At(installed.live, p);
        assert forall p: Path :: p.Rejected? || (cand == None && p in {RouterYaml, SecretsYaml}) ==>
                                   At(staged.live, p) == At(start.live, p);
        ok, c := WriteAll(changed);
        RunAppend(start, a, b);
        RunAppend(start, a + b, c);
        ops := a + b + c;
        assert forall p: Path :: !p.Generated? && !p.WanFile? ==> At(disk.live, p) == At(staged.live, p) by {
          forall p: Path | !p.Generated? && !p.WanFile?
            ensures At(disk.live, p) == At(staged.live, p)
          {
            assert forall e :: e in changed ==> e.path != p;
          }
        }
      }
    }

    // Everything an apply writes between its claim and its verdict; false when a write failed.
    method PutInPlace(r: Rendering, changed: seq<Entry>, cand: Option<Candidate>, ghost base: Files)
      returns (ok: bool, ghost ops: seq<Op>, ghost stuck: set<Path>)
      requires ValidRendering(r) && PlanOf(r, base, changed)
      requires forall p :: Managed(p) ==> At(disk.live, p) == At(base, p)
      modifies this
      ensures disk == Run(old(disk), ops)
      ensures ApplyWrites(r, changed, base, ops)
      ensures ok ==> InPlaceStaged(base, disk.live, r, cand, stuck)
      ensures forall p: Path :: p.Rejected? || (cand == None && p in {RouterYaml, SecretsYaml}) ==>
                            At(disk.live, p) == At(old(disk).live, p)
    {
      ghost var start := disk;
      stuck := {};
      ok, ops := WriteNew(changed, cand);
      if ok {
        ghost var written := disk;
        SameOrphans(base, written.live, r, changed);
        ghost var d;
        d, stuck := CleanupOrphans(r);
        RunAppend(start, ops, d);
        ops := ops + d;
        InPlaceFrom(base, written.live, disk.live, r, changed, cand, stuck);
      }
    }

    method TakeSnapshot(id: nat, paths: seq<Path>, src: map<Path, Path>) returns (snap: Snapshot, ghost ops: seq<Op>)
      requires forall p :: p in paths ==> Managed(p)
      modifies this
      ensures WellFormed(snap) && snap.covered == paths
      ensures forall p :: p in paths ==> SavedIn(snap.entries, p) == At(old(disk).live, Source(src, p))
      ensures ops == [Put(SnapshotFile(id), Some(Archive(snap))), SyncOne(SnapshotFile(id))]
      ensures disk == Run(old(disk), ops)
      ensures forall p :: p != SnapshotFile(id) ==> At(disk.live, p) == At(old(disk).live, p)
    {
      snap := Snapshot(Saved(disk.live, paths, src), paths);
      SnapshotWellFormed(disk.live, paths, src);
      ops := [Put(SnapshotFile(id), Some(Archive(snap))), SyncOne(SnapshotFile(id))];
      RunTwo(disk, ops[0], ops[1]);
      Do(Put(SnapshotFile(id), Some(Archive(snap))));
      Do(SyncOne(SnapshotFile(id)));
    }

    // Snapshot and claim: the change is on flash, nothing of it is live yet.
    method Begin(r: Rendering, changed: seq<Entry>, orphans: seq<Path>, candidate: bool, id: nat)
      returns (ghost ch: Change)
      requires Sound(disk) && ValidRendering(r) && PlanOf(r, disk.live, changed)
      requires forall p :: p in orphans <==> p in Orphans(disk.live, r.wants)
      requires May(disk, SnapshotFile(id)) == {None} && May(disk, Marker) == {None}
      modifies this
      ensures ch.id == id && ch.base == old(disk)
      ensures Startable(ch) && SavesBefore(ch, old(disk).live, candidate) && CoversPlan(ch, r, changed)
      ensures disk == Run(old(disk), ClaimOps(ch, MarkerRecord(id, Applying)))
    {
      ghost var start := disk;
      var paths := SavePaths(r, changed, orphans);
      var src := Sources(candidate);
      var snap;
      ghost var save;
      snap, save := TakeSnapshot(id, paths, src);
      ch := Change(id, snap, start);
      Claim(id, ch, save);
    }

    // What the snapshot has to cover.
    method SavePaths(r: Rendering, changed: seq<Entry>, orphans: seq<Path>) returns (paths: seq<Path>)
      requires ValidRendering(r) && forall e :: e in changed ==> e in r.files
      requires forall p :: p in orphans ==> p.WanFile?
      ensures forall p :: p in paths ==> Managed(p)
      ensures RouterYaml in paths && SecretsYaml in paths
      ensures forall e :: e in changed ==> e.path in paths
      ensures forall p :: p in orphans || p in r.orphans ==> p in paths
    {
      forall p: Path
        ensures p in PathsOf(changed) <==> exists e :: e in changed && e.path == p
      {
        PathsOfAre(changed, p);
      }
      paths := PathsOf(changed) + [RouterYaml, SecretsYaml] + orphans + r.orphans;
    }

    // Where each file to save is: an edit in place saves the config files as last accepted.
    method Sources(candidate: bool) returns (src: map<Path, Path>)
      ensures forall p :: At(disk.live, Source(src, p)) == Before(disk.live, candidate, p)
    {
      src := map[];
      if !candidate {
        src := AcceptedSources();
      }
    }

    method Claim(id: nat, ghost ch: Change, ghost save: seq<Op>)
      requires ch.id == id && Startable(ch)
      requires save == [Put(SnapshotFile(id), Some(Archive(ch.snap))), SyncOne(SnapshotFile(id))]
      requires disk == Run(ch.base, save) && At(disk.live, Marker) == At(ch.base.live, Marker)
      modifies this
      ensures disk == Run(ch.base, ClaimOps(ch, MarkerRecord(id, Applying)))
    {
      assert At(ch.base.live, Marker) in May(ch.base, Marker);
      var claimed;
      ghost var claim;
      claimed, claim := ClaimPending(MarkerRecord(id, Applying));
      assert ClaimOps(ch, MarkerRecord(id, Applying)) == save + claim;
      RunAppend(ch.base, save, claim);
    }

    /** The whole apply; rendered is None for a config that does not validate or render. Each outcome says
        which operations were issued, that power cuts at any of them are covered (Issues, Open), and what
        the live files are at the end. */
    method ApplyWith(rendered: Option<Rendering>, services: bool, cand: Option<Candidate>, baseRev: Option<Content>,
                     confirmSecs: nat, id: nat)
      returns (outcome: Outcome, ghost ch: Change, ghost body: seq<Op>, ghost after: seq<Op>, ghost left: set<Path>)
      requires Sound(disk) && (rendered.Some? ==> ValidRendering(rendered.value))
      requires May(disk, SnapshotFile(id)) == {None}
      requires May(disk, Marker) == {At(disk.live, Marker)}
      modifies this
      ensures outcome == Refused <==> Marker in old(disk).live
      ensures outcome == Invalid <==> Marker !in old(disk).live && rendered == None
      ensures outcome == NothingToDo <==>
              && Marker !in old(disk).live && rendered.Some? && AsRendered(rendered.value, old(disk).live)
              && !services && cand == None
      ensures outcome in {Refused, Invalid, NothingToDo} ==> disk == old(disk)
      ensures outcome !in {Refused, Invalid, NothingToDo} ==>
                (outcome == Stale <==> baseRev.Some? && At(old(disk).live, RouterYaml) != baseRev)
      ensures outcome !in {Refused, Invalid, NothingToDo} ==>
                ch.id == id && ch.base == old(disk) && SavesBefore(ch, old(disk).live, cand.Some?)
      ensures outcome == Stale ==> Withdrawn(ch, disk, body, after)
      ensures outcome == Applied ==> Accepted(ch, disk, body, after, rendered.value, cand, left)
      ensures outcome == AwaitingConfirm ==> Awaiting(ch, disk, body, rendered.value, cand, left)
      ensures outcome == Undone ==> WasUndone(ch, disk, body, left)
      ensures outcome == Undone && cand == None ==> EditsKept(ch.base.live, disk.live, ch.snap)
      ensures outcome in {Applied, AwaitingConfirm} ==> (confirmSecs > 0 <==> outcome == AwaitingConfirm)
    {
      ch, body, after, left := Change(id, Snapshot([], []), disk), [], [], {};
      if Marker in disk.live {
        return Refused, ch, body, after, left;
      }
      if rendered.None? {
        return Invalid, ch, body, after, left;
      }
      var r := rendered.value;
      var changed := Plan(r.files);
      var orphans := OrphanPaths(r.wants);
      assert AsRendered(r, disk.live) <==> changed == [] && orphans == [] && r.orphans == [] by {
        assert changed != [] ==> changed[0] in changed;
        assert orphans != [] ==> orphans[0] in orphans;
      }
      if changed == [] && orphans == [] && r.orphans == [] && !services && cand == None {
        return NothingToDo, ch, body, after, left;
      }
      outcome, ch, body, after, left := ApplyPlan(r, changed, orphans, cand, baseRev, confirmSecs, id);
    }

    // An apply that has something to do, from its snapshot on.
    method ApplyPlan(r: Rendering, changed: seq<Entry>, orphans: seq<Path>, cand: Option<Candidate>,
                     baseRev: Option<Content>, confirmSecs: nat, id: nat)
      returns (outcome: Outcome, ghost ch: Change, ghost body: seq<Op>, ghost after: seq<Op>, ghost left: set<Path>)
      requires Sound(disk) && ValidRendering(r) && PlanOf(r, disk.live, changed)
      requires forall p :: p in orphans <==> p in Orphans(disk.live, r.wants)
      requires May(disk, SnapshotFile(id)) == {None} && May(disk, Marker) == {None}
      modifies this
      ensures outcome !in {Refused, Invalid, NothingToDo}
      ensures ch.id == id && ch.base == old(disk) && SavesBefore(ch, old(disk).live, cand.Some?)
      ensures outcome == Stale <==> baseRev.Some? && At(old(disk).live, RouterYaml) != baseRev
      ensures outcome == Stale ==> Withdrawn(ch, disk, body, after)
      ensures outcome == Applied ==> Accepted(ch, disk, body, after, r, cand, left)
      ensures outcome == AwaitingConfirm ==> Awaiting(ch, disk, body, r, cand, left)
      ensures outcome == Undone ==> WasUndone(ch, disk, body, left)
      ensures outcome == Undone && cand == None ==> EditsKept(ch.base.live, disk.live, ch.snap)
      ensures outcome in {Applied, AwaitingConfirm} ==> (confirmSecs > 0 <==> outcome == AwaitingConfirm)
    {
      body, after, left := [], [], {};
      ch := Begin(r, changed, orphans, cand.Some?, id);
      ClaimOpens(ch, MarkerRecord(id, Applying));
      ClaimKeepsFiles(ch, MarkerRecord(id, Applying));
      if baseRev.Some? && At(disk.live, RouterYaml) != baseRev {
        after := Withdraw(id, ch);
        ChangeRun(ch, Claimed(ch), [], after);
        outcome := Stale;
      } else {
        outcome, body, after, left := Finish(r, changed, cand, confirmSecs, id, ch);
      }
    }

    // From the claim to the verdict and its consequence.
    method Finish(r: Rendering, changed: seq<Entry>, cand: Option<Candidate>, confirmSecs: nat, id: nat,
                  ghost ch: Change)
      returns (outcome: Outcome, ghost body: seq<Op>, ghost after: seq<Op>, ghost left: set<Path>)
      requires ValidRendering(r) && PlanOf(r, ch.base.live, changed) && CoversPlan(ch, r, changed)
      requires ch.id == id && Startable(ch) && Open(ch, disk) && disk == Run(ch.base, ClaimOps(ch, Claimed(ch)))
      modifies this
      ensures outcome == (if confirmSecs > 0 then AwaitingConfirm else Applied) || outcome == Undone
      ensures outcome == Applied ==> Accepted(ch, disk, body, after, r, cand, left)
      ensures outcome == AwaitingConfirm ==> Awaiting(ch, disk, body, r, cand, left)
      ensures outcome == Undone ==> WasUndone(ch, disk, body, left)
      ensures outcome == Undone && cand == None ==> EditsKept(ch.base.live, disk.live, ch.snap)
    {
      ghost var claimed := disk;
      after := [];
      ClaimKeepsFiles(ch, Claimed(ch));
      ClaimKeepsRejected(ch, Claimed(ch));
      var ok;
      ok, body, left := PutInPlace(r, changed, cand, ch.base.live);
      OwnedApply(ch, r, changed, body);
      OpenStays(ch, claimed, body);
      if ok {
        ok := *;  // services restarted, firewall loaded, checks passed
      }
      if !ok {
        body, left := Undo(id, ch, body);
        outcome := Undone;
      } else if confirmSecs > 0 {
        body := Arm(id, ch, body, r, cand, left);
        outcome := AwaitingConfirm;
      } else {
        after := Accept(id, ch, body, r, cand, left);
        outcome := Applied;
      }
    }

    method Undo(id: nat, ghost ch: Change, ghost written: seq<Op>) returns (ghost body: seq<Op>, ghost kept: set<Path>)
      requires ch.id == id && Startable(ch) && Open(ch, disk) && AllOwned(ch, written)
      requires disk == Run(Run(ch.base, ClaimOps(ch, Claimed(ch))), written)
      modifies this
      ensures WasUndone(ch, disk, body, kept)
      ensures EditsKept(old(disk).live, disk.live, ch.snap)
    {
      ghost var back;
      back, kept := Rollback(id, ch);
      body := written + back;
      ghost var claimed := Run(ch.base, ClaimOps(ch, Claimed(ch)));
      RunAppend(Run(claimed, written), back, SETTLE_OPS);
      RunAppend(claimed, written, back);
      ChangeRun(ch, Claimed(ch), body, []);
    }

    method Arm(id: nat, ghost ch: Change, ghost written: seq<Op>, ghost r: Rendering, ghost cand: Option<Candidate>,
               ghost stuck: set<Path>)
      returns (ghost body: seq<Op>)
      requires ch.id == id && Startable(ch) && Open(ch, disk) && AllOwned(ch, written)
      requires disk == Run(Run(ch.base, ClaimOps(ch, Claimed(ch))), written)
      requires InPlaceStaged(ch.base.live, disk.live, r, cand, stuck) && ValidRendering(r)
      modifies this
      ensures Awaiting(ch, disk, body, r, cand, stuck)
    {
      ghost var was := disk;
      ghost var arm := SetPending(MarkerRecord(id, Pending));
      body := written + arm;
      OpenStays(ch, was, arm);
      RunAppend(Run(ch.base, ClaimOps(ch, Claimed(ch))), written, arm);
      RunAppend(ch.base, ClaimOps(ch, Claimed(ch)), body);
      InPlaceSame(ch.base.live, was.live, disk.live, r, cand, stuck);
    }

    method Accept(id: nat, ghost ch: Change, ghost body: seq<Op>, ghost r: Rendering, ghost cand: Option<Candidate>,
                  ghost stuck: set<Path>)
      returns (ghost after: seq<Op>)
      requires ch.id == id && Startable(ch) && Open(ch, disk) && AllOwned(ch, body)
      requires disk == Run(Run(ch.base, ClaimOps(ch, Claimed(ch))), body)
      requires InPlaceStaged(ch.base.live, disk.live, r, cand, stuck) && ValidRendering(r)
      modifies this
      ensures Accepted(ch, disk, body, after, r, cand, stuck)
    {
      ghost var was := disk;
      assert At(disk.live, Marker) in May(disk, Marker);
      after := Commit(id);
      ChangeRun(ch, Claimed(ch), body, after);
      InPlaceSame(ch.base.live, was.live, disk.live, r, cand, stuck);
    }

    // Removes the marker and makes the staged copies the accepted ones.
    method Commit(id: nat) returns (ghost after: seq<Op>)
      requires Names(At(disk.live, Marker), id)
      modifies this
      ensures disk == Run(Run(old(disk), SETTLE_OPS), after)
      ensures forall op :: op in after ==> Aftermath(op)
      ensures At(disk.live, Marker) == None
      ensures At(disk.live, AcceptedYaml) ==
              At(old(disk).live, if StagedYaml in old(disk).live then StagedYaml else AcceptedYaml)
      ensures At(disk.live, AcceptedSecrets) ==
              At(old(disk).live, if StagedSecrets in old(disk).live then StagedSecrets else AcceptedSecrets)
      ensures forall p :: Managed(p) ==> At(disk.live, p) == At(old(disk).live, p)
    {
      UnrollSettle(disk);
      ghost var settle := ClearPending(Some(id));
      after := AcceptStaged();
    }

    // A stale candidate: the claim is withdrawn before anything is written, its snapshot removed.
    method Withdraw(id: nat, ghost ch: Change) returns (ghost after: seq<Op>)
      requires Open(ch, disk) && ch.id == id
      modifies this
      ensures disk == Run(Run(old(disk), SETTLE_OPS), after)
      ensures forall op :: op in after ==> Aftermath(op)
      ensures At(disk.live, Marker) == None
      ensures forall p :: Managed(p) ==> At(disk.live, p) == At(old(disk).live, p)
    {
      assert At(disk.live, Marker) in May(disk, Marker);
      UnrollSettle(disk);
      ghost var settle := ClearPending(Some(id));
      after := [Put(SnapshotFile(id), None)];
      RunOne(disk, after[0]);
      Do(Put(SnapshotFile(id), None));
    }

    // ---- settling a change that waits for confirmation ----

    /** Keeps the pending change: the marker goes, the staged copies become the accepted ones. */
    method Confirm() returns (ok: bool, ghost after: seq<Op>)
      requires May(disk, Marker) == {At(disk.live, Marker)}
      modifies this
      ensures ok <==> (Marker in old(disk).live &&
                       (Readable(At(old(disk).live, Marker)) ==> old(disk).live[Marker].marker.state == Pending))
      ensures !ok ==> disk == old(disk)
      ensures ok ==> disk == Run(Run(old(disk), SETTLE_OPS), after) && forall op :: op in after ==> Aftermath(op)
      ensures ok ==> At(disk.live, Marker) == None
      ensures ok ==> forall p :: Managed(p) ==> At(disk.live, p) == At(old(disk).live, p)
      ensures ok ==> At(disk.live, AcceptedYaml) ==
                     At(old(disk).live, if StagedYaml in old(disk).live then StagedYaml else AcceptedYaml)
      ensures ok ==> At(disk.live, AcceptedSecrets) ==
                     At(old(disk).live, if StagedSecrets in old(disk).live then StagedSecrets else AcceptedSecrets)
    {
      after := [];
      if Marker !in disk.live {
        return false, [];
      }
      if Readable(At(disk.live, Marker)) && disk.live[Marker].marker.state != Pending {
        return false, [];
      }
      UnrollSettle(disk);
      ghost var settle := ClearPending(None);
      after := AcceptStaged();
      ok := true;
    }

    // Marks the pending change of snapshot id (None = whichever) as being rolled back.
    method StartRevert(id: Option<nat>) returns (snapshot: Option<nat>, ghost ops: seq<Op>)
      modifies this
      ensures snapshot.Some? <==> Revertible(At(old(disk).live, Marker), id)
      ensures snapshot.Some? ==>
                && snapshot.value == old(disk).live[Marker].marker.snapshot
                && ops == [Put(Marker, Some(Record(MarkerRecord(snapshot.value, Reverting)))), SyncOne(Marker)]
      ensures snapshot == None ==> ops == []
      ensures disk == Run(old(disk), ops)
    {
      if !Revertible(At(disk.live, Marker), id) {
        return None, [];
      }
      var snap := disk.live[Marker].marker.snapshot;
      ops := SetPending(MarkerRecord(snap, Reverting));
      snapshot := Some(snap);
    }

    // The confirm timer of the change with snapshot id runs out.
    method RollbackIfUnconfirmed(id: nat, ghost ch: Change)
      returns (ran: bool, ghost body: seq<Op>, ghost kept: set<Path>)
      requires Revertible(At(disk.live, Marker), Some(id)) ==> Open(ch, disk) && ch.id == id
      modifies this
      ensures ran <==> Revertible(At(old(disk).live, Marker), Some(id))
      ensures !ran ==> disk == old(disk)
      ensures ran ==> Unwound(ch, old(disk), disk, body, kept) && EditsKept(old(disk).live, disk.live, ch.snap)
    {
      ghost var start := disk;
      body, kept := [], {};
      var snapshot;
      ghost var mark;
      snapshot, mark := StartRevert(Some(id));
      ran := snapshot.Some?;
      if ran {
        OpenStays(ch, start, mark);
        MarkKeepsConfig(start, mark);
        ghost var back;
        back, kept := Rollback(id, ch);
        body := mark + back;
        RunAppend(start, mark, back + SETTLE_OPS);
        assert mark + (back + SETTLE_OPS) == body + SETTLE_OPS;
      }
    }

    // `mr rollback` without a snapshot name; interrupted tells whether the applying process is gone, and
    // newest is the last snapshot of the history. With no change to undo it puts that one back, unless
    // accepted or staged copies are there: their names come last in the history, and are no archives.
    method RollbackCommand(interrupted: bool, newest: Option<nat>, ghost ch: Change)
      returns (ran: bool, ghost body: seq<Op>, ghost kept: set<Path>)
      requires if Readable(At(disk.live, Marker)) then Open(ch, disk)
               else IsNewest(disk.live, newest) &&
                    forall id, snap :: At(disk.live, SnapshotFile(id)) == Some(Archive(snap)) ==> WellFormed(snap)
      modifies this
      ensures ran <==> if Readable(At(old(disk).live, Marker))
                       then old(disk).live[Marker].marker.state == Applying ==> interrupted
                       else HistoryEnds(old(disk).live, newest)
      ensures !ran ==> disk == old(disk)
      ensures forall p: Path :: p.Rejected? ==> At(disk.live, p) == At(old(disk).live, p)
      ensures ran && Readable(At(old(disk).live, Marker)) ==> Unwound(ch, old(disk), disk, body, kept)
      ensures ran && !Readable(At(old(disk).live, Marker)) ==>
                PutBackNewest(old(disk).live, disk.live, old(disk).live[SnapshotFile(newest.value)].snap, kept)
    {
      ghost var start := disk;
      body, kept := [], {};
      if !Readable(At(disk.live, Marker)) {
        ran := HistoryEnds(disk.live, newest);
        if ran {
          kept := RestoreNewest(disk.live[SnapshotFile(newest.value)].snap);
        }
        return;
      }
      ran := disk.live[Marker].marker.state == Applying ==> interrupted;
      if ran {
        assert At(disk.live, Marker) in May(disk, Marker);
        assert At(disk.live, SnapshotFile(ch.id)) in May(disk, SnapshotFile(ch.id));
        var rec := disk.live[Marker].marker;
        var snap := disk.live[SnapshotFile(rec.snapshot)].snap;
        ghost var mark: seq<Op> := [];
        if rec.state != Reverting {
          mark := SetPending(rec.(state := Reverting));
        }
        OpenStays(ch, start, mark);
        MarkKeepsConfig(start, mark);
        body, kept := RestoreForCommand(snap, mark, ch, start);
      }
    }

    method RestoreNewest(snap: Snapshot) returns (ghost kept: set<Path>)
      requires WellFormed(snap)
      modifies this
      ensures PutBackNewest(old(disk).live, disk.live, snap, kept)
      ensures forall p: Path :: p.Rejected? ==> At(disk.live, p) == At(old(disk).live, p)
    {
      ghost var ops;
      ops, kept := Restore(snap, true);
      ghost var restored := disk;
      ghost var settle := ClearPending(None);
      if Marker in restored.live {
        UnrollSettle(restored);
      }
    }

    method RestoreForCommand(snap: Snapshot, ghost mark: seq<Op>, ghost ch: Change, ghost start: Store)
      returns (ghost body: seq<Op>, ghost kept: set<Path>)
      requires Open(ch, disk) && snap == ch.snap && disk == Run(start, mark) && AllOwned(ch, mark)
      modifies this
      ensures Unwound(ch, start, disk, body, kept)
      ensures forall p: Path :: p.Rejected? ==> At(disk.live, p) == At(old(disk).live, p)
    {
      ghost var marked := disk;
      ghost var back;
      back, kept := Restore(snap, true);
      OwnedRestore(ch, back);
      OpenStays(ch, marked, back);
      RollbackRestores(ch, marked, disk.live, kept);
      ghost var restored := disk;
      assert At(disk.live, Marker) in May(disk, Marker);
      ghost var settle := ClearPending(None);
      UnrollSettle(restored);
      body := mark + back;
      RunAppend(start, mark, back);
      RunAppend(start, body, SETTLE_OPS);
      assert forall p :: p != Marker ==> At(disk.live, p) == At(restored.live, p);
    }

    /** The boot step, before any service starts: a change that was never accepted is rolled back. */
    method RollbackAtBoot()
      requires disk.may == map[]
      requires forall id, snap :: At(disk.live, SnapshotFile(id)) == Some(Archive(snap)) ==> WellFormed(snap)
      modifies this
      ensures disk == Run(Boots(old(disk).live), BootOps(old(disk).live))
      ensures forall ch :: Recoverable(ch, old(disk).live) ==> EditsKept(old(disk).live, disk.live, ch.snap)
    {
      forall ch | Recoverable(ch, disk.live)
        ensures EditsKept(disk.live, Run(Boots(disk.live), BootOps(disk.live)).live, ch.snap)
      {
        BootKeepsEdits(ch, disk.live);
      }
      ghost var start := disk;
      assert start == Boots(start.live);
      if !Readable(At(disk.live, Marker)) {
        if Marker in disk.live {
          SetAside();
        }
        return;
      }
      var id := disk.live[Marker].marker.snapshot;
      var archive := At(disk.live, SnapshotFile(id));
      if archive.None? || !archive.value.Archive? {
        SetAside();
        return;
      }
      ghost var body, kept;
      body, kept := PutSnapshotBack(archive.value.snap, false);
      BootKeepsMarker(start.live, archive.value.snap);
      ghost var settle := ClearPending(None);
      RunAppend(start, body, SETTLE_OPS);
    }

    // Renames the marker away, so that the boot after this one does not try again.
    method SetAside()
      requires Marker in disk.live
      modifies this
      ensures disk == Run(old(disk), [Put(MarkerAside, At(old(disk).live, Marker)), Put(Marker, None)])
    {
      RunTwo(disk, Put(MarkerAside, At(disk.live, Marker)), Put(Marker, None));
      Do(Put(MarkerAside, At(disk.live, Marker)));
      Do(Put(Marker, None));
    }
  }

  // Operations on the marker leave the config files alone, and what is beside them.
  lemma MarkKeepsConfig(s: Store, ops: seq<Op>)
    requires forall op :: op in ops && op.Put? ==> op.path == Marker
    ensures forall p: Path :: p.Rejected? || p in {RouterYaml, SecretsYaml} ==> At(Run(s, ops).live, p) == At(s.live, p)
  {
    forall p: Path | p.Rejected? || p in {RouterYaml, SecretsYaml}
      ensures At(Run(s, ops).live, p) == At(s.live, p)
    {
      assert forall i :: 0 <= i < |ops| ==> ops[i] in ops;
      RunKeeps(s, ops, p);
    }
  }

  predicate Revertible(marker: Option<Content>, id: Option<nat>) {
    Readable(marker) && marker.value.marker.state == Pending && (id.Some? ==> marker.value.marker.snapshot == id.value)
  }

  // The newest snapshot of the history, if there is any.
  ghost predicate IsNewest(f: Files, newest: Option<nat>) {
    if newest.Some?
    then SnapshotFile(newest.value) in f && forall id: nat :: SnapshotFile(id) in f ==> id <= newest.value
    else forall id: nat :: SnapshotFile(id) !in f
  }

  // The last name of the history is that of its newest archive.
  predicate HistoryEnds(f: Files, newest: Option<nat>) {
    && newest.Some? && SnapshotFile(newest.value) in f && f[SnapshotFile(newest.value)].Archive?
    && AcceptedYaml !in f && AcceptedSecrets !in f && StagedYaml !in f && StagedSecrets !in f
  }

  // The snapshot's files are back, but for kept per-WAN files, and there is no marker.
  ghost predicate PutBackNewest(before: Files, after: Files, snap: Snapshot, kept: set<Path>) {
    && At(after, Marker) == None
    && (forall p :: p in kept ==> p.WanFile? && p in snap.covered && SavedIn(snap.entries, p) == None)
    && forall p :: Managed(p) ==> At(after, p) == if p in kept then At(before, p) else PutBackAt(before, snap, p)
  }

  // A settled rollback of a change that had been written.
  ghost predicate Unwound(ch: Change, start: Store, disk: Store, body: seq<Op>, kept: set<Path>) {
    && AllOwned(ch, body)
    && disk == Run(start, body + SETTLE_OPS)
    && At(disk.live, Marker) == None
    && RolledBackExcept(ch, disk.live, kept)
  }

  lemma BootKeepsMarker(d: Files, snap: Snapshot)
    requires WellFormed(snap)
    ensures At(Run(Boots(d), BootBody(d, snap)).live, Marker) == At(d, Marker)
  {
    RestoreTouches(d, snap);
    RunKeeps(Boots(d), BootBody(d, snap), Marker);
  }

  ghost predicate ApplyWrites(r: Rendering, changed: seq<Entry>, base: Files, ops: seq<Op>) {
    forall op :: op in ops ==> op.Put? && WrittenByApply(r, changed, base, op.path)
  }

  // The change is live, and its config files are staged to become the accepted ones.
  ghost predicate InPlaceStaged(before: Files, after: Files, r: Rendering, cand: Option<Candidate>, stuck: set<Path>) {
    && InPlace(before, after, r, cand, stuck)
    && At(after, StagedYaml) == At(after, RouterYaml)
    && At(after, StagedSecrets) == At(after, SecretsYaml)
  }

  // ---- what the outcomes of an apply promise ----

  function Claimed(ch: Change): MarkerRecord {
    MarkerRecord(ch.id, Applying)
  }

  // The operations were those of a whole change, and it is settled.
  ghost predicate Ran(ch: Change, disk: Store, body: seq<Op>, after: seq<Op>) {
    && Issues(ch, Claimed(ch), body, after)
    && disk == Run(ch.base, ChangeOps(ch, Claimed(ch), body, after))
    && At(disk.live, Marker) == None
  }

  ghost predicate Withdrawn(ch: Change, disk: Store, body: seq<Op>, after: seq<Op>) {
    && Ran(ch, disk, body, after)
    && forall p :: Managed(p) ==> At(disk.live, p) == At(ch.base.live, p)
  }

  ghost predicate Accepted(ch: Change, disk: Store, body: seq<Op>, after: seq<Op>, r: Rendering,
                           cand: Option<Candidate>, stuck: set<Path>) {
    && Ran(ch, disk, body, after)
    && InPlace(ch.base.live, disk.live, r, cand, stuck)
    && (RouterYaml in disk.live ==> At(disk.live, AcceptedYaml) == At(disk.live, RouterYaml))
    && (SecretsYaml in disk.live ==> At(disk.live, AcceptedSecrets) == At(disk.live, SecretsYaml))
  }

  // Claimed and written to, by whoever owns it, but not settled: also an apply that was killed on its way.
  ghost predicate Underway(ch: Change, disk: Store, body: seq<Op>) {
    && Startable(ch) && AllOwned(ch, body)
    && disk == Run(ch.base, ClaimOps(ch, Claimed(ch)) + body)
  }

  ghost predicate Awaiting(ch: Change, disk: Store, body: seq<Op>, r: Rendering, cand: Option<Candidate>,
                           stuck: set<Path>) {
    && Underway(ch, disk, body) && Open(ch, disk)
    && At(disk.live, Marker) == Some(Record(MarkerRecord(ch.id, Pending)))
    && InPlaceStaged(ch.base.live, disk.live, r, cand, stuck)
  }

  ghost predicate WasUndone(ch: Change, disk: Store, body: seq<Op>, kept: set<Path>) {
    && Ran(ch, disk, body, [])
    && RolledBackExcept(ch, disk.live, kept)
  }

  // changed are the rendered files that differ from the live ones, each once.
  ghost predicate PlanOf(r: Rendering, base: Files, changed: seq<Entry>) {
    && (forall e :: e in changed ==> e in r.files)
    && (forall i, j :: 0 <= i < j < |changed| ==> changed[i].path != changed[j].path)
    && (forall e :: e in r.files && e !in changed ==> At(base, e.path) == Some(e.content))
  }

  // Coverage: what an apply writes or removes is in its snapshot.
  ghost predicate CoversPlan(ch: Change, r: Rendering, changed: seq<Entry>) {
    && RouterYaml in ch.snap.covered && SecretsYaml in ch.snap.covered
    && (forall e :: e in changed ==> e.path in ch.snap.covered)
    && (forall p :: p in r.orphans ==> p in ch.snap.covered)
    && (forall p :: p in Orphans(ch.base.live, r.wants) ==> p in ch.snap.covered)
  }

  lemma InPlaceSame(before: Files, f: Files, g: Files, r: Rendering, cand: Option<Candidate>, stuck: set<Path>)
    requires ValidRendering(r) && InPlace(before, f, r, cand, stuck)
    requires forall p :: Managed(p) ==> At(g, p) == At(f, p)
    ensures InPlace(before, g, r, cand, stuck)
  {
    forall e | e in r.files
      ensures At(g, e.path) == Some(e.content)
    {
      assert Managed(e.path);
    }
  }

  lemma OwnedApply(ch: Change, r: Rendering, changed: seq<Entry>, ops: seq<Op>)
    requires WellFormed(ch.snap) && CoversPlan(ch, r, changed)
    requires ApplyWrites(r, changed, ch.base.live, ops)
    ensures AllOwned(ch, ops)
  {
    forall op | op in ops
      ensures Owned(ch, op)
    {
      if exists e :: e in changed && e.path == op.path {
        var e :| e in changed && e.path == op.path;
        assert Managed(op.path);
      }
    }
  }

  lemma ClaimKeepsRejected(ch: Change, rec: MarkerRecord)
    ensures forall p: Path :: p.Rejected? ==> At(Run(ch.base, ClaimOps(ch, rec)).live, p) == At(ch.base.live, p)
  {
    forall p: Path | p.Rejected?
      ensures At(Run(ch.base, ClaimOps(ch, rec)).live, p) == At(ch.base.live, p)
    {
      RunKeeps(ch.base, ClaimOps(ch, rec), p);
    }
  }

  lemma ClaimKeepsFiles(ch: Change, rec: MarkerRecord)
    ensures forall p :: Managed(p) ==> At(Run(ch.base, ClaimOps(ch, rec)).live, p) == At(ch.base.live, p)
  {
    forall p | Managed(p)
      ensures At(Run(ch.base, ClaimOps(ch, rec)).live, p) == At(ch.base.live, p)
    {
      RunKeeps(ch.base, ClaimOps(ch, rec), p);
    }
  }

  lemma ChangeRun(ch: Change, rec: MarkerRecord, body: seq<Op>, after: seq<Op>)
    ensures Run(ch.base, ChangeOps(ch, rec, body, after)) ==
            Run(Run(Run(Run(ch.base, ClaimOps(ch, rec)), body), SETTLE_OPS), after)
  {
    RunAppend(ch.base, ClaimOps(ch, rec), body);
    RunAppend(ch.base, ClaimOps(ch, rec) + body, SETTLE_OPS);
    RunAppend(ch.base, ClaimOps(ch, rec) + body + SETTLE_OPS, after);
  }

  ghost predicate WrittenByApply(r: Rendering, changed: seq<Entry>, base: Files, p: Path) {
    || p in {RouterYaml, SecretsYaml, StagedYaml, StagedSecrets}
    || (exists e :: e in changed && e.path == p)
    || p in r.orphans
    || p in Orphans(base, r.wants)
  }

  // What is saved of a file, and what rolling the change back brings: the files of before, but for an edit
  // in place the config files as last accepted, where there is a record of that.
  function Before(f: Files, candidate: bool, p: Path): Option<Content> {
    if !candidate && p == RouterYaml && AcceptedYaml in f then At(f, AcceptedYaml)
    else if !candidate && p == RouterYaml && Generated("applied.yaml") in f then At(f, Generated("applied.yaml"))
    else if !candidate && p == SecretsYaml && AcceptedSecrets in f then At(f, AcceptedSecrets)
    else At(f, p)
  }

  ghost predicate SavesBefore(ch: Change, before: Files, candidate: bool) {
    && RouterYaml in ch.snap.covered && SecretsYaml in ch.snap.covered
    && forall p :: p in ch.snap.covered ==> SavedIn(ch.snap.entries, p) == Before(before, candidate, p)
  }

  function PathsOf(es: seq<Entry>): seq<Path> {
    if es == [] then [] else [es[0].path] + PathsOf(es[1..])
  }

  lemma {:induction false} PathsOfAre(es: seq<Entry>, p: Path)
    ensures p in PathsOf(es) <==> exists e :: e in es && e.path == p
    decreases |es|
  {
    if es != [] {
      PathsOfAre(es[1..], p);
      assert es == [es[0]] + es[1..];
    }
  }

  lemma SnapshotWellFormed(f: Files, paths: seq<Path>, src: map<Path, Path>)
    requires forall p :: p in paths ==> Managed(p)
    ensures WellFormed(Snapshot(Saved(f, paths, src), paths))
    ensures forall p :: p in paths ==> SavedIn(Saved(f, paths, src), p) == At(f, Source(src, p))
  {
    SavedPaths(f, paths, src);
    forall p
      ensures SavedIn(Saved(f, paths, src), p) == if p in paths then At(f, Source(src, p)) else None
    {
      SavedExactly(f, paths, src, p);
    }
  }

  lemma SameOrphans(base: Files, written: Files, r: Rendering, changed: seq<Entry>)
    requires ValidRendering(r)
    requires forall e :: e in changed ==> e in r.files
    requires forall p ::
               Managed(p) && p != RouterYaml && p != SecretsYaml && (forall e :: e in changed ==> e.path != p) ==>
                 At(written, p) == At(base, p)
    ensures Orphans(written, r.wants) == Orphans(base, r.wants)
  {
    forall p: Path | p.WanFile? && p !in r.wants
      ensures (p in written) == (p in base)
    {
      assert forall e :: e in changed ==> e.path != p;
      assert At(written, p) == At(base, p);
    }
  }

  function CandidateAt(f: Files, cand: Option<Candidate>, p: Path): Option<Content> {
    if cand.Some? && p == RouterYaml then Some(cand.value.yaml)
    else if cand.Some? && p == SecretsYaml then Some(cand.value.secrets)
    else At(f, p)
  }

  lemma InPlaceFrom(base: Files, written: Files, final: Files, r: Rendering, changed: seq<Entry>,
                    cand: Option<Candidate>, stuck: set<Path>)
    requires ValidRendering(r) && PlanOf(r, base, changed)
    requires forall e :: e in changed ==> At(written, e.path) == Some(e.content)
    requires forall p :: Managed(p) && (forall e :: e in changed ==> e.path != p) ==>
                           At(written, p) == CandidateAt(base, cand, p)
    requires stuck <= Orphans(base, r.wants)
    requires forall p :: At(final, p) ==
                         if p in r.orphans || (p in Orphans(base, r.wants) && p !in stuck) then None else At(written, p)
    requires At(written, StagedYaml) == At(written, RouterYaml) &&
             At(written, StagedSecrets) == At(written, SecretsYaml)
    ensures InPlaceStaged(base, final, r, cand, stuck)
  {
    forall e | e in r.files
      ensures At(final, e.path) == Some(e.content)
    {
      if e !in changed {
        assert forall x :: x in changed ==> x.path != e.path;
        assert At(written, e.path) == CandidateAt(base, cand, e.path);
      }
    }
  }

  lemma OwnedRestore(ch: Change, ops: seq<Op>)
    requires WellFormed(ch.snap)
    requires forall op :: op in ops ==>
               op.Put? && (op.path in ch.snap.covered || op.path.Rejected? || op.path in {StagedYaml, StagedSecrets})
    ensures AllOwned(ch, ops)
  {
  }

  lemma RollbackRestores(ch: Change, start: Store, after: Files, kept: set<Path>)
    requires Open(ch, start)
    requires forall p :: p in kept ==> p.WanFile? && p in ch.snap.covered && SavedIn(ch.snap.entries, p) == None
    requires forall p :: Managed(p) ==>
               At(after, p) == if p in kept then At(start.live, p) else PutBackAt(start.live, ch.snap, p)
    ensures RolledBackExcept(ch, after, kept)
  {
    forall p | Managed(p) && p !in kept
      ensures if p !in ch.snap.covered then At(after, p) in May(ch.base, p)
              else if p == SecretsYaml then SameButPassword(At(after, p), SavedIn(ch.snap.entries, p))
              else At(after, p) == SavedIn(ch.snap.entries, p)
    {
      assert At(start.live, p) in May(start, p);
      var c := SavedIn(ch.snap.entries, p);
      if p == SecretsYaml && c.Some? {
        KeepPasswordRest(c.value, At(start.live, p));
      }
    }
  }
}
