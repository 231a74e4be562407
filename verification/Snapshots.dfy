/** History archives: what a snapshot saves, and the operations that put it back (restore). */
module Snapshots {
  import opened Wrappers
  import opened FlashStore

  const PASSWORD_KEY := "webui_password"

  // The files a change owns. Every other path is bookkeeping (history, accepted copies, the marker).
  predicate Managed(p: Path) {
    p.RouterYaml? || p.SecretsYaml? || p.Generated? || p.WanFile?
  }

  predicate HasPassword(c: Option<Content>) {
    c.Some? && c.value.Secrets? && PASSWORD_KEY in c.value.keys
  }

  // secrets.yaml data with the web password as it is now, so that a password set while a change
  // was pending survives the change's rollback.
  function KeepPassword(data: Content, live: Option<Content>): Content {
    if data.Secrets? && HasPassword(live)
    then Secrets(data.keys[PASSWORD_KEY := live.value.keys[PASSWORD_KEY]])
    else data
  }

  lemma KeepPasswordTwice(c: Content, live: Option<Content>)
    ensures KeepPassword(c, Some(KeepPassword(c, live))) == KeepPassword(c, live)
  {
    if c.Secrets? && HasPassword(live) {
      assert KeepPassword(c, live).keys[PASSWORD_KEY := live.value.keys[PASSWORD_KEY]] == KeepPassword(c, live).keys;
    } else if HasPassword(Some(c)) {
      assert c.keys[PASSWORD_KEY := c.keys[PASSWORD_KEY]] == c.keys;
    }
  }

  predicate SameButPassword(a: Option<Content>, b: Option<Content>) {
    || a == b
    || (a.Some? && b.Some? && a.value.Secrets? && b.value.Secrets? &&
        a.value.keys - {PASSWORD_KEY} == b.value.keys - {PASSWORD_KEY})
  }

  // What an archive holds for p: the last entry wins, as the last write does.
  function SavedIn(es: seq<Entry>, p: Path): Option<Content> {
    if es == [] then None
    else
      var later := SavedIn(es[1..], p);
      if later.Some? then later
      else if es[0].path == p then Some(es[0].content)
      else None
  }

  function Source(src: map<Path, Path>, p: Path): Path {
    if p in src then src[p] else p
  }

  // The entries a snapshot of paths gets; src redirects some paths to the accepted copies.
  function Saved(f: Files, paths: seq<Path>, src: map<Path, Path>): seq<Entry> {
    if paths == [] then []
    else
      (if Source(src, paths[0]) in f then [Entry(paths[0], f[Source(src, paths[0])])] else [])
      + Saved(f, paths[1..], src)
  }

  lemma {:induction false} SavedExactly(f: Files, paths: seq<Path>, src: map<Path, Path>, p: Path)
    ensures SavedIn(Saved(f, paths, src), p) == if p in paths then At(f, Source(src, p)) else None
  {
    if paths != [] {
      SavedExactly(f, paths[1..], src, p);
      var es := Saved(f, paths, src);
      if Source(src, paths[0]) in f {
        assert es[1..] == Saved(f, paths[1..], src);
      } else {
        assert es == Saved(f, paths[1..], src);
      }
    }
  }

  lemma {:induction false} SavedPaths(f: Files, paths: seq<Path>, src: map<Path, Path>)
    ensures forall e :: e in Saved(f, paths, src) ==>
                          e.path in paths && At(f, Source(src, e.path)) == Some(e.content)
  {
    if paths != [] {
      SavedPaths(f, paths[1..], src);
    }
  }

  ghost predicate WellFormed(snap: Snapshot) {
    && (forall p :: p in snap.covered ==> Managed(p))
    && (forall e :: e in snap.entries ==> e.path in snap.covered && SavedIn(snap.entries, e.path) == Some(e.content))
  }

  // ---- restore ----

  function EntryOp(f: Files, e: Entry): Op {
    Put(e.path, Some(if e.path == SecretsYaml then KeepPassword(e.content, At(f, SecretsYaml)) else e.content))
  }

  function EntryOps(f: Files, es: seq<Entry>): seq<Op>
    decreases |es|
  {
    if es == [] then []
    else [EntryOp(f, es[0])] + EntryOps(PutFile(f, es[0].path, EntryOp(f, es[0]).value), es[1..])
  }

  function RemoveOps(covered: seq<Path>, es: seq<Entry>): seq<Op> {
    if covered == [] then []
    else (if SavedIn(es, covered[0]) == None then [Put(covered[0], None)] else []) + RemoveOps(covered[1..], es)
  }

  function RestoreOps(f: Files, snap: Snapshot): seq<Op> {
    EntryOps(f, snap.entries) + RemoveOps(snap.covered, snap.entries)
  }

  // What a restore leaves at p, starting from the files f.
  function PutBackAt(f: Files, snap: Snapshot, p: Path): Option<Content> {
    if p !in snap.covered then At(f, p)
    else
      var c := SavedIn(snap.entries, p);
      if c.Some? && p == SecretsYaml then Some(KeepPassword(c.value, At(f, p))) else c
  }

  ghost predicate Consistent(es: seq<Entry>, whole: seq<Entry>) {
    forall e :: e in es ==> SavedIn(whole, e.path) == Some(e.content)
  }

  lemma {:induction false} EntryOpsEffect(s: Store, es: seq<Entry>, whole: seq<Entry>, p: Path)
    requires Consistent(es, whole)
    ensures At(Run(s, EntryOps(s.live, es)).live, p) ==
            var c := SavedIn(es, p);
            if c == None then At(s.live, p)
            else if p == SecretsYaml then Some(KeepPassword(c.value, At(s.live, p))) else c
    decreases |es|
  {
    if es != [] {
      var op := EntryOp(s.live, es[0]);
      var s1 := Step(s, op);
      var rest := EntryOps(s1.live, es[1..]);
      RunAppend(s, [op], rest);
      assert Run(s, [op]) == s1 by { assert [op][..0] == []; }
      EntryOpsEffect(s1, es[1..], whole, p);
      SavedHasEntry(es[1..], p);
      if p == SecretsYaml && es[0].path == p {
        assert Consistent([es[0]], whole);
        KeepPasswordTwice(es[0].content, At(s.live, p));
      }
    }
  }

  lemma {:induction false} SavedHasEntry(es: seq<Entry>, p: Path)
    ensures SavedIn(es, p).Some? ==> Entry(p, SavedIn(es, p).value) in es
    ensures SavedIn(es, p).None? ==> forall e :: e in es ==> e.path != p
  {
    if es != [] {
      SavedHasEntry(es[1..], p);
    }
  }

  lemma {:induction false} RemoveOpsEffect(s: Store, covered: seq<Path>, es: seq<Entry>, p: Path)
    ensures At(Run(s, RemoveOps(covered, es)).live, p) ==
            if p in covered && SavedIn(es, p) == None then None else At(s.live, p)
    decreases |covered|
  {
    if covered != [] {
      var first := if SavedIn(es, covered[0]) == None then [Put(covered[0], None)] else [];
      var rest := RemoveOps(covered[1..], es);
      var s1 := Run(s, first);
      assert s1.live == if first == [] then s.live else s.live - {covered[0]} by {
        if first != [] {
          assert first[..|first| - 1] == [];
          assert Run(s, []) == s;
        }
      }
      RunAppend(s, first, rest);
      RemoveOpsEffect(s1, covered[1..], es, p);
    }
  }

  /** A restore puts every covered path back as the archive has it (secrets.yaml with the current
      password) and leaves every other path alone, whatever state it starts from. */
  lemma RestoreEffect(s: Store, snap: Snapshot, p: Path)
    requires WellFormed(snap)
    ensures At(Run(s, RestoreOps(s.live, snap)).live, p) == PutBackAt(s.live, snap, p)
  {
    var writes, removes := EntryOps(s.live, snap.entries), RemoveOps(snap.covered, snap.entries);
    RunAppend(s, writes, removes);
    EntryOpsEffect(s, snap.entries, snap.entries, p);
    RemoveOpsEffect(Run(s, writes), snap.covered, snap.entries, p);
    SavedHasEntry(snap.entries, p);
  }

  lemma {:induction false} RestoreTouches(f: Files, snap: Snapshot)
    requires WellFormed(snap)
    ensures forall op :: op in RestoreOps(f, snap) ==> op.Put? && op.path in snap.covered
  {
    EntryOpsTouch(f, snap.entries);
    RemoveOpsTouch(snap.covered, snap.entries);
  }

  lemma {:induction false} EntryOpsTouch(f: Files, es: seq<Entry>)
    ensures forall op :: op in EntryOps(f, es) ==> op.Put? && exists e :: e in es && e.path == op.path
    decreases |es|
  {
    if es != [] {
      var op0 := EntryOp(f, es[0]);
      var f1 := PutFile(f, es[0].path, op0.value);
      EntryOpsTouch(f1, es[1..]);
      forall op | op in EntryOps(f, es)
        ensures op.Put? && exists e :: e in es && e.path == op.path
      {
        if op == op0 {
          assert es[0] in es && es[0].path == op.path;
        } else {
          assert op in EntryOps(f1, es[1..]);
          var e :| e in es[1..] && e.path == op.path;
          assert e in es;
        }
      }
    }
  }

  lemma {:induction false} RemoveOpsTouch(covered: seq<Path>, es: seq<Entry>)
    ensures forall op :: op in RemoveOps(covered, es) ==> op.Put? && op.path in covered
  {
    if covered != [] {
      RemoveOpsTouch(covered[1..], es);
    }
  }
}
