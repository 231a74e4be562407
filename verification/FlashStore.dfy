/** The router's flash file system as the apply code relies on it.

    A rename (writeAtomic) or a remove is visible to every process at once, but reaches the flash
    only when it is synced: until then a power cut may show any value the file had since the last
    sync, each file on its own.  `may` holds those values for the files with unsynced changes. */
module FlashStore {
  import opened Wrappers

  datatype Path =
    | RouterYaml
    | SecretsYaml
    | Generated(name: string)
    | WanFile(service: string, name: string)  // per-WAN init script or ppp peer of a service
    | AcceptedYaml
    | AcceptedSecrets
    | StagedYaml
    | StagedSecrets
    | Rejected(name: string)
    | SnapshotFile(id: nat)
    | Marker
    | MarkerAside

  datatype MarkerState = Applying | Pending | Reverting

  datatype MarkerRecord = MarkerRecord(snapshot: nat, state: MarkerState)

  datatype Entry = Entry(path: Path, content: Content)

  // A history archive: the files found, in order, and the list of every path it stands for.
  datatype Snapshot = Snapshot(entries: seq<Entry>, covered: seq<Path>)

  datatype Content =
    | Text(text: string)
    | Secrets(keys: map<string, string>)  // text that decodes as a string map
    | Record(marker: MarkerRecord)
    | Archive(snap: Snapshot)

  type Files = map<Path, Content>

  datatype Store = Store(live: Files, may: map<Path, set<Option<Content>>>)

  datatype Op =
    | Put(path: Path, value: Option<Content>)  // one rename into place, or one remove
    | SyncOne(path: Path)
    | SyncAll

  function At(f: Files, p: Path): Option<Content> {
    if p in f then Some(f[p]) else None
  }

  function May(s: Store, p: Path): set<Option<Content>> {
    if p in s.may then s.may[p] else {At(s.live, p)}
  }

  function PutFile(f: Files, p: Path, v: Option<Content>): Files {
    if v.Some? then f[p := v.value] else f - {p}
  }

  function Step(s: Store, op: Op): Store {
    match op
    case Put(p, v) => Store(PutFile(s.live, p, v), s.may[p := May(s, p) + {v}])
    case SyncOne(p) => Store(s.live, s.may - {p})
    case SyncAll => Store(s.live, map[])
  }

  function Run(s: Store, ops: seq<Op>): Store {
    if ops == [] then s else Step(Run(s, ops[..|ops| - 1]), ops[|ops| - 1])
  }

  // What the next boot may find when the power goes while the store is s.
  ghost predicate CrashImage(s: Store, d: Files) {
    forall p :: At(d, p) in May(s, p)
  }

  function Boots(d: Files): Store {
    Store(d, map[])
  }

  // The values flash may show always include the live one.
  ghost predicate Sound(s: Store) {
    forall p :: At(s.live, p) in May(s, p)
  }

  lemma {:induction false} RunAppend(s: Store, a: seq<Op>, b: seq<Op>)
    ensures Run(s, a + b) == Run(Run(s, a), b)
    decreases |b|
  {
    if b == [] {
      assert a + b == a;
    } else {
      var ab := a + b;
      assert ab[..|ab| - 1] == a + b[..|b| - 1];
      RunAppend(s, a, b[..|b| - 1]);
    }
  }

  lemma RunOne(s: Store, a: Op)
    ensures Run(s, [a]) == Step(s, a)
  {
    assert [a][..0] == [];
  }

  lemma RunTwo(s: Store, a: Op, b: Op)
    ensures Run(s, [a, b]) == Step(Step(s, a), b)
  {
    assert [a, b][..1] == [a];
    RunOne(s, a);
  }

  lemma RunThree(s: Store, a: Op, b: Op, c: Op)
    ensures Run(s, [a, b, c]) == Step(Step(Step(s, a), b), c)
  {
    assert [a, b, c][..2] == [a, b];
    RunTwo(s, a, b);
  }

  // A file no operation of the list names keeps its content and its crash values.
  lemma {:induction false} RunKeeps(s: Store, ops: seq<Op>, p: Path)
    requires forall i :: 0 <= i < |ops| ==> !(ops[i].Put? && ops[i].path == p)
    ensures At(Run(s, ops).live, p) == At(s.live, p)
    ensures Sound(s) ==> May(Run(s, ops), p) <= May(s, p)
  {
    if ops != [] {
      RunKeeps(s, ops[..|ops| - 1], p);
    }
  }

  lemma StepSound(s: Store, op: Op)
    requires Sound(s)
    ensures Sound(Step(s, op))
  {
    forall p ensures At(Step(s, op).live, p) in May(Step(s, op), p) {
      assert At(s.live, p) in May(s, p);
    }
  }

  lemma {:induction false} RunSound(s: Store, ops: seq<Op>)
    requires Sound(s)
    ensures Sound(Run(s, ops))
  {
    if ops != [] {
      RunSound(s, ops[..|ops| - 1]);
      StepSound(Run(s, ops[..|ops| - 1]), ops[|ops| - 1]);
    }
  }

  // A synced file comes back exactly as it is.
  lemma SyncedImage(s: Store, d: Files, p: Path)
    requires CrashImage(s, d)
    requires p !in s.may
    ensures At(d, p) == At(s.live, p)
  {
    assert At(d, p) in May(s, p);
  }
}
