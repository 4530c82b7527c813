/** The directories that hold the bot tokens, as values: names to inodes, inodes
    to files, and the bookkeeping that says what other processes would see had
    the installer never run. */
module CredentialDisk {
  import opened Wrappers

  /** Staged files have names of their own, derived from their destination. */
  datatype Path =
    | Destination(dir: string, name: string)
    | Temporary(dir: string, name: string, tag: nat)

  /** `plain`: a regular file owned by the current user. */
  datatype File = File(content: string, mode: nat, plain: bool)

  /** What another process does to a destination: unlink it, or put a file there
      (a rename, a creation or a write in place). */
  datatype Act = Idle | Remove(path: Path) | Put(path: Path, inode: nat, file: File)

  datatype Disk = Disk(
    entries: map<Path, nat>,
    files: map<nat, File>,
    next: nat,
    held: set<nat>,             // inodes the installer keeps a descriptor on
    ours: map<Path, nat>,       // destinations now showing a file of the installer
    outside: map<Path, File>,   // destinations as the others left them
    touched: set<Path>,         // destinations the others acted on since the start
    troubles: nat)              // failed calls (but see `DropStaged`), moved directories, exhausted names

  datatype Snapshot = Missing | Existing(inode: nat, file: File)

  datatype Target = Target(
    path: Path,
    token: string,
    snapshot: Snapshot,
    staged: Option<Path>,
    identity: Option<nat>,
    committed: Option<nat>)

  const PRIVATE_MODE: nat := 384      // 0o600
  const LARGEST: nat := 4096

  /** What a reader of this name finds. */
  function Seen(d: Disk, p: Path): Option<File> {
    if p in d.entries then Lookup(d.files, d.entries[p]) else None
  }

  function SeenBefore(s: Snapshot): Option<File> {
    match s
    case Missing => None
    case Existing(_, file) => Some(file)
  }

  predicate StagedFor(name: Path, p: Path) { name.Temporary? && name.dir == p.dir && name.name == p.name }

  /** A file the snapshot accepts: plain, private, small. */
  predicate Acceptable(file: File) { file.plain && file.mode % 64 == 0 && |file.content| <= 4096 }

  ghost function SnapshotNow(d: Disk, p: Path): Snapshot {
    if p in d.entries && d.entries[p] in d.files then Existing(d.entries[p], d.files[d.entries[p]]) else Missing
  }

  function TokenFile(token: string): File { File(token + "\n", PRIVATE_MODE, true) }

  // ------------------------------------------------------------ invariant

  ghost predicate FilesOk(d: Disk) {
    && (forall p :: p in d.entries ==> d.entries[p] in d.files)
    && (forall i :: i in d.files ==> i < d.next)
    && d.held <= d.files.Keys
  }

  ghost predicate OursOk(d: Disk) {
    && (forall p :: p in d.ours ==> p.Destination? && p in d.entries && d.entries[p] == d.ours[p] && d.ours[p] in d.held)
    && (forall p :: p in d.entries && p.Destination? && d.entries[p] in d.held ==> p in d.ours)
  }

  /** Away from the installer's files, readers see what the others left. */
  ghost predicate ViewOk(d: Disk) {
    forall p: Path :: p.Destination? && p !in d.ours ==> Seen(d, p) == Lookup(d.outside, p)
  }

  ghost predicate DiskOk(d: Disk) { FilesOk(d) && OursOk(d) && ViewOk(d) }

  ghost predicate StagedOk(d: Disk, t: Target) {
    t.staged.Some? ==>
      && t.identity.Some? && t.committed == None
      && StagedFor(t.staged.value, t.path)
      && Lookup(d.entries, t.staged.value) == t.identity
  }

  ghost predicate CommittedOk(d: Disk, t: Target) {
    t.committed.Some? ==>
      && t.identity == t.committed
      && (t.path in d.ours ==> d.ours[t.path] == t.committed.value && Lookup(d.outside, t.path) == SeenBefore(t.snapshot))
  }

  ghost predicate TargetOk(d: Disk, t: Target) {
    && t.path.Destination? && (t.snapshot.Existing? ==> Acceptable(t.snapshot.file))
    && (t.identity.Some? ==> t.identity.value in d.held && Lookup(d.files, t.identity.value) == Some(TokenFile(t.token)))
    && StagedOk(d, t)
    && CommittedOk(d, t)
  }

  ghost predicate TargetsOk(d: Disk, ts: seq<Target>) {
    && (forall i :: 0 <= i < |ts| ==> TargetOk(d, ts[i]))
    && (forall i, j :: 0 <= i < j < |ts| ==> ts[i].path != ts[j].path)
  }

  /** Unless another process acted on it, a destination shows its token once
      committed and what the snapshot saw before that. */
  ghost predicate Undisturbed(d: Disk, t: Target) {
    t.path !in d.touched ==>
      if t.committed.Some? then t.path in d.ours else t.path !in d.ours && SnapshotNow(d, t.path) == t.snapshot
  }

  ghost predicate Calm(d: Disk, ts: seq<Target>) {
    forall i :: 0 <= i < |ts| ==> Undisturbed(d, ts[i])
  }

  /** A token linked to its destination without being recorded as committed. */
  ghost predicate StrayOk(d: Disk, ts: seq<Target>, stray: Option<nat>) {
    stray.Some? ==>
      && stray.value < |ts|
      && var t := ts[stray.value];
      && t.committed == None && t.identity.Some? && t.snapshot.Missing?
      && (t.path !in d.touched ==>
            t.path in d.ours && d.ours[t.path] == t.identity.value && Lookup(d.outside, t.path) == None)
  }

  /** What only grows, and what the others left where they did not act. */
  ghost predicate Later(d0: Disk, d1: Disk) {
    && d0.troubles <= d1.troubles && d0.touched <= d1.touched && d0.files.Keys <= d1.files.Keys
    && forall p :: p !in d1.touched ==> Lookup(d1.outside, p) == Lookup(d0.outside, p)
  }

  /** All a target's invariant depends on. */
  ghost predicate Keeps(d0: Disk, d1: Disk, t: Target) {
    && (t.staged.Some? ==> Lookup(d1.entries, t.staged.value) == Lookup(d0.entries, t.staged.value))
    && (t.identity.Some? && t.identity.value in d0.held ==>
          t.identity.value in d1.held && Lookup(d1.files, t.identity.value) == Lookup(d0.files, t.identity.value))
    && (t.path in d1.ours ==>
          t.path in d0.ours && d1.ours[t.path] == d0.ours[t.path] && Lookup(d1.outside, t.path) == Lookup(d0.outside, t.path))
  }

  lemma KeptTarget(d0: Disk, d1: Disk, t: Target)
    requires TargetOk(d0, t) && Keeps(d0, d1, t)
    ensures TargetOk(d1, t)
  {
  }

  // ------------------------------------------------------ the others' acts

  function Interfere(d: Disk, a: Act): Disk {
    match a
    case Idle => d
    case Remove(p) =>
      if !p.Destination? then d
      else d.(entries := d.entries - {p}, ours := d.ours - {p}, outside := d.outside - {p},
              touched := d.touched + {p})
    case Put(p, id, file) =>
      if !p.Destination? || id in d.held || (exists q :: q in d.entries && q != p && d.entries[q] == id) then d
      else d.(entries := d.entries[p := id], files := d.files[id := file], next := if id < d.next then d.next else id + 1,
              ours := d.ours - {p}, outside := d.outside[p := file], touched := d.touched + {p})
  }

  lemma InterfereKeeps(d: Disk, a: Act)
    requires DiskOk(d)
    ensures DiskOk(Interfere(d, a))
  {
    var e := Interfere(d, a);
    forall p: Path | p.Destination? && p !in e.ours
      ensures Seen(e, p) == Lookup(e.outside, p)
    {
      if !a.Idle? && p != a.path { assert p in d.ours ==> p in e.ours; }
    }
  }

  /** Where the others did not act, what is there is the same. */
  ghost predicate Steady(d0: Disk, d1: Disk) {
    forall p: Path :: p.Destination? && p !in d1.touched ==> SnapshotNow(d1, p) == SnapshotNow(d0, p)
  }

  lemma SteadyTrans(a: Disk, b: Disk, c: Disk)
    requires Steady(a, b) && Steady(b, c) && b.touched <= c.touched
    ensures Steady(a, c)
  {
  }

  lemma InterfereIsSteady(d: Disk, a: Act)
    requires DiskOk(d)
    ensures Steady(d, Interfere(d, a))
  {
    var e := Interfere(d, a);
    forall p: Path | p.Destination? && p !in e.touched
      ensures SnapshotNow(e, p) == SnapshotNow(d, p)
    {
      if !a.Idle? && e != d { assert p != a.path; }
    }
  }

  /** The others acted on one of these destinations. */
  ghost predicate Hit(d: Disk, paths: set<Path>) { d.touched * paths != {} }

  lemma HitBy(d: Disk, paths: set<Path>, p: Path)
    requires p in d.touched && p in paths
    ensures Hit(d, paths)
  {
    assert p in d.touched * paths;
  }

  lemma HitStays(d0: Disk, d1: Disk, some: set<Path>, more: set<Path>)
    requires d0.touched <= d1.touched && some <= more
    ensures Hit(d0, some) ==> Hit(d1, more)
  {
    if Hit(d0, some) {
      var p :| p in d0.touched * some;
      HitBy(d1, more, p);
    }
  }

  lemma InterfereKeepsTarget(d: Disk, a: Act, t: Target)
    requires DiskOk(d) && TargetOk(d, t)
    ensures TargetOk(Interfere(d, a), t)
    ensures Undisturbed(d, t) ==> Undisturbed(Interfere(d, a), t)
  {
    InterfereKeeps(d, a);
    hide ViewOk;
    KeptTarget(d, Interfere(d, a), t);
  }

  lemma InterfereKeepsAll(d: Disk, a: Act, ts: seq<Target>)
    requires DiskOk(d) && TargetsOk(d, ts)
    ensures
      var e := Interfere(d, a);
      && DiskOk(e) && TargetsOk(e, ts) && (Calm(d, ts) ==> Calm(e, ts))
      && Later(d, e) && e.ours.Keys <= d.ours.Keys && d.ours.Keys - e.touched <= e.ours.Keys && Steady(d, e)
      && forall stray :: StrayOk(d, ts, stray) ==> StrayOk(e, ts, stray)
  {
    InterfereKeeps(d, a);
    InterfereIsSteady(d, a);
    assert d.ours.Keys - Interfere(d, a).touched <= Interfere(d, a).ours.Keys;
    forall i | 0 <= i < |ts|
      ensures TargetOk(Interfere(d, a), ts[i])
      ensures Undisturbed(d, ts[i]) ==> Undisturbed(Interfere(d, a), ts[i])
    {
      InterfereKeepsTarget(d, a, ts[i]);
    }
    hide TargetOk, DiskOk, Undisturbed, Steady;
  }

  // --------------------------------------------------- the installer's acts

  function Create(d: Disk, p: Path, file: File): Disk {
    d.(entries := d.entries[p := d.next], files := d.files[d.next := file], next := d.next + 1, held := d.held + {d.next})
  }

  function Rewrite(d: Disk, id: nat, file: File): Disk { d.(files := d.files[id := file]) }

  function Unlink(d: Disk, p: Path): Disk { d.(entries := d.entries - {p}) }

  /** A staged file appears at its destination; the staged name stays. */
  function Place(d: Disk, from: Path, p: Path): Disk
    requires from in d.entries
  {
    d.(entries := d.entries[p := d.entries[from]], ours := d.ours[p := d.entries[from]])
  }

  /** A copy of the original takes the place of the installer's file. */
  function GiveBack(d: Disk, from: Path, p: Path): Disk
    requires from in d.entries
  {
    d.(entries := d.entries[p := d.entries[from]] - {from}, ours := d.ours - {p}, held := d.held - {d.entries[from]})
  }

  function Withdraw(d: Disk, p: Path): Disk { d.(entries := d.entries - {p}, ours := d.ours - {p}) }

  lemma CreateKeeps(d: Disk, p: Path, file: File)
    requires DiskOk(d) && p.Temporary? && p !in d.entries
    ensures DiskOk(Create(d, p, file))
  {
    var e := Create(d, p, file);
    assert forall q: Path :: q.Destination? ==> Seen(e, q) == Seen(d, q);
  }

  lemma CreateStages(d: Disk, p: Path, name: Path, file: File)
    requires DiskOk(d) && StagedFor(name, p) && name !in d.entries
    ensures
      var e := Create(d, name, file);
      DiskOk(e) && Staging(d, e, p) && Lookup(e.entries, name) == Some(d.next) && d.next !in d.files && d.next !in d.held
  {
    CreateKeeps(d, name, file);
  }

  lemma TroubleKeeps(d: Disk, p: Path, troubles: nat)
    requires DiskOk(d) && d.troubles <= troubles
    ensures DiskOk(d.(troubles := troubles)) && Staging(d, d.(troubles := troubles), p)
  {
    assert forall q: Path :: Seen(d.(troubles := troubles), q) == Seen(d, q);
  }

  lemma StagingTrans(d0: Disk, d1: Disk, d2: Disk, p: Path)
    requires Staging(d0, d1, p) && Staging(d1, d2, p)
    ensures Staging(d0, d2, p)
  {
  }

  lemma RewriteKeeps(d: Disk, id: nat, file: File)
    requires DiskOk(d) && id in d.held
    ensures DiskOk(Rewrite(d, id, file))
  {
    var e := Rewrite(d, id, file);
    forall q: Path | q.Destination? && q !in d.ours
      ensures Seen(e, q) == Seen(d, q)
    {
    }
  }

  /** Writing to a file made while staging is still staging. */
  lemma RewriteStages(d0: Disk, d1: Disk, d2: Disk, p: Path, id: nat)
    requires DiskOk(d1) && Staging(d0, d1, p) && id in d1.held && id !in d0.files && id in d2.files
    requires d2 == Rewrite(d1, id, d2.files[id]).(troubles := d2.troubles) && d1.troubles <= d2.troubles
    ensures DiskOk(d2) && Staging(d0, d2, p)
  {
    RewriteKeeps(d1, id, d2.files[id]);
    TroubleKeeps(Rewrite(d1, id, d2.files[id]), p, d2.troubles);
  }

  lemma UnlinkKeeps(d: Disk, p: Path)
    requires DiskOk(d) && p.Temporary?
    ensures DiskOk(Unlink(d, p))
  {
    assert forall q: Path :: q.Destination? ==> Seen(Unlink(d, p), q) == Seen(d, q);
  }

  lemma PlaceKeeps(d: Disk, from: Path, p: Path)
    requires DiskOk(d) && p.Destination? && from in d.entries && d.entries[from] in d.held
    ensures DiskOk(Place(d, from, p))
  {
    var e := Place(d, from, p);
    forall q: Path | q.Destination? && q !in e.ours
      ensures Seen(e, q) == Lookup(e.outside, q)
    {
      assert q != p && q !in d.ours;
    }
  }

  lemma GiveBackKeeps(d: Disk, from: Path, p: Path)
    requires DiskOk(d) && p.Destination? && from.Temporary? && from in d.entries
    requires forall q :: q in d.ours ==> d.ours[q] != d.entries[from]
    requires Lookup(d.files, d.entries[from]) == Lookup(d.outside, p)
    ensures DiskOk(GiveBack(d, from, p))
  {
    var e := GiveBack(d, from, p);
    forall q: Path | q.Destination? && q !in e.ours
      ensures Seen(e, q) == Lookup(e.outside, q)
    {
      if q != p { assert q !in d.ours; }
    }
  }

  lemma WithdrawKeeps(d: Disk, p: Path)
    requires DiskOk(d) && Lookup(d.outside, p) == None
    ensures DiskOk(Withdraw(d, p))
  {
    var e := Withdraw(d, p);
    forall q: Path | q.Destination? && q !in e.ours
      ensures Seen(e, q) == Lookup(e.outside, q)
    {
      if q != p { assert q !in d.ours; }
    }
  }

  /** Staging for one destination: only names derived from it come and go. */
  ghost predicate Staging(d0: Disk, d1: Disk, p: Path) {
    && d1.ours == d0.ours && d1.outside == d0.outside && d1.touched == d0.touched
    && d0.troubles <= d1.troubles && d0.held <= d1.held
    && (forall q: Path :: !StagedFor(q, p) ==> Lookup(d1.entries, q) == Lookup(d0.entries, q))
    && (forall i :: i in d0.files ==> Lookup(d1.files, i) == Lookup(d0.files, i))
  }

  lemma StagingKeepsTarget(d0: Disk, d1: Disk, p: Path, t: Target)
    requires FilesOk(d0) && Staging(d0, d1, p) && TargetOk(d0, t)
    requires p.Destination? && (t.path != p || t.staged == None)
    ensures TargetOk(d1, t)
    ensures Undisturbed(d0, t) ==> Undisturbed(d1, t)
  {
    assert Lookup(d1.entries, t.path) == Lookup(d0.entries, t.path);
    KeptTarget(d0, d1, t);
  }

  /** Staging for one destination leaves every other target alone. */
  lemma StagingKeepsAll(d0: Disk, d1: Disk, ts: seq<Target>, i: nat)
    requires DiskOk(d0) && DiskOk(d1) && TargetsOk(d0, ts) && i < |ts| && ts[i].staged == None && Staging(d0, d1, ts[i].path)
    ensures TargetsOk(d1, ts) && (Calm(d0, ts) ==> Calm(d1, ts)) && Later(d0, d1)
    ensures forall stray :: StrayOk(d0, ts, stray) ==> StrayOk(d1, ts, stray)
  {
    forall k | 0 <= k < |ts|
      ensures TargetOk(d1, ts[k])
      ensures Undisturbed(d0, ts[k]) ==> Undisturbed(d1, ts[k])
    {
      assert k != i ==> ts[k].path != ts[i].path;
      StagingKeepsTarget(d0, d1, ts[i].path, ts[k]);
    }
    hide TargetOk, DiskOk, Undisturbed;
  }

  // ------------------------------------------------------- whole targets

  function Recorded(t: Target): Target { t.(staged := None, committed := t.identity) }

  ghost predicate Placeable(d: Disk, ts: seq<Target>, i: nat) {
    && DiskOk(d) && TargetsOk(d, ts) && i < |ts|
    && ts[i].staged.Some? && ts[i].path !in d.ours && Seen(d, ts[i].path) == SeenBefore(ts[i].snapshot)
  }

  /** The token appears at its destination, not yet recorded as committed. */
  lemma PlacedUnrecorded(d: Disk, ts: seq<Target>, i: nat)
    requires Placeable(d, ts, i)
    ensures ts[i].staged.value in d.entries && d.entries[ts[i].staged.value] in d.held
    ensures
      var e := Place(d, ts[i].staged.value, ts[i].path);
      && DiskOk(e) && TargetsOk(e, ts) && Later(d, e)
      && (ts[i].snapshot.Missing? ==> StrayOk(e, ts, Some(i)))
  {
    var t := ts[i];
    assert TargetOk(d, t);
    PlaceKeeps(d, t.staged.value, t.path);
    var e := Place(d, t.staged.value, t.path);
    forall k | 0 <= k < |ts|
      ensures TargetOk(e, ts[k])
    {
      if k != i { assert ts[k].path != t.path; KeptTarget(d, e, ts[k]); }
    }
  }

  lemma RecordedTarget(d: Disk, ts: seq<Target>, i: nat)
    requires Placeable(d, ts, i) && ts[i].staged.Some? && ts[i].staged.value in d.entries
    ensures
      var e := Unlink(Place(d, ts[i].staged.value, ts[i].path), ts[i].staged.value);
      TargetOk(e, Recorded(ts[i])) && Undisturbed(e, Recorded(ts[i]))
  {
    assert TargetOk(d, ts[i]) && ViewOk(d);
  }

  lemma OtherTarget(d: Disk, m: Disk, ts: seq<Target>, i: nat, k: nat)
    requires Placeable(d, ts, i) && ts[i].staged.Some? && ts[i].staged.value in d.entries && k < |ts| && k != i
    requires m == Place(d, ts[i].staged.value, ts[i].path) && TargetsOk(m, ts)
    ensures TargetOk(Unlink(m, ts[i].staged.value), ts[k])
    ensures Undisturbed(d, ts[k]) ==> Undisturbed(Unlink(m, ts[i].staged.value), ts[k])
  {
    assert TargetOk(d, ts[k]) && TargetOk(d, ts[i]) && TargetOk(m, ts[k]) && ts[k].path != ts[i].path;
    KeptTarget(m, Unlink(m, ts[i].staged.value), ts[k]);
  }

  /** Placed, the staged name gone, and recorded. */
  lemma PlacedRecorded(d: Disk, ts: seq<Target>, i: nat)
    requires Placeable(d, ts, i)
    ensures ts[i].staged.value in d.entries
    ensures
      var e := Unlink(Place(d, ts[i].staged.value, ts[i].path), ts[i].staged.value);
      && DiskOk(e) && TargetsOk(e, ts[i := Recorded(ts[i])]) && Later(d, e)
      && (Calm(d, ts) ==> Calm(e, ts[i := Recorded(ts[i])]))
  {
    var t := ts[i];
    PlacedUnrecorded(d, ts, i);
    var m := Place(d, t.staged.value, t.path);
    assert TargetOk(d, t);
    UnlinkKeeps(m, t.staged.value);
    var e := Unlink(m, t.staged.value);
    RecordedTarget(d, ts, i);
    hide DiskOk, TargetOk, Undisturbed, Placeable, StrayOk, Place;
    forall k | 0 <= k < |ts|
      ensures TargetOk(e, ts[i := Recorded(t)][k])
      ensures Undisturbed(d, ts[k]) ==> Undisturbed(e, ts[i := Recorded(t)][k])
    {
      if k != i { OtherTarget(d, m, ts, i, k); }
    }
  }

  ghost predicate Restorable(d: Disk, ts: seq<Target>, i: nat) {
    && DiskOk(d) && TargetsOk(d, ts) && i < |ts|
    && ts[i].committed.Some? && Lookup(d.entries, ts[i].path) == ts[i].committed
  }

  lemma RestorableIsOurs(d: Disk, ts: seq<Target>, i: nat)
    requires Restorable(d, ts, i)
    ensures ts[i].path in d.ours && Lookup(d.outside, ts[i].path) == SeenBefore(ts[i].snapshot)
  {
    assert TargetOk(d, ts[i]);
  }

  /** A copy of what the snapshot saw, staged under this name, is nobody else's. */
  ghost predicate CopyReady(d: Disk, ts: seq<Target>, i: nat, name: Path, id: nat) {
    && Restorable(d, ts, i) && StagedFor(name, ts[i].path) && Lookup(d.entries, name) == Some(id)
    && Lookup(d.files, id) == SeenBefore(ts[i].snapshot)
    && (forall q :: q in d.ours ==> d.ours[q] != id)
    && (forall k :: 0 <= k < |ts| ==> ts[k].identity != Some(id))
  }

  lemma GivenBack(d: Disk, ts: seq<Target>, i: nat, name: Path, id: nat, stray: Option<nat>)
    requires CopyReady(d, ts, i, name, id) && StrayOk(d, ts, stray)
    ensures name in d.entries && d.entries[name] == id
    ensures
      var e := GiveBack(d, name, ts[i].path);
      && DiskOk(e) && TargetsOk(e, ts) && Later(d, e) && StrayOk(e, ts, stray)
      && e.ours.Keys == d.ours.Keys - {ts[i].path}
      && (ts[i].snapshot.Existing? ==> SnapshotNow(e, ts[i].path) == Existing(id, ts[i].snapshot.file))
  {
    RestorableIsOurs(d, ts, i);
    GiveBackKeeps(d, name, ts[i].path);
    var e := GiveBack(d, name, ts[i].path);
    forall k | 0 <= k < |ts|
      ensures TargetOk(e, ts[k])
    {
      assert TargetOk(d, ts[k]);
      if k != i { assert ts[k].path != ts[i].path; }
      KeptTarget(d, e, ts[k]);
    }
  }

  /** The copy is given up: closed, and its name removed if that call succeeds. */
  lemma CopyDropped(d: Disk, e: Disk, ts: seq<Target>, i: nat, name: Path, id: nat, stray: Option<nat>)
    requires CopyReady(d, ts, i, name, id) && StrayOk(d, ts, stray)
    requires e == d.(held := d.held - {id}, entries := e.entries, troubles := e.troubles)
    requires (e.entries == d.entries || e.entries == d.entries - {name}) && d.troubles <= e.troubles
    ensures DiskOk(e) && TargetsOk(e, ts) && Later(d, e) && StrayOk(e, ts, stray)
  {
    assert forall q: Path :: q.Destination? ==> Seen(e, q) == Seen(d, q);
    forall k | 0 <= k < |ts|
      ensures TargetOk(e, ts[k])
    {
      assert TargetOk(d, ts[k]);
      if k != i { assert ts[k].path != ts[i].path; }
      KeptTarget(d, e, ts[k]);
    }
  }

  /** The token of a destination that did not exist is removed. */
  lemma Withdrawn(d: Disk, ts: seq<Target>, i: nat, stray: Option<nat>)
    requires Restorable(d, ts, i) && ts[i].snapshot.Missing? && StrayOk(d, ts, stray)
    ensures
      var e := Withdraw(d, ts[i].path);
      && DiskOk(e) && TargetsOk(e, ts) && Later(d, e) && StrayOk(e, ts, stray)
      && e.ours.Keys == d.ours.Keys - {ts[i].path}
  {
    RestorableIsOurs(d, ts, i);
    WithdrawKeeps(d, ts[i].path);
    var e := Withdraw(d, ts[i].path);
    forall k | 0 <= k < |ts|
      ensures TargetOk(e, ts[k])
    {
      assert TargetOk(d, ts[k]);
      KeptTarget(d, e, ts[k]);
    }
  }

  /** A descriptor is closed and, if the call succeeds, the staged name removed. */
  lemma GiveUpKeeps(d0: Disk, d1: Disk, d2: Disk, p: Path, name: Path, id: Option<nat>)
    requires DiskOk(d0) && DiskOk(d1) && Staging(d0, d1, p) && StagedFor(name, p)
    requires id.Some? ==> id.value !in d0.held
    requires d2 == d1.(held := if id.Some? then d1.held - {id.value} else d1.held, entries := d2.entries, troubles := d2.troubles)
    requires (d2.entries == d1.entries || d2.entries == d1.entries - {name}) && d1.troubles <= d2.troubles
    ensures DiskOk(d2) && Staging(d0, d2, p)
  {
    forall q: Path | q.Destination?
      ensures Seen(d2, q) == Seen(d1, q)
    {
    }
    forall q | q in d2.ours
      ensures d2.ours[q] in d2.held
    {
      assert d2.ours == d0.ours && d0.ours[q] in d0.held && d0.held <= d1.held;
    }
  }

  lemma TroubleKeepsAll(d: Disk, ts: seq<Target>, troubles: nat)
    requires DiskOk(d) && TargetsOk(d, ts) && d.troubles <= troubles
    ensures
      var e := d.(troubles := troubles);
      && DiskOk(e) && TargetsOk(e, ts) && (Calm(d, ts) ==> Calm(e, ts)) && Later(d, e)
      && forall stray :: StrayOk(d, ts, stray) ==> StrayOk(e, ts, stray)
  {
    var e := d.(troubles := troubles);
    assert forall q: Path :: Seen(e, q) == Seen(d, q);
    forall k | 0 <= k < |ts|
      ensures TargetOk(e, ts[k])
    {
      assert TargetOk(d, ts[k]);
      KeptTarget(d, e, ts[k]);
    }
    assert forall k :: 0 <= k < |ts| ==> Undisturbed(d, ts[k]) ==> Undisturbed(e, ts[k]);
  }

  /** An uncommitted target whose snapshot no longer holds was acted on. */
  lemma MismatchIsActed(d: Disk, ts: seq<Target>, i: nat)
    requires DiskOk(d) && TargetsOk(d, ts) && Calm(d, ts) && i < |ts| && ts[i].committed == None
    requires SnapshotNow(d, ts[i].path) != ts[i].snapshot
    ensures ts[i].path in d.touched
  {
    assert Undisturbed(d, ts[i]);
  }

  lemma MatchIsPlaceable(d: Disk, ts: seq<Target>, i: nat)
    requires DiskOk(d) && TargetsOk(d, ts) && i < |ts| && ts[i].staged.Some? && ts[i].path !in d.ours
    requires SnapshotNow(d, ts[i].path) == ts[i].snapshot
    ensures Placeable(d, ts, i)
  {
  }

  lemma FreeIsPlaceable(d: Disk, ts: seq<Target>, i: nat)
    requires DiskOk(d) && TargetsOk(d, ts) && i < |ts| && ts[i].staged.Some? && ts[i].snapshot.Missing?
    requires ts[i].path !in d.entries
    ensures Placeable(d, ts, i)
  {
  }

  /** A committed target fails its check only if it was acted on. */
  lemma CommittedIsThere(d: Disk, ts: seq<Target>, i: nat)
    requires DiskOk(d) && TargetsOk(d, ts) && Calm(d, ts) && i < |ts| && ts[i].committed.Some? && ts[i].path !in d.touched
    ensures Lookup(d.entries, ts[i].path) == ts[i].identity
  {
    assert Undisturbed(d, ts[i]) && TargetOk(d, ts[i]);
  }

  lemma HasToken(d: Disk, ts: seq<Target>, i: nat)
    requires TargetsOk(d, ts) && FilesOk(d) && i < |ts| && ts[i].identity.Some?
    ensures ts[i].identity.value in d.held && Lookup(d.files, ts[i].identity.value) == Some(TokenFile(ts[i].token))
    ensures ts[i].identity.value in d.files && d.files[ts[i].identity.value] == TokenFile(ts[i].token)
  {
    assert TargetOk(d, ts[i]);
  }

  lemma TakenIsActed(d: Disk, ts: seq<Target>, i: nat)
    requires DiskOk(d) && TargetsOk(d, ts) && Calm(d, ts) && i < |ts| && ts[i].committed == None
    requires ts[i].snapshot.Missing? && ts[i].path in d.entries
    ensures ts[i].path in d.touched
  {
    MismatchIsActed(d, ts, i);
  }

  lemma NoStray(d: Disk, ts: seq<Target>)
    ensures StrayOk(d, ts, None)
  {
  }

  lemma LaterSelf(d: Disk)
    ensures Later(d, d)
  {
  }

  lemma LaterTrans(a: Disk, b: Disk, c: Disk)
    requires Later(a, b) && Later(b, c)
    ensures Later(a, c)
  {
  }

  // ------------------------------------------------------ what still stands

  /** Committed tokens the others did not act on are still in place. */
  ghost predicate StandingTo(d: Disk, ts: seq<Target>, n: nat) {
    forall k :: 0 <= k < n && k < |ts| && ts[k].committed.Some? && ts[k].path !in d.touched ==> ts[k].path in d.ours
  }

  lemma CalmStands(d: Disk, ts: seq<Target>, n: nat)
    requires Calm(d, ts)
    ensures StandingTo(d, ts, n)
  {
    forall k | 0 <= k < |ts| && ts[k].committed.Some? && ts[k].path !in d.touched
      ensures ts[k].path in d.ours
    {
      assert Undisturbed(d, ts[k]);
    }
  }

  lemma StandingIsThere(d: Disk, ts: seq<Target>, i: nat)
    requires DiskOk(d) && TargetsOk(d, ts) && i < |ts| && ts[i].committed.Some? && ts[i].path in d.ours
    ensures Lookup(d.entries, ts[i].path) == ts[i].committed
  {
    assert TargetOk(d, ts[i]);
  }

  /** One more token in place, whether or not it is recorded. */
  lemma PlacedStands(d: Disk, ts: seq<Target>, i: nat)
    requires Placeable(d, ts, i) && ts[i].staged.value in d.entries
    ensures Calm(d, ts) ==> StandingTo(Place(d, ts[i].staged.value, ts[i].path), ts, |ts|)
  {
    if Calm(d, ts) { CalmStands(d, ts, |ts|); }
  }

  /** Nothing but the `i`-th token went, except by the others' doing. */
  lemma StandsBelow(d0: Disk, d1: Disk, ts: seq<Target>, i: nat)
    requires TargetsOk(d0, ts) && i < |ts| && StandingTo(d0, ts, i + 1) && d0.touched <= d1.touched
    requires d0.ours.Keys - d1.touched - {ts[i].path} <= d1.ours.Keys
    ensures StandingTo(d1, ts, i)
  {
    hide TargetOk;
  }

  // ------------------------------------------------------------ progress

  /** The first `n` targets are recorded as committed, the others are not. */
  ghost predicate CommittedTo(ts: seq<Target>, n: nat) {
    n <= |ts| && forall k :: 0 <= k < |ts| ==> (ts[k].committed.Some? <==> k < n)
  }

  function PathsTo(ts: seq<Target>, n: nat): set<Path>
    requires n <= |ts|
  {
    set k | 0 <= k < n :: ts[k].path
  }

  function StrayPaths(ts: seq<Target>, stray: Option<nat>): set<Path> {
    if stray.Some? && stray.value < |ts| then {ts[stray.value].path} else {}
  }

  ghost predicate AllStaged(ts: seq<Target>, n: nat) {
    n <= |ts| && forall k :: 0 <= k < n ==> ts[k].staged.Some? && ts[k].identity.Some? && ts[k].committed == None
  }

  /** Same destinations, tokens and snapshots. */
  ghost predicate SameOrders(a: seq<Target>, b: seq<Target>) {
    && |a| == |b|
    && forall k :: 0 <= k < |a| ==> a[k].path == b[k].path && a[k].token == b[k].token && a[k].snapshot == b[k].snapshot
  }

  lemma PathsOneMore(ts: seq<Target>, n: nat)
    requires n < |ts|
    ensures PathsTo(ts, n + 1) == PathsTo(ts, n) + {ts[n].path}
  {
    forall p | p in PathsTo(ts, n + 1)
      ensures p in PathsTo(ts, n) + {ts[n].path}
    {
      var k :| 0 <= k < n + 1 && ts[k].path == p;
      assert k < n ==> ts[k].path in PathsTo(ts, n);
    }
  }

  lemma SamePaths(a: seq<Target>, b: seq<Target>, n: nat)
    requires SameOrders(a, b) && n <= |a|
    ensures PathsTo(a, n) == PathsTo(b, n)
  {
  }

  lemma NewPath(d: Disk, ts: seq<Target>, n: nat)
    requires TargetsOk(d, ts) && n < |ts|
    ensures ts[n].path !in PathsTo(ts, n)
  {
  }

  /** A freshly staged file belongs to its target. */
  lemma StagedTarget(d: Disk, ts: seq<Target>, i: nat, name: Path, id: nat)
    requires DiskOk(d) && TargetsOk(d, ts) && i < |ts| && ts[i].committed == None
    requires StagedFor(name, ts[i].path) && Lookup(d.entries, name) == Some(id) && id in d.held
    requires Lookup(d.files, id) == Some(TokenFile(ts[i].token))
    ensures
      var us := ts[i := ts[i].(staged := Some(name), identity := Some(id))];
      TargetsOk(d, us) && (Calm(d, ts) ==> Calm(d, us)) && SameOrders(ts, us)
  {
    var us := ts[i := ts[i].(staged := Some(name), identity := Some(id))];
    forall k | 0 <= k < |us|
      ensures TargetOk(d, us[k])
      ensures Undisturbed(d, ts[k]) ==> Undisturbed(d, us[k])
    {
      assert TargetOk(d, ts[k]);
    }
  }

  lemma SnapshotTarget(d: Disk, ts: seq<Target>, path: Path, token: string)
    requires DiskOk(d) && TargetsOk(d, ts) && Calm(d, ts) && path.Destination? && d.ours == map[]
    requires forall k :: 0 <= k < |ts| ==> ts[k].path != path
    requires var now := SnapshotNow(d, path); now.Existing? ==> Acceptable(now.file)
    ensures
      var us := ts + [Target(path, token, SnapshotNow(d, path), None, None, None)];
      TargetsOk(d, us) && Calm(d, us)
  {
    var us := ts + [Target(path, token, SnapshotNow(d, path), None, None, None)];
    forall k | 0 <= k < |us|
      ensures TargetOk(d, us[k]) && Undisturbed(d, us[k])
    {
      if k < |ts| { assert us[k] == ts[k] && TargetOk(d, ts[k]) && Undisturbed(d, ts[k]); }
    }
  }

  /** Taking one target back, counted from the end. */
  lemma RestoredOne(ts: seq<Target>, n: nat, i: nat, stray: Option<nat>, ours0: set<Path>, ours1: set<Path>)
    requires n <= |ts| && i < |ts| && (i < n ==> ts[i].path !in ours1) && ours1 <= ours0
    requires ours0 <= PathsTo(ts, if i + 1 < n then i + 1 else n) + StrayPaths(ts, stray)
    ensures ours1 <= PathsTo(ts, if i < n then i else n) + StrayPaths(ts, stray)
  {
    if i < n { PathsOneMore(ts, i); }
  }

  /** The copy made for one destination can take its place. */
  lemma CopyIsNew(d0: Disk, d1: Disk, ts: seq<Target>, i: nat, name: Path, id: nat)
    requires DiskOk(d0) && TargetsOk(d0, ts) && Restorable(d0, ts, i) && Staging(d0, d1, ts[i].path) && DiskOk(d1)
    requires id !in d0.files && StagedFor(name, ts[i].path) && Lookup(d1.entries, name) == Some(id)
    requires Lookup(d1.files, id) == SeenBefore(ts[i].snapshot)
    ensures CopyReady(d1, ts, i, name, id)
  {
    assert TargetOk(d0, ts[i]);
    StagingKeepsAll(d0, d1, ts, i);
    assert Lookup(d1.entries, ts[i].path) == Lookup(d0.entries, ts[i].path);
    forall k | 0 <= k < |ts|
      ensures ts[k].identity != Some(id)
    {
      assert TargetOk(d0, ts[k]);
    }
  }

  lemma CopyHasInode(d: Disk, ts: seq<Target>, i: nat, name: Path, id: nat)
    requires CopyReady(d, ts, i, name, id)
    ensures id in d.files
  {
  }

  lemma FilesStay(d0: Disk, d1: Disk, id: nat)
    requires Later(d0, d1) && id in d0.files
    ensures id in d1.files
  {
  }

  lemma SnapshotKept(d: Disk, ts: seq<Target>, i: nat)
    requires TargetsOk(d, ts) && i < |ts| && ts[i].committed.Some?
    ensures ts[i].path.Destination? && ts[i].staged == None
    ensures ts[i].snapshot.Existing? ==> Acceptable(ts[i].snapshot.file)
  {
    assert TargetOk(d, ts[i]);
  }

  lemma StagingOurs(d0: Disk, d1: Disk, p: Path)
    requires Staging(d0, d1, p)
    ensures d1.ours == d0.ours
  {
  }

  // -------------------------------------------------------------- results

  ghost predicate TokensInPlace(d: Disk, orders: seq<(Path, string)>) {
    forall k :: 0 <= k < |orders| ==>
      orders[k].0 in d.touched || Seen(d, orders[k].0) == Some(File(orders[k].1 + "\n", 6 * 64, true))
  }

  /** Readers find what the others left, except at these destinations. */
  ghost predicate AsOthersLeft(d: Disk, except: set<Path>) {
    forall p: Path :: p.Destination? && p !in except ==> Seen(d, p) == Lookup(d.outside, p)
  }

  /** Where the others did not act they left what was there at the start. */
  ghost predicate OthersKept(d0: Disk, d: Disk) {
    forall p: Path :: p.Destination? && p !in d.touched ==> Lookup(d.outside, p) == Seen(d0, p)
  }

  /** Every destination has its original existence, content and mode. */
  ghost predicate SeenAsBefore(d0: Disk, d: Disk) {
    forall p: Path :: p.Destination? ==> Seen(d, p) == Seen(d0, p)
  }

  /** Every file is one the installer may replace. */
  ghost predicate Installable(d: Disk, orders: seq<(Path, string)>, force: bool) {
    forall k :: 0 <= k < |orders| ==>
      var now := SnapshotNow(d, orders[k].0);
      now.Existing? ==> force && Acceptable(now.file)
  }

  ghost predicate Ordered(orders: seq<(Path, string)>, ts: seq<Target>) {
    |ts| <= |orders| && forall k :: 0 <= k < |ts| ==> ts[k].path == orders[k].0 && ts[k].token == orders[k].1
  }

  ghost predicate Untouched(ts: seq<Target>) {
    forall k :: 0 <= k < |ts| ==> ts[k].staged == None && ts[k].identity == None && ts[k].committed == None
  }

  lemma AllInstalled(d: Disk, ts: seq<Target>, orders: seq<(Path, string)>)
    requires DiskOk(d) && TargetsOk(d, ts) && Calm(d, ts) && CommittedTo(ts, |ts|) && Ordered(orders, ts) && |ts| == |orders|
    ensures TokensInPlace(d, orders)
  {
    forall k | 0 <= k < |orders| && orders[k].0 !in d.touched
      ensures Seen(d, orders[k].0) == Some(TokenFile(orders[k].1))
    {
      assert TargetOk(d, ts[k]) && Undisturbed(d, ts[k]);
    }
  }

  lemma OursAreStrays(d: Disk, ts: seq<Target>, stray: Option<nat>)
    requires DiskOk(d) && d.ours.Keys <= StrayPaths(ts, stray)
    ensures AsOthersLeft(d, StrayPaths(ts, stray))
  {
  }

  lemma StartedFrom(d0: Disk, d: Disk)
    requires DiskOk(d0) && d0.ours == map[] && Later(d0, d)
    ensures OthersKept(d0, d)
  {
  }

  /** A stray token is seen where there was nothing. */
  lemma StrayShows(d: Disk, ts: seq<Target>, stray: nat)
    requires DiskOk(d) && TargetsOk(d, ts) && StrayOk(d, ts, Some(stray)) && ts[stray].path !in d.touched
    ensures ts[stray].path.Destination?
    ensures Seen(d, ts[stray].path) == Some(TokenFile(ts[stray].token)) && Lookup(d.outside, ts[stray].path) == None
  {
    assert TargetOk(d, ts[stray]);
  }

  /** Removing staged names changes nothing a reader of a destination sees. */
  ghost predicate SameDestinations(d0: Disk, d1: Disk) {
    && d1.ours == d0.ours && d1.outside == d0.outside && d1.touched == d0.touched && d1.files == d0.files
    && d1.troubles == d0.troubles
    && forall p: Path :: p.Destination? ==> Lookup(d1.entries, p) == Lookup(d0.entries, p)
  }

  lemma SameResults(d0: Disk, d1: Disk, start: Disk, orders: seq<(Path, string)>, except: set<Path>)
    requires SameDestinations(d0, d1)
    requires forall k :: 0 <= k < |orders| ==> orders[k].0.Destination?
    ensures forall p: Path :: p.Destination? ==> Seen(d1, p) == Seen(d0, p)
    ensures TokensInPlace(d0, orders) ==> TokensInPlace(d1, orders)
    ensures AsOthersLeft(d0, except) ==> AsOthersLeft(d1, except)
    ensures OthersKept(start, d0) ==> OthersKept(start, d1)
    ensures SeenAsBefore(start, d0) <==> SeenAsBefore(start, d1)
  {
    forall p: Path | p.Destination?
      ensures Seen(d1, p) == Seen(d0, p)
    {
      assert Lookup(d1.entries, p) == Lookup(d0.entries, p);
    }
  }

  lemma Untroubled(d: Disk, a: Act)
    ensures Interfere(d, a).troubles == d.troubles && (a.Idle? ==> Interfere(d, a) == d)
  {
  }

  lemma Shape(d: Disk, ts: seq<Target>, i: nat)
    requires TargetsOk(d, ts) && i < |ts|
    ensures ts[i].path.Destination? && (ts[i].snapshot.Existing? ==> Acceptable(ts[i].snapshot.file))
  {
    assert TargetOk(d, ts[i]);
  }

  lemma NothingCommitted(d: Disk, ts: seq<Target>)
    requires d.ours == map[]
    ensures StrayOk(d, ts, None) && d.ours.Keys <= PathsTo(ts, 0) + StrayPaths(ts, None)
    ensures Untouched(ts) ==> CommittedTo(ts, 0)
  {
  }

  lemma SameOrdered(orders: seq<(Path, string)>, a: seq<Target>, b: seq<Target>)
    requires Ordered(orders, a) && SameOrders(a, b)
    ensures Ordered(orders, b)
  {
  }

  lemma ExistingRefused(d0: Disk, d: Disk, ts: seq<Target>, orders: seq<(Path, string)>)
    requires DiskOk(d) && TargetsOk(d, ts) && Calm(d, ts) && Ordered(orders, ts) && Untouched(ts) && Steady(d0, d)
    requires exists t :: t in ts && t.snapshot.Existing?
    ensures Hit(d, PathsTo(ts, |ts|)) || !Installable(d0, orders, false)
  {
    var k :| 0 <= k < |ts| && ts[k].snapshot.Existing?;
    assert Undisturbed(d, ts[k]) && TargetOk(d, ts[k]) && ts[k].path in PathsTo(ts, |ts|);
    if ts[k].path in d.touched { HitBy(d, PathsTo(ts, |ts|), ts[k].path); }
    else { assert SnapshotNow(d0, orders[k].0) == ts[k].snapshot; }
  }

  /** Snapshots that were acceptable, and missing without `force`, speak for the
      start wherever the others did not act. */
  lemma SnapshotsSpeak(d0: Disk, d: Disk, ts: seq<Target>, orders: seq<(Path, string)>, force: bool)
    requires TargetsOk(d, ts) && Calm(d, ts) && Ordered(orders, ts) && |ts| == |orders| && Untouched(ts) && Steady(d0, d)
    requires force || forall k :: 0 <= k < |ts| ==> ts[k].snapshot.Missing?
    ensures Hit(d, PathsTo(ts, |ts|)) || Installable(d0, orders, force)
    ensures Hit(d, PathsTo(ts, |ts|)) || force || forall k :: 0 <= k < |orders| ==> SnapshotNow(d0, orders[k].0).Missing?
  {
    if !Hit(d, PathsTo(ts, |ts|)) {
      forall k | 0 <= k < |orders|
        ensures SnapshotNow(d0, orders[k].0) == ts[k].snapshot && (ts[k].snapshot.Existing? ==> Acceptable(ts[k].snapshot.file))
      {
        assert Undisturbed(d, ts[k]) && TargetOk(d, ts[k]) && ts[k].path in PathsTo(ts, |ts|);
        if ts[k].path in d.touched { HitBy(d, PathsTo(ts, |ts|), ts[k].path); }
      }
    }
  }

  /** With the others idle, an ordinary error has undone everything, except
      exactly when a token was linked and its staged name could not be removed. */
  lemma OrdinaryVerdict(d0: Disk, d: Disk, ts: seq<Target>, index: Option<nat>)
    requires DiskOk(d0) && d0.ours == map[] && DiskOk(d) && TargetsOk(d, ts) && StrayOk(d, ts, index) && Later(d0, d)
    requires d.ours.Keys <= StrayPaths(ts, index)
    ensures AsOthersLeft(d, StrayPaths(ts, index)) && OthersKept(d0, d)
    ensures d.touched == {} ==> (index == None <==> SeenAsBefore(d0, d))
  {
    OursAreStrays(d, ts, index);
    StartedFrom(d0, d);
    if d.touched == {} && index.Some? {
      StrayShows(d, ts, index.value);
      var p := ts[index.value].path;
      assert Seen(d0, p) == None && Seen(d, p) != None;
    }
  }

  lemma StrayInRange(d: Disk, ts: seq<Target>, index: Option<nat>)
    requires StrayOk(d, ts, index)
    ensures index.Some? ==> index.value < |ts| && StrayPaths(ts, index) == {ts[index.value].path}
    ensures index == None ==> StrayPaths(ts, index) == {}
  {
  }

  lemma StagedNames(d: Disk, ts: seq<Target>)
    requires TargetsOk(d, ts)
    ensures forall k :: 0 <= k < |ts| && ts[k].staged.Some? ==> ts[k].staged.value.Temporary?
  {
    forall k | 0 <= k < |ts| && ts[k].staged.Some?
      ensures ts[k].staged.value.Temporary?
    {
      assert TargetOk(d, ts[k]);
    }
  }
}
