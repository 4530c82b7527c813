/** Installing the bot tokens: stage, commit, verify, finalize, and roll back.
    Every system call may fail, every write may be short, and other processes
    act on the destinations at the points marked `Others`. */
module Credentials {
  import opened Wrappers
  import opened CredentialDisk

  datatype Finalizer = Completes | Breaks(cliError: bool) | CommitsUnconfirmed

  /** The calls the installer makes. `DropStaged` is the removal of a staged name
      whose file has just been linked to its destination. */
  datatype SystemCall = Open | Chmod | Write | Fsync | Stat | Read | Link | DropStaged | Replace | UnlinkName

  /** How an exception leaves the body of the transaction. */
  datatype Raised = Nothing | CliError | OsError | AfterCommit

  datatype Outcome =
    | Installed
    | Refused               // the transaction's own error, reported as it is
    | Restored              // any other error, reported as "originals restored"
    | CommittedKept         // finalize replaced its file but could not confirm it
    | RollbackIncomplete

  predicate Ordinary(o: Outcome) { o.Refused? || o.Restored? }

  function PathsOf(paths: seq<Path>): set<Path> { set p | p in paths }

  /** `len(set(paths)) != len(paths)` finds exactly the repeated paths. */
  lemma {:induction false} SetFindsRepeats(paths: seq<Path>)
    ensures |PathsOf(paths)| <= |paths|
    ensures |PathsOf(paths)| == |paths| <==> NoDup(paths)
  {
    if paths == [] {
      assert PathsOf(paths) == {};
    } else {
      var rest := paths[1..];
      SetFindsRepeats(rest);
      if paths[0] in rest {
        assert PathsOf(paths) == PathsOf(rest);
        var k :| 0 <= k < |rest| && rest[k] == paths[0];
        assert paths[k + 1] == paths[0];
      } else {
        assert PathsOf(paths) == PathsOf(rest) + {paths[0]};
        if NoDup(rest) {
          assert forall i :: 0 < i < |paths| ==> paths[i] == rest[i - 1];
        } else {
          var i, j :| 0 <= i < j < |rest| && rest[i] == rest[j];
          assert paths[i + 1] == paths[j + 1];
        }
      }
    }
  }

  /** Reading one byte more than expected tells a longer file apart. */
  lemma ReadDecides(content: string, expected: string)
    ensures content[..if |content| < |expected| + 1 then |content| else |expected| + 1] == expected <==> content == expected
  {
    if |content| <= |expected| { assert content[..|content|] == content; }
  }

  function Firsts(destinations: seq<(Path, string)>): (r: seq<Path>)
    ensures |r| == |destinations| && forall k :: 0 <= k < |r| ==> r[k] == destinations[k].0
  {
    seq(|destinations|, k requires 0 <= k < |destinations| => destinations[k].0)
  }

  /** Its destinations are different and hold nothing it may not replace. */
  ghost predicate Fit(d0: Disk, destinations: seq<(Path, string)>, force: bool) {
    NoDup(Firsts(destinations)) && Installable(d0, destinations, force)
  }

  function Places(destinations: seq<(Path, string)>): set<Path> { PathsOf(Firsts(destinations)) }

  /** How the finalizer ends the body. */
  function Finalized(finalize: Option<Finalizer>): Raised {
    if finalize == None || finalize == Some(Completes) then Nothing
    else if finalize == Some(CommitsUnconfirmed) then AfterCommit
    else if finalize.value.cliError then CliError else OsError
  }

  /** What comes of the order when no call fails and nobody else acts. */
  ghost function Expected(d0: Disk, destinations: seq<(Path, string)>, force: bool, finalize: Option<Finalizer>): Outcome {
    if !Fit(d0, destinations, force) then Refused
    else match Finalized(finalize)
         case Nothing => Installed
         case AfterCommit => CommittedKept
         case CliError => Refused
         case OsError => Restored
  }

  ghost predicate AllAbsent(d0: Disk, destinations: seq<(Path, string)>) {
    forall k :: 0 <= k < |destinations| ==> destinations[k].0 !in d0.entries
  }

  /** What can be linked: some destinations, all different and all missing. */
  ghost predicate Linkable(d0: Disk, destinations: seq<(Path, string)>) {
    destinations != [] && NoDup(Firsts(destinations)) && AllAbsent(d0, destinations)
  }

  ghost predicate ShowsToken(d: Disk, destinations: seq<(Path, string)>, p: Path) {
    exists k :: 0 <= k < |destinations| && destinations[k].0 == p && Seen(d, p) == Some(TokenFile(destinations[k].1))
  }

  /** All or nothing, whatever failed. `stray` is a destination whose token was
      linked while its staged name could not be removed. */
  ghost predicate Verdict(d0: Disk, d: Disk, destinations: seq<(Path, string)>, force: bool, finalize: Option<Finalizer>,
                          o: Outcome, stray: Option<Path>) {
    // Success and the committed error: every destination holds its token,
    // private, unless another process has replaced it since.
    && (o.Installed? || o.CommittedKept? ==> TokensInPlace(d, destinations))
    // An ordinary error: readers find what the other processes left, and that
    // is the original wherever they did not act.
    && OthersKept(d0, d)
    && (Ordinary(o) ==> AsOthersLeft(d, if stray.Some? then {stray.value} else {}))
    && (Ordinary(o) && d.touched == {} ==> (stray == None <==> SeenAsBefore(d0, d)))
    && (stray.Some? ==> !force && (Ordinary(o) || o.RollbackIncomplete?))
    // A token left behind is complete, where there was nothing before.
    && (stray.Some? && d.touched == {} ==> Linkable(d0, destinations) && ShowsToken(d, destinations, stray.value))
    && Causes(d0, d, destinations, force, finalize, o, stray)
  }

  /** Why it came to this outcome. */
  ghost predicate Causes(d0: Disk, d: Disk, destinations: seq<(Path, string)>, force: bool, finalize: Option<Finalizer>,
                         o: Outcome, stray: Option<Path>) {
    // The finalizer has its say in success.
    && (o.Installed? ==> Finalized(finalize) == Nothing)
    && (o.CommittedKept? ==> Finalized(finalize) == AfterCommit)
    // Unless the others act on a destination:
    && (!Hit(d, Places(destinations)) ==>
         // only a fit order succeeds;
         && (o.Installed? || o.CommittedKept? ==> Fit(d0, destinations, force))
         // without a failing call the outcome is the expected one;
         && (d.troubles == d0.troubles ==> o == if stray == None then Expected(d0, destinations, force, finalize) else Restored)
         // a rollback fails only by a failure of its own, after the one it answers.
         && (o.RollbackIncomplete? ==> d.troubles - d0.troubles >= if stray.Some? || Breaking(finalize) then 1 else 2))
  }

  predicate Breaking(finalize: Option<Finalizer>) { finalize.Some? && finalize.value.Breaks? }

  lemma SameVerdict(d0: Disk, d: Disk, e: Disk, destinations: seq<(Path, string)>, force: bool,
                    finalize: Option<Finalizer>, o: Outcome, stray: Option<Path>)
    requires Verdict(d0, d, destinations, force, finalize, o, stray) && SameDestinations(d, e)
    requires forall k :: 0 <= k < |destinations| ==> destinations[k].0.Destination?
    ensures Verdict(d0, e, destinations, force, finalize, o, stray)
  {
    SameResults(d, e, d0, destinations, if stray.Some? then {stray.value} else {});
    assert Hit(e, Places(destinations)) <==> Hit(d, Places(destinations));
    hide TokensInPlace, AsOthersLeft, OthersKept, SeenAsBefore, Fit, Hit, Places, Expected;
  }

  /** Missing in a snapshot is missing in the directory. */
  lemma MissingIsAbsent(d0: Disk, destinations: seq<(Path, string)>)
    requires DiskOk(d0) && forall k :: 0 <= k < |destinations| ==> SnapshotNow(d0, destinations[k].0).Missing?
    ensures AllAbsent(d0, destinations)
  {
  }

  /** The next destination is none of those of the targets so far. */
  lemma NewDestination(destinations: seq<(Path, string)>, ts: seq<Target>)
    requires NoDup(Firsts(destinations)) && |ts| < |destinations| && Ordered(destinations, ts)
    ensures forall k :: 0 <= k < |ts| ==> ts[k].path != destinations[|ts|].0
  {
    assert forall k :: 0 <= k < |ts| ==> Firsts(destinations)[k] != Firsts(destinations)[|ts|];
  }

  lemma OneMoreTarget(destinations: seq<(Path, string)>, ts: seq<Target>, t: Target)
    requires |ts| < |destinations| && Ordered(destinations, ts) && Untouched(ts)
    requires t == Target(destinations[|ts|].0, destinations[|ts|].1, t.snapshot, None, None, None)
    ensures Ordered(destinations, ts + [t]) && Untouched(ts + [t])
  {
  }

  /** The targets' destinations are those of the order. */
  lemma SamePlaces(ts: seq<Target>, destinations: seq<(Path, string)>, n: nat)
    requires Ordered(destinations, ts) && n <= |ts|
    ensures PathsTo(ts, n) <= Places(destinations)
  {
    forall p | p in PathsTo(ts, n)
      ensures p in Places(destinations)
    {
      var k :| 0 <= k < n && ts[k].path == p;
      assert Firsts(destinations)[k] == p;
    }
  }

  lemma LinkableIsInstallable(d: Disk, destinations: seq<(Path, string)>, force: bool)
    requires AllAbsent(d, destinations)
    ensures Installable(d, destinations, force)
  {
  }

  lemma TouchedGrows(d0: Disk, d1: Disk)
    requires Later(d0, d1)
    ensures d0.touched <= d1.touched && d0.troubles <= d1.troubles
  {
  }

  /** What the stray of a transaction shows, by order instead of by target. */
  lemma StrayIsToken(d: Disk, ts: seq<Target>, index: Option<nat>, destinations: seq<(Path, string)>)
    requires DiskOk(d) && TargetsOk(d, ts) && StrayOk(d, ts, index) && index.Some? && Ordered(destinations, ts)
    ensures index.value < |ts| && destinations != [] && ts[index.value].path == destinations[index.value].0
    ensures d.touched == {} ==> ShowsToken(d, destinations, ts[index.value].path)
  {
    if d.touched == {} { StrayShows(d, ts, index.value); }
  }

  lemma SuccessVerdict(d0: Disk, d: Disk, destinations: seq<(Path, string)>, force: bool, finalize: Option<Finalizer>, o: Outcome)
    requires o == if Finalized(finalize) == Nothing then Installed else CommittedKept
    requires Finalized(finalize) == Nothing || Finalized(finalize) == AfterCommit
    requires TokensInPlace(d, destinations) && OthersKept(d0, d)
    requires Hit(d, Places(destinations)) || Fit(d0, destinations, force)
    ensures Verdict(d0, d, destinations, force, finalize, o, None)
  {
    hide TokensInPlace, OthersKept, Fit, Hit, Places;
  }

  /** What the verdict on an ordinary error or a failed rollback rests on. */
  lemma FailureVerdict(d0: Disk, d: Disk, destinations: seq<(Path, string)>, force: bool, finalize: Option<Finalizer>,
                       o: Outcome, stray: Option<Path>)
    requires Ordinary(o) || o.RollbackIncomplete?
    requires OthersKept(d0, d) && (stray.Some? ==> !force)
    requires Ordinary(o) ==> AsOthersLeft(d, if stray.Some? then {stray.value} else {})
    requires Ordinary(o) && d.touched == {} ==> (stray == None <==> SeenAsBefore(d0, d))
    requires stray.Some? && d.touched == {} ==> Linkable(d0, destinations) && ShowsToken(d, destinations, stray.value)
    requires Causes(d0, d, destinations, force, finalize, o, stray)
    ensures Verdict(d0, d, destinations, force, finalize, o, stray)
  {
  }

  lemma NothingDone(d: Disk, ts: seq<Target>, destinations: seq<(Path, string)>, force: bool, finalize: Option<Finalizer>)
    requires DiskOk(d) && TargetsOk(d, ts) && d.ours == map[] && !NoDup(Firsts(destinations))
    ensures Verdict(d, d, destinations, force, finalize, Refused, None)
  {
    NoStray(d, ts);
    LaterSelf(d);
    OrdinaryVerdict(d, d, ts, None);
    hide TokensInPlace, AsOthersLeft, OthersKept, SeenAsBefore, Installable, NoDup;
  }

  /** What the verdict comes to when the others do nothing. */
  lemma Consequences(d0: Disk, d: Disk, destinations: seq<(Path, string)>, force: bool, finalize: Option<Finalizer>,
                     o: Outcome, stray: Option<Path>)
    requires Verdict(d0, d, destinations, force, finalize, o, stray)
    ensures o.Installed? || o.CommittedKept? ==> TokensInPlace(d, destinations)
    ensures Ordinary(o) && d.touched == {} ==> (stray == None <==> SeenAsBefore(d0, d))
    ensures Ordinary(o) && d.touched == {} && (force || !Linkable(d0, destinations)) ==> SeenAsBefore(d0, d)
    ensures d.touched == {} && d.troubles == d0.troubles ==>
              o == if stray == None then Expected(d0, destinations, force, finalize) else Restored
    ensures d.touched == {} && o.RollbackIncomplete? ==>
              d.troubles - d0.troubles >= if stray.Some? || Breaking(finalize) then 1 else 2
  {
    if d.touched == {} { NoHit(d, Places(destinations)); }
    hide Hit, Places, Linkable, SeenAsBefore, Expected, TokensInPlace, OthersKept, AsOthersLeft, ShowsToken, Fit;
  }

  lemma NoHit(d: Disk, paths: set<Path>)
    requires d.touched == {}
    ensures !Hit(d, paths)
  {
  }

  lemma SteadySelf(d: Disk)
    ensures Steady(d, d)
  {
  }

  /** A refused snapshot: somebody acted on the destination, or it was not fit. */
  lemma RefusedSnapshot(d0: Disk, d: Disk, destinations: seq<(Path, string)>, i: nat)
    requires i < |destinations| && destinations[i].0.Destination? && Steady(d0, d)
    ensures
      var now := SnapshotNow(d, destinations[i].0);
      now.Existing? && !Acceptable(now.file) ==>
        Hit(d, Places(destinations)) || forall force :: !Installable(d0, destinations, force)
  {
    assert Firsts(destinations)[i] in Places(destinations);
    if destinations[i].0 in d.touched { HitBy(d, Places(destinations), destinations[i].0); }
  }

  lemma Untroubling(d0: Disk, d: Disk, destinations: seq<(Path, string)>)
    requires Later(d0, d)
    ensures d0.troubles <= d.troubles && d0.touched <= d.touched && (d.touched == {} ==> !Hit(d, Places(destinations)))
  {
  }

  /** From how the body and the rollback ended to why. */
  lemma CausesOf(d0: Disk, d1: Disk, d2: Disk, destinations: seq<(Path, string)>, force: bool, finalize: Option<Finalizer>,
                 raised: Raised, done: nat, o: Outcome, stray: Option<Path>)
    requires d0.troubles <= d1.troubles <= d2.troubles && d1.touched <= d2.touched
    requires raised == CliError || raised == OsError
    requires stray.Some? ==> raised == OsError
    requires !Hit(d1, Places(destinations)) && d1.troubles == d0.troubles && stray == None ==>
               && raised == (if Fit(d0, destinations, force) then Finalized(finalize) else CliError)
               && (done > 0 ==> raised == Finalized(finalize))
    requires o == RollbackIncomplete || o == (if raised == CliError then Refused else Restored)
    requires o == RollbackIncomplete ==> done > 0 && (d1.troubles < d2.troubles || Hit(d2, Places(destinations)))
    ensures Causes(d0, d2, destinations, force, finalize, o, stray)
  {
    HitStays(d1, d2, Places(destinations), Places(destinations));
    hide Hit, Places, Fit;
  }

  lemma {:induction false} TagsAreBounded(names: set<Path>) returns (bound: nat)
    ensures forall p :: p in names && p.Temporary? ==> p.tag < bound
  {
    if names == {} {
      bound := 0;
    } else {
      var p :| p in names;
      bound := TagsAreBounded(names - {p});
      if p.Temporary? && p.tag >= bound { bound := p.tag + 1; }
    }
  }

  /** However many names are taken, a random draw can find a free one. */
  lemma SomeNameIsFree(names: set<Path>, path: Path)
    ensures exists tag: nat :: Temporary(path.dir, path.name, tag) !in names
  {
    var bound := TagsAreBounded(names);
    assert Temporary(path.dir, path.name, bound) !in names;
  }

  class Installer {
    // What the environment does: which calls fail, how much a write writes,
    // which names are drawn, whether a directory is still the named one.
    const fails: (SystemCall, nat) -> bool
    const chunks: nat -> nat
    const taken: nat -> Option<nat>
    const moved: nat -> bool
    const acts: nat -> Act

    var clock: nat
    var entries: map<Path, nat>
    var files: map<nat, File>
    var next: nat
    var held: set<nat>
    var targets: seq<Target>
    ghost var ours: map<Path, nat>
    ghost var outside: map<Path, File>
    ghost var touched: set<Path>
    ghost var troubles: nat

    constructor (fails: (SystemCall, nat) -> bool, chunks: nat -> nat, taken: nat -> Option<nat>, moved: nat -> bool, acts: nat -> Act,
                 entries: map<Path, nat>, files: map<nat, File>, next: nat)
      requires forall p :: p in entries ==> entries[p] in files
      requires forall i :: i in files ==> i < next
      ensures Valid() && targets == [] && ours == map[] && touched == {} && troubles == 0
      ensures this.entries == entries && this.files == files && this.next == next && held == {} && clock == 0
      ensures this.fails == fails && this.chunks == chunks && this.taken == taken && this.moved == moved && this.acts == acts
    {
      this.fails, this.chunks, this.taken, this.moved, this.acts := fails, chunks, taken, moved, acts;
      this.entries, this.files, this.next := entries, files, next;
      clock, held, targets := 0, {}, [];
      ours, touched, troubles := map[], {}, 0;
      outside := map p | p in entries && p.Destination? && entries[p] in files :: files[entries[p]];
    }

    ghost function View(): Disk
      reads this
    {
      Disk(entries, files, next, held, ours, outside, touched, troubles)
    }

    ghost predicate Valid()
      reads this
    {
      DiskOk(View()) && TargetsOk(View(), targets)
    }

    /** At this moment something else than the removal of a staged name after its
        link can go wrong: a call fails, a write writes nothing, a drawn name is
        taken, the directory is no longer the named one. */
    ghost predicate FaultAt(n: nat) {
      (exists c :: c != DropStaged && fails(c, n)) || chunks(n) == 0 || taken(n).Some? || moved(n)
    }

    /** How many such moments there are before moment `n`. */
    ghost function Faults(n: nat): nat { if n == 0 then 0 else Faults(n - 1) + if FaultAt(n - 1) then 1 else 0 }

    /** The other processes do nothing. */
    ghost predicate Alone() { forall n :: acts(n) == Idle }

    /** Nobody else acts, and nothing goes wrong but, perhaps, the removal of staged
        names after their link. */
    ghost predicate Helpful() { Alone() && forall n :: !FaultAt(n) }

    /** Where at most one moment is faulty, at most one fault is ever counted. */
    lemma {:induction false} OneAtMost(at: nat, n: nat)
      requires forall i :: i != at ==> !FaultAt(i)
      ensures Faults(n) <= if at < n then 1 else 0
    {
      if n > 0 { OneAtMost(at, n - 1); }
    }

    /** One moment passes. */
    lemma FaultsGrow(n: nat)
      ensures Faults(n) <= Faults(n + 1)
      ensures forall c :: c != DropStaged && fails(c, n) ==> Faults(n) < Faults(n + 1)
      ensures chunks(n) == 0 || taken(n).Some? || moved(n) ==> Faults(n) < Faults(n + 1)
    {
    }

    lemma {:induction false} Faultless(n: nat)
      requires Helpful()
      ensures Faults(n) == 0
    {
      if n > 0 { Faultless(n - 1); }
    }

    /** Linked tokens keep their staged names. */
    ghost predicate NeverDrops() { forall n :: fails(DropStaged, n) }

    /** Staged names can be removed once their files are linked. */
    ghost predicate AlwaysDrops() { forall n :: !fails(DropStaged, n) }

    /** A system call that may fail and otherwise changes nothing. */
    method Try(c: SystemCall) returns (ok: bool)
      requires c != DropStaged
      modifies this`clock, this`troubles
      ensures ok == !fails(c, old(clock)) && clock == old(clock) + 1
      ensures troubles == old(troubles) + (if ok then 0 else 1)
      ensures troubles + Faults(old(clock)) <= old(troubles) + Faults(clock)
    {
      FaultsGrow(clock);
      hide Faults;
      ok := !fails(c, clock);
      clock := clock + 1;
      troubles := troubles + (if ok then 0 else 1);
    }

    /** A call between two steps of the transaction. */
    method Call(c: SystemCall, ghost stray: Option<nat>) returns (ok: bool)
      requires Valid() && c != DropStaged
      modifies this`clock, this`troubles
      ensures ok == !fails(c, old(clock)) && clock == old(clock) + 1
      ensures Valid() && View() == old(View()).(troubles := troubles) && troubles == old(troubles) + (if ok then 0 else 1)
      ensures troubles + Faults(old(clock)) <= old(troubles) + Faults(clock)
      ensures Later(old(View()), View())
      ensures Calm(old(View()), targets) ==> Calm(View(), targets)
      ensures StrayOk(old(View()), targets, stray) ==> StrayOk(View(), targets, stray)
    {
      ghost var d := View();
      ok := Try(c);
      TroubleKeepsAll(d, targets, troubles);
    }

    /** The other processes get a turn. */
    method Others(ghost stray: Option<nat>)
      requires Valid()
      modifies this`clock, this`entries, this`files, this`next, this`ours, this`outside, this`touched, this`troubles
      ensures Valid() && Later(old(View()), View()) && ours.Keys <= old(ours.Keys)
      ensures Steady(old(View()), View()) && old(ours.Keys) - touched <= ours.Keys && troubles == old(troubles)
      ensures Calm(old(View()), targets) ==> Calm(View(), targets)
      ensures StrayOk(old(View()), targets, stray) ==> StrayOk(View(), targets, stray)
      ensures troubles + Faults(old(clock)) <= old(troubles) + Faults(clock) && (Alone() ==> touched == old(touched))
    {
      FaultsGrow(clock);
      hide Faults;
      var a := acts(clock);
      clock := clock + 1;
      InterfereKeepsAll(View(), a, targets);
      Untroubled(View(), a);
      hide Alone, Faults, DiskOk, TargetsOk, StrayOk, Calm, Later, Steady, Interfere;
      Suffer(a);
    }

    method Suffer(a: Act)
      modifies this`entries, this`files, this`next, this`ours, this`outside, this`touched
      ensures View() == Interfere(old(View()), a)
    {
      if a.Idle? || !a.path.Destination? { return; }
      if a.Put? {
        if a.inode in held || exists q :: q in entries && q != a.path && entries[q] == a.inode { return; }
        entries := entries[a.path := a.inode];
        files := files[a.inode := a.file];
        next := if a.inode < next then next else a.inode + 1;
        outside := outside[a.path := a.file];
      } else {
        entries := entries - {a.path};
        outside := outside - {a.path};
      }
      ours, touched := ours - {a.path}, touched + {a.path};
    }

    // --------------------------------------------- what calls do to the disk

    method NewFile(name: Path, file: File)
      modifies this`entries, this`files, this`next, this`held
      ensures View() == Create(old(View()), name, file)
      ensures Lookup(entries, name) == Some(old(next)) && old(next) in held && old(next) in files
    {
      entries := entries[name := next];
      files := files[next := file];
      held := held + {next};
      next := next + 1;
    }

    method PlaceAt(from: Path, p: Path)
      requires from in entries
      modifies this`entries, this`ours
      ensures View() == Place(old(View()), from, p) && ours.Keys == old(ours.Keys) + {p}
    {
      entries := entries[p := entries[from]];
      ours := ours[p := entries[p]];
    }

    method WithdrawFrom(p: Path)
      modifies this`entries, this`ours
      ensures View() == Withdraw(old(View()), p)
    {
      entries := entries - {p};
      ours := ours - {p};
    }

    method GiveBackTo(from: Path, p: Path)
      requires from in entries
      modifies this`entries, this`ours, this`held
      ensures View() == GiveBack(old(View()), from, p)
    {
      held := held - {entries[from]};
      entries := entries[p := entries[from]] - {from};
      ours := ours - {p};
    }

    // ------------------------------------------------------------ staging

    /** `os.open` of a name nobody has. */
    method CreateFile(path: Path, name: Path) returns (id: Option<nat>)
      requires DiskOk(View()) && StagedFor(name, path) && name !in entries
      modifies this`clock, this`entries, this`files, this`next, this`held, this`troubles
      ensures DiskOk(View()) && Staging(old(View()), View(), path)
      ensures id == None ==> old(troubles) < troubles
      ensures id.Some? ==> Lookup(entries, name) == id && id.value in held && id.value in files
      ensures id.Some? ==> id.value !in old(files) && id.value !in old(held)
      ensures troubles + Faults(old(clock)) <= old(troubles) + Faults(clock)
    {
      ghost var d := View();
      hide DiskOk, Staging, StagedFor, Alone, Faults;
      var ok := Try(Open);
      ghost var e := View();
      TroubleKeeps(d, path, troubles);
      if !ok { return None; }
      CreateStages(e, path, name, File("", PRIVATE_MODE, true));
      id := Some(next);
      NewFile(name, File("", PRIVATE_MODE, true));
      StagingTrans(d, e, View(), path);
    }

    /** At most 128 draws for a name nobody has. */
    method DrawName(path: Path) returns (name: Path, found: bool)
      requires path.Destination?
      modifies this`clock
      ensures StagedFor(name, path) && (found ==> name !in entries)
      ensures Faults(old(clock)) + (if found then 0 else 128) <= Faults(clock)
    {
      hide Faults;
      name := Temporary(path.dir, path.name, 0);
      for attempt := 0 to 128
        invariant StagedFor(name, path) && Faults(old(clock)) + attempt <= Faults(clock)
      {
        FaultsGrow(clock);
        var tag := taken(clock);
        clock := clock + 1;
        if tag == None {
          SomeNameIsFree(entries.Keys, path);
          var unused: nat :| Temporary(path.dir, path.name, unused) !in entries.Keys;
          return Temporary(path.dir, path.name, unused), true;
        }
        name := Temporary(path.dir, path.name, tag.value);
      }
      return name, false;
    }

    method OpenExclusive(path: Path) returns (name: Path, id: Option<nat>, raised: Raised)
      requires DiskOk(View()) && path.Destination?
      modifies this`clock, this`entries, this`files, this`next, this`held, this`troubles
      ensures DiskOk(View()) && Staging(old(View()), View(), path) && StagedFor(name, path)
      ensures id == None ==> old(troubles) < troubles
      ensures raised == OsError || raised == CliError
      ensures id.Some? ==> Lookup(entries, name) == id && id.value in held && id.value in files
      ensures id.Some? ==> id.value !in old(files) && id.value !in old(held)
      ensures troubles + Faults(old(clock)) <= old(troubles) + Faults(clock)
    {
      ghost var d := View();
      hide Staging, Faults;
      var found;
      name, found := DrawName(path);
      TroubleKeeps(d, path, d.troubles);
      if found {
        id := CreateFile(path, name);
        return name, id, OsError;
      }
      troubles := troubles + 1;
      TroubleKeeps(d, path, troubles);
      return name, None, CliError;
    }

    /** As many writes as it takes. */
    method WriteAll(id: nat, content: string, mode: nat) returns (ok: bool)
      requires Lookup(files, id) == Some(File("", mode, true))
      modifies this`clock, this`files, this`troubles
      ensures id in files && files == old(files)[id := files[id]]
      ensures old(troubles) <= troubles && (!ok ==> old(troubles) < troubles)
      ensures ok ==> files[id] == File(content, mode, true)
      ensures troubles + Faults(old(clock)) <= old(troubles) + Faults(clock)
    {
      hide Faults;
      var done := 0;
      while done < |content|
        invariant done <= |content| && id in files && files[id] == File(content[..done], mode, true)
        invariant files == old(files)[id := files[id]]
        invariant old(troubles) <= troubles
        invariant troubles + Faults(old(clock)) <= old(troubles) + Faults(clock)
      {
        FaultsGrow(clock);
        ok := Try(Write);
        if !ok { return; }
        var written := if chunks(clock - 1) <= |content| - done then chunks(clock - 1) else |content| - done;
        if written == 0 {
          troubles := troubles + 1;
          return false;
        }
        done := done + written;
        files := files[id := File(content[..done], mode, true)];
      }
      assert content[..done] == content;
      return true;
    }

    /** Mode, contents, `fsync`, `fstat`. */
    method Fill(id: nat, content: string, mode: nat) returns (ok: bool)
      requires id in files
      modifies this`clock, this`files, this`troubles
      ensures id in files && files == old(files)[id := files[id]]
      ensures old(troubles) <= troubles && (!ok ==> old(troubles) < troubles)
      ensures ok ==> files[id] == File(content, mode, true)
      ensures troubles + Faults(old(clock)) <= old(troubles) + Faults(clock)
    {
      hide Alone, Faults;
      ok := Try(Chmod);
      assert files == files[id := files[id]];
      if !ok { return; }
      files := files[id := File("", mode, true)];
      ok := WriteAll(id, content, mode);
      if !ok { return; }
      ok := Try(Fsync);
      if !ok { return; }
      ok := Try(Stat);
    }

    method GiveUp(name: Path, id: Option<nat>)
      modifies this`clock, this`entries, this`held
      ensures View() == old(View()).(held := if id.Some? then old(held) - {id.value} else old(held), entries := entries)
      ensures entries == if fails(UnlinkName, old(clock)) then old(entries) else old(entries) - {name}
      ensures Faults(old(clock)) <= Faults(clock)
    {
      FaultsGrow(clock);
      hide Faults;
      if id.Some? { held := held - {id.value}; }
      if !fails(UnlinkName, clock) { entries := entries - {name}; }
      clock := clock + 1;
    }

    /** `_stage_private_text_at`: a new private file beside the destination,
        written, synced and held open. */
    method Stage(path: Path, content: string, mode: nat) returns (staged: Result<(Path, nat), Raised>)
      requires DiskOk(View()) && path.Destination?
      modifies this`clock, this`entries, this`files, this`next, this`held, this`troubles
      ensures DiskOk(View()) && Staging(old(View()), View(), path)
      ensures staged.Err? ==> old(troubles) < troubles && (staged.error == OsError || staged.error == CliError)
      ensures staged.Ok? ==>
        var (name, id) := staged.value;
        && StagedFor(name, path) && Lookup(entries, name) == Some(id)
        && id in held && id !in old(files) && id !in old(held)
        && Lookup(files, id) == Some(File(content, mode, true))
      ensures troubles + Faults(old(clock)) <= old(troubles) + Faults(clock)
    {
      ghost var d0 := View();
      var name, id, raised := OpenExclusive(path);
      ghost var d1 := View();
      hide Alone, Faults, DiskOk, Staging, StagedFor;
      if id == None {
        GiveUp(name, id);
        GiveUpKeeps(d0, d1, View(), path, name, id);
        return Err(raised);
      }
      var ok := Fill(id.value, content, mode);
      ghost var d2 := View();
      assert d2 == Rewrite(d1, id.value, files[id.value]).(troubles := troubles);
      hide Rewrite;
      RewriteStages(d0, d1, d2, path, id.value);
      if !ok {
        GiveUp(name, id);
        GiveUpKeeps(d0, d2, View(), path, name, id);
        return Err(OsError);
      }
      return Ok((name, id.value));
    }

    // ------------------------------------------------------------- checks

    /** `_credential_snapshot_at`. */
    method SnapshotAt(path: Path) returns (r: Result<Snapshot, Raised>)
      requires DiskOk(View())
      modifies this`clock, this`troubles
      ensures old(troubles) <= troubles
      ensures r.Ok? ==> r.value == SnapshotNow(View(), path) && (r.value.Existing? ==> Acceptable(r.value.file))
      ensures r.Err? ==> r.error == CliError
      ensures r.Err? ==> old(troubles) < troubles || (SnapshotNow(View(), path).Existing? && !Acceptable(SnapshotNow(View(), path).file))
      ensures troubles + Faults(old(clock)) <= old(troubles) + Faults(clock)
    {
      hide Faults;
      var ok := Try(Open);
      if !ok { return Err(CliError); }
      if path !in entries { return Ok(Missing); }
      var file := files[entries[path]];
      if !file.plain || file.mode % 64 != 0 || |file.content| > LARGEST {
        assert Seen(View(), path) == Some(file) && !Acceptable(file);
        return Err(CliError);
      }
      return Ok(Existing(entries[path], file));
    }

    /** `_snapshot_matches_current`. */
    method SnapshotMatches(t: Target) returns (r: Result<bool, Raised>)
      requires DiskOk(View()) && (t.snapshot.Existing? ==> Acceptable(t.snapshot.file))
      modifies this`clock, this`troubles
      ensures old(troubles) <= troubles
      ensures r.Ok? ==> (r.value <==> SnapshotNow(View(), t.path) == t.snapshot)
      ensures r.Err? ==> r.error == CliError && (old(troubles) < troubles || SnapshotNow(View(), t.path) != t.snapshot)
      ensures troubles + Faults(old(clock)) <= old(troubles) + Faults(clock)
    {
      hide Faults;
      var current := SnapshotAt(t.path);
      if current.Err? { return Err(current.error); }
      if current.value.Existing? != t.snapshot.Existing? { return Ok(false); }
      if current.value.Missing? { return Ok(true); }
      return Ok(current.value.inode == t.snapshot.inode && current.value.file.mode == t.snapshot.file.mode
                && current.value.file.content == t.snapshot.file.content);
    }

    /** `_verify_descriptor_at`: the open file is as written, and the destination
        still leads to it, in a directory still in its place. */
    method Verify(path: Path, id: nat, expected: string, mode: nat) returns (ok: bool)
      requires DiskOk(View()) && id in files
      modifies this`clock, this`troubles
      ensures old(troubles) <= troubles
      ensures ok ==> Lookup(entries, path) == Some(id) && files[id] == File(expected, mode, true)
      ensures !ok && Lookup(entries, path) == Some(id) && files[id] == File(expected, mode, true) ==> old(troubles) < troubles
      ensures troubles + Faults(old(clock)) <= old(troubles) + Faults(clock)
    {
      hide Faults;
      ok := Try(Stat);
      if !ok || !files[id].plain || files[id].mode != mode { return false; }
      var content := files[id].content;
      ok := Try(Read);
      ReadDecides(content, expected);
      if !ok || content[..if |content| < |expected| + 1 then |content| else |expected| + 1] != expected { return false; }
      ok := Try(Stat);
      if !ok || path !in entries || entries[path] != id || !files[entries[path]].plain { return false; }
      ok := StillNamed();
    }

    /** `_directory_path_matches_descriptor`. */
    method StillNamed() returns (ok: bool)
      modifies this`clock, this`troubles
      ensures troubles == old(troubles) + (if ok then 0 else 1)
      ensures troubles + Faults(old(clock)) <= old(troubles) + Faults(clock)
    {
      FaultsGrow(clock);
      hide Faults;
      ok := !moved(clock);
      clock := clock + 1;
      troubles := troubles + (if ok then 0 else 1);
    }

    // -------------------------------------------------------------- commit

    /** Move the staged token over its destination and record it. */
    method ReplaceDestination(i: nat)
      requires Placeable(View(), targets, i)
      modifies this`entries, this`ours, this`targets
      ensures Valid() && Later(old(View()), View())
      ensures targets == old(targets)[i := Recorded(old(targets)[i])]
      ensures ours.Keys == old(ours.Keys) + {targets[i].path}
      ensures Calm(old(View()), old(targets)) ==> Calm(View(), targets)
    {
      ghost var d, ts := View(), targets;
      PlacedUnrecorded(d, ts, i);
      PlacedRecorded(d, ts, i);
      hide *;
      PlaceAt(targets[i].staged.value, targets[i].path);
      RecordPlaced(i);
    }

    /** Link the staged token to a destination nobody has, then drop the staged
        name. The token is recorded only if that succeeds. */
    method LinkDestination(i: nat) returns (raised: Raised, stray: Option<nat>)
      requires Placeable(View(), targets, i) && targets[i].path !in entries && targets[i].snapshot.Missing?
      modifies this`clock, this`troubles, this`entries, this`ours, this`targets
      ensures Valid() && Later(old(View()), View()) && StrayOk(View(), targets, stray)
      ensures raised == (if fails(Link, old(clock)) || fails(DropStaged, old(clock) + 1) then OsError else Nothing)
      ensures stray == (if !fails(Link, old(clock)) && fails(DropStaged, old(clock) + 1) then Some(i) else None)
      ensures targets == if raised == Nothing then old(targets)[i := Recorded(old(targets)[i])] else old(targets)
      ensures ours.Keys <= old(ours.Keys) + (if raised == Nothing || stray.Some? then {targets[i].path} else {})
      ensures raised == Nothing && Calm(old(View()), old(targets)) ==> Calm(View(), targets)
      ensures Calm(old(View()), old(targets)) ==> StandingTo(View(), targets, |targets|)
      ensures raised != Nothing ==> old(troubles) < troubles || stray.Some?
      ensures troubles + Faults(old(clock)) <= old(troubles) + Faults(clock)
    {
      ghost var d, ts := View(), targets;
      hide Alone, Faults, DiskOk, TargetsOk, Calm, StrayOk, Later, StandingTo;
      var ok := Call(Link, None);
      ghost var e := View();
      NoStray(e, ts);
      if Calm(e, ts) { CalmStands(e, ts, |ts|); }
      if !ok { return OsError, None; }
      assert Placeable(e, targets, i);
      PlacedUnrecorded(e, targets, i);
      hide Placeable;
      raised, stray := LinkAndRecord(i);
      LaterTrans(d, e, View());
    }

    method LinkAndRecord(i: nat) returns (raised: Raised, stray: Option<nat>)
      requires Placeable(View(), targets, i) && targets[i].snapshot.Missing?
      requires i < |targets| && targets[i].staged.Some? && targets[i].staged.value in entries
      modifies this`clock, this`troubles, this`entries, this`ours, this`targets
      ensures Valid() && Later(old(View()), View()) && StrayOk(View(), targets, stray)
      ensures stray == (if fails(DropStaged, old(clock)) then Some(i) else None)
      ensures raised == (if fails(DropStaged, old(clock)) then OsError else Nothing)
      ensures targets == if raised == Nothing then old(targets)[i := Recorded(old(targets)[i])] else old(targets)
      ensures ours.Keys <= old(ours.Keys) + {targets[i].path}
      ensures raised == Nothing && Calm(old(View()), old(targets)) ==> Calm(View(), targets)
      ensures Calm(old(View()), old(targets)) ==> StandingTo(View(), targets, |targets|)
      ensures troubles + Faults(old(clock)) <= old(troubles) + Faults(clock)
    {
      ghost var d, ts := View(), targets;
      PlacedUnrecorded(d, ts, i);
      PlacedRecorded(d, ts, i);
      PlacedStands(d, ts, i);
      hide *;
      FaultsGrow(clock);
      PlaceAt(targets[i].staged.value, targets[i].path);
      var failed := fails(DropStaged, clock);
      clock := clock + 1;
      if failed { return OsError, Some(i); }
      RecordPlaced(i);
      NoStray(View(), targets);
      if Calm(d, ts) { CalmStands(View(), targets, |targets|); }
      return Nothing, None;
    }

    /** The staged name goes, and the target is recorded as committed. */
    method RecordPlaced(i: nat)
      requires i < |targets| && targets[i].staged.Some?
      modifies this`entries, this`targets
      ensures View() == Unlink(old(View()), old(targets[i].staged.value))
      ensures targets == old(targets)[i := Recorded(old(targets)[i])]
    {
      entries := entries - {targets[i].staged.value};
      targets := targets[i := Recorded(targets[i])];
    }

    /** Nothing changed since the snapshot: an error says why it did not go on. */
    method CheckUnchanged(i: nat) returns (same: bool)
      requires Valid() && i < |targets| && targets[i].committed == None && targets[i].staged.Some?
      requires Calm(View(), targets) && targets[i].path !in ours
      modifies this`clock, this`entries, this`files, this`next, this`ours, this`outside, this`touched, this`troubles
      ensures Valid() && Later(old(View()), View()) && ours.Keys <= old(ours.Keys) && Calm(View(), targets)
      ensures if same then Placeable(View(), targets, i) else old(troubles) < troubles || targets[i].path in touched
      ensures troubles + Faults(old(clock)) <= old(troubles) + Faults(clock) && (Alone() ==> touched == old(touched))
    {
      hide Faults;
      Others(None);
      ghost var d := View();
      var r := SnapshotMatches(targets[i]);
      TroubleKeepsAll(d, targets, troubles);
      if r.Err? || !r.value {
        if SnapshotNow(View(), targets[i].path) != targets[i].snapshot { MismatchIsActed(View(), targets, i); }
        return false;
      }
      MatchIsPlaceable(View(), targets, i);
      return true;
    }

    method CheckCommitted(i: nat) returns (ok: bool)
      requires Valid() && i < |targets| && targets[i].committed.Some? && targets[i].identity.Some?
      requires Calm(View(), targets)
      modifies this`clock, this`entries, this`files, this`next, this`ours, this`outside, this`touched, this`troubles
      ensures Valid() && Later(old(View()), View()) && ours.Keys <= old(ours.Keys) && Calm(View(), targets)
      ensures if ok then Seen(View(), targets[i].path) == Some(TokenFile(targets[i].token)) 
              else old(troubles) < troubles || targets[i].path in touched
      ensures troubles + Faults(old(clock)) <= old(troubles) + Faults(clock) && (Alone() ==> touched == old(touched))
    {
      hide Faults;
      Others(None);
      ghost var d := View();
      HasToken(d, targets, i);
      ok := Verify(targets[i].path, targets[i].identity.value, targets[i].token + "\n", PRIVATE_MODE);
      TroubleKeepsAll(d, targets, troubles);
      if targets[i].path !in touched { CommittedIsThere(View(), targets, i); }
    }

    /** A destination that appeared meanwhile is somebody else's. */
    method LinkNew(i: nat) returns (raised: Raised, stray: Option<nat>)
      requires Valid() && i < |targets| && targets[i].committed == None && targets[i].staged.Some?
      requires Calm(View(), targets) && targets[i].path !in ours && targets[i].snapshot.Missing?
      modifies this`clock, this`entries, this`files, this`next, this`ours, this`outside, this`touched, this`troubles, this`targets
      ensures Valid() && Later(old(View()), View()) && StrayOk(View(), targets, stray)
      ensures raised != AfterCommit && (stray.Some? ==> stray == Some(i) && raised == OsError)
      ensures targets == if raised == Nothing then old(targets)[i := Recorded(old(targets)[i])] else old(targets)
      ensures ours.Keys <= old(ours.Keys) + (if raised == Nothing || stray.Some? then {targets[i].path} else {})
      ensures if raised == Nothing then Calm(View(), targets)
              else old(troubles) < troubles || stray.Some? || targets[i].path in touched
      ensures StandingTo(View(), targets, |targets|) && (AlwaysDrops() ==> stray == None)
      ensures troubles + Faults(old(clock)) <= old(troubles) + Faults(clock) && (Alone() ==> touched == old(touched))
      ensures NeverDrops() ==> raised != Nothing
    {
      ghost var d := View();
      hide Alone, Faults, DiskOk, TargetsOk, Calm, Later, Placeable, StrayOk, StandingTo, Steady;
      Others(None);
      ghost var e := View();
      CalmStands(e, targets, |targets|);
      if targets[i].path in entries {
        TakenIsActed(View(), targets, i);
        NoStray(View(), targets);
        return CliError, None;
      }
      FreeIsPlaceable(View(), targets, i);
      raised, stray := LinkDestination(i);
      LaterTrans(d, e, View());
    }

    /** `os.replace` over whatever is there. */
    method ReplaceNew(i: nat) returns (raised: Raised)
      requires Placeable(View(), targets, i) && Calm(View(), targets)
      modifies this`clock, this`troubles, this`entries, this`ours, this`targets
      ensures Valid() && Later(old(View()), View())
      ensures raised == if fails(Replace, old(clock)) then OsError else Nothing
      ensures targets == if raised == Nothing then old(targets)[i := Recorded(old(targets)[i])] else old(targets)
      ensures ours.Keys <= old(ours.Keys) + (if raised == Nothing then {targets[i].path} else {})
      ensures if raised == Nothing then Calm(View(), targets) else old(troubles) < troubles
      ensures StandingTo(View(), targets, |targets|)
      ensures troubles + Faults(old(clock)) <= old(troubles) + Faults(clock)
    {
      ghost var d := View();
      hide Alone, Faults, DiskOk, TargetsOk, Calm, StrayOk, Later, StandingTo;
      var ok := Call(Replace, None);
      ghost var e := View();
      CalmStands(e, targets, |targets|);
      if !ok { return OsError; }
      assert Placeable(e, targets, i);
      hide Placeable;
      ReplaceDestination(i);
      CalmStands(View(), targets, |targets|);
      LaterTrans(d, e, View());
      return Nothing;
    }

    /** `fsync` of the directory, and the check of the destination. */
    method ConfirmCommitted(i: nat) returns (raised: Raised)
      requires Valid() && i < |targets| && targets[i].committed.Some? && targets[i].identity.Some?
      requires Calm(View(), targets)
      modifies this`clock, this`entries, this`files, this`next, this`ours, this`outside, this`touched, this`troubles
      ensures Valid() && Later(old(View()), View()) && ours.Keys <= old(ours.Keys) && Calm(View(), targets)
      ensures raised == Nothing || raised == OsError || raised == CliError
      ensures if raised == Nothing then Seen(View(), targets[i].path) == Some(TokenFile(targets[i].token))
              else old(troubles) < troubles || targets[i].path in touched
      ensures troubles + Faults(old(clock)) <= old(troubles) + Faults(clock) && (Alone() ==> touched == old(touched))
    {
      ghost var d := View();
      hide Alone, Faults, DiskOk, TargetsOk, Calm, Later, StrayOk;
      var ok := Call(Fsync, None);
      ghost var e := View();
      if !ok { return OsError; }
      ok := CheckCommitted(i);
      LaterTrans(d, e, View());
      TouchedGrows(e, View());
      return if ok then Nothing else CliError;
    }

    /** One turn of the commit loop. */
    method CommitOne(i: nat, force: bool) returns (raised: Raised, stray: Option<nat>)
      requires Valid() && i < |targets| && targets[i].committed == None && targets[i].staged.Some? && targets[i].identity.Some?
      requires Calm(View(), targets) && targets[i].path !in ours
      requires force || targets[i].snapshot.Missing?
      modifies this`clock, this`entries, this`files, this`next, this`ours, this`outside, this`touched, this`troubles, this`targets
      ensures Valid() && Later(old(View()), View()) && StrayOk(View(), targets, stray)
      ensures targets == old(targets) || targets == old(targets)[i := Recorded(old(targets)[i])]
      ensures stray.Some? ==> !force && stray == Some(i) && raised == OsError && targets == old(targets)
      ensures ours.Keys <= old(ours.Keys) + (if targets[i].committed.Some? || stray.Some? then {targets[i].path} else {})
      ensures if raised == Nothing then Calm(View(), targets) && targets[i].committed.Some?
              else (old(troubles) < troubles || stray.Some? || targets[i].path in touched) && raised != AfterCommit
      ensures StandingTo(View(), targets, |targets|) && (AlwaysDrops() ==> stray == None)
      ensures raised == Nothing ==> Seen(View(), targets[i].path) == Some(TokenFile(targets[i].token))
      ensures troubles + Faults(old(clock)) <= old(troubles) + Faults(clock) && (Alone() ==> touched == old(touched))
      ensures !force && NeverDrops() ==> raised != Nothing && targets == old(targets)
    {
      ghost var d := View();
      hide Alone, Faults, DiskOk, TargetsOk, Calm, Placeable, StrayOk, Later, NeverDrops, AlwaysDrops, StandingTo;
      stray := None;
      var same := CheckUnchanged(i);
      ghost var e := View();
      TouchedGrows(d, e);
      NoStray(e, targets);
      CalmStands(e, targets, |targets|);
      if !same { return CliError, None; }
      if force {
        raised := ReplaceNew(i);
      } else {
        raised, stray := LinkNew(i);
      }
      ghost var f := View();
      LaterTrans(d, e, f);
      TouchedGrows(e, f);
      NoStray(f, targets);
      if raised != Nothing { return; }
      raised := ConfirmCommitted(i);
      LaterTrans(d, f, View());
      TouchedGrows(f, View());
      NoStray(View(), targets);
      CalmStands(View(), targets, |targets|);
    }

    /** The commit loop; `done` counts the targets recorded as committed. */
    method CommitAll(force: bool) returns (raised: Raised, stray: Option<nat>, ghost done: nat)
      requires Valid() && Calm(View(), targets) && AllStaged(targets, |targets|) && ours == map[]
      requires force || forall k :: 0 <= k < |targets| ==> targets[k].snapshot.Missing?
      modifies this`clock, this`entries, this`files, this`next, this`ours, this`outside, this`touched, this`troubles, this`targets
      ensures Valid() && Later(old(View()), View()) && StrayOk(View(), targets, stray) && SameOrders(old(targets), targets)
      ensures CommittedTo(targets, done) && ours.Keys <= PathsTo(targets, done) + StrayPaths(targets, stray)
      ensures stray.Some? ==> !force && raised == OsError
      ensures if raised == Nothing then Calm(View(), targets) && done == |targets|
              else (old(troubles) < troubles || stray.Some? || Hit(View(), PathsTo(targets, |targets|))) && raised != AfterCommit
      ensures StandingTo(View(), targets, |targets|) && (AlwaysDrops() ==> stray == None)
      ensures troubles + Faults(old(clock)) <= old(troubles) + Faults(clock) && (Alone() ==> touched == old(touched))
      ensures stray.Some? ==> stray == Some(done)
      ensures !force && NeverDrops() ==> done == 0 && (raised == Nothing ==> targets == [])
    {
      ghost var d, ts := View(), targets;
      hide Alone, Faults, DiskOk, TargetsOk, TargetOk, Calm, StrayOk, Later, StandingTo, NeverDrops, AlwaysDrops, Hit;
      NoStray(View(), targets);
      LaterSelf(d);
      stray, done := None, 0;
      for i := 0 to |targets|
        invariant |targets| == |ts| && SameOrders(ts, targets) && Valid() && Calm(View(), targets) && Later(d, View())
        invariant forall k :: i <= k < |ts| ==> targets[k] == ts[k]
        invariant CommittedTo(targets, i) && ours.Keys <= PathsTo(targets, i)
        invariant troubles + Faults(old(clock)) <= d.troubles + Faults(clock) && (Alone() ==> touched == d.touched)
        invariant !force && NeverDrops() ==> i == 0
      {
        ghost var e := View();
        NewPath(e, targets, i);
        TouchedGrows(d, e);
        raised, stray := CommitOne(i, force);
        LaterTrans(d, e, View());
        SamePaths(ts, targets, i);
        PathsOneMore(targets, i);
        if targets[i].path in touched { HitBy(View(), PathsTo(targets, |targets|), targets[i].path); }
        done := if targets[i].committed.Some? then i + 1 else i;
        if raised != Nothing { return; }
      }
      NoStray(View(), targets);
      CalmStands(View(), targets, |targets|);
      return Nothing, None, |targets|;
    }

    // ------------------------------------------------------------ rollback

    /** `_destination_matches_committed`. */
    method DestinationMatches(i: nat, ghost stray: Option<nat>) returns (same: bool)
      requires Valid() && i < |targets| && targets[i].committed.Some? && StrayOk(View(), targets, stray)
      requires targets[i].path in touched || targets[i].path in ours
      modifies this`clock, this`troubles
      ensures Valid() && Later(old(View()), View()) && StrayOk(View(), targets, stray)
      ensures if same then Restorable(View(), targets, i) else old(troubles) < troubles || targets[i].path in touched
      ensures troubles + Faults(old(clock)) <= old(troubles) + Faults(clock)
    {
      hide Alone, Faults, DiskOk, TargetsOk, StrayOk, Later;
      var ok := Call(Stat, stray);
      if targets[i].path in ours { StandingIsThere(View(), targets, i); }
      same := ok && targets[i].path in entries && entries[targets[i].path] == targets[i].committed.value;
    }

    /** A copy of the original file, staged beside the token. */
    method StageCopy(i: nat, ghost stray: Option<nat>) returns (staged: Option<(Path, nat)>)
      requires Valid() && i < |targets| && Restorable(View(), targets, i)
      requires targets[i].snapshot.Existing? && StrayOk(View(), targets, stray)
      modifies this`clock, this`entries, this`files, this`next, this`held, this`troubles
      ensures Valid() && Later(old(View()), View()) && StrayOk(View(), targets, stray) && ours == old(ours)
      ensures if staged.Some? then CopyReady(View(), targets, i, staged.value.0, staged.value.1) else old(troubles) < troubles
      ensures troubles + Faults(old(clock)) <= old(troubles) + Faults(clock)
    {
      ghost var d := View();
      SnapshotKept(d, targets, i);
      hide Alone, Faults, DiskOk, TargetsOk, StrayOk, Later, Staging, Restorable;
      var copy := Stage(targets[i].path, targets[i].snapshot.file.content, targets[i].snapshot.file.mode);
      StagingKeepsAll(d, View(), targets, i);
      StagingOurs(d, View(), targets[i].path);
      if copy.Err? { return None; }
      CopyIsNew(d, View(), targets, i, copy.value.0, copy.value.1);
      return Some(copy.value);
    }

    /** `os.replace` of the token by the copy; if it fails the copy is dropped. */
    method MoveBack(i: nat, name: Path, id: nat, ghost stray: Option<nat>) returns (ok: bool)
      requires Valid() && CopyReady(View(), targets, i, name, id) && StrayOk(View(), targets, stray)
      requires i < |targets| && targets[i].snapshot.Existing?
      modifies this`clock, this`entries, this`ours, this`held, this`troubles
      ensures Valid() && Later(old(View()), View()) && StrayOk(View(), targets, stray)
      ensures ours.Keys == old(ours.Keys) - (if ok then {targets[i].path} else {})
      ensures if ok then SnapshotNow(View(), targets[i].path) == Existing(id, targets[i].snapshot.file) else old(troubles) < troubles
      ensures troubles + Faults(old(clock)) <= old(troubles) + Faults(clock)
    {
      ghost var d := View();
      hide Alone, Faults, DiskOk, TargetsOk, StrayOk, Later;
      ok := Call(Replace, stray);
      ghost var e := View();
      assert CopyReady(e, targets, i, name, id);
      if ok {
        GivenBack(e, targets, i, name, id, stray);
        hide CopyReady, SnapshotNow;
        GiveBackTo(name, targets[i].path);
        LaterTrans(d, e, View());
      } else {
        hide CopyReady;
        GiveUp(name, Some(id));
        CopyDropped(e, View(), targets, i, name, id, stray);
        LaterTrans(d, e, View());
      }
    }

    /** A copy of the original file takes the place of the token. */
    method PutBack(i: nat, ghost stray: Option<nat>) returns (ok: bool)
      requires Valid() && i < |targets| && Restorable(View(), targets, i)
      requires targets[i].snapshot.Existing? && StrayOk(View(), targets, stray)
      modifies this`clock, this`entries, this`files, this`next, this`held, this`ours, this`outside, this`touched, this`troubles
      ensures Valid() && Later(old(View()), View()) && StrayOk(View(), targets, stray)
      ensures old(ours.Keys) - touched - {targets[i].path} <= ours.Keys <= old(ours.Keys) && (ok ==> targets[i].path !in ours)
      ensures if ok then Seen(View(), targets[i].path) == SeenBefore(targets[i].snapshot)
              else old(troubles) < troubles || targets[i].path in touched
      ensures troubles + Faults(old(clock)) <= old(troubles) + Faults(clock) && (Alone() ==> touched == old(touched))
    {
      ghost var d0 := View();
      hide Alone, Faults, DiskOk, TargetsOk, StrayOk, Later, Restorable, CopyReady, SnapshotNow;
      var staged := StageCopy(i, stray);
      ghost var d1 := View();
      TouchedGrows(d0, d1);
      if staged == None { return false; }
      ok := MoveBack(i, staged.value.0, staged.value.1, stray);
      ghost var d2 := View();
      LaterTrans(d0, d1, d2);
      TouchedGrows(d1, d2);
      if !ok { return; }
      ok := ConfirmReturned(i, staged.value.1, stray);
      LaterTrans(d0, d2, View());
      TouchedGrows(d2, View());
    }

    /** The file at its destination, once the others had a turn. */
    method VerifyNow(path: Path, id: nat, file: File, ghost stray: Option<nat>) returns (ok: bool)
      requires Valid() && file.plain && StrayOk(View(), targets, stray)
      requires path.Destination? && SnapshotNow(View(), path) == Existing(id, file)
      modifies this`clock, this`entries, this`files, this`next, this`ours, this`outside, this`touched, this`troubles
      ensures Valid() && Later(old(View()), View()) && StrayOk(View(), targets, stray)
      ensures old(ours.Keys) - touched <= ours.Keys <= old(ours.Keys)
      ensures if ok then Seen(View(), path) == Some(file) else old(troubles) < troubles || path in touched
      ensures troubles + Faults(old(clock)) <= old(troubles) + Faults(clock) && (Alone() ==> touched == old(touched))
    {
      ghost var d0 := View();
      hide Alone, Faults, DiskOk, TargetsOk, StrayOk, Later;
      Others(stray);
      ghost var d := View();
      FilesStay(d0, d, id);
      ok := Verify(path, id, file.content, file.mode);
      TroubleKeepsAll(d, targets, troubles);
      LaterTrans(d0, d, View());
    }

    method ConfirmReturned(i: nat, id: nat, ghost stray: Option<nat>) returns (ok: bool)
      requires Valid() && i < |targets| && targets[i].snapshot.Existing? && StrayOk(View(), targets, stray)
      requires SnapshotNow(View(), targets[i].path) == Existing(id, targets[i].snapshot.file)
      modifies this`clock, this`entries, this`files, this`next, this`ours, this`outside, this`touched, this`troubles
      ensures Valid() && Later(old(View()), View()) && StrayOk(View(), targets, stray)
      ensures old(ours.Keys) - touched <= ours.Keys <= old(ours.Keys)
      ensures if ok then Seen(View(), targets[i].path) == Some(targets[i].snapshot.file)
              else old(troubles) < troubles || targets[i].path in touched
      ensures troubles + Faults(old(clock)) <= old(troubles) + Faults(clock) && (Alone() ==> touched == old(touched))
    {
      ghost var d0 := View();
      Shape(d0, targets, i);
      var path, file := targets[i].path, targets[i].snapshot.file;
      hide Alone, Faults, DiskOk, TargetsOk, StrayOk, Later;
      ok := Call(Fsync, stray);
      if !ok { return; }
      ghost var d1 := View();
      assert SnapshotNow(d1, path) == Existing(id, file);
      hide SnapshotNow, Seen;
      ok := VerifyNow(path, id, file, stray);
      LaterTrans(d0, d1, View());
    }

    /** The token is unlinked where there was no file before. */
    method TakeAway(i: nat, ghost stray: Option<nat>) returns (ok: bool)
      requires Valid() && Restorable(View(), targets, i) && targets[i].snapshot.Missing? && StrayOk(View(), targets, stray)
      modifies this`clock, this`entries, this`ours, this`troubles
      ensures Valid() && Later(old(View()), View()) && StrayOk(View(), targets, stray)
      ensures old(ours.Keys) - {targets[i].path} <= ours.Keys <= old(ours.Keys) && (ok ==> targets[i].path !in ours)
      ensures if ok then Seen(View(), targets[i].path) == None else old(troubles) < troubles
      ensures troubles + Faults(old(clock)) <= old(troubles) + Faults(clock)
    {
      ghost var d0 := View();
      hide Alone, Faults, DiskOk, TargetsOk, StrayOk, Later;
      ok := Call(UnlinkName, stray);
      if !ok { return; }
      ghost var d1 := View();
      Withdrawn(d1, targets, i, stray);
      hide Restorable;
      WithdrawFrom(targets[i].path);
      ghost var d2 := View();
      LaterTrans(d0, d1, d2);
      ok := Call(Fsync, stray);
      LaterTrans(d0, d2, View());
    }

    /** The destination is given back its file, or its absence. */
    method GiveBackOne(i: nat, ghost stray: Option<nat>) returns (ok: bool)
      requires Valid() && Restorable(View(), targets, i) && StrayOk(View(), targets, stray)
      modifies this`clock, this`entries, this`files, this`next, this`held, this`ours, this`outside, this`touched, this`troubles
      ensures Valid() && Later(old(View()), View()) && StrayOk(View(), targets, stray)
      ensures old(ours.Keys) - touched - {targets[i].path} <= ours.Keys <= old(ours.Keys) && (ok ==> targets[i].path !in ours)
      ensures if ok then Seen(View(), targets[i].path) == SeenBefore(targets[i].snapshot)
              else old(troubles) < troubles || targets[i].path in touched
      ensures troubles + Faults(old(clock)) <= old(troubles) + Faults(clock) && (Alone() ==> touched == old(touched))
    {
      hide Alone, Faults, DiskOk, TargetsOk, StrayOk, Later;
      if targets[i].snapshot.Existing? {
        ok := PutBack(i, stray);
      } else {
        ok := TakeAway(i, stray);
      }
    }

    /** One turn of the rollback loop: it fails only if a call fails or the others
        act on the destination. */
    method RestoreOne(i: nat, ghost stray: Option<nat>) returns (ok: bool)
      requires Valid() && i < |targets| && targets[i].committed.Some? && StrayOk(View(), targets, stray)
      requires targets[i].path in touched || targets[i].path in ours
      modifies this`clock, this`entries, this`files, this`next, this`held, this`ours, this`outside, this`touched, this`troubles
      ensures Valid() && Later(old(View()), View()) && StrayOk(View(), targets, stray)
      ensures old(ours.Keys) - touched - {targets[i].path} <= ours.Keys <= old(ours.Keys) && (ok ==> targets[i].path !in ours)
      ensures if ok then Seen(View(), targets[i].path) == SeenBefore(targets[i].snapshot)
              else old(troubles) < troubles || targets[i].path in touched
      ensures troubles + Faults(old(clock)) <= old(troubles) + Faults(clock) && (Alone() ==> touched == old(touched))
    {
      ghost var d0 := View();
      hide Alone, Faults, DiskOk, TargetsOk, StrayOk, Later, Restorable, Steady, Seen, SeenBefore;
      Others(stray);
      ghost var d1 := View();
      TouchedGrows(d0, d1);
      ok := DestinationMatches(i, stray);
      ghost var d2 := View();
      LaterTrans(d0, d1, d2);
      TouchedGrows(d1, d2);
      if !ok { return; }
      ok := GiveBackOne(i, stray);
      ghost var d3 := View();
      LaterTrans(d0, d2, d3);
      TouchedGrows(d2, d3);
      if !ok { return; }
      ok := StillNamed();
      TroubleKeepsAll(d3, targets, troubles);
      LaterTrans(d0, d3, View());
    }

    /** `_restore_credentials`: committed targets, last first. It succeeds unless a
        call fails meanwhile or the others act on a committed destination. */
    method Restore(ghost stray: Option<nat>, ghost done: nat) returns (ok: bool)
      requires Valid() && StrayOk(View(), targets, stray) && CommittedTo(targets, done)
      requires ours.Keys <= PathsTo(targets, done) + StrayPaths(targets, stray) && StandingTo(View(), targets, |targets|)
      modifies this`clock, this`entries, this`files, this`next, this`held, this`ours, this`outside, this`touched, this`troubles
      ensures Valid() && Later(old(View()), View()) && StrayOk(View(), targets, stray)
      ensures if ok then ours.Keys <= StrayPaths(targets, stray) else old(troubles) < troubles || Hit(View(), PathsTo(targets, done))
      ensures troubles + Faults(old(clock)) <= old(troubles) + Faults(clock) && (Alone() ==> touched == old(touched))
    {
      ghost var d := View();
      LaterSelf(d);
      hide Alone, Faults, DiskOk, TargetsOk, StrayOk, Later, StrayPaths, Hit;
      var i := |targets|;
      while i > 0
        invariant 0 <= i <= |targets|
        invariant Valid() && Later(d, View()) && StrayOk(View(), targets, stray) && StandingTo(View(), targets, i)
        invariant troubles + Faults(old(clock)) <= d.troubles + Faults(clock) && (Alone() ==> touched == d.touched)
        invariant ours.Keys <= PathsTo(targets, if i < done then i else done) + StrayPaths(targets, stray)
      {
        i := i - 1;
        ghost var e := View();
        TouchedGrows(d, e);
        if targets[i].committed.Some? {
          ok := RestoreOne(i, stray);
          LaterTrans(d, e, View());
          TouchedGrows(e, View());
          if targets[i].path in touched { HitBy(View(), PathsTo(targets, done), targets[i].path); }
          if !ok { return; }
          StandsBelow(e, View(), targets, i);
        }
        RestoredOne(targets, done, i, stray, e.ours.Keys, ours.Keys);
      }
      return true;
    }

    // ---------------------------------------------------------- transaction

    /** One destination of the snapshot loop. */
    method TakeSnapshot(path: Path, token: string) returns (raised: Raised)
      requires Valid() && Calm(View(), targets) && ours == map[] && path.Destination?
      requires forall k :: 0 <= k < |targets| ==> targets[k].path != path
      modifies this`clock, this`entries, this`files, this`next, this`ours, this`outside, this`touched, this`troubles, this`targets
      ensures Valid() && Later(old(View()), View()) && ours == map[] && Calm(View(), targets) && Steady(old(View()), View())
      ensures if raised == Nothing
              then targets == old(targets) + [Target(path, token, SnapshotNow(View(), path), None, None, None)]
              else targets == old(targets) && raised == CliError
                   && (old(troubles) < troubles || (SnapshotNow(View(), path).Existing? && !Acceptable(SnapshotNow(View(), path).file)))
      ensures troubles + Faults(old(clock)) <= old(troubles) + Faults(clock) && (Alone() ==> touched == old(touched))
    {
      ghost var d := View();
      hide Alone, Faults, DiskOk, TargetsOk, Later, Calm;
      Others(None);
      ghost var e := View();
      var snapshot := SnapshotAt(path);
      TroubleKeepsAll(e, targets, troubles);
      LaterTrans(d, e, View());
      SteadyTrans(d, e, View());
      hide Steady;
      if snapshot.Err? { return CliError; }
      SnapshotTarget(View(), targets, path, token);
      targets := targets + [Target(path, token, snapshot.value, None, None, None)];
      return Nothing;
    }

    method TakeSnapshots(destinations: seq<(Path, string)>) returns (raised: Raised)
      requires Valid() && targets == [] && ours == map[]
      requires NoDup(Firsts(destinations)) && forall k :: 0 <= k < |destinations| ==> destinations[k].0.Destination?
      modifies this`clock, this`entries, this`files, this`next, this`ours, this`outside, this`touched, this`troubles, this`targets
      ensures Valid() && Later(old(View()), View()) && ours == map[] && Calm(View(), targets) && Steady(old(View()), View())
      ensures Untouched(targets) && Ordered(destinations, targets)
      ensures if raised == Nothing then |targets| == |destinations|
              else raised == CliError && (old(troubles) < troubles || Hit(View(), Places(destinations))
                                          || forall force :: !Installable(old(View()), destinations, force))
      ensures troubles + Faults(old(clock)) <= old(troubles) + Faults(clock) && (Alone() ==> touched == old(touched))
    {
      ghost var d := View();
      LaterSelf(d);
      assert Calm(d, targets);
      hide Alone, Faults, DiskOk, TargetsOk, Later, Calm, Steady, Hit, Ordered, Untouched, Installable;
      SteadySelf(d);
      for i := 0 to |destinations|
        invariant Valid() && Later(d, View()) && ours == map[] && Calm(View(), targets) && Steady(d, View())
        invariant Untouched(targets) && Ordered(destinations, targets) && |targets| == i
        invariant troubles + Faults(old(clock)) <= d.troubles + Faults(clock) && (Alone() ==> touched == d.touched)
      {
        ghost var e, ts := View(), targets;
        NewDestination(destinations, ts);
        TouchedGrows(d, e);
        raised := TakeSnapshot(destinations[i].0, destinations[i].1);
        LaterTrans(d, e, View());
        TouchedGrows(e, View());
        SteadyTrans(d, e, View());
        if raised != Nothing {
          RefusedSnapshot(d, View(), destinations, i);
          return;
        }
        OneMoreTarget(destinations, ts, targets[i]);
      }
      return Nothing;
    }

    method StageAll() returns (raised: Raised)
      requires Valid() && ours == map[] && Calm(View(), targets) && Untouched(targets)
      modifies this`clock, this`entries, this`files, this`next, this`held, this`troubles, this`targets
      ensures Valid() && Later(old(View()), View()) && ours == map[] && Calm(View(), targets)
      ensures SameOrders(old(targets), targets) && CommittedTo(targets, 0)
      ensures if raised == Nothing then AllStaged(targets, |targets|) else old(troubles) < troubles && raised != AfterCommit
      ensures troubles + Faults(old(clock)) <= old(troubles) + Faults(clock)
    {
      ghost var d, ts := View(), targets;
      LaterSelf(d);
      hide Alone, Faults, DiskOk, TargetsOk, Later, Staging, Calm;
      for i := 0 to |targets|
        invariant SameOrders(ts, targets) && Valid() && Later(d, View()) && ours == map[] && Calm(View(), targets)
        invariant AllStaged(targets, i) && CommittedTo(targets, 0)
        invariant troubles + Faults(old(clock)) <= d.troubles + Faults(clock)
        invariant forall k :: i <= k < |ts| ==> targets[k] == ts[k]
      {
        ghost var e := View();
        Shape(e, targets, i);
        TouchedGrows(d, e);
        var staged := Stage(targets[i].path, targets[i].token + "\n", PRIVATE_MODE);
        StagingKeepsAll(e, View(), targets, i);
        StagingOurs(e, View(), targets[i].path);
        LaterTrans(d, e, View());
        if staged.Err? { return staged.error; }
        var (name, id) := staged.value;
        StagedTarget(View(), targets, i, name, id);
        targets := targets[i := targets[i].(staged := Some(name), identity := Some(id))];
      }
      return Nothing;
    }

    /** The `finally` clause: staged names that are left are removed. */
    method CleanUp()
      requires forall k :: 0 <= k < |targets| && targets[k].staged.Some? ==> targets[k].staged.value.Temporary?
      modifies this`clock, this`entries
      ensures SameDestinations(old(View()), View()) && Faults(old(clock)) <= Faults(clock)
    {
      hide Faults;
      for i := 0 to |targets|
        invariant SameDestinations(old(View()), View()) && Faults(old(clock)) <= Faults(clock)
      {
        if targets[i].staged.Some? {
          FaultsGrow(clock);
          if !fails(UnlinkName, clock) { entries := entries - {targets[i].staged.value}; }
          clock := clock + 1;
        }
      }
    }

    /** Snapshots, and without `force` the refusal of existing files. */
    method Examine(destinations: seq<(Path, string)>, force: bool) returns (raised: Raised)
      requires Valid() && targets == [] && ours == map[]
      requires NoDup(Firsts(destinations)) && forall k :: 0 <= k < |destinations| ==> destinations[k].0.Destination?
      modifies this`clock, this`entries, this`files, this`next, this`ours, this`outside, this`touched, this`troubles, this`targets
      ensures Valid() && Later(old(View()), View()) && ours == map[] && Calm(View(), targets)
      ensures Untouched(targets) && Ordered(destinations, targets)
      ensures raised == Nothing ==>
                && |targets| == |destinations| && (force || forall k :: 0 <= k < |targets| ==> targets[k].snapshot.Missing?)
                && (Hit(View(), Places(destinations))
                    || (Installable(old(View()), destinations, force) && (force || AllAbsent(old(View()), destinations))))
      ensures raised != Nothing ==>
                && raised == CliError
                && (old(troubles) < troubles || Hit(View(), Places(destinations)) || !Installable(old(View()), destinations, force))
      ensures troubles + Faults(old(clock)) <= old(troubles) + Faults(clock) && (Alone() ==> touched == old(touched))
    {
      ghost var d0 := View();
      hide Alone, Faults, DiskOk, TargetsOk, Calm, Later, Steady, Installable, AllAbsent, Places, Hit;
      raised := TakeSnapshots(destinations);
      ghost var d1 := View();
      if raised != Nothing { return; }
      SamePlaces(targets, destinations, |targets|);
      HitStays(d1, d1, PathsTo(targets, |targets|), Places(destinations));
      if !force && exists t :: t in targets && t.snapshot.Existing? {
        ExistingRefused(d0, d1, targets, destinations);
        return CliError;
      }
      assert !force ==> forall k :: 0 <= k < |targets| ==> targets[k] in targets && targets[k].snapshot.Missing?;
      SnapshotsSpeak(d0, d1, targets, destinations, force);
      if !force && !Hit(d1, Places(destinations)) { MissingIsAbsent(d0, destinations); }
    }

    /** Snapshots, the refusal of existing files, and staging. */
    method Prepare(destinations: seq<(Path, string)>, force: bool) returns (raised: Raised)
      requires Valid() && targets == [] && ours == map[]
      requires NoDup(Firsts(destinations)) && forall k :: 0 <= k < |destinations| ==> destinations[k].0.Destination?
      modifies this`clock, this`entries, this`files, this`next, this`held, this`ours, this`outside, this`touched,
               this`troubles, this`targets
      ensures Valid() && Later(old(View()), View()) && ours == map[] && Calm(View(), targets)
      ensures Ordered(destinations, targets) && CommittedTo(targets, 0)
      ensures raised == Nothing ==>
                && AllStaged(targets, |targets|) && |targets| == |destinations|
                && (force || forall k :: 0 <= k < |targets| ==> targets[k].snapshot.Missing?)
                && (Hit(View(), Places(destinations))
                    || (Installable(old(View()), destinations, force) && (force || AllAbsent(old(View()), destinations))))
      ensures raised != Nothing ==>
                && raised != AfterCommit
                && (old(troubles) < troubles || Hit(View(), Places(destinations))
                    || (raised == CliError && !Installable(old(View()), destinations, force)))
      ensures troubles + Faults(old(clock)) <= old(troubles) + Faults(clock) && (Alone() ==> touched == old(touched))
    {
      ghost var d0 := View();
      hide Alone, Faults, DiskOk, TargetsOk, Calm, Later, Installable, AllAbsent, Places;
      raised := Examine(destinations, force);
      ghost var d1, ts := View(), targets;
      NothingCommitted(d1, ts);
      TouchedGrows(d0, d1);
      if raised != Nothing { return; }
      raised := StageAll();
      assert Hit(View(), Places(destinations)) <==> Hit(d1, Places(destinations));
      LaterTrans(d0, d1, View());
      TouchedGrows(d1, View());
      SameOrdered(destinations, ts, targets);
    }

    /** Everything inside the `try`: preparation, commits, finalize. */
    method Body(destinations: seq<(Path, string)>, force: bool, finalize: Option<Finalizer>)
      returns (raised: Raised, stray: Option<nat>, ghost done: nat)
      requires Valid() && targets == [] && ours == map[]
      requires NoDup(Firsts(destinations)) && forall k :: 0 <= k < |destinations| ==> destinations[k].0.Destination?
      modifies this`clock, this`entries, this`files, this`next, this`held, this`ours, this`outside, this`touched,
               this`troubles, this`targets
      ensures Valid() && Later(old(View()), View()) && StrayOk(View(), targets, stray) && Ordered(destinations, targets)
      ensures CommittedTo(targets, done) && ours.Keys <= PathsTo(targets, done) + StrayPaths(targets, stray)
      ensures StandingTo(View(), targets, |targets|) && (AlwaysDrops() ==> stray == None)
      ensures stray.Some? ==> !force && raised == OsError && stray == Some(done)
      ensures raised == Nothing || raised == AfterCommit ==> raised == Finalized(finalize) && TokensInPlace(View(), destinations)
      ensures !Hit(View(), Places(destinations)) ==>
                && (stray.Some? ==> Linkable(old(View()), destinations))
                && (raised == Nothing || raised == AfterCommit ==> Fit(old(View()), destinations, force))
                && (troubles == old(troubles) && stray == None ==>
                      && raised == (if Fit(old(View()), destinations, force) then Finalized(finalize) else CliError)
                      && (done > 0 ==> raised == Finalized(finalize)))
                && (troubles == old(troubles) && !force && NeverDrops() && Linkable(old(View()), destinations) ==> stray == Some(0))
      ensures troubles + Faults(old(clock)) <= old(troubles) + Faults(clock) && (Alone() ==> touched == old(touched))
    {
      ghost var d0 := View();
      stray, done := None, 0;
      if AllAbsent(d0, destinations) { LinkableIsInstallable(d0, destinations, force); }
      hide Alone, Faults, DiskOk, TargetsOk, Calm, StrayOk, Later, Installable, StrayPaths, TokensInPlace, AllAbsent;
      hide NeverDrops, AlwaysDrops, NoDup, Hit, Places, StandingTo;
      raised := Prepare(destinations, force);
      ghost var d1, ts := View(), targets;
      NothingCommitted(d1, targets);
      CalmStands(d1, targets, |targets|);
      TouchedGrows(d0, d1);
      if raised != Nothing { return; }
      raised, stray, done := CommitAll(force);
      ghost var d2 := View();
      LaterTrans(d0, d1, d2);
      TouchedGrows(d1, d2);
      SameOrdered(destinations, ts, targets);
      HitStays(d1, d2, Places(destinations), Places(destinations));
      SamePlaces(targets, destinations, |targets|);
      HitStays(d2, d2, PathsTo(targets, |targets|), Places(destinations));
      if stray.Some? { StrayIsToken(d2, targets, stray, destinations); }
      if raised != Nothing { return; }
      AllInstalled(d2, targets, destinations);
      raised := Finalize(finalize);
    }

    method Finalize(finalize: Option<Finalizer>) returns (raised: Raised)
      ensures raised == Finalized(finalize)
    {
      if finalize == None || finalize == Some(Completes) { return Nothing; }
      if finalize.value.Breaks? { return if finalize.value.cliError then CliError else OsError; }
      return AfterCommit;
    }

    /** What an ordinary error leaves once every committed target is restored. */
    method Recover(index: Option<nat>, ghost done: nat, ghost d0: Disk) returns (ok: bool)
      requires Valid() && StrayOk(View(), targets, index) && CommittedTo(targets, done)
      requires ours.Keys <= PathsTo(targets, done) + StrayPaths(targets, index) && StandingTo(View(), targets, |targets|)
      requires DiskOk(d0) && d0.ours == map[] && Later(d0, View())
      modifies this`clock, this`entries, this`files, this`next, this`held, this`ours, this`outside, this`touched, this`troubles
      ensures Valid() && Later(d0, View()) && old(troubles) <= troubles && old(touched) <= touched
      ensures StrayOk(View(), targets, index)
      ensures if ok then AsOthersLeft(View(), StrayPaths(targets, index))
              else done > 0 && (old(troubles) < troubles || Hit(View(), PathsTo(targets, done)))
      ensures ok && touched == {} ==> (index == None <==> SeenAsBefore(d0, View()))
      ensures troubles + Faults(old(clock)) <= old(troubles) + Faults(clock) && (Alone() ==> touched == old(touched))
    {
      ghost var d := View();
      hide Alone, Faults, DiskOk, TargetsOk, StrayOk, StrayPaths, AsOthersLeft, SeenAsBefore, Linkable, StandingTo, Hit;
      ok := true;
      if exists t :: t in targets && t.committed.Some? {
        ok := Restore(index, done);
        LaterTrans(d0, d, View());
        TouchedGrows(d, View());
      }
      if ok { OrdinaryVerdict(d0, View(), targets, index); }
    }

    /** The `try` and `except` clauses. */
    method Attempt(destinations: seq<(Path, string)>, force: bool, finalize: Option<Finalizer>)
      returns (o: Outcome, stray: Option<Path>)
      requires Valid() && targets == [] && ours == map[] && touched == {}
      requires NoDup(Firsts(destinations)) && forall k :: 0 <= k < |destinations| ==> destinations[k].0.Destination?
      modifies this`clock, this`entries, this`files, this`next, this`held, this`ours, this`outside, this`touched,
               this`troubles, this`targets
      ensures Verdict(old(View()), View(), destinations, force, finalize, o, stray)
      ensures forall k :: 0 <= k < |targets| && targets[k].staged.Some? ==> targets[k].staged.value.Temporary?
      ensures AlwaysDrops() ==> stray == None
      ensures old(troubles) <= troubles && troubles + Faults(old(clock)) <= old(troubles) + Faults(clock)
      ensures Alone() ==> touched == old(touched)
      ensures troubles == old(troubles) && touched == {} && !force && NeverDrops() && Linkable(old(View()), destinations) ==>
                stray == Some(destinations[0].0)
    {
      ghost var d0 := View();
      hide Alone, Faults, DiskOk, TargetsOk, StrayOk, Later, TokensInPlace, AsOthersLeft, OthersKept, SeenAsBefore, StandingTo;
      hide CommittedTo, NoDup, ShowsToken, NeverDrops, AlwaysDrops, Fit, Linkable, Verdict, Ordered, StrayPaths, PathsTo, Hit, Places;
      var raised, index, done := Body(destinations, force, finalize);
      ghost var d1 := View();
      Untroubling(d0, d1, destinations);
      StartedFrom(d0, d1);
      StagedNames(d1, targets);
      if raised == Nothing || raised == AfterCommit {
        o, stray := if raised == Nothing then Installed else CommittedKept, None;
        SuccessVerdict(d0, d1, destinations, force, finalize, o);
        return;
      }
      o, stray := Settle(destinations, raised, index, done, d0);
      StartedFrom(d0, View());
      StagedNames(View(), targets);
      CausesOf(d0, d1, View(), destinations, force, finalize, raised, done, o, stray);
      if touched == {} { NoHit(d1, Places(destinations)); }
      FailureVerdict(d0, View(), destinations, force, finalize, o, stray);
    }

    /** The `except` clause for anything but the committed error. */
    method Settle(ghost destinations: seq<(Path, string)>, raised: Raised, index: Option<nat>, ghost done: nat, ghost d0: Disk)
      returns (o: Outcome, stray: Option<Path>)
      requires Valid() && StrayOk(View(), targets, index) && CommittedTo(targets, done) && Ordered(destinations, targets)
      requires ours.Keys <= PathsTo(targets, done) + StrayPaths(targets, index) && (raised == CliError || raised == OsError)
      requires DiskOk(d0) && d0.ours == map[] && Later(d0, View()) && StandingTo(View(), targets, |targets|)
      modifies this`clock, this`entries, this`files, this`next, this`held, this`ours, this`outside, this`touched, this`troubles
      ensures Valid() && Later(d0, View()) && old(troubles) <= troubles && old(touched) <= touched
      ensures index.Some? ==> index.value < |destinations| && stray == Some(destinations[index.value].0)
      ensures index == None ==> stray == None
      ensures o == RollbackIncomplete || o == (if raised == CliError then Refused else Restored)
      ensures o == RollbackIncomplete ==> done > 0 && (old(troubles) < troubles || Hit(View(), Places(destinations)))
      ensures Ordinary(o) ==> AsOthersLeft(View(), if stray.Some? then {stray.value} else {})
      ensures Ordinary(o) && touched == {} ==> (stray == None <==> SeenAsBefore(d0, View()))
      ensures stray.Some? && touched == {} ==> ShowsToken(View(), destinations, stray.value)
      ensures troubles + Faults(old(clock)) <= old(troubles) + Faults(clock) && (Alone() ==> touched == old(touched))
    {
      StrayInRange(View(), targets, index);
      if index.Some? { StrayIsToken(View(), targets, index, destinations); }
      SamePlaces(targets, destinations, done);
      hide Alone, Faults, DiskOk, TargetsOk, StrayOk, Later, AsOthersLeft, SeenAsBefore, CommittedTo, ShowsToken, Hit, Places, StandingTo;
      stray := if index.Some? then Some(targets[index.value].path) else None;
      var ok := Recover(index, done, d0);
      HitStays(View(), View(), PathsTo(targets, done), Places(destinations));
      if index.Some? { StrayIsToken(View(), targets, index, destinations); }
      o := if !ok then RollbackIncomplete else if raised == CliError then Refused else Restored;
    }

    /** The transaction and its cleanup, once all destinations are different. */
    method Transact(destinations: seq<(Path, string)>, force: bool, finalize: Option<Finalizer>)
      returns (o: Outcome, stray: Option<Path>)
      requires Valid() && targets == [] && ours == map[] && touched == {}
      requires NoDup(Firsts(destinations)) && forall k :: 0 <= k < |destinations| ==> destinations[k].0.Destination?
      modifies this`clock, this`entries, this`files, this`next, this`held, this`ours, this`outside, this`touched,
               this`troubles, this`targets
      ensures Verdict(old(View()), View(), destinations, force, finalize, o, stray)
      ensures AlwaysDrops() ==> stray == None
      ensures old(troubles) <= troubles && troubles + Faults(old(clock)) <= old(troubles) + Faults(clock)
      ensures Alone() ==> touched == old(touched)
      ensures troubles == old(troubles) && touched == {} && !force && NeverDrops() && Linkable(old(View()), destinations) ==>
                stray == Some(destinations[0].0)
    {
      ghost var d0 := View();
      hide Valid, Faults, NeverDrops, AlwaysDrops, Alone, FaultAt, Linkable, NoDup, Verdict;
      o, stray := Attempt(destinations, force, finalize);
      ghost var d := View();
      CleanUp();
      SameVerdict(d0, d, View(), destinations, force, finalize, o, stray);
    }

    /** `_install_token_files`. */
    method Install(destinations: seq<(Path, string)>, force: bool, finalize: Option<Finalizer>)
      returns (o: Outcome, stray: Option<Path>)
      requires Valid() && targets == [] && ours == map[] && touched == {}
      requires forall k :: 0 <= k < |destinations| ==> destinations[k].0.Destination?
      modifies this`clock, this`entries, this`files, this`next, this`held, this`ours, this`outside, this`touched,
               this`troubles, this`targets
      ensures Verdict(old(View()), View(), destinations, force, finalize, o, stray)
      ensures Ordinary(o) && touched == {} && (force || !Linkable(old(View()), destinations)) ==> SeenAsBefore(old(View()), View())
      ensures AlwaysDrops() ==> stray == None
      ensures Helpful() && AlwaysDrops() ==> o == Expected(old(View()), destinations, force, finalize)
      ensures old(troubles) <= troubles && troubles + Faults(old(clock)) <= old(troubles) + Faults(clock)
      ensures Alone() ==> touched == old(touched)
      ensures Helpful() && !force && NeverDrops() && Linkable(old(View()), destinations) ==>
                o == Restored && stray == Some(destinations[0].0)
    {
      ghost var d0 := View();
      SetFindsRepeats(Firsts(destinations));
      if |PathsOf(Firsts(destinations))| != |destinations| {
        NothingDone(View(), targets, destinations, force, finalize);
        o, stray := Refused, None;
      } else {
        o, stray := Transact(destinations, force, finalize);
      }
      Consequences(d0, View(), destinations, force, finalize, o, stray);
      if Helpful() { Faultless(old(clock)); Faultless(clock); }
      hide Valid, Faults, NeverDrops, AlwaysDrops, FaultAt, Alone, NoDup, Verdict, SeenAsBefore, Expected, Linkable;
    }
    /** The same where nobody else acts and things go wrong at one moment at most. */
    method InstallUnderOneFault(destinations: seq<(Path, string)>, force: bool, finalize: Option<Finalizer>, ghost at: nat)
      returns (o: Outcome, stray: Option<Path>)
      requires Valid() && targets == [] && ours == map[] && touched == {}
      requires forall k :: 0 <= k < |destinations| ==> destinations[k].0.Destination?
      requires Alone() && (forall n :: n != at ==> !FaultAt(n)) && (AlwaysDrops() || Helpful())
      modifies this`clock, this`entries, this`files, this`next, this`held, this`ours, this`outside, this`touched,
               this`troubles, this`targets
      ensures touched == {} && (o.RollbackIncomplete? ==> Breaking(finalize))
      ensures o.Installed? || o.CommittedKept? ==> TokensInPlace(View(), destinations)
      ensures Ordinary(o) ==> (stray == None <==> SeenAsBefore(old(View()), View()))
      ensures AlwaysDrops() ==> stray == None
    {
      ghost var d := View();
      hide Valid, Verdict, SeenAsBefore, TokensInPlace, Linkable, Expected, Helpful, Alone, Faults, FaultAt, ShowsToken, Breaking;
      o, stray := Install(destinations, force, finalize);
      OneAtMost(at, clock);
      if Helpful() { Faultless(clock); }
      Consequences(d, View(), destinations, force, finalize, o, stray);
    }
  }

  /** What readers can find in a directory, without the bookkeeping. */
  function Readable(entries: map<Path, nat>, files: map<nat, File>): Disk {
    Disk(entries, files, 0, {}, map[], map[], {}, 0)
  }

  /** An environment that only ever refuses to remove a staged name once its file is
      linked. In it the order ends with an ordinary error that has not restored
      everything, if and only if it may link: no `force`, and all its destinations
      different and missing. (Whatever the environment, `Install` restores
      everything in the other cases unless the others act.) */
  method WorstCase(entries: map<Path, nat>, files: map<nat, File>, next: nat,
                   destinations: seq<(Path, string)>, force: bool, finalize: Option<Finalizer>)
    returns (o: Outcome, after: Disk)
    requires forall p :: p in entries ==> entries[p] in files
    requires forall i :: i in files ==> i < next
    requires forall k :: 0 <= k < |destinations| ==> destinations[k].0.Destination?
    ensures Ordinary(o) && !SeenAsBefore(Readable(entries, files), after) <==>
              !force && Linkable(Readable(entries, files), destinations)
    ensures !force && Linkable(Readable(entries, files), destinations) ==>
              o == Restored && ShowsToken(after, destinations, destinations[0].0)
  {
    var installer := new Installer((c, n) => c == DropStaged, n => 1, n => None, n => false, n => Idle, entries, files, next);
    ghost var before := installer.View();
    var stray;
    o, stray := installer.Install(destinations, force, finalize);
    after := Readable(installer.entries, installer.files);
    OnlyReadable(before, installer.View(), destinations);
  }

  /** What is seen, and what can be linked, depends on names and files only. */
  lemma OnlyReadable(d0: Disk, d: Disk, destinations: seq<(Path, string)>)
    ensures SeenAsBefore(d0, d) <==> SeenAsBefore(Readable(d0.entries, d0.files), Readable(d.entries, d.files))
    ensures Linkable(d0, destinations) <==> Linkable(Readable(d0.entries, d0.files), destinations)
    ensures d.touched == {} ==> (TokensInPlace(d, destinations) <==> TokensInPlace(Readable(d.entries, d.files), destinations))
    ensures forall p :: ShowsToken(d, destinations, p) <==> ShowsToken(Readable(d.entries, d.files), destinations, p)
  {
    forall p
      ensures Seen(Readable(d0.entries, d0.files), p) == Seen(d0, p)
      ensures Seen(Readable(d.entries, d.files), p) == Seen(d, p)
    {
    }
  }

  /** All or nothing under a single fault: where nobody else acts and one call at
      most goes wrong, an order ends with all its tokens in place or with
      everything as it was, save for a linked token whose staged name could not be
      removed. Only the rollback after a finalizer that breaks can be stopped. */
  method OneFault(fails: (SystemCall, nat) -> bool, chunks: nat -> nat, taken: nat -> Option<nat>, moved: nat -> bool,
                  at: nat, call: SystemCall,
                  entries: map<Path, nat>, files: map<nat, File>, next: nat,
                  destinations: seq<(Path, string)>, force: bool, finalize: Option<Finalizer>)
    returns (o: Outcome, stray: Option<Path>, after: Disk)
    requires forall c, n :: fails(c, n) ==> n == at && c == call
    requires forall n :: n != at || call == DropStaged ==> chunks(n) > 0 && taken(n) == None && !moved(n)
    requires forall p :: p in entries ==> entries[p] in files
    requires forall i :: i in files ==> i < next
    requires forall k :: 0 <= k < |destinations| ==> destinations[k].0.Destination?
    ensures o.RollbackIncomplete? ==> Breaking(finalize)
    ensures o.Installed? || o.CommittedKept? ==> TokensInPlace(after, destinations)
    ensures Ordinary(o) ==> (stray == None <==> SeenAsBefore(Readable(entries, files), after))
    ensures (forall n :: !fails(DropStaged, n)) ==> stray == None
  {
    var installer := new Installer(fails, chunks, taken, moved, n => Idle, entries, files, next);
    ghost var before := installer.View();
    o, stray := installer.InstallUnderOneFault(destinations, force, finalize, at);
    after := Readable(installer.entries, installer.files);
    OnlyReadable(before, installer.View(), destinations);
  }
}
