/** The scheduler as the object it is: deques, the active-job table, the set of
    locked chats and the transport counters, updated in place. Each method is
    one stretch between suspension points and refines one event of the model. */
module OutboundMessenger {
  import opened Wrappers
  import Text
  import opened OutboundModel
  import opened OutboundInvariants
  import opened OutboundTransport
  import opened OutboundResults

  /** `deque.remove`: drop the first occurrence. */
  function RemoveFirst(q: seq<nat>, j: nat): seq<nat> {
    if q == [] then [] else if q[0] == j then q[1..] else [q[0]] + RemoveFirst(q[1..], j)
  }

  lemma RemoveAfter(a: seq<nat>, j: nat, b: seq<nat>)
    requires j !in a
    ensures RemoveFirst(a + [j] + b, j) == a + b
  {
    if a == [] {
      assert (a + [j] + b)[1..] == b;
    } else {
      assert (a + [j] + b)[1..] == a[1..] + [j] + b;
      RemoveAfter(a[1..], j, b);
    }
  }

  lemma WithoutCons(jobs: map<nat, Job>, x: nat, q: seq<nat>, key: Option<CoalesceKey>)
    requires key.Some? && x in jobs && forall j :: j in q ==> j in jobs
    ensures Without(jobs, [x] + q, key) == (if jobs[x].coalesce == key then [] else [x]) + Without(jobs, q, key)
  {
    assert ([x] + q)[1..] == q;
  }

  lemma Regroup<T>(a: seq<T>, b: seq<T>, c: seq<T>)
    ensures (a + b) + c == a + (b + c)
  {
  }

  lemma WithoutExtends(jobs: map<nat, Job>, q: seq<nat>, x: nat, key: Option<CoalesceKey>)
    requires key.Some? && x in jobs && forall j :: j in q ==> j in jobs
    ensures Without(jobs, q + [x], key) == Without(jobs, q, key) + (if jobs[x].coalesce == key then [] else [x])
    decreases |q|, 1
  {
    assert Without(jobs, [], key) == [];
    hide Without;
    var last := if jobs[x].coalesce == key then [] else [x];
    if q == [] {
      assert [] + [x] == [x] + [] == [x] && [] + last == last + [];
      WithoutCons(jobs, x, [], key);
    } else {
      WithoutTail(jobs, q[0], q[1..], x, key, last);
      assert q == [q[0]] + q[1..];
    }
  }

  lemma WithoutTail(jobs: map<nat, Job>, y: nat, rest: seq<nat>, x: nat, key: Option<CoalesceKey>, last: seq<nat>)
    requires key.Some? && x in jobs && y in jobs && (forall j :: j in rest ==> j in jobs)
    requires last == if jobs[x].coalesce == key then [] else [x]
    ensures (forall j :: j in [y] + rest ==> j in jobs) && (forall j :: j in [y] + rest + [x] ==> j in jobs)
    ensures Without(jobs, ([y] + rest) + [x], key) == Without(jobs, [y] + rest, key) + last
    decreases |rest| + 1, 0
  {
    WithoutExtends(jobs, rest, x, key);
    WithoutCons(jobs, y, rest, key);
    WithoutCons(jobs, y, rest + [x], key);
    hide *;
    Regroup([y], rest, [x]);
    Regroup(if jobs[y].coalesce == key then [] else [y], Without(jobs, rest, key), last);
  }

  lemma ReplaceableExtends(jobs: map<nat, Job>, q: seq<nat>, x: nat, key: Option<CoalesceKey>)
    requires key.Some? && x in jobs && forall j :: j in q ==> j in jobs
    ensures Replaceable(jobs, q + [x], key) ==
            Replaceable(jobs, q, key) + (if jobs[x].coalesce == key && jobs[x].future == Pending then 1 else 0)
  {
    if q == [] {
      assert ([] + [x])[1..] == [];
    } else {
      assert (q + [x])[1..] == q[1..] + [x];
      ReplaceableExtends(jobs, q[1..], x, key);
    }
  }

  /** `set_exception` on a future that is not done. */
  function FailOne(jobs: map<nat, Job>, j: nat): (m: map<nat, Job>)
    requires j in jobs
    ensures m.Keys == jobs.Keys
  {
    if jobs[j].future == Pending then jobs[j := jobs[j].(future := Failed(Stopping))] else jobs
  }

  lemma FailOneMore(jobs: map<nat, Job>, ids: set<nat>, j: nat)
    requires j in jobs
    ensures FailWhere(jobs, ids + {j}) == FailOne(FailWhere(jobs, ids), j)
  {
  }

  lemma FailTwice(jobs: map<nat, Job>, a: set<nat>, b: set<nat>)
    ensures FailWhere(FailWhere(jobs, a), b) == FailWhere(jobs, a + b)
  {
  }

  function Elems(q: seq<nat>): set<nat> { set j | j in q }

  lemma ElemsOneMore(q: seq<nat>, x: nat)
    ensures Elems(q + [x]) == Elems(q) + {x}
  {
  }

  lemma IdsOneMore(q: Queues, classes: set<TrafficClass>, c: TrafficClass)
    requires c in q
    ensures QueuedIds(q, classes + {c}) == QueuedIds(q, classes) + Elems(q[c])
  {
  }

  /** `_cancel_superseded`. */
  function CancelOne(jobs: map<nat, Job>, j: nat, key: Option<CoalesceKey>): (m: map<nat, Job>)
    requires j in jobs
    ensures m.Keys == jobs.Keys
  {
    if Supersedable(jobs[j], key) then jobs[j := jobs[j].(future := Cancelled)] else jobs
  }

  lemma CancelOneMore(jobs: map<nat, Job>, ids: set<nat>, j: nat, key: Option<CoalesceKey>)
    requires j in jobs
    ensures CancelWhere(jobs, ids + {j}, key) == CancelOne(CancelWhere(jobs, ids, key), j, key)
  {
  }

  lemma CancelTwice(jobs: map<nat, Job>, a: set<nat>, b: set<nat>, key: Option<CoalesceKey>)
    ensures CancelWhere(CancelWhere(jobs, a, key), b, key) == CancelWhere(jobs, a + b, key)
  {
  }

  lemma CancelNobody(jobs: map<nat, Job>, key: Option<CoalesceKey>)
    ensures CancelWhere(jobs, {}, key) == jobs
  {
  }

  /** Scanning queues and busy workers finds every edit that can be replaced. */
  lemma SupersededIds(s: State, key: Option<CoalesceKey>)
    requires Conserved(s)
    ensures CancelWhere(s.jobs, QueuedIds(s.queues, s.queues.Keys) + HeldIds(s.slots), key) == CancelWhere(s.jobs, s.jobs.Keys, key)
  {
    forall j | j in s.jobs && s.jobs[j].future == Pending
      ensures j in QueuedIds(s.queues, s.queues.Keys) + HeldIds(s.slots)
    {
      assert JobOk(s, j);
      var c := s.jobs[j].cls;
      if j in Of(s.queues, c) { assert c in s.queues && j in s.queues[c]; }
      else { var w :| HeldBy(s, j, w); }
    }
    hide Conserved, QueuedIds, HeldIds;
  }

  lemma NothingSuperseded(s: State)
    requires Closed(s)
    ensures Supersede(s, None).jobs == s.jobs && Supersede(s, None).queues == s.queues
  {
    forall c | c in s.queues
      ensures WithoutAll(s.jobs, s.queues, None)[c] == s.queues[c]
    {
    }
  }

  /** Cancelling does not change which edits carry the key. */
  lemma WithoutAfterCancel(jobs: map<nat, Job>, ids: set<nat>, q: seq<nat>, key: Option<CoalesceKey>)
    requires forall j :: j in q ==> j in jobs
    ensures Without(CancelWhere(jobs, ids, key), q, key) == Without(jobs, q, key)
  {
    if q != [] { WithoutAfterCancel(jobs, ids, q[1..], key); }
  }

  /** One step of the sweep: what the job table becomes. */
  lemma SweepTable(jobs: map<nat, Job>, seen: seq<nat>, j: nat, key: Option<CoalesceKey>)
    requires j in jobs
    ensures
      var m := CancelWhere(jobs, Elems(seen), key);
      && m[j].coalesce == jobs[j].coalesce
      && CancelWhere(jobs, Elems(seen + [j]), key) == if m[j].coalesce == key then CancelOne(m, j, key) else m
  {
    hide CancelOne, CancelWhere, Elems;
    ElemsOneMore(seen, j);
    CancelOneMore(jobs, Elems(seen), j, key);
    KeysAfterCancel(jobs, Elems(seen), j, key);
  }

  /** And what the queue becomes. */
  lemma SweepLeft(jobs: map<nat, Job>, seen: seq<nat>, left: seq<nat>, key: Option<CoalesceKey>)
    requires key.Some? && left != [] && NoDup(seen + left) && left[0] in jobs && forall j :: j in seen ==> j in jobs
    ensures
      var kept := Without(jobs, seen + [left[0]], key) + left[1..];
      if jobs[left[0]].coalesce == key then RemoveFirst(Without(jobs, seen, key) + left, left[0]) == kept
      else Without(jobs, seen, key) + left == kept
  {
    NotSeen(seen, left);
    WithoutExtends(jobs, seen, left[0], key);
    assert left[0] !in Without(jobs, seen, key);
    hide Without, NoDup;
    SplitLeft(Without(jobs, seen, key), left);
  }

  lemma SweepOne(jobs: map<nat, Job>, q: seq<nat>, seen: seq<nat>, left: seq<nat>, key: Option<CoalesceKey>)
    requires key.Some? && q == seen + left && left != [] && (forall j :: j in q ==> j in jobs) && NoDup(q)
    ensures
      var j := left[0];
      var m := CancelWhere(jobs, Elems(seen), key);
      && j in m
      && CancelWhere(jobs, Elems(seen + [j]), key) == (if m[j].coalesce == key then CancelOne(m, j, key) else m)
      && (m[j].coalesce == key ==> RemoveFirst(Without(jobs, seen, key) + left, j) == Without(jobs, seen + [j], key) + left[1..])
      && (m[j].coalesce != key ==> Without(jobs, seen, key) + left == Without(jobs, seen + [j], key) + left[1..])
  {
    assert q[|seen|] == left[0];
    KnownPart(jobs, q, seen, left);
    hide *;
    SweepTable(jobs, seen, left[0], key);
    SweepLeft(jobs, seen, left, key);
  }

  lemma NotSeen(seen: seq<nat>, left: seq<nat>)
    requires left != [] && NoDup(seen + left)
    ensures left[0] !in seen
  {
    var q := seen + left;
    assert q[|seen|] == left[0] && forall x :: 0 <= x < |seen| ==> seen[x] == q[x];
  }

  lemma KnownPart(jobs: map<nat, Job>, q: seq<nat>, seen: seq<nat>, left: seq<nat>)
    requires q == seen + left && forall j :: j in q ==> j in jobs
    ensures forall j :: j in seen ==> j in jobs
  {
  }

  lemma SplitLeft(kept: seq<nat>, left: seq<nat>)
    requires left != [] && left[0] !in kept
    ensures kept + left == kept + [left[0]] + left[1..]
    ensures RemoveFirst(kept + left, left[0]) == kept + left[1..]
  {
    assert kept + left == kept + [left[0]] + left[1..];
    RemoveAfter(kept, left[0], left[1..]);
  }

  lemma KeysAfterCancel(jobs: map<nat, Job>, ids: set<nat>, j: nat, key: Option<CoalesceKey>)
    requires j in jobs
    ensures CancelWhere(jobs, ids, key)[j].coalesce == jobs[j].coalesce
    ensures jobs[j].coalesce != key ==> CancelOne(CancelWhere(jobs, ids, key), j, key) == CancelWhere(jobs, ids, key)
  {
  }

  lemma QueuesPlain(s: State)
    requires Conserved(s)
    ensures forall c :: c in s.queues ==> NoDup(s.queues[c]) && Of(s.queues, c) == s.queues[c]
    ensures forall c, j :: c in s.queues && j in s.queues[c] ==> j in s.jobs
  {
    forall c | c in s.queues
      ensures NoDup(s.queues[c]) && forall j :: j in s.queues[c] ==> j in s.jobs
    {
      assert QueueOk(s, c) && Of(s.queues, c) == s.queues[c];
      assert forall j :: j in s.queues[c] ==> QueuedOk(s, c, j);
    }
  }

  lemma RefusedCall(s: State, key: Option<CoalesceKey>)
    requires Closed(s) && (!s.running || s.stopping || QueuedTotal(s.queues) - ReplaceableTotal(s, key) >= s.cfg.maxQueue)
    ensures !Accepts(s, key)
  {
  }

  lemma AcceptedCall(s: State, key: Option<CoalesceKey>)
    requires Closed(s) && s.running && !s.stopping && QueuedTotal(s.queues) - ReplaceableTotal(s, key) < s.cfg.maxQueue
    ensures Accepts(s, key)
  {
  }

  lemma QueuedKnown(s: State)
    requires Closed(s)
    ensures QueuedIds(s.queues, s.queues.Keys) <= s.jobs.Keys
  {
    forall j | j in QueuedIds(s.queues, s.queues.Keys)
      ensures j in s.jobs
    {
      var c :| c in s.queues && j in s.queues[c];
      assert j in Of(s.queues, c);
    }
  }

  lemma StopStep(s: State)
    requires Closed(s)
    ensures Step(s, Event.StopBegin) ==
            State(s.cfg, FailAll(s).jobs, FailAll(s).queues, s.slots, if s.running then s.keys else {}, s.counter,
                  s.generation + 1, false, true, if s.running then s.stops + 1 else s.stops,
                  s.failures, s.inTransport, s.recycling)
  {
    hide Closed;
  }

  lemma InvCloses(s: State)
    requires Inv(s)
    ensures Closed(s) && Conserved(s)
  {
  }

  /** What the scan of one queue has reached after `i` entries of its snapshot. */
  ghost predicate SweptTo(jobs: map<nat, Job>, snapshot: seq<nat>, i: nat, key: Option<CoalesceKey>,
                          queue: seq<nat>, table: map<nat, Job>)
    requires i <= |snapshot| && forall j :: j in snapshot ==> j in jobs
  {
    && queue == Without(jobs, snapshot[..i], key) + snapshot[i..]
    && table == CancelWhere(jobs, Elems(snapshot[..i]), key)
  }

  lemma SweptNothing(jobs: map<nat, Job>, snapshot: seq<nat>, key: Option<CoalesceKey>)
    requires forall j :: j in snapshot ==> j in jobs
    ensures SweptTo(jobs, snapshot, 0, key, snapshot, jobs)
  {
    CancelNobody(jobs, key);
    assert Elems(snapshot[..0]) == {} && Without(jobs, snapshot[..0], key) == [];
  }

  lemma SweptOneMore(jobs: map<nat, Job>, snapshot: seq<nat>, i: nat, key: Option<CoalesceKey>,
                     queue: seq<nat>, table: map<nat, Job>)
    requires key.Some? && i < |snapshot| && (forall j :: j in snapshot ==> j in jobs) && NoDup(snapshot)
    requires SweptTo(jobs, snapshot, i, key, queue, table)
    ensures snapshot[i] in table
    ensures
      var j := snapshot[i];
      if table[j].coalesce == key then SweptTo(jobs, snapshot, i + 1, key, RemoveFirst(queue, j), CancelOne(table, j, key))
      else SweptTo(jobs, snapshot, i + 1, key, queue, table)
  {
    assert snapshot == snapshot[..i] + snapshot[i..];
    hide Elems, CancelWhere, CancelOne, Without, RemoveFirst, NoDup, Supersedable;
    SweepOne(jobs, snapshot, snapshot[..i], snapshot[i..], key);
    assert snapshot[..i] + [snapshot[i]] == snapshot[..i + 1];
    assert snapshot[i..][1..] == snapshot[i + 1..];
  }

  lemma SweptAll(jobs: map<nat, Job>, snapshot: seq<nat>, key: Option<CoalesceKey>, queue: seq<nat>, table: map<nat, Job>)
    requires (forall j :: j in snapshot ==> j in jobs) && SweptTo(jobs, snapshot, |snapshot|, key, queue, table)
    ensures queue == Without(jobs, snapshot, key) && table == CancelWhere(jobs, Elems(snapshot), key)
  {
    assert snapshot[..|snapshot|] == snapshot && snapshot[|snapshot|..] == [];
  }

  /** `for job in tuple(queue)`: remove and cancel the edits with this key. */
  method SweepSnapshot(jobs: map<nat, Job>, snapshot: seq<nat>, key: Option<CoalesceKey>)
    returns (queue: seq<nat>, table: map<nat, Job>)
    requires key.Some? && (forall j :: j in snapshot ==> j in jobs) && NoDup(snapshot)
    ensures queue == Without(jobs, snapshot, key)
    ensures table == CancelWhere(jobs, Elems(snapshot), key)
  {
    hide *;
    queue, table := snapshot, jobs;
    SweptNothing(jobs, snapshot, key);
    for i := 0 to |snapshot|
      invariant SweptTo(jobs, snapshot, i, key, queue, table)
    {
      SweptOneMore(jobs, snapshot, i, key, queue, table);
      var j := snapshot[i];
      if table[j].coalesce == key {
        queue := RemoveFirst(queue, j);
        table := CancelOne(table, j, key);
      }
    }
    SweptAll(jobs, snapshot, key, queue, table);
  }

  lemma ClassClosed(s: State, c: TrafficClass)
    requires Closed(s)
    ensures forall j :: j in Of(s.queues, c) ==> j in s.jobs
  {
  }

  lemma TakeStep(s: State, w: Worker, now: real)
    requires Closed(s) && Conserved(s) && forall j :: j in Of(s.queues, w.cls) ==> j in s.jobs
    ensures forall j :: j in Of(s.queues, w.cls) ==> s.jobs[j].cls == w.cls
    ensures
      var first := FirstDue(s.jobs, Of(s.queues, w.cls), w.cls, w.generation, s.keys, now, 0);
      if w in s.slots || !Exists(s, w) || first == None then Step(s, Event.Take(w, now)) == s
      else Step(s, Event.Take(w, now)) == TakeAt(s, w, first.value)
  {
    forall j | j in Of(s.queues, w.cls)
      ensures s.jobs[j].cls == w.cls
    {
      QueuedClass(s, w.cls, j);
    }
    hide Conserved, TakeAt, Eligible, Closed, FirstDue;
  }

  lemma QueuedClass(s: State, c: TrafficClass, j: nat)
    requires Conserved(s) && j in Of(s.queues, c)
    ensures j in s.jobs && s.jobs[j].cls == c
  {
    assert QueueOk(s, c);
    assert QueuedOk(s, c, j);
  }

  lemma IsWorkerStep(s: State, e: Event)
    requires Closed(s) && (e.Pass? || e.Begin? || e.Enter? || e.Finish? || e.Leave? || e.Abort?) && e.worker in s.slots
    ensures s.slots[e.worker].job in s.jobs && Step(s, e) == StepWorker(s, e)
  {
    hide StepWorker;
  }

  lemma WorkerStep(s: State, e: Event)
    requires Inv(s) && (e.Pass? || e.Begin? || e.Enter? || e.Finish? || e.Leave? || e.Abort?) && e.worker in s.slots
    ensures Closed(s) && s.slots[e.worker].job in s.jobs
    ensures Inv(Step(s, e)) && Step(s, e) == StepWorker(s, e)
  {
    hide *;
    InvCloses(s);
    IsWorkerStep(s, e);
    KeepInv(s, e);
  }

  /** A worker that has found its job, in the order it acts. */
  lemma HoldStep(s: State, m: State, w: Worker, i: nat)
    requires Closed(s) && i < |Of(s.queues, w.cls)|
    requires
      var q := Of(s.queues, w.cls);
      && q[i] in s.jobs
      && m == s.(queues := s.queues[w.cls := q[..i] + q[i + 1..]],
                 keys := if Keyed(w.cls) then s.keys + {(w.generation, s.jobs[q[i]].chat)} else s.keys,
                 jobs := s.jobs[q[i] := s.jobs[q[i]].(generation := w.generation)])
    ensures
      var j := Of(s.queues, w.cls)[i];
      && j in m.jobs && m.jobs[j].future == s.jobs[j].future
      && TakeAt(s, w, i) == if w.generation != s.generation || s.stopping then m.(jobs := FailOne(m.jobs, j))
                            else if s.jobs[j].future == Cancelled then ReleaseKey(m, j)
                            else m.(slots := m.slots[w := Slot(j, Pacing)])
  {
    hide ReleaseKey, Of, Closed;
    assert m.(jobs := m.jobs) == m;
  }

  lemma AbortIs(s: State, w: Worker)
    requires Closed(s) && w in s.slots && s.slots[w].job in s.jobs && Stale(s, w)
    ensures
      var p := s.slots[w].phase;
      StepWorker(s, Abort(w)) ==
        if p.InFlight? then LogOutcome(s, w, Interrupted)
        else if p.RecycleWait? || p.RecycleRun? then At(s, w, RecycleLeaving(p.knownUnsent, true))
        else if p.Waiting? then Exit(Stopped(s, s.slots[w].job), w)
        else if p.Leaving? || p.Settling? || p.RecycleLeaving? then s
        else Exit(s, w)
  {
    hide LogOutcome, At, Exit, Stopped, Closed;
  }

  lemma RecycleStep(s: State, e: Event)
    requires Inv(s) && (e.EnterRecycle? || e.RunRecycle? || e.FinishRecycle? || e.LeaveRecycle?) && e.worker in s.slots
    ensures Closed(s) && s.slots[e.worker].job in s.jobs
    ensures Inv(Step(s, e)) && Step(s, e) == StepRecycle(s, e)
  {
    InvCloses(s);
    assert s.slots[e.worker].job in s.jobs;
    hide Inv, Closed, Conserved, StepRecycle;
    KeepInv(s, e);
  }

  lemma LeftKnown(s: State, w: Worker, o: Outcome)
    requires w in s.slots && s.slots[w].job in s.jobs
    ensures w in LeaveTransport(s, w, o).slots
    ensures LeaveTransport(s, w, o).slots[w].job in LeaveTransport(s, w, o).jobs
  {
  }

  class OutboundMessenger {
    const cfg: Config
    var jobs: map<nat, Job>
    var queues: Queues
    var activeJobs: map<Worker, Slot>
    var activeKeys: set<(nat, string)>
    var counter: nat
    var generation: nat
    var running: bool
    var stopping: bool
    var stops: nat
    var transportFailures: nat
    var activeTransportRequests: int
    var recyclingTransport: bool

    ghost function View(): State
      reads this
    {
      State(cfg, jobs, queues, activeJobs, activeKeys, counter, generation, running, stopping, stops,
            transportFailures, activeTransportRequests, recyclingTransport)
    }

    ghost predicate Valid()
      reads this
    {
      Inv(View())
    }

    constructor (cfg: Config)
      ensures Valid() && View() == Initial(cfg)
    {
      this.cfg := cfg;
      jobs, queues, activeJobs, activeKeys := map[], NoQueues, map[], {};
      counter, generation, running, stopping, stops := 0, 0, false, false, 0;
      transportFailures, activeTransportRequests, recyclingTransport := 0, 0, false;
      new;
      InitialOk(cfg);
    }

    // ------------------------------------------------------- life cycle

    method Start()
      requires Valid()
      modifies this
      ensures Valid() && View() == Step(old(View()), Event.Start)
    {
      hide Inv, Admit, TakeJob, StepWorker, StepRecycle, FailAll;
      KeepInv(View(), Event.Start);
      if running { return; }
      stopping := false;
      generation := generation + 1;
      running := true;
    }

    /** `stop` up to its grace wait: fail whatever is active, drain the queues. */
    method StopBegin()
      requires Valid()
      modifies this
      ensures Valid() && View() == Step(old(View()), Event.StopBegin)
    {
      ghost var s := View();
      hide Inv, Step, FailAll, Closed;
      InvCloses(s);
      StopStep(s);
      KeepInv(s, Event.StopBegin);
      FailEverything();
      stopping := true;
      generation := generation + 1;
      if running {
        running := false;
        stops := stops + 1;
      } else {
        activeKeys := {};
      }
    }

    method FailEverything()
      requires Closed(View())
      modifies this`jobs, this`queues
      ensures jobs == FailAll(old(View())).jobs && queues == FailAll(old(View())).queues
    {
      ghost var s := View();
      QueuedKnown(s);
      FailTwice(s.jobs, HeldIds(s.slots), QueuedIds(s.queues, s.queues.Keys));
      hide FailWhere, QueuedIds, HeldIds, Emptied;
      FailActive();
      FailQueued();
    }

    method FailActive()
      requires Closed(View())
      modifies this`jobs
      ensures jobs == FailWhere(old(jobs), HeldIds(activeJobs))
    {
      var todo := activeJobs.Keys;
      ghost var ids: set<nat> := {};
      assert jobs == FailWhere(jobs, {});
      while todo != {}
        invariant todo <= activeJobs.Keys
        invariant ids == set w | w in activeJobs && w !in todo :: activeJobs[w].job
        invariant jobs == FailWhere(old(jobs), ids)
      {
        var w :| w in todo;
        var j := activeJobs[w].job;
        todo := todo - {w};
        FailOneMore(old(jobs), ids, j);
        ids := ids + {j};
        jobs := FailOne(jobs, j);
      }
    }

    method FailQueued()
      requires QueuedIds(queues, queues.Keys) <= jobs.Keys
      modifies this`jobs, this`queues
      ensures queues == Emptied(old(queues))
      ensures jobs == FailWhere(old(jobs), QueuedIds(old(queues), old(queues).Keys))
    {
      var classes := queues.Keys;
      ghost var all, drained := classes, {};
      assert jobs == FailWhere(jobs, QueuedIds(queues, {}));
      hide FailWhere;
      while classes != {}
        invariant classes + drained == all == old(queues).Keys == queues.Keys && classes !! drained
        invariant forall c :: c in all ==> queues[c] == if c in classes then old(queues)[c] else []
        invariant jobs == FailWhere(old(jobs), QueuedIds(old(queues), drained))
      {
        var c :| c in classes;
        IdsOneMore(old(queues), drained, c);
        FailTwice(old(jobs), QueuedIds(old(queues), drained), Elems(queues[c]));
        DrainQueue(c);
        classes, drained := classes - {c}, drained + {c};
      }
      assert drained == all;
    }

    /** Pop and fail until the queue is empty. */
    method DrainQueue(c: TrafficClass)
      requires c in queues && Elems(queues[c]) <= jobs.Keys
      modifies this`jobs, this`queues
      ensures queues == old(queues)[c := []]
      ensures jobs == FailWhere(old(jobs), Elems(old(queues)[c]))
    {
      ghost var q := queues[c];
      ghost var popped: seq<nat> := [];
      assert jobs == FailWhere(jobs, Elems([]));
      assert forall k :: 0 <= k < |q| ==> q[k] in Elems(q);
      hide FailWhere, FailOne, Elems;
      while queues[c] != []
        invariant c in queues && q == popped + queues[c] && queues == old(queues)[c := queues[c]]
        invariant jobs == FailWhere(old(jobs), Elems(popped))
        decreases |queues[c]|
      {
        var j := queues[c][0];
        assert j == q[|popped|];
        ElemsOneMore(popped, j);
        FailOneMore(old(jobs), Elems(popped), j);
        queues := queues[c := queues[c][1..]];
        jobs := FailOne(jobs, j);
        popped := popped + [j];
      }
      assert popped == q;
    }

    /** The end of `stop`: forget every locked chat, of whatever generation. */
    method StopEnd()
      requires Valid()
      modifies this
      ensures Valid() && View() == Step(old(View()), Event.StopEnd)
    {
      hide Inv, Admit, TakeJob, StepWorker, StepRecycle, FailAll;
      KeepInv(View(), Event.StopEnd);
      if stops > 0 {
        stops := stops - 1;
        activeKeys := {};
      }
    }

    // ------------------------------------------------------ submission

    /** `call` up to the point where it waits for its future. */
    method Call(cls: TrafficClass, chat: Option<string>, semantics: Semantics, coalesce: Option<CoalesceKey>,
                now: real, journalFails: bool)
      returns (accepted: bool)
      requires Valid()
      modifies this
      ensures Valid() && View() == Step(old(View()), Submit(cls, chat, semantics, coalesce, now, journalFails))
      ensures accepted ==> old(counter) in jobs && jobs[old(counter)].future == Pending
    {
      ghost var s := View();
      ghost var e := Submit(cls, chat, semantics, coalesce, now, journalFails);
      hide Inv, Supersede, Accepts, Step, Closed;
      InvCloses(s);
      KeepInv(s, e);
      SubmitStep(s, e);
      var key := EffectiveKey(semantics, coalesce);
      var spared := QueuedCoalesceCount(key);
      if !running || stopping || QueuedTotal(queues) - spared >= cfg.maxQueue {
        RefusedCall(s, key);
        return false;
      }
      AcceptedCall(s, key);
      SupersedeWaitingEdits(key);
      var sequence := counter;
      counter := counter + 1;
      if semantics == NonIdempotent && journalFails { return false; }
      var chatKey := if chat.Some? then chat.value else "job:" + Text.Digits(sequence);
      var job := Job(cls, chatKey, semantics, key, now, 0, 0, false, Pending, []);
      queues := queues[cls := Of(queues, cls) + [sequence]];
      jobs := jobs[sequence := job];
      return true;
    }

    method QueuedCoalesceCount(key: Option<CoalesceKey>) returns (n: nat)
      requires Closed(View())
      ensures n == ReplaceableTotal(View(), key)
    {
      var ack := CountEdits(CallbackAck, key);
      var interactive := CountEdits(Interactive, key);
      var media := CountEdits(Media, key);
      var maintenance := CountEdits(Maintenance, key);
      n := ack + interactive + media + maintenance;
    }

    method CountEdits(c: TrafficClass, key: Option<CoalesceKey>) returns (n: nat)
      requires Closed(View())
      ensures n == Replaceable(jobs, Of(queues, c), key)
    {
      n := 0;
      if key == None { return; }
      var q := Of(queues, c);
      for i := 0 to |q|
        invariant n == Replaceable(jobs, q[..i], key)
      {
        ReplaceableExtends(jobs, q[..i], q[i], key);
        assert q[..i + 1] == q[..i] + [q[i]];
        if jobs[q[i]].coalesce == key && jobs[q[i]].future == Pending {
          n := n + 1;
        }
      }
      assert q[..|q|] == q;
    }

    /** One queue of the scan, over a snapshot of it. */
    method SweepQueue(c: TrafficClass, key: Option<CoalesceKey>)
      requires key.Some? && c in queues && (forall j :: j in queues[c] ==> j in jobs) && NoDup(queues[c])
      modifies this`jobs, this`queues
      ensures queues == old(queues)[c := Without(old(jobs), old(queues)[c], key)]
      ensures jobs == CancelWhere(old(jobs), Elems(old(queues)[c]), key)
    {
      var queue, table := SweepSnapshot(jobs, queues[c], key);
      queues := queues[c := queue];
      jobs := table;
    }

    method SweepActive(key: Option<CoalesceKey>)
      requires forall w :: w in activeJobs ==> activeJobs[w].job in jobs
      modifies this`jobs
      ensures jobs == CancelWhere(old(jobs), HeldIds(activeJobs), key)
    {
      var todo := activeJobs.Keys;
      ghost var ids: set<nat> := {};
      CancelNobody(jobs, key);
      while todo != {}
        invariant todo <= activeJobs.Keys
        invariant ids == set w | w in activeJobs && w !in todo :: activeJobs[w].job
        invariant jobs == CancelWhere(old(jobs), ids, key)
      {
        var w :| w in todo;
        var j := activeJobs[w].job;
        todo := todo - {w};
        CancelOneMore(old(jobs), ids, j, key);
        ids := ids + {j};
        jobs := CancelOne(jobs, j, key);
      }
    }

    /** Drop the queued edits with this key and cancel every edit with it that
        has not reached the transport. */
    method SupersedeWaitingEdits(key: Option<CoalesceKey>)
      requires Closed(View()) && Conserved(View())
      modifies this`jobs, this`queues
      ensures jobs == Supersede(old(View()), key).jobs && queues == Supersede(old(View()), key).queues
    {
      ghost var s := View();
      NothingSuperseded(s);
      if key == None { return; }
      SupersededIds(s, key);
      CancelTwice(s.jobs, QueuedIds(s.queues, s.queues.Keys), HeldIds(s.slots), key);
      hide CancelWhere, Conserved, QueuedIds, HeldIds, WithoutAll;
      SweepQueues(key);
      SweepActive(key);
    }

    method SweepQueues(key: Option<CoalesceKey>)
      requires key.Some? && Closed(View()) && Conserved(View())
      modifies this`jobs, this`queues
      ensures queues == WithoutAll(old(jobs), old(queues), key)
      ensures jobs == CancelWhere(old(jobs), QueuedIds(old(queues), old(queues).Keys), key)
    {
      ghost var s := View();
      QueuesPlain(s);
      hide Conserved, Closed;
      var classes := queues.Keys;
      ghost var all, swept := classes, {};
      assert QueuedIds(s.queues, {}) == {};
      CancelNobody(jobs, key);
      hide CancelWhere, NoDup, Elems, QueuedIds, Without;
      while classes != {}
        invariant classes + swept == all == s.queues.Keys == queues.Keys && classes !! swept
        invariant forall c :: c in all ==> queues[c] == if c in classes then s.queues[c] else Without(s.jobs, s.queues[c], key)
        invariant jobs == CancelWhere(s.jobs, QueuedIds(s.queues, swept), key)
      {
        var c :| c in classes;
        IdsOneMore(s.queues, swept, c);
        CancelTwice(s.jobs, QueuedIds(s.queues, swept), Elems(s.queues[c]), key);
        WithoutAfterCancel(s.jobs, QueuedIds(s.queues, swept), s.queues[c], key);
        SweepQueue(c, key);
        classes, swept := classes - {c}, swept + {c};
      }
      assert swept == all;
    }

    // ---------------------------------------------------- choosing a job

    /** Some queued job of the same chat was submitted earlier. */
    method OlderWaits(q: seq<nat>, j: nat) returns (found: bool)
      requires j in jobs && forall k :: k in q ==> k in jobs
      ensures found <==> exists k :: 0 <= k < |q| && jobs[q[k]].chat == jobs[j].chat && q[k] < j
    {
      found := false;
      for k := 0 to |q|
        invariant !found && forall i :: 0 <= i < k ==> !(jobs[q[i]].chat == jobs[j].chat && q[i] < j)
      {
        if jobs[q[k]].chat == jobs[j].chat && q[k] < j { return true; }
      }
    }

    /** The chat of the i-th entry is free, and nothing older of it waits. */
    method MayRun(gen: nat, c: TrafficClass, q: seq<nat>, i: nat) returns (free: bool)
      requires i < |q| && forall j :: j in q ==> j in jobs
      ensures free <==> Eligible(jobs, q, c, gen, activeKeys, i)
    {
      if !Keyed(c) { return true; }
      if (gen, jobs[q[i]].chat) in activeKeys { return false; }
      var older := OlderWaits(q, q[i]);
      return !older;
    }

    /** `_take_due`: lock the chat and remove the first job that may run now. */
    method TakeDue(gen: nat, c: TrafficClass, now: real) returns (taken: Option<nat>)
      requires forall j :: j in Of(queues, c) ==> j in jobs
      modifies this`queues, this`activeKeys
      ensures
        var q := old(Of(queues, c));
        match FirstDue(jobs, q, c, gen, old(activeKeys), now, 0)
        case None => taken == None && queues == old(queues) && activeKeys == old(activeKeys)
        case Some(i) =>
          && taken == Some(q[i])
          && queues == old(queues)[c := q[..i] + q[i + 1..]]
          && activeKeys == if Keyed(c) then old(activeKeys) + {(gen, jobs[q[i]].chat)} else old(activeKeys)
    {
      var q := Of(queues, c);
      hide Of, Eligible;
      for i := 0 to |q|
        invariant queues == old(queues) && activeKeys == old(activeKeys)
        invariant FirstDue(jobs, q, c, gen, activeKeys, now, 0) == FirstDue(jobs, q, c, gen, activeKeys, now, i)
      {
        var j := q[i];
        if jobs[j].dueAt <= now {
          var free := MayRun(gen, c, q, i);
          if free {
            if Keyed(c) { activeKeys := activeKeys + {(gen, jobs[j].chat)}; }
            queues := queues[c := q[..i] + q[i + 1..]];
            return Some(j);
          }
        }
      }
      return None;
    }

    /** `_next_due_at`: the earliest time at which `TakeDue` can succeed. */
    method NextDueAt(gen: nat, c: TrafficClass) returns (due: Option<real>)
      requires forall j :: j in Of(queues, c) ==> j in jobs
      ensures forall now: real :: FirstDue(jobs, Of(queues, c), c, gen, activeKeys, now, 0).Some? <==> due.Some? && due.value <= now
    {
      due := None;
      var q := Of(queues, c);
      hide Of, Eligible;
      for i := 0 to |q|
        invariant due.Some? ==> exists k :: 0 <= k < i && Eligible(jobs, q, c, gen, activeKeys, k) && jobs[q[k]].dueAt == due.value
        invariant forall k :: 0 <= k < i && Eligible(jobs, q, c, gen, activeKeys, k) ==> due.Some? && due.value <= jobs[q[k]].dueAt
      {
        var j := q[i];
        var free := MayRun(gen, c, q, i);
        if free && (due == None || jobs[j].dueAt < due.value) {
          due := Some(jobs[j].dueAt);
        }
      }
      forall now: real
        ensures FirstDue(jobs, q, c, gen, activeKeys, now, 0).Some? <==> due.Some? && due.value <= now
      {
        var first := FirstDue(jobs, q, c, gen, activeKeys, now, 0);
        hide FirstDue, Eligible;
      }
    }

    /** A worker between two jobs: take one, drop it if it no longer counts. */
    method Take(w: Worker, now: real)
      requires Valid()
      modifies this
      ensures Valid() && View() == Step(old(View()), Event.Take(w, now))
    {
      ghost var s := View();
      InvCloses(s);
      KeepInv(s, Event.Take(w, now));
      ClassClosed(s, w.cls);
      TakeStep(s, w, now);
      hide Inv, Conserved, TakeAt, Step, FirstDue, Eligible, Closed, Of, QueuedTotal;
      if w in activeJobs || w.slot >= Concurrency(w.cls) || w.generation > generation || (w.generation == generation && !running) {
        return;
      }
      TakeNext(w, now);
    }

    method TakeNext(w: Worker, now: real)
      requires Closed(View()) && forall j :: j in Of(queues, w.cls) ==> j in jobs && jobs[j].cls == w.cls
      modifies this`jobs, this`queues, this`activeJobs, this`activeKeys
      ensures
        var first := FirstDue(old(jobs), old(Of(queues, w.cls)), w.cls, w.generation, old(activeKeys), now, 0);
        View() == if first == None then old(View()) else TakeAt(old(View()), w, first.value)
    {
      ghost var s := View();
      hide TakeAt, Eligible, Closed, Of;
      var taken := TakeDue(w.generation, w.cls, now);
      if taken == None { return; }
      ghost var i := FirstDue(s.jobs, Of(s.queues, w.cls), w.cls, w.generation, s.keys, now, 0).value;
      hide FirstDue;
      Hold(w, taken.value, s, i);
    }

    method Hold(w: Worker, j: nat, ghost s: State, ghost i: nat)
      requires Closed(s) && i < |Of(s.queues, w.cls)| && j == Of(s.queues, w.cls)[i] && j in s.jobs && j in jobs
      requires s.jobs[j].cls == w.cls
      requires View() == s.(queues := queues, keys := activeKeys)
      requires queues == s.queues[w.cls := Of(s.queues, w.cls)[..i] + Of(s.queues, w.cls)[i + 1..]]
      requires activeKeys == if Keyed(w.cls) then s.keys + {(w.generation, s.jobs[j].chat)} else s.keys
      modifies this`jobs, this`activeJobs, this`activeKeys
      ensures View() == TakeAt(s, w, i)
    {
      hide Closed, Of;
      jobs := jobs[j := jobs[j].(generation := w.generation)];
      ghost var m := View();
      HoldStep(s, m, w, i);
      hide TakeAt, ReleaseKey, FailOne;
      if w.generation != generation || stopping {
        jobs := FailOne(jobs, j);
      } else if jobs[j].future == Cancelled {
        Release(j);
      } else {
        activeJobs := activeJobs[w := Slot(j, Pacing)];
      }
    }

    /** `_release_key`. */
    method Release(j: nat)
      requires j in jobs
      modifies this`activeKeys
      ensures View() == ReleaseKey(old(View()), j)
    {
      if Keyed(jobs[j].cls) {
        activeKeys := activeKeys - {(jobs[j].generation, jobs[j].chat)};
      }
    }

    // ------------------------------------------------ running one attempt

    /** `_job_is_current`. */
    predicate JobIsCurrent(j: nat)
      requires j in jobs
      reads this
    {
      jobs[j].generation == generation && !stopping && jobs[j].future == Pending
    }

    /** The worker's `finally` clause. */
    method LeaveWorker(w: Worker)
      requires w in activeJobs && activeJobs[w].job in jobs
      modifies this`activeJobs, this`activeKeys
      ensures View() == Exit(old(View()), w)
    {
      var j := activeJobs[w].job;
      activeJobs := activeJobs - {w};
      Release(j);
    }

    method Enters(w: Worker, p: Phase)
      requires w in activeJobs
      modifies this`activeJobs
      ensures View() == At(old(View()), w, p)
    {
      activeJobs := activeJobs[w := activeJobs[w].(phase := p)];
    }

    /** `_finish_error`, and the answer of a successful call: only a current job
        is answered. */
    method Answer(j: nat, f: Future)
      requires j in jobs
      modifies this`jobs
      ensures View() == if Current(old(View()), j) then Resolve(old(View()), j, f) else old(View())
    {
      if JobIsCurrent(j) { jobs := jobs[j := jobs[j].(future := f)]; }
    }

    method FinishWith(w: Worker, f: Future)
      requires w in activeJobs && activeJobs[w].job in jobs
      modifies this`jobs, this`activeJobs, this`activeKeys
      ensures View() == FinishJob(old(View()), w, f)
    {
      Answer(activeJobs[w].job, f);
      LeaveWorker(w);
    }

    /** `_requeue`: a current job goes to the end of its class queue. */
    method RequeueJob(w: Worker, due: real)
      requires w in activeJobs && activeJobs[w].job in jobs
      modifies this`jobs, this`queues, this`activeJobs, this`activeKeys
      ensures View() == Requeue(old(View()), w, due)
    {
      var j := activeJobs[w].job;
      if JobIsCurrent(j) {
        jobs := jobs[j := jobs[j].(dueAt := due)];
        queues := queues[jobs[j].cls := Of(queues, jobs[j].cls) + [j]];
      }
      LeaveWorker(w);
    }

    /** `_handle_network_error` once recycling is out of the way. */
    method HandleNetworkError(w: Worker, knownUnsent: bool, now: real)
      requires w in activeJobs && activeJobs[w].job in jobs
      modifies this`jobs, this`queues, this`activeJobs, this`activeKeys
      ensures View() == NetworkTail(old(View()), w, knownUnsent, now)
    {
      hide Of, RetryDelay;
      var j := activeJobs[w].job;
      if !JobIsCurrent(j) {
        LeaveWorker(w);
      } else if jobs[j].semantics == NonIdempotent && !knownUnsent {
        FinishWith(w, Failed(Uncertain));
      } else if jobs[j].attempts <= cfg.retries {
        RequeueJob(w, now + RetryDelay(jobs[j].attempts));
      } else {
        FinishWith(w, Failed(Transport));
      }
    }

    /** The `except` chain of `_execute`. */
    method HandleOutcome(w: Worker, o: Outcome, now: real)
      requires w in activeJobs && activeJobs[w].job in jobs
      modifies this`jobs, this`queues, this`activeJobs, this`activeKeys, this`transportFailures
      ensures View() == Settle(old(View()), w, o, now)
    {
      hide Exit, FinishJob, Requeue, NetworkTail, At;
      var j := activeJobs[w].job;
      if o.RetryAfter? {
        if jobs[j].attempts <= cfg.retries {
          RequeueJob(w, now + Max(0.0, Max(0.0, o.seconds) + 0.1));
        } else {
          FinishWith(w, Failed(Transport));
        }
      } else if o.Network? {
        if !JobIsCurrent(j) {
          LeaveWorker(w);
          return;
        }
        transportFailures := transportFailures + 1;
        if transportFailures >= 2 && cfg.canRecycle {
          Enters(w, RecycleEnter(o.knownUnsent));
        } else {
          HandleNetworkError(w, o.knownUnsent, now);
        }
      } else if o.Delivered? {
        if !JobIsCurrent(j) {
          LeaveWorker(w);
          return;
        }
        transportFailures := 0;
        FinishWith(w, Fulfilled);
      } else if o.Interrupted? {
        LeaveWorker(w);
      } else {
        FinishWith(w, Failed(Transport));
      }
    }

    method StartAttempt(w: Worker)
      requires w in activeJobs && activeJobs[w].job in jobs
      modifies this`jobs, this`activeJobs
      ensures View() == BeginAttempt(old(View()), w)
    {
      var j := activeJobs[w].job;
      jobs := jobs[j := jobs[j].(attempts := jobs[j].attempts + 1, started := true)];
      Enters(w, Waiting);
    }

    /** Pacing is over: give up a job that no longer counts, else go on. */
    method Pass(w: Worker)
      requires Valid() && w in activeJobs && activeJobs[w].phase.Pacing?
      modifies this`jobs, this`activeJobs, this`activeKeys
      ensures Valid() && View() == Step(old(View()), Event.Pass(w))
    {
      ghost var s := View();
      WorkerStep(s, Event.Pass(w));
      hide Inv, Closed, Step, Exit, At, BeginAttempt;
      if !JobIsCurrent(activeJobs[w].job) {
        LeaveWorker(w);
      } else if cfg.interval {
        Enters(w, Ready);
      } else {
        StartAttempt(w);
      }
    }

    /** The minimum interval is over; nothing rechecks the job. */
    method Begin(w: Worker)
      requires Valid() && w in activeJobs && activeJobs[w].phase.Ready?
      modifies this`jobs, this`activeJobs
      ensures Valid() && View() == Step(old(View()), Event.Begin(w))
    {
      ghost var s := View();
      WorkerStep(s, Event.Begin(w));
      hide Inv, Closed, Step, BeginAttempt;
      StartAttempt(w);
    }

    /** Through the transport gate, which a recycle keeps shut. */
    method Enter(w: Worker) returns (entered: bool)
      requires Valid() && w in activeJobs && activeJobs[w].phase.Waiting?
      modifies this`activeJobs, this`activeTransportRequests
      ensures Valid() && View() == Step(old(View()), Event.Enter(w))
      ensures entered == !old(recyclingTransport)
    {
      ghost var s := View();
      WorkerStep(s, Event.Enter(w));
      hide Inv, Closed, Step, At;
      if recyclingTransport { return false; }
      activeTransportRequests := activeTransportRequests + 1;
      Enters(w, InFlight);
      return true;
    }

    /** The Bot API call ended. */
    method Finish(w: Worker, o: Outcome)
      requires Valid() && w in activeJobs && activeJobs[w].phase.InFlight? && !o.Interrupted?
      modifies this`jobs, this`activeJobs
      ensures Valid() && View() == Step(old(View()), Event.Finish(w, o))
    {
      ghost var s := View();
      WorkerStep(s, Event.Finish(w, o));
      hide Inv, Closed, Step, LogOutcome;
      Log(w, o);
    }

    method Log(w: Worker, o: Outcome)
      requires w in activeJobs && activeJobs[w].job in jobs
      modifies this`jobs, this`activeJobs
      ensures View() == LogOutcome(old(View()), w, o)
    {
      var j := activeJobs[w].job;
      jobs := jobs[j := jobs[j].(history := jobs[j].history + [o])];
      Enters(w, Leaving(o));
    }

    method StopCounting(w: Worker)
      requires w in activeJobs && activeJobs[w].job in jobs && activeJobs[w].phase.Leaving?
      modifies this`jobs, this`activeJobs, this`activeTransportRequests
      ensures View() == LeaveTransport(old(View()), w, old(activeJobs[w].phase.outcome))
    {
      var j := activeJobs[w].job;
      jobs := jobs[j := jobs[j].(started := false)];
      activeTransportRequests := activeTransportRequests - 1;
      Enters(w, Settling(activeJobs[w].phase.outcome));
    }

    /** Past the transport condition again: the outcome takes effect. */
    method Leave(w: Worker, now: real)
      requires Valid() && w in activeJobs && activeJobs[w].phase.Leaving?
      modifies this`jobs, this`queues, this`activeJobs, this`activeKeys, this`transportFailures, this`activeTransportRequests
      ensures Valid() && View() == Step(old(View()), Event.Leave(w, now))
    {
      ghost var s := View();
      WorkerStep(s, Event.Leave(w, now));
      var o := activeJobs[w].phase.outcome;
      LeftKnown(s, w, o);
      hide Inv, Closed, Step, Settle, LeaveTransport;
      StopCounting(w);
      HandleOutcome(w, o, now);
    }

    // ------------------------------------------------ transport recycling

    /** The test-and-set of the recycle flag; the loser goes on at once. */
    method EnterRecycling(w: Worker, now: real)
      requires Valid() && w in activeJobs && activeJobs[w].phase.RecycleEnter?
      modifies this`jobs, this`queues, this`activeJobs, this`activeKeys, this`recyclingTransport
      ensures Valid() && View() == Step(old(View()), Event.EnterRecycle(w, now))
    {
      ghost var s := View();
      RecycleStep(s, Event.EnterRecycle(w, now));
      hide Inv, Closed, Step, NetworkTail, At;
      var unsent := activeJobs[w].phase.knownUnsent;
      if recyclingTransport {
        HandleNetworkError(w, unsent, now);
      } else {
        recyclingTransport := true;
        Enters(w, RecycleWait(unsent));
      }
    }

    /** The recycle itself begins once no operation is counted. */
    method RunRecycling(w: Worker) returns (runs: bool)
      requires Valid() && w in activeJobs && activeJobs[w].phase.RecycleWait?
      modifies this`activeJobs
      ensures Valid() && View() == Step(old(View()), Event.RunRecycle(w))
      ensures runs == (old(activeTransportRequests) == 0)
    {
      ghost var s := View();
      RecycleStep(s, Event.RunRecycle(w));
      hide Inv, Closed, Step, At;
      if activeTransportRequests != 0 { return false; }
      Enters(w, RecycleRun(activeJobs[w].phase.knownUnsent));
      return true;
    }

    method FinishRecycling(w: Worker)
      requires Valid() && w in activeJobs && activeJobs[w].phase.RecycleRun?
      modifies this`activeJobs, this`transportFailures
      ensures Valid() && View() == Step(old(View()), Event.FinishRecycle(w))
    {
      ghost var s := View();
      RecycleStep(s, Event.FinishRecycle(w));
      hide Inv, Closed, Step;
      if JobIsCurrent(activeJobs[w].job) { transportFailures := 0; }
      Enters(w, RecycleLeaving(activeJobs[w].phase.knownUnsent, false));
    }

    method LeaveRecycling(w: Worker, now: real)
      requires Valid() && w in activeJobs && activeJobs[w].phase.RecycleLeaving?
      modifies this`jobs, this`queues, this`activeJobs, this`activeKeys, this`recyclingTransport
      ensures Valid() && View() == Step(old(View()), Event.LeaveRecycle(w, now))
    {
      ghost var s := View();
      RecycleStep(s, Event.LeaveRecycle(w, now));
      hide Inv, Closed, Step, NetworkTail, Exit;
      recyclingTransport := false;
      ghost var m := View();
      assert m == s.(recycling := false);
      hide View;
      if activeJobs[w].phase.interrupted {
        LeaveWorker(w);
      } else {
        HandleNetworkError(w, activeJobs[w].phase.knownUnsent, now);
      }
    }

    // -------------------------------------------------------- cancellation

    /** The caller stops waiting for its answer. */
    method CallerCancels(j: nat)
      requires Valid() && j in jobs
      modifies this`jobs
      ensures Valid() && View() == Step(old(View()), Event.CallerCancels(j))
    {
      ghost var s := View();
      KeepInv(s, Event.CallerCancels(j));
      InvCloses(s);
      hide Inv, Closed, Conserved;
      if jobs[j].future == Pending { jobs := jobs[j := jobs[j].(future := Cancelled)]; }
    }

    method StopJob(j: nat)
      requires j in jobs
      modifies this`jobs
      ensures View() == Stopped(old(View()), j)
    {
      jobs := jobs[j := jobs[j].(started := false)];
    }

    /** `stop` cancelled this worker task; where it was decides what is left. */
    method Abort(w: Worker)
      requires Valid() && w in activeJobs && (w.generation != generation || stopping)
      modifies this`jobs, this`activeJobs, this`activeKeys
      ensures Valid() && View() == Step(old(View()), Event.Abort(w))
    {
      ghost var s := View();
      WorkerStep(s, Event.Abort(w));
      AbortIs(s, w);
      hide Inv, Closed, Step, StepWorker, Exit, At, LogOutcome;
      var phase := activeJobs[w].phase;
      if phase.InFlight? {
        Log(w, Interrupted);
      } else if phase.RecycleWait? || phase.RecycleRun? {
        Enters(w, RecycleLeaving(phase.knownUnsent, true));
      } else if phase.Waiting? {
        StopJob(activeJobs[w].job);
        LeaveWorker(w);
      } else if !phase.Leaving? && !phase.Settling? && !phase.RecycleLeaving? {
        LeaveWorker(w);
      }
    }
  }
}
