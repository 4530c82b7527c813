/** Every event keeps the delivery engine's invariant. */
module DeliveryInvariants {
  import opened Wrappers
  import opened DeliveryModel

  /** The parts of the invariant that concern workers and tasks. */
  ghost predicate CrewOk(s: State) {
    && (forall w :: WorkerOk(s, w))
    && (forall k :: TaskOk(s, k))
  }

  ghost predicate BooksOk(s: State) {
    && (forall r :: DeliveryOk(s, r))
    && (forall k :: PendingOk(s, k))
  }

  lemma Parts(s: State)
    ensures Valid(s) <==> BooksOk(s) && CrewOk(s) && EditsOk(s) && LifeOk(s)
  {
    hide DeliveryOk, PendingOk, WorkerOk, TaskOk, EditsOk, LifeOk;
  }

  // --------------------------------------------------------------- workers

  lemma EnsureKeepsWorker(s: State, k: Key, w: nat)
    requires WorkerOk(s, w)
    ensures WorkerOk(EnsureWorker(s, k), w)
    ensures w in s.workers ==> w in EnsureWorker(s, k).workers && EnsureWorker(s, k).workers[w] == s.workers[w]
  {
  }

  lemma EnsureKeepsTask(s: State, k: Key, x: Key)
    requires TaskOk(s, x) && (HasWorker(s, x) ==> WorkerOk(s, s.tasks[x]))
    ensures TaskOk(EnsureWorker(s, k), x)
    ensures HasWorker(s, x) ==> HasWorker(EnsureWorker(s, k), x) && EnsureWorker(s, k).tasks[x] == s.tasks[x]
  {
  }

  lemma EnsureKeepsCrew(s: State, k: Key)
    requires CrewOk(s)
    ensures CrewOk(EnsureWorker(s, k)) && HasWorker(EnsureWorker(s, k), k)
    ensures EnsureWorker(s, k).workers[EnsureWorker(s, k).tasks[k]].key == k
    ensures forall x :: HasWorker(s, x) ==> HasWorker(EnsureWorker(s, k), x) && EnsureWorker(s, k).tasks[x] == s.tasks[x]
                                            && EnsureWorker(s, k).workers[s.tasks[x]] == s.workers[s.tasks[x]]
  {
    var t := EnsureWorker(s, k);
    assert TaskOk(s, k) && WorkerOk(s, s.nextTask);
    assert HasWorker(t, k) && t.workers[t.tasks[k]].key == k && WorkerOk(t, s.nextTask);
    forall w ensures WorkerOk(t, w) {
      assert WorkerOk(s, w);
      hide EnsureWorker, WorkerOk;
      EnsureKeepsWorker(s, k, w);
    }
    forall x
      ensures TaskOk(t, x)
      ensures HasWorker(s, x) ==> HasWorker(t, x) && t.tasks[x] == s.tasks[x] && t.workers[s.tasks[x]] == s.workers[s.tasks[x]]
    {
      assert TaskOk(s, x);
      if HasWorker(s, x) {
        assert WorkerOk(s, s.tasks[x]);
        EnsureKeepsWorker(s, k, s.tasks[x]);
      }
      hide EnsureWorker, WorkerOk, TaskOk;
      EnsureKeepsTask(s, k, x);
    }
    hide *;
  }

  /** A new worker where the pending delivery has none. */
  lemma EnsureKeepsPending(s: State, k: Key, x: Key)
    requires PendingOk(s, x) && x != k
    requires HasWorker(s, x) ==> HasWorker(EnsureWorker(s, k), x) && EnsureWorker(s, k).tasks[x] == s.tasks[x]
                                 && EnsureWorker(s, k).workers[s.tasks[x]] == s.workers[s.tasks[x]]
    ensures PendingOk(EnsureWorker(s, k), x)
  {
  }

  lemma EnsureKeepsBooks(s: State, k: Key)
    requires CrewOk(s) && (forall r :: DeliveryOk(s, r)) && (forall x :: x != k ==> PendingOk(s, x))
    requires k in s.pending && s.pending[k] in s.deliveries && s.deliveries[s.pending[k]].key == k
    requires s.deliveries[s.pending[k]].attempts == 0
    ensures BooksOk(EnsureWorker(s, k))
  {
    var t := EnsureWorker(s, k);
    EnsureKeepsCrew(s, k);
    assert PendingOk(t, k);
    forall r ensures DeliveryOk(t, r) { assert DeliveryOk(s, r); }
    hide DeliveryOk, CrewOk;
    forall x ensures PendingOk(t, x) {
      if x != k { EnsureKeepsPending(s, k, x); }
    }
    hide PendingOk, EnsureWorker;
  }

  // ------------------------------------------------------------ deliveries

  /** Same payloads and attempts; answers are only given. */
  ghost predicate Answers(a: map<nat, Delivery>, b: map<nat, Delivery>) {
    && b.Keys == a.Keys
    && forall r :: r in a ==>
         && b[r].key == a[r].key && b[r].fingerprint == a[r].fingerprint && b[r].attempts == a[r].attempts
         && (b[r].future == Waiting ==> a[r].future == Waiting)
  }

  /** Deliveries answered and pendings dropped: whatever stays pending is as it was. */
  lemma AnswersKeep(s: State, t: State)
    requires Valid(s) && Answers(s.deliveries, t.deliveries)
    requires t == s.(deliveries := t.deliveries, pending := t.pending, delivered := t.delivered)
    requires forall k :: k in t.pending ==> k in s.pending && t.pending[k] == s.pending[k]
    requires forall k :: k in s.pending && k !in t.pending && s.pending[k] in s.deliveries ==> t.deliveries[s.pending[k]].future != Waiting
    ensures Valid(t)
  {
    Parts(s);
    Parts(t);
    forall r ensures DeliveryOk(t, r) {
      assert DeliveryOk(s, r);
      if r in s.deliveries {
        var k := s.deliveries[r].key;
        assert PendingOk(s, k);
      }
    }
    forall k ensures PendingOk(t, k) { assert PendingOk(s, k); }
    forall w ensures WorkerOk(t, w) { assert WorkerOk(s, w); }
    forall k ensures TaskOk(t, k) { assert TaskOk(s, k); }
  }

  /** The pending delivery of a message gets its outcome and goes. */
  lemma Answered(s: State, k: Key, v: Verdict, performed: bool, delivered: map<Key, string>)
    requires Valid(s) && k in s.pending
    ensures Valid(s.(pending := s.pending - {k}, delivered := delivered, deliveries := FinishIn(s.deliveries, s.pending[k], v, performed)))
  {
    var t := s.(pending := s.pending - {k}, delivered := delivered, deliveries := FinishIn(s.deliveries, s.pending[k], v, performed));
    assert forall x :: x in s.pending && x !in t.pending ==> x == k;
    hide Valid;
    AnswersKeep(s, t);
  }

  /** A worker that is not editing its pending delivery changes phase. */
  lemma PhaseKeeps(s: State, w: nat, p: Phase)
    requires Valid(s) && w in s.workers && !p.Editing?
    requires !s.stopping && s.workers[w].key in s.pending && s.pending[s.workers[w].key] in s.deliveries ==>
               s.deliveries[s.pending[s.workers[w].key]].attempts == 0
    ensures Valid(At(s, w, p))
  {
    var t := At(s, w, p);
    Parts(s);
    Parts(t);
    forall r ensures DeliveryOk(t, r) { assert DeliveryOk(s, r); }
    forall k ensures PendingOk(t, k) { assert PendingOk(s, k); assert TaskOk(s, k); assert WorkerOk(s, w); }
    forall v ensures WorkerOk(t, v) { assert WorkerOk(s, v); }
    forall k ensures TaskOk(t, k) { assert TaskOk(s, k); }
  }

  lemma ExitKeeps(s: State, w: nat)
    requires Valid(s) && w in s.workers && (s.stopping || s.workers[w].key !in s.pending)
    ensures Valid(Exit(s, w))
  {
    var t := Exit(s, w);
    Parts(s);
    Parts(t);
    assert WorkerOk(s, w);
    forall r ensures DeliveryOk(t, r) { assert DeliveryOk(s, r); }
    forall k ensures PendingOk(t, k) { assert PendingOk(s, k) && TaskOk(s, k); }
    forall v ensures WorkerOk(t, v) { assert WorkerOk(s, v); }
    forall k ensures TaskOk(t, k) { assert TaskOk(s, k); }
  }

  /** The attempt at a pending delivery: its first, and newer than any before. */
  lemma TryKeeps(s: State, w: nat, now: real)
    requires Valid(s) && w in s.workers && s.workers[w].phase.Looking? && !s.stopping
    requires s.workers[w].key in s.pending
    requires s.pending[s.workers[w].key] in s.deliveries && s.deliveries[s.pending[s.workers[w].key]].dueAt <= now
    ensures s.deliveries[s.pending[s.workers[w].key]].attempts == 0
    ensures Valid(LookStep(s, w, now))
  {
    var k := s.workers[w].key;
    var r := s.pending[k];
    var t := LookStep(s, w, now);
    Parts(s);
    Parts(t);
    assert WorkerOk(s, w) && PendingOk(s, k) && DeliveryOk(s, r);
    forall i ensures DeliveryOk(t, i) { assert DeliveryOk(s, i); }
    forall x ensures PendingOk(t, x) { assert PendingOk(s, x) && TaskOk(s, x); }
    forall v ensures WorkerOk(t, v) { assert WorkerOk(s, v); }
    forall x ensures TaskOk(t, x) { assert TaskOk(s, x); }
    assert EditsOk(t) by { TryKeepsEdits(s, w, now); }
  }

  lemma TryKeepsEdits(s: State, w: nat, now: real)
    requires Valid(s) && w in s.workers && s.workers[w].phase.Looking? && !s.stopping
    requires s.workers[w].key in s.pending
    requires s.pending[s.workers[w].key] in s.deliveries && s.deliveries[s.pending[s.workers[w].key]].dueAt <= now
    ensures EditsOk(LookStep(s, w, now))
  {
    var k := s.workers[w].key;
    var r := s.pending[k];
    var t := LookStep(s, w, now);
    assert WorkerOk(s, w) && PendingOk(s, k) && DeliveryOk(s, r);
    forall i | 0 <= i < |s.edits| && s.edits[i].0 == k
      ensures s.edits[i].1 < r
    {
      assert DeliveryOk(s, s.edits[i].1);
    }
  }

  /** A new revision, with nothing pending for its key. */
  function Fresh(s: State, k: Key, d: Delivery): State {
    s.(revision := s.revision + 1, deliveries := s.deliveries[s.revision + 1 := d], pending := s.pending[k := s.revision + 1])
  }

  /** All but the new pending delivery's worker. */
  lemma FreshParts(s: State, k: Key, d: Delivery)
    requires Valid(s) && k !in s.pending && d.key == k && d.attempts == 0
    ensures
      var t := Fresh(s, k, d);
      && CrewOk(t) && EditsOk(t) && (forall r :: DeliveryOk(t, r)) && (forall x :: x != k ==> PendingOk(t, x))
  {
    var r := s.revision + 1;
    var t := Fresh(s, k, d);
    assert r !in s.deliveries by { assert DeliveryOk(s, r); }
    forall i ensures DeliveryOk(t, i) { assert DeliveryOk(s, i); }
    forall x | x != k ensures PendingOk(t, x) { assert PendingOk(s, x); }
    forall v ensures WorkerOk(t, v) { assert WorkerOk(s, v); }
    forall x ensures TaskOk(t, x) { assert TaskOk(s, x); }
    hide DeliveryOk, PendingOk, WorkerOk, TaskOk;
  }

  lemma EnsureKeepsRest(s: State, k: Key)
    requires EditsOk(s) && LifeOk(s) && s.started
    ensures EditsOk(EnsureWorker(s, k)) && LifeOk(EnsureWorker(s, k))
  {
  }

  lemma FreshKeeps(s: State, k: Key, d: Delivery)
    requires Valid(s) && s.started && !s.stopping && k !in s.pending && d.key == k && d.attempts == 0
    ensures Valid(EnsureWorker(Fresh(s, k, d), k))
  {
    var t := Fresh(s, k, d);
    FreshParts(s, k, d);
    assert LifeOk(t);
    hide Valid, DeliveryOk, PendingOk, WorkerOk, TaskOk, EditsOk, LifeOk, CrewOk, EnsureWorker;
    EnsureKeepsCrew(t, k);
    EnsureKeepsBooks(t, k);
    EnsureKeepsRest(t, k);
    Parts(EnsureWorker(t, k));
  }

  /** The pending delivery of the message is superseded, then the new one comes. */
  lemma AdmitIs(s: State, e: Event)
    requires e.Submit? && Admits(s, e)
    ensures
      var k := e.key;
      var m := if k in s.pending
               then s.(pending := s.pending - {k}, deliveries := FinishIn(s.deliveries, s.pending[k], Superseded, false))
               else s;
      SubmitStep(s, e) == EnsureWorker(Fresh(m, k, Delivery(k, e.fingerprint, e.terminal, e.now, 0, Waiting)), k)
  {
    assert (s.pending - {e.key})[e.key := s.revision + 1] == s.pending[e.key := s.revision + 1];
    hide EnsureWorker, FinishIn;
  }

  lemma AdmitKeeps(s: State, e: Event)
    requires Valid(s) && e.Submit? && Admits(s, e)
    ensures Valid(SubmitStep(s, e))
  {
    var k := e.key;
    assert s.started && !s.stopping by { assert LifeOk(s); }
    AdmitIs(s, e);
    hide Valid, EnsureWorker, FinishIn, SubmitStep, Fresh;
    var m := s;
    if k in s.pending {
      Answered(s, k, Superseded, false, s.delivered);
      m := s.(pending := s.pending - {k}, deliveries := FinishIn(s.deliveries, s.pending[k], Superseded, false));
    }
    FreshKeeps(m, k, Delivery(k, e.fingerprint, e.terminal, e.now, 0, Waiting));
  }

  lemma EditKeeps(s: State, w: nat, result: EditResult)
    requires Valid(s) && w in s.workers
    ensures Valid(EditStep(s, w, result))
  {
    assert WorkerOk(s, w);
    if s.workers[w].phase.Editing? {
      var k, r := s.workers[w].key, s.workers[w].phase.revision;
      if k in s.pending && s.pending[k] == r {
        var delivered := if result.Edited? then s.delivered[k := s.deliveries[r].fingerprint] else s.delivered;
        Answered(s, k, VerdictOf(result), result.Edited?, delivered);
        hide Valid, FinishIn;
        PhaseKeeps(s.(pending := s.pending - {k}, delivered := delivered,
                      deliveries := FinishIn(s.deliveries, r, VerdictOf(result), result.Edited?)), w, Looking);
      } else {
        OtherPhase(s, w);
        hide Valid;
        PhaseKeeps(s, w, Looking);
      }
    }
  }

  /** Editing an older revision, the pending one has not been tried. */
  lemma OtherPhase(s: State, w: nat)
    requires Valid(s) && w in s.workers
    requires s.workers[w].key in s.pending ==> s.workers[w].phase != Editing(s.pending[s.workers[w].key])
    ensures
      var k := s.workers[w].key;
      !s.stopping && k in s.pending && s.pending[k] in s.deliveries ==> s.deliveries[s.pending[k]].attempts == 0
  {
    var k := s.workers[w].key;
    assert WorkerOk(s, w) && PendingOk(s, k);
    if k in s.pending { assert DeliveryOk(s, s.pending[k]); }
  }

  lemma LookKeeps(s: State, w: nat, now: real)
    requires Valid(s) && w in s.workers
    ensures Valid(LookStep(s, w, now))
  {
    var k := s.workers[w].key;
    if s.workers[w].phase.Looking? {
      if s.stopping || k !in s.pending {
        hide Valid, Exit;
        ExitKeeps(s, w);
      } else {
        assert PendingOk(s, k);
        if s.deliveries[s.pending[k]].dueAt > now {
          OtherPhase(s, w);
          hide Valid;
          PhaseKeeps(s, w, Sleeping);
        } else {
          hide Valid;
          TryKeeps(s, w, now);
        }
      }
    }
  }

  lemma UpgradeKeeps(s: State, e: Event)
    requires Valid(s) && e.Submit? && Joins(s, e)
    ensures Valid(SubmitStep(s, e))
  {
    var t := SubmitStep(s, e);
    hide Valid;
    AnswersKeep(s, t);
  }

  lemma GiveUpKeeps(s: State, r: nat)
    requires Valid(s)
    ensures Valid(GiveUpStep(s, r))
  {
    hide Valid;
    if r in s.deliveries && s.deliveries[r].future == Waiting {
      var ds := s.deliveries[r := s.deliveries[r].(future := GivenUp)];
      assert Answers(s.deliveries, ds);
      hide Answers;
      AnswersKeep(s, s.(deliveries := ds));
    }
  }

  lemma WithdrawKeeps(s: State, ks: set<Key>)
    requires Valid(s)
    ensures Valid(Withdraw(s, ks))
  {
    var t := Withdraw(s, ks);
    forall k | k in s.pending && k !in t.pending && s.pending[k] in s.deliveries
      ensures t.deliveries[s.pending[k]].future != Waiting
    {
      assert s.pending[k] in PendingIds(s.pending, ks);
    }
    assert Answers(s.deliveries, t.deliveries) by { hide PendingIds; }
    hide Valid, Answers, SupersedeIn, PendingIds;
    AnswersKeep(s, t);
  }

  /** Only the life-cycle flags change, and `stopping` is not taken back. */
  lemma FlagsKeep(s: State, t: State)
    requires Valid(s) && LifeOk(t) && (s.stopping ==> t.stopping || s.pending == map[])
    requires t == s.(started := t.started, accepting := t.accepting, stopping := t.stopping, draining := t.draining, tasks := t.tasks)
    requires t.tasks == s.tasks || (t.tasks == map[] && s.workers == map[] && t.stopping)
    ensures Valid(t)
  {
    Parts(s);
    Parts(t);
    forall r ensures DeliveryOk(t, r) { assert DeliveryOk(s, r); }
    forall k ensures PendingOk(t, k) { assert PendingOk(s, k); }
    forall w ensures WorkerOk(t, w) { assert WorkerOk(s, w); }
    forall k ensures TaskOk(t, k) { assert TaskOk(s, k); }
  }

  lemma StopKeeps(s: State, e: Event)
    requires Valid(s) && (e.StopBegin? || e.StopCancel? || e.StopEnd?)
    ensures Valid(StopStep(s, e))
  {
    assert LifeOk(s);
    WithdrawKeeps(s, Dispensable(s));
    WithdrawKeeps(s, s.pending.Keys);
    hide Valid, Dispensable, SupersedeIn;
    if e.StopBegin? && s.started && !s.draining {
      FlagsKeep(Withdraw(s, Dispensable(s)), StopStep(s, e));
    } else if e.StopCancel? {
      FlagsKeep(s, StopStep(s, e));
    } else if e.StopEnd? && s.draining && s.stopping && s.workers == map[] {
      FlagsKeep(Withdraw(s, s.pending.Keys), StopStep(s, e));
    }
  }

  /** While stopping, a task may vanish and leave its entry behind. */
  lemma VanishKeeps(s: State, w: nat)
    requires Valid(s) && w in s.workers && s.stopping
    ensures Valid(s.(workers := s.workers - {w}))
  {
    var t := s.(workers := s.workers - {w});
    Parts(s);
    Parts(t);
    forall r ensures DeliveryOk(t, r) { assert DeliveryOk(s, r); }
    forall k ensures PendingOk(t, k) { assert PendingOk(s, k); }
    forall v ensures WorkerOk(t, v) { assert WorkerOk(s, v); }
    forall k ensures TaskOk(t, k) { assert TaskOk(s, k); }
  }

  lemma StartKeeps(s: State)
    requires Valid(s)
    ensures Valid(Step(s, Start))
  {
    assert LifeOk(s);
    var t := Step(s, Start);
    assert LifeOk(t);
    hide Valid;
    if !s.started { FlagsKeep(s, t); }
  }

  lemma StepKeepsValid(s: State, e: Event)
    requires Valid(s)
    ensures Valid(Step(s, e))
  {
    hide Valid, SubmitStep, LookStep, EditStep, StopStep, GiveUpStep, Exit, At;
    if e.Start? {
      StartKeeps(s);
    } else if e.Submit? {
      SubmitKeeps(s, e);
    } else if e.GiveUp? {
      GiveUpKeeps(s, e.revision);
    } else if e.StopBegin? || e.StopCancel? || e.StopEnd? {
      StopKeeps(s, e);
    } else if e.worker in s.workers {
      if e.Look? {
        LookKeeps(s, e.worker, e.now);
      } else if e.Wake? {
        WakeKeeps(s, e.worker);
      } else if e.EditEnds? {
        EditKeeps(s, e.worker, e.result);
      } else if s.stopping {
        ExitKeeps(s, e.worker);
        VanishKeeps(s, e.worker);
      }
    }
  }

  lemma SubmitKeeps(s: State, e: Event)
    requires Valid(s) && e.Submit?
    ensures Valid(SubmitStep(s, e))
  {
    hide Valid, Joins;
    if Joins(s, e) {
      UpgradeKeeps(s, e);
    } else if Admits(s, e) {
      AdmitKeeps(s, e);
    }
  }

  lemma WakeKeeps(s: State, w: nat)
    requires Valid(s) && w in s.workers
    ensures s.workers[w].phase.Sleeping? ==> Valid(At(s, w, Looking))
  {
    if s.workers[w].phase.Sleeping? {
      OtherPhase(s, w);
      hide Valid;
      PhaseKeeps(s, w, Looking);
    }
  }

  lemma InitialOk()
    ensures Valid(Initial)
  {
  }
}
