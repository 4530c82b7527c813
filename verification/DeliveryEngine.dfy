/** What the delivery engine promises over every run, and the engine itself. */
module DeliveryEngine {
  import opened Wrappers
  import opened DeliveryModel
  import opened DeliveryInvariants

  ghost function Run(s: State, es: seq<Event>): State
    decreases |es|
  {
    if es == [] then s else Run(Step(s, es[0]), es[1..])
  }

  lemma {:induction false} RunKeepsValid(s: State, es: seq<Event>)
    requires Valid(s)
    ensures Valid(Run(s, es))
    decreases |es|
  {
    if es != [] {
      StepKeepsValid(s, es[0]);
      hide Valid, Step;
      RunKeepsValid(Step(s, es[0]), es[1..]);
    }
  }

  /** At most one live worker per message; while the engine runs, a message with
      something pending has one. */
  lemma OneWorkerPerMessage(s: State, es: seq<Event>, k: Key)
    requires Valid(s)
    ensures
      var t := Run(s, es);
      && (forall v, w :: v in t.workers && w in t.workers && t.workers[v].key == t.workers[w].key ==> v == w)
      && (k in t.pending && !t.stopping ==> exists w :: w in t.workers && t.workers[w].key == k)
  {
    RunKeepsValid(s, es);
    var t := Run(s, es);
    forall v, w | v in t.workers && w in t.workers && t.workers[v].key == t.workers[w].key
      ensures v == w
    {
      assert WorkerOk(t, v) && WorkerOk(t, w);
    }
    if k in t.pending && !t.stopping {
      assert PendingOk(t, k) && TaskOk(t, k);
      assert t.tasks[k] in t.workers;
    }
  }

  /** Edits of one message go out in strictly increasing revisions, so each
      revision is tried at most once. */
  lemma EditsGoOutInOrder(s: State, es: seq<Event>, i: nat, j: nat)
    requires Valid(s) && i < j < |Run(s, es).edits|
    ensures
      var edits := Run(s, es).edits;
      edits[i].0 == edits[j].0 ==> edits[i].1 < edits[j].1
  {
    RunKeepsValid(s, es);
  }

  /** Whoever still waits, waits for the latest revision of its message; once the
      engine has stopped nobody waits. */
  lemma OnlyTheLatestWaits(s: State, es: seq<Event>, r: nat)
    requires Valid(s) && r in Run(s, es).deliveries && Run(s, es).deliveries[r].future == Waiting
    ensures
      var t := Run(s, es);
      && t.started
      && Lookup(t.pending, t.deliveries[r].key) == Some(r)
      && forall q :: q in t.deliveries && t.deliveries[q].key == t.deliveries[r].key ==> q <= r
  {
    RunKeepsValid(s, es);
    var t := Run(s, es);
    assert DeliveryOk(t, r);
    forall q | q in t.deliveries && t.deliveries[q].key == t.deliveries[r].key
      ensures q <= r
    {
      assert DeliveryOk(t, q);
    }
  }

  // --------------------------------------------------------------- outcomes

  /** The edit of revision `r` succeeds while `r` is still the pending one. */
  ghost predicate Performs(s: State, e: Event, r: nat) {
    && e.EditEnds? && e.result.Edited? && e.worker in s.workers && s.workers[e.worker].phase == Editing(r)
    && Lookup(s.pending, s.workers[e.worker].key) == Some(r)
  }

  predicate Performed(f: Future) { f.Done? && f.performed }

  ghost predicate SameOrAnswered(s: State, t: State, r: nat, performs: bool)
    requires r in s.deliveries
  {
    && r in t.deliveries
    && (s.deliveries[r].future != Waiting ==> t.deliveries[r].future == s.deliveries[r].future)
    && (Performed(t.deliveries[r].future) ==> Performed(s.deliveries[r].future) || performs)
  }

  lemma SubmitAnswers(s: State, e: Event, r: nat)
    requires Valid(s) && r in s.deliveries && e.Submit?
    ensures SameOrAnswered(s, SubmitStep(s, e), r, false)
  {
    assert DeliveryOk(s, r);
    hide Valid;
  }

  lemma EditAnswers(s: State, e: Event, r: nat)
    requires Valid(s) && r in s.deliveries && e.EditEnds? && e.worker in s.workers
    ensures SameOrAnswered(s, EditStep(s, e.worker, e.result), r, Performs(s, e, r))
  {
    assert WorkerOk(s, e.worker);
    hide Valid;
  }

  lemma StopAnswers(s: State, e: Event, r: nat)
    requires r in s.deliveries && (e.StopBegin? || e.StopCancel? || e.StopEnd?)
    ensures SameOrAnswered(s, StopStep(s, e), r, false)
  {
    hide Dispensable, PendingIds;
  }

  /** A worker that looks or is cancelled answers nothing. */
  lemma ExitAnswersNothing(s: State, w: nat)
    requires w in s.workers
    ensures Exit(s, w).deliveries == s.deliveries
  {
  }

  lemma AtAnswersNothing(s: State, w: nat, p: Phase)
    requires w in s.workers
    ensures At(s, w, p).deliveries == s.deliveries
  {
  }

  lemma LookAnswersNothing(s: State, w: nat, now: real, r: nat)
    requires w in s.workers && r in s.deliveries
    ensures r in LookStep(s, w, now).deliveries && LookStep(s, w, now).deliveries[r].future == s.deliveries[r].future
  {
    hide Exit, At;
    ExitAnswersNothing(s, w);
    AtAnswersNothing(s, w, Sleeping);
    var k := s.workers[w].key;
    if k in s.pending && s.pending[k] in s.deliveries {
      var q := s.pending[k];
      AtAnswersNothing(s.(deliveries := s.deliveries[q := s.deliveries[q].(attempts := s.deliveries[q].attempts + 1)],
                          edits := s.edits + [(k, q)]), w, Editing(q));
    }
  }

  lemma WorkersAnswerNothing(s: State, e: Event, r: nat)
    requires r in s.deliveries && (e.Look? || e.Wake? || e.Cancelled?) && e.worker in s.workers
    ensures r in Step(s, e).deliveries && Step(s, e).deliveries[r].future == s.deliveries[r].future
  {
    hide Exit, LookStep, EnsureWorker, SubmitStep, StopStep;
    ExitAnswersNothing(s, e.worker);
    if e.Look? { LookAnswersNothing(s, e.worker, e.now, r); }
  }

  lemma OthersAnswer(s: State, e: Event, r: nat)
    requires r in s.deliveries && !e.Submit? && !e.EditEnds? && !e.StopBegin? && !e.StopCancel? && !e.StopEnd?
    ensures SameOrAnswered(s, Step(s, e), r, false)
  {
    if (e.Look? || e.Wake? || e.Cancelled?) && e.worker in s.workers {
      WorkersAnswerNothing(s, e, r);
      hide Step;
    } else {
      hide LookStep, CancelledStep, EditStep, SubmitStep, StopStep, At;
    }
  }

  lemma StepAnswers(s: State, e: Event, r: nat)
    requires Valid(s) && r in s.deliveries
    ensures SameOrAnswered(s, Step(s, e), r, Performs(s, e, r))
  {
    hide Valid, SubmitStep, EditStep, StopStep, LookStep, CancelledStep, GiveUpStep, At;
    if e.Submit? { SubmitAnswers(s, e, r); }
    else if e.EditEnds? && e.worker in s.workers { EditAnswers(s, e, r); }
    else if e.StopBegin? || e.StopCancel? || e.StopEnd? { StopAnswers(s, e, r); }
    else if !e.EditEnds? { OthersAnswer(s, e, r); }
  }

  /** The point of the run at which `r` was performed. */
  ghost predicate PerformedAt(s: State, es: seq<Event>, r: nat, n: nat) {
    n < |es| && Performs(Run(s, es[..n]), es[n], r)
  }

  /** A future gets one outcome; it says "performed" only if the edit succeeded
      while the revision was still current. */
  lemma {:induction false} OutcomesAreFinal(s: State, es: seq<Event>, r: nat)
    requires Valid(s) && r in s.deliveries
    ensures
      var t := Run(s, es);
      && r in t.deliveries
      && (s.deliveries[r].future != Waiting ==> t.deliveries[r].future == s.deliveries[r].future)
      && (Performed(t.deliveries[r].future) ==> Performed(s.deliveries[r].future) || exists n: nat :: PerformedAt(s, es, r, n))
    decreases |es|
  {
    if es != [] {
      var e, rest := es[0], es[1..];
      var m := Step(s, e);
      StepAnswers(s, e, r);
      StepKeepsValid(s, e);
      OutcomesAreFinal(m, rest, r);
      if Performed(Run(m, rest).deliveries[r].future) {
        if Performed(s.deliveries[r].future) {
        } else if Performs(s, e, r) {
          assert es[..0] == [];
          assert PerformedAt(s, es, r, 0);
        } else {
          var n: nat :| PerformedAt(m, rest, r, n);
          assert es[..n + 1] == [e] + rest[..n];
          assert PerformedAt(s, es, r, n + 1);
        }
      }
    }
  }

  /** A payload equal to the last delivered one is answered at once, even while a
      different one is pending: that one stays pending and will still go out. */
  lemma CachedAnswerChangesNothing(s: State, e: Event)
    requires Valid(s) && e.Submit? && s.started && s.accepting
    ensures
      (Step(s, e).revision == s.revision <==>
         (e.key in s.pending && s.pending[e.key] in s.deliveries && s.deliveries[s.pending[e.key]].fingerprint == e.fingerprint)
         || Lookup(s.delivered, e.key) == Some(e.fingerprint))
    ensures Step(s, e).revision == s.revision ==> Step(s, e).pending == s.pending && Step(s, e).edits == s.edits
  {
    assert PendingOk(s, e.key);
    hide Valid;
  }

  /** `stop` ends with every future answered and nothing left running. */
  lemma StopAnswersEverything(s: State, es: seq<Event>, r: nat)
    requires Valid(s) && !Run(s, es).started && r in Run(s, es).deliveries
    ensures Run(s, es).deliveries[r].future != Waiting && Run(s, es).pending == map[] && Run(s, es).workers == map[]
  {
    RunKeepsValid(s, es);
    assert DeliveryOk(Run(s, es), r);
  }

  // -------------------------------------------------------- as an object

  datatype Answer = Refused | Future(revision: nat) | AlreadyDelivered(revision: nat)

  lemma SupersedeOneMore(ds: map<nat, Delivery>, ids: set<nat>, r: nat)
    ensures SupersedeIn(ds, ids + {r}) == FinishIn(SupersedeIn(ds, ids), r, Superseded, false)
  {
  }

  lemma IdsOneMore(pending: map<Key, nat>, ks: set<Key>, k: Key)
    requires k in pending
    ensures PendingIds(pending, ks + {k}) == PendingIds(pending, ks) + {pending[k]}
  {
  }

  lemma SubmitIs(s: State, e: Event)
    requires Valid(s) && e.Submit?
    ensures Valid(Step(s, e)) && Step(s, e) == SubmitStep(s, e)
    ensures e.key in s.pending ==> s.pending[e.key] in s.deliveries
  {
    assert PendingOk(s, e.key);
    StepKeepsValid(s, e);
    hide Valid, SubmitStep;
  }

  lemma LookIs(s: State, w: nat, now: real)
    requires Valid(s) && w in s.workers && s.workers[w].phase.Looking?
    ensures Valid(Step(s, Look(w, now)))
    ensures
      var k := s.workers[w].key;
      && (k in s.pending ==> s.pending[k] in s.deliveries)
      && Step(s, Look(w, now)) ==
         if s.stopping || k !in s.pending then Exit(s, w)
         else if s.deliveries[s.pending[k]].dueAt > now then At(s, w, Sleeping)
         else
           var r := s.pending[k];
           At(s.(deliveries := s.deliveries[r := s.deliveries[r].(attempts := s.deliveries[r].attempts + 1)],
                 edits := s.edits + [(k, r)]), w, Editing(r))
  {
    StepKeepsValid(s, Look(w, now));
    assert PendingOk(s, s.workers[w].key);
    hide Valid, Exit, At, PendingOk;
  }

  lemma EditIs(s: State, w: nat, result: EditResult)
    requires Valid(s) && w in s.workers && s.workers[w].phase.Editing?
    ensures Valid(Step(s, EditEnds(w, result)))
    ensures
      var k, r := s.workers[w].key, s.workers[w].phase.revision;
      && r in s.deliveries
      && Step(s, EditEnds(w, result)) ==
         At(if k in s.pending && s.pending[k] == r
            then s.(pending := s.pending - {k},
                    delivered := if result.Edited? then s.delivered[k := s.deliveries[r].fingerprint] else s.delivered,
                    deliveries := FinishIn(s.deliveries, r, VerdictOf(result), result.Edited?))
            else s, w, Looking)
  {
    assert WorkerOk(s, w);
    StepKeepsValid(s, EditEnds(w, result));
    hide Valid, FinishIn, VerdictOf;
  }

  lemma StopIs(s: State, e: Event)
    requires Valid(s) && (e.StopBegin? || e.StopCancel? || e.StopEnd?)
    ensures Valid(Step(s, e)) && Step(s, e) == StopStep(s, e)
  {
    StepKeepsValid(s, e);
    hide Valid, StopStep;
  }

  lemma StopBeginIs(s: State)
    requires Valid(s)
    ensures Valid(Step(s, StopBegin))
    ensures
      var w := Withdraw(s, Dispensable(s));
      && w == s.(pending := w.pending, deliveries := w.deliveries)
      && Step(s, StopBegin) == if !s.started || s.draining then s
                               else s.(pending := w.pending, deliveries := w.deliveries, accepting := false, draining := true)
  {
    StepKeepsValid(s, StopBegin);
    hide Valid, Dispensable;
  }

  lemma DispensableIs(s: State)
    ensures Dispensable(s) == set k | k in s.pending && (s.pending[k] in s.deliveries ==> !s.deliveries[s.pending[k]].terminal)
    ensures Dispensable(s) <= s.pending.Keys
  {
  }

  class TelegramDeliveryEngine {
    var deliveries: map<nat, Delivery>
    var pending: map<Key, nat>
    var delivered: map<Key, string>
    var tasks: map<Key, nat>
    var workers: map<nat, Worker>
    var nextTask: nat
    var revision: nat
    var started: bool
    var accepting: bool
    var stopping: bool
    var draining: bool
    ghost var edits: seq<(Key, nat)>

    ghost function View(): State
      reads this
    {
      State(deliveries, pending, delivered, tasks, workers, nextTask, revision, started, accepting, stopping, draining, edits)
    }

    ghost predicate IsValid()
      reads this
    {
      Valid(View())
    }

    constructor ()
      ensures IsValid() && View() == Initial
    {
      deliveries, pending, delivered, tasks, workers := map[], map[], map[], map[], map[];
      nextTask, revision, started, accepting, stopping, draining, edits := 0, 0, false, false, false, false, [];
      new;
      InitialOk();
    }

    method StartEngine()
      requires IsValid()
      modifies this
      ensures IsValid() && View() == Step(old(View()), Start)
    {
      StepKeepsValid(View(), Start);
      hide Valid;
      if started { return; }
      started, accepting, stopping := true, true, false;
    }

    /** `_finish`: an outcome for a future that has none. */
    method Finish(r: nat, v: Verdict, performed: bool)
      modifies this`deliveries
      ensures deliveries == FinishIn(old(deliveries), r, v, performed)
    {
      if r in deliveries && deliveries[r].future == Waiting {
        deliveries := deliveries[r := deliveries[r].(future := Done(v, deliveries[r].attempts, performed))];
      }
    }

    method StartWorker(k: Key)
      modifies this`tasks, this`workers, this`nextTask
      ensures View() == EnsureWorker(old(View()), k)
    {
      if k in tasks && tasks[k] in workers { return; }
      tasks := tasks[k := nextTask];
      workers := workers[nextTask := Worker(k, Looking)];
      nextTask := nextTask + 1;
    }

    method SubmitIntent(k: Key, fingerprint: string, terminal: bool, now: real) returns (answer: Answer)
      requires IsValid()
      modifies this
      ensures IsValid() && View() == Step(old(View()), Submit(k, fingerprint, terminal, now))
      ensures answer.Refused? <==> !old(started) || !old(accepting)
      ensures answer.Future? ==> Lookup(pending, k) == Some(answer.revision) && answer.revision in deliveries
                                 && deliveries[answer.revision].fingerprint == fingerprint
      ensures answer.AlreadyDelivered? ==> Lookup(delivered, k) == Some(fingerprint)
    {
      ghost var s := View();
      SubmitIs(s, Submit(k, fingerprint, terminal, now));
      hide Valid, EnsureWorker, FinishIn, Step;
      if !started || !accepting { return Refused; }
      if k in pending && deliveries[pending[k]].fingerprint == fingerprint {
        var r := pending[k];
        if terminal && !deliveries[r].terminal {
          deliveries := deliveries[r := deliveries[r].(terminal := true, dueAt := Min(deliveries[r].dueAt, now))];
        }
        return Future(r);
      }
      if k in delivered && delivered[k] == fingerprint { return AlreadyDelivered(revision); }
      Admit(k, fingerprint, terminal, now);
      return Future(revision);
    }

    /** A new revision replaces whatever is pending. */
    method Admit(k: Key, fingerprint: string, terminal: bool, now: real)
      requires Admits(View(), Submit(k, fingerprint, terminal, now))
      modifies this`deliveries, this`pending, this`revision, this`tasks, this`workers, this`nextTask
      ensures View() == SubmitStep(old(View()), Submit(k, fingerprint, terminal, now))
      ensures Lookup(pending, k) == Some(revision) && revision in deliveries && deliveries[revision].fingerprint == fingerprint
    {
      hide EnsureWorker, FinishIn;
      revision := revision + 1;
      if k in pending { Finish(pending[k], Superseded, false); }
      deliveries := deliveries[revision := Delivery(k, fingerprint, terminal, now, 0, Waiting)];
      pending := pending[k := revision];
      StartWorker(k);
    }

    method MovesTo(w: nat, p: Phase)
      requires w in workers
      modifies this`workers
      ensures View() == At(old(View()), w, p)
    {
      workers := workers[w := workers[w].(phase := p)];
    }

    /** The worker's loop from its head to its next suspension or its end. */
    method WorkerLooks(w: nat, now: real)
      requires IsValid() && w in workers && workers[w].phase.Looking?
      modifies this
      ensures IsValid() && View() == Step(old(View()), Look(w, now))
    {
      LookIs(View(), w, now);
      hide Valid, Exit, Step, At;
      var k := workers[w].key;
      if stopping || k !in pending {
        WorkerExits(w);
        return;
      }
      var r := pending[k];
      if deliveries[r].dueAt > now {
        MovesTo(w, Sleeping);
        return;
      }
      deliveries := deliveries[r := deliveries[r].(attempts := deliveries[r].attempts + 1)];
      edits := edits + [(k, r)];
      MovesTo(w, Editing(r));
    }

    /** The `finally` clause. */
    method WorkerExits(w: nat)
      requires w in workers
      modifies this`tasks, this`workers, this`nextTask
      ensures View() == Exit(old(View()), w)
    {
      var k := workers[w].key;
      workers := workers - {w};
      if k in tasks && tasks[k] == w { tasks := tasks - {k}; }
      if k in pending && !stopping { StartWorker(k); }
    }

    /** The edit returned or raised. */
    method WorkerEdited(w: nat, result: EditResult)
      requires IsValid() && w in workers && workers[w].phase.Editing?
      modifies this
      ensures IsValid() && View() == Step(old(View()), EditEnds(w, result))
    {
      EditIs(View(), w, result);
      hide Valid, FinishIn, Step, VerdictOf, At;
      var k, r := workers[w].key, workers[w].phase.revision;
      if k in pending && pending[k] == r { Settle(k, r, result); }
      MovesTo(w, Looking);
    }

    /** The current delivery leaves with the outcome of its edit. */
    method Settle(k: Key, r: nat, result: EditResult)
      requires r in deliveries
      modifies this`pending, this`delivered, this`deliveries
      ensures pending == old(pending) - {k}
      ensures delivered == if result.Edited? then old(delivered)[k := old(deliveries)[r].fingerprint] else old(delivered)
      ensures deliveries == FinishIn(old(deliveries), r, VerdictOf(result), result.Edited?)
    {
      hide FinishIn;
      pending := pending - {k};
      if result.Edited? {
        delivered := delivered[k := deliveries[r].fingerprint];
        Finish(r, Delivered, true);
      } else if result.Transport? {
        Finish(r, TransientFailure, false);
      } else {
        Finish(r, PermanentFailure, false);
      }
    }

    /** Pop and supersede these pending deliveries, one after the other. */
    method Supersede(ks: set<Key>)
      requires ks <= pending.Keys
      modifies this`pending, this`deliveries
      ensures View() == Withdraw(old(View()), ks)
    {
      ghost var p, ds := pending, deliveries;
      var todo := ks;
      ghost var done: set<Key> := {};
      assert PendingIds(p, {}) == {} && SupersedeIn(ds, {}) == ds;
      assert p - {} == p;
      hide SupersedeIn, FinishIn, PendingIds;
      while todo != {}
        invariant todo + done == ks && todo !! done
        invariant pending == p - done && deliveries == SupersedeIn(ds, PendingIds(p, done))
      {
        var k :| k in todo;
        IdsOneMore(p, done, k);
        SupersedeOneMore(ds, PendingIds(p, done), p[k]);
        Finish(pending[k], Superseded, false);
        pending := pending - {k};
        todo, done := todo - {k}, done + {k};
      }
      assert done == ks;
    }

    /** `stop` up to the wait for terminal deliveries. */
    method BeginStop()
      requires IsValid()
      modifies this
      ensures IsValid() && View() == Step(old(View()), StopBegin)
    {
      StopBeginIs(View());
      DispensableIs(View());
      hide Valid, Step, Withdraw, Dispensable;
      if !started || draining { return; }
      var ks := set k | k in pending && (pending[k] in deliveries ==> !deliveries[pending[k]].terminal);
      Supersede(ks);
      accepting := false;
      draining := true;
    }

    method CancelWorkers()
      requires IsValid()
      modifies this`stopping
      ensures IsValid() && View() == Step(old(View()), StopCancel)
    {
      StepKeepsValid(View(), StopCancel);
      hide Valid, Withdraw, Dispensable;
      if draining { stopping := true; }
    }

    /** After every worker task has ended. */
    method EndStop()
      requires IsValid() && draining && stopping && workers == map[]
      modifies this
      ensures IsValid() && View() == Step(old(View()), StopEnd)
      ensures forall r :: r in deliveries ==> deliveries[r].future != Waiting
    {
      ghost var s := View();
      StepKeepsValid(s, StopEnd);
      hide Valid, SupersedeIn, PendingIds, Dispensable;
      Supersede(pending.Keys);
      tasks, started, draining := map[], false, false;
      NobodyWaits(View());
    }
  }

  lemma NobodyWaits(s: State)
    requires Valid(s) && !s.started
    ensures forall r :: r in s.deliveries ==> s.deliveries[r].future != Waiting
  {
    forall r | r in s.deliveries
      ensures s.deliveries[r].future != Waiting
    {
      assert DeliveryOk(s, r);
    }
  }
}
