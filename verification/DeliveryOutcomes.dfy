/** Which outcome a delivery gets, one cause each. */
module DeliveryOutcomes {
  import opened Wrappers
  import opened DeliveryModel
  import opened DeliveryInvariants
  import opened DeliveryEngine

  // ----------------------------------------------------------------- causes

  ghost predicate Waits(s: State, r: nat) { r in s.deliveries && s.deliveries[r].future == Waiting }

  /** The edit of revision `r` ends like this while `r` is the pending one. */
  ghost predicate EndsAs(s: State, e: Event, r: nat, result: EditResult)
    requires r in s.deliveries
  {
    && e.EditEnds? && e.result == result && Lookup(s.pending, s.deliveries[r].key) == Some(r)
    && e.worker in s.workers && s.workers[e.worker].phase == Editing(r)
  }

  /** A newer payload of its message is admitted: neither the pending one nor the
      one delivered last. */
  ghost predicate Outdated(s: State, e: Event, r: nat)
    requires r in s.deliveries
  {
    && e.Submit? && s.started && s.accepting && Lookup(s.pending, e.key) == Some(r)
    && e.fingerprint != s.deliveries[r].fingerprint && Lookup(s.delivered, e.key) != Some(e.fingerprint)
  }

  /** A stop withdraws it: at once unless it is terminal, and at the latest when all
      workers are gone. */
  ghost predicate Withdrawn(s: State, e: Event, r: nat)
    requires r in s.deliveries
  {
    || (e.StopBegin? && s.started && !s.draining && !s.deliveries[r].terminal)
    || (e.StopEnd? && s.draining && s.stopping && s.workers == map[])
  }

  /** The outcome an event gives to a delivery that waits. */
  ghost function Told(s: State, e: Event, r: nat): Future
    requires r in s.deliveries
  {
    if EndsAs(s, e, r, Edited) then Done(Delivered, 1, true)
    else if EndsAs(s, e, r, Transport) then Done(TransientFailure, 1, false)
    else if EndsAs(s, e, r, Rejected) || EndsAs(s, e, r, Unexpected) then Done(PermanentFailure, 1, false)
    else if Outdated(s, e, r) || Withdrawn(s, e, r) then Done(Superseded, s.deliveries[r].attempts, false)
    else if e == GiveUp(r) then GivenUp
    else Waiting
  }

  // -------------------------------------------------------------- one event

  lemma EditTells(s: State, e: Event, r: nat)
    requires Valid(s) && Waits(s, r) && e.EditEnds?
    ensures r in Step(s, e).deliveries && Step(s, e).deliveries[r].future == Told(s, e, r)
  {
    assert DeliveryOk(s, r) && WorkerOk(s, e.worker);
    hide Valid;
  }

  lemma SubmitTells(s: State, e: Event, r: nat)
    requires Valid(s) && Waits(s, r) && e.Submit?
    ensures r in Step(s, e).deliveries && Step(s, e).deliveries[r].future == Told(s, e, r)
  {
    assert DeliveryOk(s, r) && PendingOk(s, e.key) && DeliveryOk(s, s.revision + 1);
    hide Valid;
  }

  lemma StopTells(s: State, e: Event, r: nat)
    requires Valid(s) && Waits(s, r) && (e.StopBegin? || e.StopCancel? || e.StopEnd?)
    ensures r in Step(s, e).deliveries && Step(s, e).deliveries[r].future == Told(s, e, r)
  {
    assert DeliveryOk(s, r);
    var k := s.deliveries[r].key;
    forall x | x in s.pending ensures s.pending[x] == r ==> x == k { assert PendingOk(s, x); }
    hide Valid;
  }

  lemma GiveUpTells(s: State, q: nat, r: nat)
    requires Waits(s, r)
    ensures r in GiveUpStep(s, q).deliveries && GiveUpStep(s, q).deliveries[r].future == if q == r then GivenUp else Waiting
  {
    assert q in s.deliveries && s.deliveries[q].future == Waiting ==>
        GiveUpStep(s, q).deliveries == s.deliveries[q := s.deliveries[q].(future := GivenUp)];
    hide GiveUpStep;
  }

  lemma OthersTell(s: State, e: Event, r: nat)
    requires Waits(s, r) && !e.Submit? && !e.EditEnds? && !e.StopBegin? && !e.StopCancel? && !e.StopEnd?
    ensures r in Step(s, e).deliveries && Step(s, e).deliveries[r].future == Told(s, e, r)
  {
    if e.GiveUp? {
      GiveUpTells(s, e.revision, r);
      hide GiveUpStep, Waits;
    } else if !e.Start? && e.worker in s.workers {
      WorkersAnswerNothing(s, e, r);
      hide Step;
    } else {
      hide LookStep, CancelledStep, EditStep, SubmitStep, StopStep, At;
    }
  }

  lemma EventTells(s: State, e: Event, r: nat)
    requires Valid(s) && Waits(s, r)
    ensures r in Step(s, e).deliveries && Step(s, e).deliveries[r].future == Told(s, e, r)
  {
    hide *;
    if e.Submit? { SubmitTells(s, e, r); }
    else if e.EditEnds? { EditTells(s, e, r); }
    else if e.StopBegin? || e.StopCancel? || e.StopEnd? { StopTells(s, e, r); }
    else { OthersTell(s, e, r); }
  }

  /** The causes exclude each other. */
  lemma OnlyOneCause(s: State, e: Event, r: nat, a: EditResult, b: EditResult)
    requires r in s.deliveries && EndsAs(s, e, r, a)
    ensures EndsAs(s, e, r, b) ==> a == b
    ensures !Outdated(s, e, r) && !Withdrawn(s, e, r) && e != GiveUp(r)
  {
  }

  lemma GivingUpIsNoOutcome(s: State, e: Event, r: nat)
    requires r in s.deliveries && e == GiveUp(r)
    ensures !Outdated(s, e, r) && !Withdrawn(s, e, r)
  {
  }

  /** A delivery that waits gets each outcome for exactly one reason: delivered if
      and only if its edit succeeded while it was current, a transient failure if
      and only if the transport failed then, a permanent one if and only if Telegram
      refused it or something unexpected happened, superseded if and only if a newer
      payload was admitted or a stop withdrew it. */
  lemma OneCauseForEachOutcome(s: State, e: Event, r: nat)
    requires Valid(s) && Waits(s, r)
    ensures r in Step(s, e).deliveries
    ensures
      var f := Step(s, e).deliveries[r].future;
      && (f.Done? && f.verdict == Delivered <==> EndsAs(s, e, r, Edited))
      && (f.Done? && f.verdict == TransientFailure <==> EndsAs(s, e, r, Transport))
      && (f.Done? && f.verdict == PermanentFailure <==> EndsAs(s, e, r, Rejected) || EndsAs(s, e, r, Unexpected))
      && (f.Done? && f.verdict == Superseded <==> Outdated(s, e, r) || Withdrawn(s, e, r))
      && (f.GivenUp? <==> e == GiveUp(r))
      && (f.Done? ==> (f.performed <==> f.verdict == Delivered))
  {
    EventTells(s, e, r);
    forall a, b | EndsAs(s, e, r, a)
      ensures EndsAs(s, e, r, b) ==> a == b
      ensures !Outdated(s, e, r) && !Withdrawn(s, e, r) && e != GiveUp(r)
    {
      OnlyOneCause(s, e, r, a, b);
    }
    if e == GiveUp(r) { GivingUpIsNoOutcome(s, e, r); }
    hide Valid, Step, EndsAs, Outdated, Withdrawn;
  }

  // ------------------------------------------------------------------- runs

  /** The point of the run at which `r`, still waiting, is told this outcome. */
  ghost predicate ToldAt(s: State, es: seq<Event>, r: nat, n: nat, f: Future) {
    n < |es| && f != Waiting && Waits(Run(s, es[..n]), r) && Told(Run(s, es[..n]), es[n], r) == f
  }

  lemma Later(s: State, es: seq<Event>, r: nat, n: nat, f: Future)
    requires es != []
    ensures ToldAt(s, es, r, n + 1, f) <==> ToldAt(Step(s, es[0]), es[1..], r, n, f)
  {
    if n + 1 < |es| {
      assert es[..n + 1][0] == es[0] && es[..n + 1][1..] == es[1..][..n];
    }
    hide Told, Step, Waits;
  }

  /** Over any run: a delivery that waits ends up with an outcome if and only if some
      event of the run told it that one, and then it is the outcome for good. */
  lemma {:induction false} OutcomesHaveOneCause(s: State, es: seq<Event>, r: nat, f: Future)
    requires Valid(s) && Waits(s, r) && f != Waiting
    ensures r in Run(s, es).deliveries
    ensures Run(s, es).deliveries[r].future == f <==> exists n: nat :: ToldAt(s, es, r, n, f)
    decreases |es|
  {
    if es != [] {
      var m := Step(s, es[0]);
      EventTells(s, es[0], r);
      StepKeepsValid(s, es[0]);
      assert es[..0] == [] && Run(s, es[..0]) == s;
      forall n: nat ensures ToldAt(s, es, r, n + 1, f) <==> ToldAt(m, es[1..], r, n, f) { Later(s, es, r, n, f); }
      hide Step, Valid, Told;
      if Waits(m, r) {
        OutcomesHaveOneCause(m, es[1..], r, f);
        Shifted(s, es, r, f);
      } else {
        OutcomesAreFinal(m, es[1..], r);
        forall n: nat ensures !ToldAt(m, es[1..], r, n, f) { NoSecondOutcome(m, es[1..], r, n); }
        Shifted(s, es, r, f);
      }
    }
  }

  lemma Shifted(s: State, es: seq<Event>, r: nat, f: Future)
    requires es != [] && forall n: nat :: ToldAt(s, es, r, n + 1, f) <==> ToldAt(Step(s, es[0]), es[1..], r, n, f)
    ensures (exists n: nat :: ToldAt(s, es, r, n, f)) <==>
              ToldAt(s, es, r, 0, f) || exists n: nat :: ToldAt(Step(s, es[0]), es[1..], r, n, f)
  {
    var m := Step(s, es[0]);
    hide ToldAt, Step;
    if exists n: nat :: ToldAt(m, es[1..], r, n, f) {
      var n: nat :| ToldAt(m, es[1..], r, n, f);
      assert ToldAt(s, es, r, n + 1, f);
    }
    if exists n: nat :: ToldAt(s, es, r, n, f) {
      var n: nat :| ToldAt(s, es, r, n, f);
      if n > 0 {
        var p: nat := n - 1;
        assert ToldAt(s, es, r, p + 1, f) <==> ToldAt(m, es[1..], r, p, f);
      }
    }
  }

  /** What has its outcome does not wait again. */
  lemma NoSecondOutcome(s: State, es: seq<Event>, r: nat, n: nat)
    requires Valid(s) && r in s.deliveries && !Waits(s, r)
    ensures n < |es| ==> !Waits(Run(s, es[..n]), r)
  {
    if n < |es| { OutcomesAreFinal(s, es[..n], r); }
    hide Run, Valid;
  }

  // ---------------------------------------------------- admission and trying

  ghost function PendingOf(s: State, k: Key): Option<Delivery> {
    if k in s.pending && s.pending[k] in s.deliveries then Some(s.deliveries[s.pending[k]]) else None
  }

  ghost predicate SamePayload(s: State, e: Event)
    requires e.Submit?
  {
    PendingOf(s, e.key).Some? && PendingOf(s, e.key).value.fingerprint == e.fingerprint
  }

  lemma EnsuredIs(s: State, k: Key)
    ensures EnsureWorker(s, k) == s.(tasks := EnsureWorker(s, k).tasks, workers := EnsureWorker(s, k).workers,
                                     nextTask := EnsureWorker(s, k).nextTask)
  {
    hide HasWorker;
  }

  lemma EnsuredHas(s: State, k: Key)
    ensures
      var t := EnsureWorker(s, k);
      HasWorker(t, k) && t.deliveries == s.deliveries && t.pending == s.pending && t.revision == s.revision
      && t.edits == s.edits && t.delivered == s.delivered
  {
    var t := EnsureWorker(s, k);
    EnsuredIs(s, k);
    assert t == s || (t.tasks[k] == s.nextTask && k in t.tasks && s.nextTask in t.workers);
    hide EnsureWorker;
  }

  /** A submission is admitted if and only if it is accepted and says something new;
      it is the next revision then, waits, and has a worker. */
  lemma AdmittedExactlyWhenNew(s: State, e: Event)
    requires Valid(s) && e.Submit?
    ensures
      var t := Step(s, e);
      && (t.revision == s.revision + 1 <==>
            s.started && s.accepting && !SamePayload(s, e) && Lookup(s.delivered, e.key) != Some(e.fingerprint))
      && (t.revision == s.revision + 1 ==>
            && Lookup(t.deliveries, t.revision) == Some(Delivery(e.key, e.fingerprint, e.terminal, e.now, 0, Waiting))
            && Lookup(t.pending, e.key) == Some(t.revision) && HasWorker(t, e.key))
  {
    assert PendingOk(s, e.key);
    if Admits(s, e) {
      AdmitIs(s, e);
      var m := if e.key in s.pending
               then s.(pending := s.pending - {e.key}, deliveries := FinishIn(s.deliveries, s.pending[e.key], Superseded, false))
               else s;
      EnsuredHas(Fresh(m, e.key, Delivery(e.key, e.fingerprint, e.terminal, e.now, 0, Waiting)), e.key);
      hide SubmitStep, EnsureWorker, HasWorker;
    }
    hide Valid;
  }

  /** The same payload joins the one that is pending; if it is the first terminal one
      the delivery becomes terminal and is due no later than now. */
  lemma SamePayloadJoins(s: State, e: Event)
    requires e.Submit? && s.started && s.accepting && SamePayload(s, e)
    ensures
      var d := PendingOf(s, e.key).value;
      var due := if d.dueAt < e.now then d.dueAt else e.now;
      && Step(s, e).pending == s.pending
      && PendingOf(Step(s, e), e.key) == Some(if e.terminal && !d.terminal then d.(terminal := true, dueAt := due) else d)
  {
    hide EnsureWorker;
  }

  /** The worker of this event, if it looks for something to do. */
  ghost function LooksFor(s: State, e: Event): Option<Key> {
    if e.Look? && e.worker in s.workers && s.workers[e.worker].phase.Looking? then Some(s.workers[e.worker].key) else None
  }

  /** The edits begun grow exactly when a worker looks, what is pending for its
      message is due and no stop is under way; what it begins is the pending
      revision. */
  lemma TriedExactlyWhenDue(s: State, e: Event)
    requires Valid(s)
    ensures
      var t := Step(s, e);
      match LooksFor(s, e)
      case None => t.edits == s.edits
      case Some(k) =>
        if k in s.pending && !s.stopping && PendingOf(s, k).Some? && PendingOf(s, k).value.dueAt <= e.now
        then t.edits == s.edits + [(k, s.pending[k])] && Lookup(t.workers, e.worker) == Some(Worker(k, Editing(s.pending[k])))
        else t.edits == s.edits
  {
    if LooksFor(s, e).Some? {
      assert PendingOk(s, s.workers[e.worker].key);
      hide Valid, Exit, EnsureWorker;
      ExitBeginsNothing(s, e.worker);
    } else {
      hide Valid, LookStep;
      OthersBeginNothing(s, e);
    }
  }

  lemma ExitBeginsNothing(s: State, w: nat)
    requires w in s.workers
    ensures Exit(s, w).edits == s.edits && Exit(s, w).delivered == s.delivered
  {
    var k := s.workers[w].key;
    EnsuredHas(s.(workers := s.workers - {w}, tasks := if k in s.tasks && s.tasks[k] == w then s.tasks - {k} else s.tasks), k);
    hide EnsureWorker, HasWorker;
  }

  lemma SubmitBeginsNothing(s: State, e: Event)
    requires e.Submit?
    ensures SubmitStep(s, e).edits == s.edits && SubmitStep(s, e).delivered == s.delivered
  {
    if Admits(s, e) {
      AdmitIs(s, e);
      var m := if e.key in s.pending
               then s.(pending := s.pending - {e.key}, deliveries := FinishIn(s.deliveries, s.pending[e.key], Superseded, false))
               else s;
      EnsuredHas(Fresh(m, e.key, Delivery(e.key, e.fingerprint, e.terminal, e.now, 0, Waiting)), e.key);
      hide SubmitStep, EnsureWorker, FinishIn, HasWorker;
    }
  }

  lemma OthersBeginNothing(s: State, e: Event)
    requires LooksFor(s, e) == None
    ensures Step(s, e).edits == s.edits
  {
    if e.Submit? {
      SubmitBeginsNothing(s, e);
      hide SubmitStep;
    } else if e.Look? || e.Cancelled? {
      if e.worker in s.workers { ExitBeginsNothing(s, e.worker); }
      hide Exit, EnsureWorker;
    } else {
      hide Exit, SubmitStep, SupersedeIn, PendingIds, Dispensable;
    }
  }

  /** The revision a worker of this message has just edited with success. */
  ghost function Succeeded(s: State, e: Event, k: Key): Option<nat> {
    if e.EditEnds? && e.result.Edited? && e.worker in s.workers && s.workers[e.worker].key == k
       && s.workers[e.worker].phase.Editing?
    then Some(s.workers[e.worker].phase.revision) else None
  }

  /** What counts as delivered changes exactly when an edit succeeds that is current. */
  lemma DeliveredExactlyWhenEdited(s: State, e: Event, k: Key)
    requires Valid(s)
    ensures
      Lookup(Step(s, e).delivered, k) ==
        if Succeeded(s, e, k).Some? && Lookup(s.pending, k) == Succeeded(s, e, k) && PendingOf(s, k).Some?
        then Some(PendingOf(s, k).value.fingerprint) else Lookup(s.delivered, k)
  {
    if e.EditEnds? {
      assert WorkerOk(s, e.worker) && PendingOk(s, k);
      hide Valid, FinishIn;
    } else {
      hide Valid;
      OthersDeliverNothing(s, e);
    }
  }

  lemma OthersDeliverNothing(s: State, e: Event)
    requires !e.EditEnds?
    ensures Step(s, e).delivered == s.delivered
  {
    if e.Submit? {
      SubmitBeginsNothing(s, e);
      hide SubmitStep;
    } else if e.Look? || e.Cancelled? {
      if e.worker in s.workers { ExitBeginsNothing(s, e.worker); }
      hide Exit, EnsureWorker;
    } else {
      hide Exit, SubmitStep, SupersedeIn, PendingIds, Dispensable;
    }
  }

  // ------------------------------------------------------ workers and stages

  /** Where this event takes worker `w`: nowhere, out, or to another phase. */
  ghost predicate Moves(s: State, t: State, e: Event, w: nat)
    requires w in s.workers
  {
    var k, p := s.workers[w].key, s.workers[w].phase;
    var mine := (e.Look? || e.Wake? || e.EditEnds? || e.Cancelled?) && e.worker == w;
    && (w !in t.workers <==>
          mine && ((e.Look? && p.Looking? && (s.stopping || k !in s.pending)) || (e.Cancelled? && s.stopping && s.draining)))
    && (mine && e.Wake? && p.Sleeping? ==> Lookup(t.workers, w) == Some(Worker(k, Looking)))
    && (mine && e.Look? && p.Looking? && !s.stopping && PendingOf(s, k).Some? && PendingOf(s, k).value.dueAt > e.now ==>
          Lookup(t.workers, w) == Some(Worker(k, Sleeping)))
    && (mine && e.EditEnds? && p.Editing? ==> Lookup(t.workers, w) == Some(Worker(k, Looking)))
    && (!mine ==> Lookup(t.workers, w) == Some(s.workers[w]))
  }

  lemma LookMoves(s: State, e: Event, w: nat)
    requires e.Look? && e.worker in s.workers && w in s.workers && e.worker < s.nextTask && w < s.nextTask
    ensures Moves(s, LookStep(s, e.worker, e.now), e, w)
  {
    ExitMoves(s, e.worker, w);
    hide Exit;
  }

  lemma CancelledMoves(s: State, e: Event, w: nat)
    requires e.Cancelled? && e.worker in s.workers && w in s.workers && e.worker < s.nextTask && w < s.nextTask
    ensures Moves(s, CancelledStep(s, e.worker, e.ran), e, w)
  {
    ExitMoves(s, e.worker, w);
    hide Exit;
  }

  lemma EditMoves(s: State, e: Event, w: nat)
    requires e.EditEnds? && e.worker in s.workers && w in s.workers
    ensures Moves(s, EditStep(s, e.worker, e.result), e, w)
  {
    EditFrame(s, e.worker, e.result);
    hide EditStep;
  }

  /** The end of an edit sets the worker looking again and changes no stage. */
  lemma EditFrame(s: State, w: nat, result: EditResult)
    requires w in s.workers
    ensures SameStages(s, EditStep(s, w, result))
    ensures
      var v := s.workers[w];
      EditStep(s, w, result).workers == if v.phase.Editing? then s.workers[w := Worker(v.key, Looking)] else s.workers
  {
    var v := s.workers[w];
    if v.phase.Editing? {
      var s1 := At(s, w, Looking);
      assert s1 == s.(workers := s.workers[w := Worker(v.key, Looking)]);
      var r := v.phase.revision;
      hide FinishIn, VerdictOf, At;
      if v.key in s.pending && s.pending[v.key] == r && r in s.deliveries { }
    }
  }

  lemma StopMoves(s: State, e: Event, w: nat)
    requires (e.StopBegin? || e.StopCancel? || e.StopEnd?) && w in s.workers
    ensures Moves(s, StopStep(s, e), e, w)
  {
    hide SupersedeIn, PendingIds, Dispensable;
  }

  /** A worker asleep wakes, one whose edit ended looks again, one that finds nothing
      to do or a stop leaves, one cancelled by a stop leaves; nothing else moves it
      but a new attempt. */
  lemma WorkersMoveExactly(s: State, e: Event, w: nat)
    requires Valid(s) && w in s.workers
    ensures Moves(s, Step(s, e), e, w)
  {
    assert WorkerOk(s, w);
    if !e.Start? && !e.Submit? && !e.GiveUp? && !e.StopBegin? && !e.StopCancel? && !e.StopEnd? { assert WorkerOk(s, e.worker); }
    hide Valid, SubmitStep, LookStep, EditStep, CancelledStep, StopStep;
    if e.Submit? { SubmitMoves(s, e, w); }
    else if e.StopBegin? || e.StopCancel? || e.StopEnd? { StopMoves(s, e, w); }
    else if e.Start? || e.GiveUp? { }
    else if e.worker in s.workers {
      if e.Look? { LookMoves(s, e, w); }
      else if e.EditEnds? { EditMoves(s, e, w); }
      else if e.Cancelled? { CancelledMoves(s, e, w); }
    }
  }

  lemma ExitMoves(s: State, v: nat, w: nat)
    requires v in s.workers && w in s.workers && v < s.nextTask && w < s.nextTask
    ensures v == w ==> w !in Exit(s, v).workers
    ensures v != w ==> Lookup(Exit(s, v).workers, w) == Some(s.workers[w])
  {
    var k := s.workers[v].key;
    var m := s.(workers := s.workers - {v}, tasks := if k in s.tasks && s.tasks[k] == v then s.tasks - {k} else s.tasks);
    EnsuredMoves(m, k, w);
    hide EnsureWorker;
  }

  lemma EnsuredMoves(s: State, k: Key, w: nat)
    requires w < s.nextTask
    ensures Lookup(EnsureWorker(s, k).workers, w) == Lookup(s.workers, w)
  {
    hide HasWorker;
  }

  lemma SubmitMoves(s: State, e: Event, w: nat)
    requires e.Submit? && w in s.workers && w < s.nextTask
    ensures Lookup(SubmitStep(s, e).workers, w) == Some(s.workers[w])
  {
    hide FinishIn;
  }

  /** A start accepts work, the first part of a stop does not any more, and the last
      part, once all workers are gone, ends the run with nothing pending. */
  lemma StagesFollowTheCalls(s: State, e: Event)
    requires Valid(s)
    ensures
      var t := Step(s, e);
      var ends := e.StopEnd? && s.draining && s.stopping && s.workers == map[];
      && (t.started <==> e.Start? || (s.started && !ends))
      && (t.accepting <==> (e.Start? && !s.started) || (s.accepting && !(e.StopBegin? && s.started && !s.draining)))
      && (t.stopping <==> (s.stopping || (e.StopCancel? && s.draining)) && !(e.Start? && !s.started))
      && (t.draining <==> (s.draining || (e.StopBegin? && s.started)) && !ends)
      && (ends ==> t.pending == map[])
  {
    assert LifeOk(s);
    hide Valid;
    if e.Start? || e.StopBegin? || e.StopCancel? || e.StopEnd? {
      hide SupersedeIn, PendingIds, Dispensable;
    } else {
      OthersKeepStage(s, e);
      hide Step;
    }
  }

  lemma LookStages(s: State, w: nat, now: real)
    requires w in s.workers
    ensures SameStages(s, LookStep(s, w, now))
  {
    ExitStages(s, w);
    hide Exit;
  }

  lemma CancelledStages(s: State, w: nat, ran: bool)
    requires w in s.workers
    ensures SameStages(s, CancelledStep(s, w, ran))
  {
    ExitStages(s, w);
    hide Exit;
  }

  lemma OthersKeepStage(s: State, e: Event)
    requires !e.Start? && !e.StopBegin? && !e.StopCancel? && !e.StopEnd?
    ensures SameStages(s, Step(s, e))
  {
    hide SubmitStep, LookStep, EditStep, CancelledStep;
    if e.Submit? {
      SubmitStages(s, e);
    } else if e.GiveUp? {
    } else if e.worker in s.workers {
      if e.Look? { LookStages(s, e.worker, e.now); }
      else if e.EditEnds? { EditFrame(s, e.worker, e.result); }
      else if e.Cancelled? { CancelledStages(s, e.worker, e.ran); }
    }
  }

  ghost predicate SameStages(s: State, t: State) {
    t.started == s.started && t.accepting == s.accepting && t.stopping == s.stopping && t.draining == s.draining
  }

  lemma ExitStages(s: State, w: nat)
    requires w in s.workers
    ensures SameStages(s, Exit(s, w))
  {
    var k := s.workers[w].key;
    EnsuredStages(s.(workers := s.workers - {w}, tasks := if k in s.tasks && s.tasks[k] == w then s.tasks - {k} else s.tasks), k);
    hide EnsureWorker;
  }

  lemma EnsuredStages(s: State, k: Key)
    ensures SameStages(s, EnsureWorker(s, k))
  {
    hide HasWorker;
  }

  lemma SubmitStages(s: State, e: Event)
    requires e.Submit?
    ensures SameStages(s, SubmitStep(s, e))
  {
    hide FinishIn;
  }
}
