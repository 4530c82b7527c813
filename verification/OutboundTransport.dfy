/** Counting arguments about the outbound scheduler: the transport counter, the
    exclusive recycle, and the bound on waiting calls. */
module OutboundTransport {
  import opened Wrappers
  import opened OutboundModel
  import opened OutboundInvariants

  // ------------------------------------------------------------ invariant

  /** A worker whose transport operation is running. */
  ghost predicate Counted(s: State, w: Worker) {
    w in s.slots && (s.slots[w].phase.InFlight? || s.slots[w].phase.Leaving?)
  }

  ghost function Operations(s: State): set<Worker> {
    set w | w in s.slots && Counted(s, w)
  }

  ghost predicate Recycles(s: State, w: Worker) {
    && w in s.slots
    && (s.slots[w].phase.RecycleWait? || s.slots[w].phase.RecycleRun? || s.slots[w].phase.RecycleLeaving?)
  }

  /** The counter is the number of running operations; the flag is up exactly
      while one worker recycles; the transport is replaced only when idle. */
  ghost predicate TransportOk(s: State) {
    && s.inTransport == |Operations(s)|
    && (s.recycling <==> exists w :: Recycles(s, w))
    && (forall w1, w2 :: Recycles(s, w1) && Recycles(s, w2) ==> w1 == w2)
    && (forall w :: w in s.slots && s.slots[w].phase.RecycleRun? ==> s.inTransport == 0)
    && (forall w :: w in s.slots ==> !s.slots[w].phase.Settling?)
  }

  ghost function Busy(s: State): set<Worker> {
    set w | w in s.slots && w.generation == s.generation
  }

  const WORKERS := 8

  ghost predicate CapacityOk(s: State) {
    QueuedTotal(s.queues) + |Busy(s)| <= s.cfg.maxQueue + WORKERS
  }

  // --------------------------------------------------------------- frames

  /** Only worker `w` may have moved. */
  ghost predicate OnlyMoves(s: State, t: State, w: Worker) {
    forall v :: v != w ==> (v in t.slots <==> v in s.slots) && (v in s.slots ==> t.slots[v] == s.slots[v])
  }

  lemma CountChanges(s: State, t: State, w: Worker)
    requires OnlyMoves(s, t, w)
    ensures |Operations(t)| - (if Counted(t, w) then 1 else 0) == |Operations(s)| - (if Counted(s, w) then 1 else 0)
  {
    forall v | v != w ensures v in Operations(t) <==> v in Operations(s) { }
    assert w in Operations(t) <==> Counted(t, w);
    assert w in Operations(s) <==> Counted(s, w);
    hide *;
    assert Operations(t) - {w} == Operations(s) - {w};
    assert !Counted(t, w) ==> Operations(t) - {w} == Operations(t);
    assert !Counted(s, w) ==> Operations(s) - {w} == Operations(s);
  }

  lemma BusyChanges(s: State, t: State, w: Worker)
    requires OnlyMoves(s, t, w) && t.generation == s.generation
    ensures |Busy(t)| - (if w in Busy(t) then 1 else 0) == |Busy(s)| - (if w in Busy(s) then 1 else 0)
  {
    forall v | v != w ensures v in Busy(t) <==> v in Busy(s) { }
    hide OnlyMoves;
    assert Busy(t) - {w} == Busy(s) - {w};
    assert w !in Busy(t) ==> Busy(t) - {w} == Busy(t);
    assert w !in Busy(s) ==> Busy(s) - {w} == Busy(s);
  }

  ghost function One(b: bool): int { if b then 1 else 0 }

  /** What any event of worker `w` may do to the counters: it counts itself in
      and out, raises the flag only when it is down, lowers only its own, enters
      the recycle only when nothing runs, and creates no waiting call. */
  ghost predicate Effect(s: State, t: State, w: Worker) {
    && OnlyMoves(s, t, w) && t.cfg == s.cfg && t.generation == s.generation
    && t.inTransport - s.inTransport == One(Counted(t, w)) - One(Counted(s, w))
    && (Counted(t, w) && !Counted(s, w) ==> !s.recycling)
    && (|| (t.recycling == s.recycling && (Recycles(s, w) <==> Recycles(t, w)))
        || (!s.recycling && t.recycling && Recycles(t, w))
        || (Recycles(s, w) && !t.recycling && !Recycles(t, w)))
    && (w in t.slots && t.slots[w].phase.RecycleRun? ==> t.inTransport == 0)
    && (w in t.slots ==> !t.slots[w].phase.Settling?)
    && QueuedTotal(t.queues) + One(w in Busy(t)) <= QueuedTotal(s.queues) + One(w in Busy(s))
  }

  lemma EffectKeepsTransport(s: State, t: State, w: Worker)
    requires TransportOk(s) && Effect(s, t, w)
    ensures TransportOk(t)
  {
    CountChanges(s, t, w);
    assert forall v :: v != w ==> (Recycles(t, v) <==> Recycles(s, v));
    if v :| Recycles(s, v) && v != w { assert Recycles(t, v); }
    forall v | v in t.slots && t.slots[v].phase.RecycleRun? && v != w
      ensures t.inTransport == 0
    {
      assert Recycles(s, v);
      assert w in Operations(s) ==> |Operations(s)| > 0;
    }
  }

  lemma EffectKeepsCapacity(s: State, t: State, w: Worker)
    requires CapacityOk(s) && Effect(s, t, w)
    ensures CapacityOk(t)
  {
    BusyChanges(s, t, w);
  }

  // ------------------------------------------------------ how steps end

  /** Every way of finishing with a job: the worker is free, the transport
      untouched, and at most one queue entry appears, for a live worker only. */
  ghost predicate LetsGo(s: State, t: State, w: Worker) {
    && t.slots == s.slots - {w}
    && t.inTransport == s.inTransport && t.recycling == s.recycling
    && t.cfg == s.cfg && t.generation == s.generation
    && QueuedTotal(t.queues) <= QueuedTotal(s.queues) + (if w.generation == s.generation then 1 else 0)
  }

  lemma TotalAfter(q: Queues, c: TrafficClass, r: seq<nat>)
    ensures QueuedTotal(q[c := r]) == QueuedTotal(q) - |Of(q, c)| + |r|
  {
    match c { case CallbackAck => case Interactive => case Media => case Maintenance => }
  }

  lemma FinishLetsGo(s: State, w: Worker, f: Future)
    requires w in s.slots && s.slots[w].job in s.jobs
    ensures LetsGo(s, FinishJob(s, w, f), w)
  {
  }

  lemma RequeueLetsGo(s: State, w: Worker, due: real)
    requires w in s.slots && s.slots[w].job in s.jobs
    requires s.jobs[s.slots[w].job].generation == w.generation
    ensures LetsGo(s, Requeue(s, w, due), w)
  {
    var c := s.jobs[s.slots[w].job].cls;
    TotalAfter(s.queues, c, Of(s.queues, c) + [s.slots[w].job]);
  }

  lemma ExitLetsGo(s: State, w: Worker)
    requires w in s.slots && s.slots[w].job in s.jobs
    ensures LetsGo(s, Exit(s, w), w)
  {
  }

  lemma TailLetsGo(s: State, w: Worker, unsent: bool, now: real)
    requires w in s.slots && s.slots[w].job in s.jobs
    requires s.jobs[s.slots[w].job].generation == w.generation
    ensures LetsGo(s, NetworkTail(s, w, unsent, now), w)
  {
    hide FinishJob, Requeue, Exit, LetsGo;
    RequeueLetsGo(s, w, now + RetryDelay(s.jobs[s.slots[w].job].attempts));
    FinishLetsGo(s, w, Failed(Uncertain));
    FinishLetsGo(s, w, Failed(Transport));
    ExitLetsGo(s, w);
  }

  /** After an attempt the worker is free, or about to see whether to recycle. */
  lemma SettleEnds(s: State, w: Worker, o: Outcome, now: real)
    requires w in s.slots && s.slots[w].job in s.jobs
    requires s.jobs[s.slots[w].job].generation == w.generation
    ensures
      var t := Settle(s, w, o, now);
      || LetsGo(s, t, w)
      || (o.Network? && t == At(s.(failures := s.failures + 1), w, RecycleEnter(o.knownUnsent)))
  {
    hide FinishJob, Requeue, Exit, NetworkTail, LetsGo;
    ExitLetsGo(s, w);
    FinishLetsGo(s, w, Failed(Transport));
    match o
    case Delivered => FinishLetsGo(s.(failures := 0), w, Fulfilled); LetsGoAside(s, s.(failures := 0), Settle(s, w, o, now), w);
    case RetryAfter(d) => RequeueLetsGo(s, w, now + Max(0.0, Max(0.0, d) + 0.1));
    case Network(unsent) =>
      var s1 := s.(failures := s.failures + 1);
      TailLetsGo(s1, w, unsent, now);
      LetsGoAside(s, s1, NetworkTail(s1, w, unsent, now), w);
    case _ =>
  }

  lemma LetsGoAside(s: State, s1: State, t: State, w: Worker)
    requires s1 == s.(failures := s1.failures)
    ensures LetsGo(s1, t, w) ==> LetsGo(s, t, w)
  {
  }

  // ------------------------------------------------------- worker events

  lemma LetsGoIsEffect(s: State, m: State, t: State, w: Worker)
    requires w in s.slots && OnlyMoves(s, m, w) && w in m.slots && LetsGo(m, t, w)
    requires m.cfg == s.cfg && m.generation == s.generation && m.queues == s.queues
    requires m.inTransport - s.inTransport == -One(Counted(s, w))
    requires m.recycling == (s.recycling && !Recycles(s, w))
    ensures Effect(s, t, w)
  {
    assert forall v :: v != w ==> (v in t.slots <==> v in m.slots) && (v in m.slots ==> t.slots[v] == m.slots[v]);
  }

  lemma LeaveTransportMoves(s: State, w: Worker, o: Outcome)
    requires Closed(s) && w in s.slots && s.slots[w].phase.Leaving?
    ensures
      var m := LeaveTransport(s, w, o);
      && OnlyMoves(s, m, w) && w in m.slots && m.slots[w].job == s.slots[w].job
      && m.jobs.Keys == s.jobs.Keys && m.jobs[s.slots[w].job].generation == s.jobs[s.slots[w].job].generation
      && m.cfg == s.cfg && m.generation == s.generation && m.queues == s.queues
      && m.inTransport - s.inTransport == -One(Counted(s, w)) && m.recycling == s.recycling && !Recycles(s, w)
  {
  }

  /** The other end of an attempt: the worker goes to see about a recycle. */
  lemma ToRecycleIsEffect(s: State, w: Worker, o: Outcome, unsent: bool)
    requires Closed(s) && w in s.slots && s.slots[w].phase.Leaving?
    ensures
      var m := LeaveTransport(s, w, o);
      Effect(s, At(m.(failures := m.failures + 1), w, RecycleEnter(unsent)), w)
  {
    var m := LeaveTransport(s, w, o);
    var r := Stopped(s, s.slots[w].job).(inTransport := s.inTransport - 1, failures := s.failures + 1);
    assert At(m.(failures := m.failures + 1), w, RecycleEnter(unsent)) == At(r, w, RecycleEnter(unsent));
    hide Effect, At, LeaveTransport;
    MoveIsEffect(s, r, w, RecycleEnter(unsent));
  }

  lemma LeaveStep(s: State, e: Event)
    requires Closed(s) && e.Leave? && e.worker in s.slots && SlotOk(s, e.worker)
    ensures
      var p := s.slots[e.worker].phase;
      StepWorker(s, e) == if p.Leaving? then Settle(LeaveTransport(s, e.worker, p.outcome), e.worker, p.outcome, e.now) else s
    ensures s.jobs[s.slots[e.worker].job].generation == e.worker.generation
  {
    hide PhaseOk, Settle, LeaveTransport, Of;
  }

  lemma SettleEffect(s: State, w: Worker, now: real)
    requires Closed(s) && w in s.slots && s.slots[w].phase.Leaving?
    requires s.jobs[s.slots[w].job].generation == w.generation
    ensures
      var o := s.slots[w].phase.outcome;
      Effect(s, Settle(LeaveTransport(s, w, o), w, o, now), w)
  {
    var o := s.slots[w].phase.outcome;
    var m := LeaveTransport(s, w, o);
    LeaveTransportMoves(s, w, o);
    hide *;
    SettleEnds(m, w, o, now);
    if LetsGo(m, Settle(m, w, o, now), w) {
      LetsGoIsEffect(s, m, Settle(m, w, o, now), w);
    } else {
      ToRecycleIsEffect(s, w, o, o.knownUnsent);
    }
  }

  lemma LeaveEffect(s: State, e: Event)
    requires Closed(s) && TransportOk(s) && e.Leave? && e.worker in s.slots
    requires SlotOk(s, e.worker)
    ensures Effect(s, StepWorker(s, e), e.worker)
  {
    LeaveStep(s, e);
    hide *;
    NothingIsEffect(s, e.worker);
    if s.slots[e.worker].phase.Leaving? { SettleEffect(s, e.worker, e.now); }
  }

  ghost predicate CountedPhase(p: Phase) { p.InFlight? || p.Leaving? }

  ghost predicate RecyclePhase(p: Phase) { p.RecycleWait? || p.RecycleRun? || p.RecycleLeaving? }

  lemma MoveIsEffect(s: State, m: State, w: Worker, p: Phase)
    requires w in s.slots && m.slots == s.slots && m.queues == s.queues
    requires m.cfg == s.cfg && m.generation == s.generation && m.recycling == s.recycling
    requires m.inTransport - s.inTransport == One(CountedPhase(p)) - One(CountedPhase(s.slots[w].phase))
    requires CountedPhase(p) && !CountedPhase(s.slots[w].phase) ==> !s.recycling
    requires RecyclePhase(p) <==> RecyclePhase(s.slots[w].phase)
    requires !p.Settling? && !p.RecycleRun?
    ensures Effect(s, At(m, w, p), w)
  {
    assert w in Busy(At(m, w, p)) <==> w in Busy(s);
  }

  lemma NothingIsEffect(s: State, w: Worker)
    requires TransportOk(s)
    ensures Effect(s, s, w)
  {
  }

  lemma LogEffect(s: State, w: Worker, o: Outcome)
    requires Closed(s) && w in s.slots && s.slots[w].phase.InFlight?
    ensures Effect(s, LogOutcome(s, w, o), w)
  {
    var j := s.slots[w].job;
    MoveIsEffect(s, s.(jobs := s.jobs[j := s.jobs[j].(history := s.jobs[j].history + [o])]), w, Leaving(o));
  }

  lemma AbandonEffect(s: State, w: Worker)
    requires Closed(s) && w in s.slots && s.slots[w].phase.Waiting?
    ensures Effect(s, Exit(Stopped(s, s.slots[w].job), w), w)
  {
    var m := Stopped(s, s.slots[w].job);
    hide Exit, LetsGo, Effect;
    ExitLetsGo(m, w);
    LetsGoIsEffect(s, m, Exit(m, w), w);
  }

  lemma AbortEffect(s: State, e: Event)
    requires Closed(s) && TransportOk(s) && e.Abort? && e.worker in s.slots
    requires SlotOk(s, e.worker)
    ensures Effect(s, StepWorker(s, e), e.worker)
  {
    hide PhaseOk, Exit, LetsGo, Effect, TransportOk, At, LogOutcome, Stopped, Busy;
    var w := e.worker;
    var p := s.slots[w].phase;
    NothingIsEffect(s, w);
    if Stale(s, w) {
      if p.InFlight? {
        LogEffect(s, w, Interrupted);
      } else if p.RecycleWait? || p.RecycleRun? {
        MoveIsEffect(s, s, w, RecycleLeaving(p.knownUnsent, true));
      } else if p.Waiting? {
        AbandonEffect(s, w);
      } else if p.Pacing? || p.Ready? || p.RecycleEnter? {
        ExitLetsGo(s, w);
        LetsGoIsEffect(s, s, Exit(s, w), w);
      }
    }
  }

  lemma BeginEffect(s: State, w: Worker)
    requires Closed(s) && w in s.slots && (s.slots[w].phase.Pacing? || s.slots[w].phase.Ready?)
    ensures Effect(s, BeginAttempt(s, w), w)
  {
    var j := s.slots[w].job;
    MoveIsEffect(s, s.(jobs := s.jobs[j := s.jobs[j].(attempts := s.jobs[j].attempts + 1, started := true)]), w, Waiting);
  }

  lemma AttemptEffect(s: State, e: Event)
    requires Closed(s) && TransportOk(s)
    requires (e.Pass? || e.Begin? || e.Enter? || e.Finish?) && e.worker in s.slots
    requires SlotOk(s, e.worker)
    ensures Effect(s, StepWorker(s, e), e.worker)
  {
    hide PhaseOk, Exit, LetsGo, Effect, TransportOk, At, BeginAttempt, LogOutcome;
    var w := e.worker;
    var j := s.slots[w].job;
    var p := s.slots[w].phase;
    NothingIsEffect(s, w);
    if e.Pass? && p.Pacing? {
      if !Current(s, j) { ExitLetsGo(s, w); LetsGoIsEffect(s, s, Exit(s, w), w); }
      else if s.cfg.interval { MoveIsEffect(s, s, w, Ready); }
      else { BeginEffect(s, w); }
    } else if e.Begin? && p.Ready? {
      BeginEffect(s, w);
    } else if e.Enter? && p.Waiting? && !s.recycling {
      MoveIsEffect(s, s.(inTransport := s.inTransport + 1), w, InFlight);
    } else if e.Finish? && p.InFlight? && !e.outcome.Interrupted? {
      LogEffect(s, w, e.outcome);
    }
  }

  lemma RaiseEffect(s: State, w: Worker, unsent: bool)
    requires w in s.slots && s.slots[w].phase.RecycleEnter? && !s.recycling
    ensures Effect(s, At(s.(recycling := true), w, RecycleWait(unsent)), w)
  {
    assert w in Busy(At(s.(recycling := true), w, RecycleWait(unsent))) <==> w in Busy(s);
  }

  lemma RunEffect(s: State, w: Worker, unsent: bool)
    requires w in s.slots && s.slots[w].phase.RecycleWait? && s.inTransport == 0
    ensures Effect(s, At(s, w, RecycleRun(unsent)), w)
  {
    assert w in Busy(At(s, w, RecycleRun(unsent))) <==> w in Busy(s);
  }

  lemma RecycleEffect(s: State, e: Event)
    requires Closed(s) && TransportOk(s)
    requires (e.EnterRecycle? || e.RunRecycle? || e.FinishRecycle?) && e.worker in s.slots
    requires SlotOk(s, e.worker)
    ensures Effect(s, StepRecycle(s, e), e.worker)
  {
    var w := e.worker;
    var p := s.slots[w].phase;
    assert s.slots[w].job in s.jobs && s.jobs[s.slots[w].job].generation == w.generation;
    hide PhaseOk, NetworkTail, LetsGo, At, Effect, TransportOk, SlotOk, Closed, Busy;
    NothingIsEffect(s, w);
    if e.EnterRecycle? && p.RecycleEnter? {
      if s.recycling {
        TailLetsGo(s, w, p.knownUnsent, e.now);
        LetsGoIsEffect(s, s, NetworkTail(s, w, p.knownUnsent, e.now), w);
      } else {
        RaiseEffect(s, w, p.knownUnsent);
      }
    } else if e.RunRecycle? && p.RecycleWait? && s.inTransport == 0 {
      RunEffect(s, w, p.knownUnsent);
    } else if e.FinishRecycle? && p.RecycleRun? {
      MoveIsEffect(s, if Current(s, s.slots[w].job) then s.(failures := 0) else s, w, RecycleLeaving(p.knownUnsent, false));
    }
  }

  lemma LeaveRecycleEffect(s: State, e: Event)
    requires Closed(s) && TransportOk(s) && e.LeaveRecycle? && e.worker in s.slots
    requires SlotOk(s, e.worker)
    ensures Effect(s, StepRecycle(s, e), e.worker)
  {
    hide PhaseOk, NetworkTail, LetsGo, Exit;
    var w := e.worker;
    var p := s.slots[w].phase;
    var t := StepRecycle(s, e);
    if p.RecycleLeaving? {
      var m := s.(recycling := false);
      assert Recycles(s, w);
      if p.interrupted { ExitLetsGo(m, w); }
      else { TailLetsGo(m, w, p.knownUnsent, e.now); }
      LetsGoIsEffect(s, m, t, w);
    }
  }

  lemma TakeEffect(s: State, w: Worker, now: real)
    requires Closed(s) && TransportOk(s)
    ensures Effect(s, TakeJob(s, w, now), w)
  {
    hide TakeAt, Eligible;
    if w !in s.slots && Exists(s, w) {
      match FirstDue(s.jobs, Of(s.queues, w.cls), w.cls, w.generation, s.keys, now, 0)
      case None =>
      case Some(i) =>
        TakeAtEffect(s, w, i);
    }
  }

  lemma TakeAtEffect(s: State, w: Worker, i: nat)
    requires Closed(s) && w !in s.slots && Exists(s, w) && i < |Of(s.queues, w.cls)|
    ensures Effect(s, TakeAt(s, w, i), w)
  {
    hide TakeAt;
    var q := Of(s.queues, w.cls);
    TotalAfter(s.queues, w.cls, q[..i] + q[i + 1..]);
    TakeAtSlots(s, w, i);
  }

  lemma TakeAtSlots(s: State, w: Worker, i: nat)
    requires Closed(s) && w !in s.slots && i < |Of(s.queues, w.cls)|
    ensures
      var t := TakeAt(s, w, i);
      var q := Of(s.queues, w.cls);
      && t.queues == s.queues[w.cls := q[..i] + q[i + 1..]]
      && t.cfg == s.cfg && t.generation == s.generation && t.inTransport == s.inTransport && t.recycling == s.recycling
      && (t.slots == s.slots || t.slots == s.slots[w := Slot(q[i], Pacing)])
  {
    hide TakeAt, Closed, Of;
    TakeAtIs(s, w, i);
  }

  // ------------------------------------------------------------ capacity

  lemma SubsetSize<T>(a: set<T>, b: set<T>)
    requires a <= b
    ensures |a| <= |b|
  {
    if a != {} {
      var x :| x in a;
      SubsetSize(a - {x}, b - {x});
    }
  }

  lemma AtMostEightBusy(s: State)
    requires Conserved(s)
    ensures |Busy(s)| <= WORKERS
  {
    var g := s.generation;
    var all := {Worker(g, CallbackAck, 0), Worker(g, CallbackAck, 1), Worker(g, CallbackAck, 2), Worker(g, CallbackAck, 3),
                Worker(g, Interactive, 0), Worker(g, Interactive, 1), Worker(g, Media, 0), Worker(g, Maintenance, 0)};
    forall w | w in Busy(s)
      ensures w in all
    {
      assert SlotOk(s, w);
      assert w.slot < Concurrency(w.cls);
      match w.cls { case CallbackAck => case Interactive => case Media => case Maintenance => }
    }
    SubsetSize(Busy(s), all);
  }

  lemma AdmitTotal(s: State, e: Event)
    requires Conserved(s) && Closed(s) && e.Submit?
    ensures Admit(s, e) == s || QueuedTotal(Admit(s, e).queues) <= s.cfg.maxQueue
    ensures
      var t := Admit(s, e);
      t.slots == s.slots && t.inTransport == s.inTransport && t.recycling == s.recycling && t.generation == s.generation && t.cfg == s.cfg
  {
    var key := EffectiveKey(e.semantics, e.coalesce);
    if Accepts(s, key) {
      var s1 := Supersede(s, key);
      assert QueuedTotal(s1.queues) + ReplaceableTotal(s, key) <= QueuedTotal(s.queues);
      TotalAfter(s1.queues, e.cls, Of(s1.queues, e.cls) + [s.counter]);
    }
  }

  // ------------------------------------------------------------- results

  lemma SameTransport(s: State, t: State)
    requires TransportOk(s) && t.slots == s.slots && t.inTransport == s.inTransport && t.recycling == s.recycling
    ensures TransportOk(t)
  {
    assert Operations(t) == Operations(s);
    assert forall w :: Recycles(t, w) <==> Recycles(s, w);
  }

  lemma EverySlotOk(s: State, w: Worker)
    requires Conserved(s)
    ensures SlotOk(s, w)
  {
  }

  lemma NewGenerationIsIdle(s: State, t: State)
    requires Conserved(s) && t.slots == s.slots && t.generation > s.generation
    ensures Busy(t) == {}
  {
    forall w | w in s.slots
      ensures w !in Busy(t)
    {
      assert SlotOk(s, w);
    }
  }

  lemma WorkerEffect(s: State, e: Event)
    requires Conserved(s) && Closed(s) && TransportOk(s)
    requires !e.Submit? && !e.CallerCancels? && !e.Start? && !e.StopBegin? && !e.StopEnd?
    requires e.Take? || e.worker in s.slots
    ensures Effect(s, Step(s, e), e.worker)
  {
    hide StepWorker, StepRecycle, TakeJob, Effect, TransportOk, Conserved, Closed;
    EverySlotOk(s, e.worker);
    if e.Take? { TakeEffect(s, e.worker, e.now); }
    else if e.EnterRecycle? || e.RunRecycle? || e.FinishRecycle? { RecycleEffect(s, e); }
    else if e.LeaveRecycle? { LeaveRecycleEffect(s, e); }
    else if e.Leave? { LeaveEffect(s, e); }
    else if e.Abort? { AbortEffect(s, e); }
    else { AttemptEffect(s, e); }
  }

  /** Calls and stops move no worker. */
  lemma CallsKeepCounts(s: State, e: Event)
    requires Conserved(s) && Closed(s) && TransportOk(s) && CapacityOk(s) && (e.Submit? || e.CallerCancels?)
    ensures TransportOk(Step(s, e)) && CapacityOk(Step(s, e))
  {
    hide Admit, TransportOk, Conserved, Closed;
    var t := Step(s, e);
    if e.Submit? {
      AtMostEightBusy(s);
      AdmitTotal(s, e);
    }
    SameTransport(s, t);
    assert Busy(t) == Busy(s);
  }

  lemma LifecycleMoves(s: State, e: Event)
    requires e.Start? || e.StopBegin? || e.StopEnd?
    ensures
      var t := StepLifecycle(s, e);
      && t.slots == s.slots && t.inTransport == s.inTransport && t.recycling == s.recycling && t.cfg == s.cfg
      && t.generation >= s.generation && QueuedTotal(t.queues) <= QueuedTotal(s.queues)
  {
    hide FailWhere, HeldIds, QueuedIds;
  }

  lemma LifecycleKeepsCounts(s: State, e: Event)
    requires Conserved(s) && Closed(s) && TransportOk(s) && CapacityOk(s) && (e.Start? || e.StopBegin? || e.StopEnd?)
    ensures TransportOk(Step(s, e)) && CapacityOk(Step(s, e))
  {
    var t := Step(s, e);
    assert t == StepLifecycle(s, e);
    hide TransportOk, Conserved, Closed, StepLifecycle, Step, QueuedTotal;
    LifecycleMoves(s, e);
    SameTransport(s, t);
    if t.generation != s.generation { NewGenerationIsIdle(s, t); } else { assert Busy(t) == Busy(s); }
  }

  /** Every event keeps the transport and capacity parts of the invariant. */
  lemma KeepCounts(s: State, e: Event)
    requires Conserved(s) && Closed(s) && TransportOk(s) && CapacityOk(s)
    ensures TransportOk(Step(s, e)) && CapacityOk(Step(s, e))
  {
    if e.Submit? || e.CallerCancels? {
      hide *;
      CallsKeepCounts(s, e);
    } else if e.Start? || e.StopBegin? || e.StopEnd? {
      hide *;
      LifecycleKeepsCounts(s, e);
    } else if e.Take? || e.worker in s.slots {
      hide *;
      WorkerEffect(s, e);
      EffectKeepsTransport(s, Step(s, e), e.worker);
      EffectKeepsCapacity(s, Step(s, e), e.worker);
    } else {
      hide TransportOk, CapacityOk;
    }
  }
}
