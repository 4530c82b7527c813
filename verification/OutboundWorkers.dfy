/** When workers and chats are free again: nothing stays busy or locked for good. */
module OutboundWorkers {
  import opened Wrappers
  import opened OutboundModel
  import opened OutboundInvariants
  import opened OutboundTransport
  import opened OutboundOrdering
  import opened OutboundResults
  import opened OutboundAnswers

  // ------------------------------------------------------------- life cycle

  /** A start opens a generation unless one runs; a stop ends it at once; the second
      half of a stop unlocks all chats. */
  lemma LifeCycle(s: State)
    requires Inv(s)
    ensures
      var t := Step(s, Start);
      t.running && !t.stopping && (if s.running then t == s else t.generation == s.generation + 1 && t.jobs == s.jobs)
    ensures
      var t := Step(s, StopBegin);
      !t.running && t.stopping && t.generation == s.generation + 1 && t.slots == s.slots
      && t.stops == s.stops + (if s.running then 1 else 0)
    ensures s.stops > 0 ==> Step(s, StopEnd).keys == {} && Step(s, StopEnd).stops == s.stops - 1
  {
    assert LifeOk(s);
    hide Conserved, TransportOk, CapacityOk, Closed, HeldIds, QueuedIds;
  }

  /** While a generation runs it has four workers for callback answers, two for
      interactive calls, and one each for media and maintenance. */
  lemma WorkersOfAGeneration(s: State, w: Worker)
    requires s.running && w.generation == s.generation
    ensures Exists(s, w) <==>
              w.slot < match w.cls case CallbackAck => 4 case Interactive => 2 case Media => 1 case Maintenance => 1
  {
  }

  // ---------------------------------------------------------- busy workers

  /** The event is for worker `w`, busy in this phase with a call that has its
      answer or is of an ended generation. */
  ghost predicate Idles(s: State, e: Event, w: Worker) {
    WorkerEvent(e) && e.worker == w && w in s.slots && s.slots[w].job in s.jobs && !Awaits(s, s.slots[w].job)
  }

  lemma FinishFrees(m: State, w: Worker, f: Future)
    requires w in m.slots && m.slots[w].job in m.jobs
    ensures w !in Exit(m, w).slots && w !in FinishJob(m, w, f).slots
  {
  }

  lemma RequeueFrees(m: State, w: Worker, due: real)
    requires w in m.slots && m.slots[w].job in m.jobs
    ensures w !in Requeue(m, w, due).slots
  {
    hide Of;
  }

  lemma TailFrees(m: State, w: Worker, unsent: bool, now: real)
    requires w in m.slots && m.slots[w].job in m.jobs
    ensures w !in NetworkTail(m, w, unsent, now).slots
  {
    hide Exit, FinishJob, Requeue, RetryDelay, Current;
    FinishFrees(m, w, Failed(Uncertain));
    FinishFrees(m, w, Failed(Transport));
    RequeueFrees(m, w, now + RetryDelay(m.jobs[m.slots[w].job].attempts));
  }

  /** A worker whose call has its answer lets go of it at the next point where it
      looks: after pacing, when the attempt has left the transport, and when a
      recycle is over or another worker's goes on. */
  lemma AnsweredFreesWorker(s: State, e: Event, w: Worker)
    requires Inv(s) && Idles(s, e, w)
    ensures
      var p := s.slots[w].phase;
      (|| (e.Pass? && p.Pacing?) || (e.Leave? && p.Leaving?) || (e.EnterRecycle? && p.RecycleEnter? && s.recycling)
       || (e.LeaveRecycle? && p.RecycleLeaving?)) ==> w !in Step(s, e).slots
  {
    var p := s.slots[w].phase;
    assert Closed(s);
    hide Inv, NetworkTail, Exit, Settle;
    if e.Pass? {
      FinishFrees(s, w, Failed(Stopping));
    } else if e.Leave? && p.Leaving? {
      LeavingFrees(s, w, e.now);
    } else if e.EnterRecycle? && p.RecycleEnter? {
      TailFrees(s, w, p.knownUnsent, e.now);
    } else if e.LeaveRecycle? && p.RecycleLeaving? {
      var m := s.(recycling := false);
      FinishFrees(m, w, Failed(Stopping));
      TailFrees(m, w, p.knownUnsent, e.now);
    }
    hide Closed, FinishJob;
  }

  lemma LeavingFrees(s: State, w: Worker, now: real)
    requires Closed(s) && w in s.slots && s.slots[w].phase.Leaving? && s.slots[w].job in s.jobs
    requires s.jobs[s.slots[w].job].future != Pending
    ensures w !in Settle(LeaveTransport(s, w, s.slots[w].phase.outcome), w, s.slots[w].phase.outcome, now).slots
  {
    hide Closed;
  }

  /** An answer or a repeat frees the worker too. */
  lemma SettledFreesWorker(s: State, e: Event, j: nat, w: Worker)
    requires Inv(s) && Awaits(s, j) && HeldBy(s, j, w) && WorkerEvent(e) && e.worker == w
    requires EndedBy(s, e, j).Some? || ErrorSettled(s, e, j).Some?
    ensures w in Step(s, e).slots <==>
              EndedBy(s, e, j).Some? && EndedBy(s, e, j).value.Network? && s.failures > 0 && s.cfg.canRecycle
  {
    HeldIsCurrent(s, w);
    if e.Leave? {
      LeaveFrees(s, w, e.now);
      hide Inv, Step;
    } else {
      hide Inv;
      TailFrees(s.(recycling := false), w, ErrorSettled(s, e, j).value, e.now);
      TailFrees(s, w, ErrorSettled(s, e, j).value, e.now);
      hide NetworkTail;
    }
  }

  lemma LeaveFrees(s: State, w: Worker, now: real)
    requires Inv(s) && w in s.slots && s.slots[w].phase.Leaving? && Awaits(s, s.slots[w].job)
    ensures
      var o := s.slots[w].phase.outcome;
      w in Step(s, Leave(w, now)).slots <==> o.Network? && s.failures > 0 && s.cfg.canRecycle
  {
    var o := s.slots[w].phase.outcome;
    LeavingIs(s, w, o);
    hide Inv, LeaveTransport;
    SettleFrees(LeaveTransport(s, w, o), w, o, now);
    hide Settle;
  }

  lemma SettleFrees(m: State, w: Worker, o: Outcome, now: real)
    requires w in m.slots && m.slots[w].job in m.jobs && Current(m, m.slots[w].job)
    ensures w in Settle(m, w, o, now).slots <==> o.Network? && m.failures > 0 && m.cfg.canRecycle
  {
    if o.Network? { TailFrees(m.(failures := m.failures + 1), w, o.knownUnsent, now); }
    hide NetworkTail, Current;
    assert Current(m, m.slots[w].job);
  }

  /** A worker cancelled by a stop: it is free, unless its operation is still in the
      transport or it has a recycle to wind up, and then that is recorded. */
  lemma AbortEndsWork(s: State, w: Worker)
    requires Inv(s) && w in s.slots && (w.generation != s.generation || s.stopping)
    ensures
      var t := Step(s, Abort(w));
      match s.slots[w].phase
      case InFlight => Lookup(t.slots, w) == Some(Slot(s.slots[w].job, Leaving(Interrupted)))
      case Leaving(_) => t == s
      case RecycleWait(u) => Lookup(t.slots, w) == Some(Slot(s.slots[w].job, RecycleLeaving(u, true)))
      case RecycleRun(u) => Lookup(t.slots, w) == Some(Slot(s.slots[w].job, RecycleLeaving(u, true)))
      case RecycleLeaving(_, _) => t == s
      case _ => w !in t.slots
  {
    assert SlotOk(s, w);
    hide Conserved, CapacityOk, Closed;
    assert !s.slots[w].phase.Settling?;
  }

  // -------------------------------------------------------------- the chats

  /** A chat of the live generation is locked only while a live worker serves it. */
  ghost predicate LocksOwned(s: State) {
    KeysDated(s) && forall chat :: (s.generation, chat) in s.keys ==> exists w :: Talks(s, w) && ChatOf(s, w) == chat
  }

  lemma TouchKeepsLocks(s: State, t: State, w: Worker)
    requires Conserved(s) && w in s.slots && s.slots[w].job in s.jobs && Touch(s, t, w) && LocksOwned(s)
    ensures LocksOwned(t)
  {
    var j := s.slots[w].job;
    assert SlotOk(s, w);
    forall chat | (t.generation, chat) in t.keys
      ensures exists v :: Talks(t, v) && ChatOf(t, v) == chat
    {
      var v :| Talks(s, v) && ChatOf(s, v) == chat;
      assert SlotOk(s, v);
      assert v == w && w !in t.slots ==> (s.generation, chat) in KeyOf(s.jobs[j]);
      assert Talks(t, v) && ChatOf(t, v) == chat;
    }
    hide QueueOk, JobOk, PhaseOk, SlotOk, OneHolder;
  }

  lemma SameServersKeepLocks(s: State, t: State)
    requires LocksOwned(s) && t.slots == s.slots && t.generation == s.generation && t.keys <= s.keys
    requires forall w :: w in s.slots ==> s.slots[w].job in s.jobs
    requires forall j :: j in s.jobs ==> j in t.jobs && t.jobs[j].chat == s.jobs[j].chat
    ensures LocksOwned(t)
  {
    forall chat | (t.generation, chat) in t.keys
      ensures exists v :: Talks(t, v) && ChatOf(t, v) == chat
    {
      var v :| Talks(s, v) && ChatOf(s, v) == chat;
      assert Talks(t, v) && ChatOf(t, v) == chat;
    }
  }

  /** With a new generation no chat is locked. */
  lemma NewGenerationUnlocks(s: State, t: State)
    requires KeysDated(s) && t.generation == s.generation + 1 && t.keys <= s.keys
    ensures LocksOwned(t)
  {
  }

  lemma TakeKeepsLocks(s: State, w: Worker, i: nat)
    requires Conserved(s) && Closed(s) && LocksOwned(s) && w !in s.slots && Exists(s, w) && i < |Of(s.queues, w.cls)|
    requires Eligible(s.jobs, Of(s.queues, w.cls), w.cls, w.generation, s.keys, i)
    ensures LocksOwned(TakeAt(s, w, i))
  {
    var t := TakeAt(s, w, i);
    var j := Of(s.queues, w.cls)[i];
    QueuesOk(s);
    QueuedNotHeld(s, w.cls, j);
    assert QueuedOk(s, w.cls, j);
    TakeAtIs(s, w, i);
    TakeAtKeyIs(s, w, i);
    hide TakeAt, Conserved, Closed, Eligible, Of, QueuedOk;
    TakenLocks(s, t, w, j);
  }

  /** The key a take leaves behind: none that was not there, unless the worker now
      has the call or is of an older generation. */
  lemma TakeAtKeyIs(s: State, w: Worker, i: nat)
    requires Closed(s) && i < |Of(s.queues, w.cls)| && w !in s.slots
    requires Of(s.queues, w.cls)[i] in s.jobs && s.jobs[Of(s.queues, w.cls)[i]].cls == w.cls
    ensures
      var t := TakeAt(s, w, i);
      var j := Of(s.queues, w.cls)[i];
      t.keys <= s.keys + (if Keyed(w.cls) && (w in t.slots || w.generation != s.generation || s.stopping)
                          then {(w.generation, s.jobs[j].chat)} else {})
  {
    hide Closed, Exists, Of;
  }

  lemma TakenLocks(s: State, t: State, w: Worker, j: nat)
    requires LocksOwned(s) && j in s.jobs && w !in s.slots && w.generation <= s.generation
    requires s.stopping ==> w.generation < s.generation
    requires t.generation == s.generation && j in t.jobs && t.jobs == s.jobs[j := t.jobs[j]] && t.jobs[j].chat == s.jobs[j].chat
    requires t.slots == s.slots || t.slots == s.slots[w := Slot(j, Pacing)]
    requires t.keys <= s.keys + (if Keyed(w.cls) && (w in t.slots || w.generation != s.generation || s.stopping)
                                 then {(w.generation, s.jobs[j].chat)} else {})
    requires forall v :: v in s.slots ==> s.slots[v].job in s.jobs && s.slots[v].job != j
    ensures LocksOwned(t)
  {
    forall chat | (t.generation, chat) in t.keys
      ensures exists v :: Talks(t, v) && ChatOf(t, v) == chat
    {
      if (s.generation, chat) in s.keys {
        var v :| Talks(s, v) && ChatOf(s, v) == chat;
        assert Talks(t, v) && ChatOf(t, v) == chat;
      } else {
        assert Talks(t, w) && ChatOf(t, w) == chat;
      }
    }
  }

  lemma SubmitKeepsLocks(s: State, e: Event)
    requires Inv(s) && LocksOwned(s) && e.Submit?
    ensures LocksOwned(Step(s, e))
  {
    FreshNumber(s);
    assert forall w :: w in s.slots ==> s.slots[w].job in s.jobs;
    SubmitStep(s, e);
    hide Inv, Step, LocksOwned, Admit, Resendable;
    AdmitRecords(s, e);
    SameServersKeepLocks(s, Admit(s, e));
  }

  lemma LifecycleKeepsLocks(s: State, e: Event)
    requires Inv(s) && LocksOwned(s) && (e.Start? || e.StopBegin? || e.StopEnd? || e.CallerCancels?)
    ensures LocksOwned(Step(s, e))
  {
    var t := Step(s, e);
    assert forall w :: w in s.slots ==> s.slots[w].job in s.jobs;
    hide Conserved, TransportOk, CapacityOk;
    if e.CallerCancels? {
      hide LocksOwned;
      SameServersKeepLocks(s, t);
    } else {
      LifecycleServers(s, e);
      LifecycleKeys(s, e);
      if t.generation == s.generation + 1 {
        NewGenerationUnlocks(s, t);
      } else {
        hide LocksOwned, StepLifecycle;
        SameServersKeepLocks(s, t);
      }
    }
  }

  lemma LifecycleKeys(s: State, e: Event)
    requires e.Start? || e.StopBegin? || e.StopEnd?
    ensures
      var t := StepLifecycle(s, e);
      t.keys <= s.keys && (t.generation == s.generation || t.generation == s.generation + 1)
  {
    hide HeldIds, QueuedIds, Emptied;
  }

  lemma KeepLocks(s: State, e: Event)
    requires Inv(s) && LocksOwned(s)
    ensures LocksOwned(Step(s, e))
  {
    if e.Submit? {
      hide *;
      SubmitKeepsLocks(s, e);
    } else if e.Take? {
      hide Conserved, TransportOk, CapacityOk, LocksOwned, TakeAt, Eligible;
      if e.worker !in s.slots && Exists(s, e.worker) {
        var r := FirstDue(s.jobs, Of(s.queues, e.worker.cls), e.worker.cls, e.worker.generation, s.keys, e.now, 0);
        if r.Some? { TakeKeepsLocks(s, e.worker, r.value); }
      }
    } else if !WorkerEvent(e) {
      hide *;
      LifecycleKeepsLocks(s, e);
    } else if e.worker in s.slots {
      hide Conserved, TransportOk, CapacityOk, LocksOwned, Step, Touch;
      EventTouches(s, e);
      TouchKeepsLocks(s, Step(s, e), e.worker);
    }
  }

  /** In every run, restarts inside a grace wait included, a chat is locked only while
      a live worker serves a call of it. */
  lemma {:induction false} NoChatStaysLocked(s: State, es: seq<Event>)
    requires Inv(s) && LocksOwned(s)
    ensures LocksOwned(Run(s, es))
    decreases |es|
  {
    if es != [] {
      KeepInv(s, es[0]);
      KeepLocks(s, es[0]);
      hide Inv, LocksOwned, Step;
      NoChatStaysLocked(Step(s, es[0]), es[1..]);
    }
  }

  lemma InitialLocks(cfg: Config)
    ensures LocksOwned(Initial(cfg))
  {
  }

  /** A queued call can be taken by the live generation unless a live worker serves
      its chat or an older one of its chat is queued: it is never kept back for good
      by anything else. */
  lemma KeptBackOnlyByItsChat(s: State, c: TrafficClass, i: nat)
    requires Inv(s) && LocksOwned(s) && i < |Of(s.queues, c)|
    ensures
      var q := Of(s.queues, c);
      Eligible(s.jobs, q, c, s.generation, s.keys, i)
      || (exists w :: Talks(s, w) && ChatOf(s, w) == s.jobs[q[i]].chat)
      || (exists k :: 0 <= k < |q| && s.jobs[q[k]].chat == s.jobs[q[i]].chat && q[k] < q[i])
  {
    hide Conserved, TransportOk, CapacityOk, Of, Talks;
  }
}
