/** Who may touch what: the frame of a busy worker, and from it the order and
    the exclusion of interactive calls to one chat. */
module OutboundOrdering {
  import opened Wrappers
  import opened OutboundModel
  import opened OutboundInvariants
  import opened OutboundTransport

  // ------------------------------------------------- frame of one worker

  /** The same call, with the same answer if it had one; only a call that may
      be repeated has a further attempt. */
  ghost predicate SameCall(a: Job, b: Job) {
    && b.cls == a.cls && b.chat == a.chat && b.semantics == a.semantics && b.coalesce == a.coalesce
    && (a.future != Pending ==> b.future == a.future)
    && ((b.attempts == a.attempts && b.history == a.history) || Resendable(a))
  }

  ghost function KeyOf(job: Job): set<(nat, string)> {
    if Keyed(job.cls) then {(job.generation, job.chat)} else {}
  }

  /** A busy worker changes only its own job's record, keeps its key while it
      stays busy and gives up exactly that key when it lets go. */
  ghost predicate Touch(s: State, t: State, w: Worker)
    requires w in s.slots && s.slots[w].job in s.jobs
  {
    var j := s.slots[w].job;
    && OnlyMoves(s, t, w)
    && j in t.jobs && t.jobs == s.jobs[j := t.jobs[j]] && SameCall(s.jobs[j], t.jobs[j])
    && t.jobs[j].generation == s.jobs[j].generation && t.generation == s.generation
    && (w in t.slots ==> t.slots[w].job == j && t.keys == s.keys)
    && (w !in t.slots ==> t.keys == s.keys - KeyOf(s.jobs[j]))
    && t.counter == s.counter && t.running == s.running && t.stopping == s.stopping && t.stops == s.stops
  }

  lemma TouchThen(s: State, m: State, t: State, w: Worker)
    requires w in s.slots && s.slots[w].job in s.jobs && Touch(s, m, w)
    requires w in m.slots && Touch(m, t, w)
    ensures Touch(s, t, w)
  {
  }

  lemma RecordTouches(s: State, w: Worker, job: Job, failures: nat, inTransport: int, recycling: bool)
    requires w in s.slots && s.slots[w].job in s.jobs
    requires SameCall(s.jobs[s.slots[w].job], job) && job.generation == s.jobs[s.slots[w].job].generation
    ensures Touch(s, s.(jobs := s.jobs[s.slots[w].job := job], failures := failures,
                        inTransport := inTransport, recycling := recycling), w)
  {
  }

  lemma AsideTouches(s: State, w: Worker, failures: nat, inTransport: int, recycling: bool)
    requires w in s.slots && s.slots[w].job in s.jobs
    ensures Touch(s, s.(failures := failures, inTransport := inTransport, recycling := recycling), w)
  {
    SameJob(s, w);
  }

  lemma AtTouches(s: State, w: Worker, p: Phase)
    requires w in s.slots && s.slots[w].job in s.jobs
    ensures Touch(s, At(s, w, p), w)
  {
    SameJob(s, w);
  }

  lemma ExitTouches(s: State, w: Worker)
    requires w in s.slots && s.slots[w].job in s.jobs
    ensures Touch(s, Exit(s, w), w)
  {
    SameJob(s, w);
    assert s.keys - {} == s.keys;
  }

  lemma FinishTouches(s: State, w: Worker, f: Future)
    requires w in s.slots && s.slots[w].job in s.jobs
    ensures Touch(s, FinishJob(s, w, f), w)
  {
    hide Exit, Touch;
    var j := s.slots[w].job;
    var m := if Current(s, j) then Resolve(s, j, f) else s;
    ExitTouches(m, w);
    if Current(s, j) {
      RecordTouches(s, w, s.jobs[j].(future := f), s.failures, s.inTransport, s.recycling);
      TouchThen(s, m, Exit(m, w), w);
    }
  }

  lemma RequeueTouches(s: State, w: Worker, due: real)
    requires w in s.slots && s.slots[w].job in s.jobs
    ensures Touch(s, Requeue(s, w, due), w)
  {
    hide Exit;
    var j := s.slots[w].job;
    ExitTouches(s, w);
    if Current(s, j) {
      var m := s.(jobs := s.jobs[j := s.jobs[j].(dueAt := due)],
                  queues := s.queues[s.jobs[j].cls := Of(s.queues, s.jobs[j].cls) + [j]]);
      ExitTouches(m, w);
      TouchThen(s, m, Exit(m, w), w);
    }
  }

  lemma TailTouches(s: State, w: Worker, unsent: bool, now: real)
    requires w in s.slots && s.slots[w].job in s.jobs
    ensures Touch(s, NetworkTail(s, w, unsent, now), w)
  {
    hide Exit, FinishJob, Requeue, Touch;
    ExitTouches(s, w);
    FinishTouches(s, w, Failed(Uncertain));
    FinishTouches(s, w, Failed(Transport));
    RequeueTouches(s, w, now + RetryDelay(s.jobs[s.slots[w].job].attempts));
  }

  lemma SettleTouches(s: State, w: Worker, o: Outcome, now: real)
    requires w in s.slots && s.slots[w].job in s.jobs
    ensures Touch(s, Settle(s, w, o, now), w)
  {
    hide Exit, FinishJob, Requeue, NetworkTail, At, Touch;
    var t := Settle(s, w, o, now);
    ExitTouches(s, w);
    FinishTouches(s, w, Failed(Transport));
    match o
    case Delivered =>
      AsideTouches(s, w, 0, s.inTransport, s.recycling);
      FinishTouches(s.(failures := 0), w, Fulfilled);
      if Current(s, s.slots[w].job) { TouchThen(s, s.(failures := 0), t, w); }
    case RetryAfter(d) => RequeueTouches(s, w, now + Max(0.0, Max(0.0, d) + 0.1));
    case Network(unsent) =>
      var m := s.(failures := s.failures + 1);
      AsideTouches(s, w, m.failures, s.inTransport, s.recycling);
      TailTouches(m, w, unsent, now);
      AtTouches(m, w, RecycleEnter(unsent));
      if Current(s, s.slots[w].job) { TouchThen(s, m, t, w); }
    case _ =>
  }

  lemma LeaveTouches(s: State, w: Worker, o: Outcome, now: real)
    requires w in s.slots && s.slots[w].job in s.jobs
    ensures Touch(s, Settle(LeaveTransport(s, w, o), w, o, now), w)
  {
    hide Settle, Touch;
    var j := s.slots[w].job;
    var m := s.(jobs := s.jobs[j := s.jobs[j].(started := false)], inTransport := s.inTransport - 1);
    RecordTouches(s, w, s.jobs[j].(started := false), s.failures, s.inTransport - 1, s.recycling);
    AtTouches(m, w, Settling(o));
    TouchThen(s, m, At(m, w, Settling(o)), w);
    var n := LeaveTransport(s, w, o);
    SettleTouches(n, w, o, now);
    TouchThen(s, n, Settle(n, w, o, now), w);
  }

  /** Recording something about its job and moving on. */
  lemma RecordAtTouches(s: State, w: Worker, job: Job, failures: nat, inTransport: int, recycling: bool, p: Phase)
    requires w in s.slots && s.slots[w].job in s.jobs
    requires SameCall(s.jobs[s.slots[w].job], job) && job.generation == s.jobs[s.slots[w].job].generation
    ensures Touch(s, At(s.(jobs := s.jobs[s.slots[w].job := job], failures := failures,
                           inTransport := inTransport, recycling := recycling), w, p), w)
  {
    hide Touch, At;
    var m := s.(jobs := s.jobs[s.slots[w].job := job], failures := failures, inTransport := inTransport, recycling := recycling);
    RecordTouches(s, w, job, failures, inTransport, recycling);
    AtTouches(m, w, p);
    TouchThen(s, m, At(m, w, p), w);
  }

  lemma WorkerTouches(s: State, e: Event)
    requires Closed(s)
    requires (e.Pass? || e.Begin? || e.Enter? || e.Finish? || e.Leave? || e.Abort?) && e.worker in s.slots
    requires SlotOk(s, e.worker)
    ensures Touch(s, StepWorker(s, e), e.worker)
  {
    hide Touch, At, Exit, Settle, LeaveTransport;
    var w := e.worker;
    var j := s.slots[w].job;
    var job := s.jobs[j];
    var p := s.slots[w].phase;
    SameJob(s, w);
    ExitTouches(s, w);
    AsideTouches(s, w, s.failures, s.inTransport, s.recycling);
    if e.Leave? {
      if p.Leaving? { LeaveTouches(s, w, p.outcome, e.now); }
    } else if e.Abort? {
      AbortTouches(s, w);
    } else if e.Enter? {
      RecordAtTouches(s, w, job, s.failures, s.inTransport + 1, s.recycling, InFlight);
    } else if e.Finish? {
      if p.InFlight? {
        RecordAtTouches(s, w, job.(history := job.history + [e.outcome]), s.failures, s.inTransport, s.recycling,
                        Leaving(e.outcome));
      }
    } else if p.Pacing? || p.Ready? {
      AtTouches(s, w, Ready);
      RecordAtTouches(s, w, job.(attempts := job.attempts + 1, started := true), s.failures, s.inTransport, s.recycling, Waiting);
    }
  }

  lemma AbortTouches(s: State, w: Worker)
    requires Closed(s) && w in s.slots
    requires SlotOk(s, w)
    ensures Touch(s, AbortWorker(s, w), w)
  {
    hide Touch, At, Exit;
    var j := s.slots[w].job;
    var job := s.jobs[j];
    AsideTouches(s, w, s.failures, s.inTransport, s.recycling);
    match s.slots[w].phase
    case InFlight =>
      RecordAtTouches(s, w, job.(history := job.history + [Interrupted]), s.failures, s.inTransport, s.recycling, Leaving(Interrupted));
    case Waiting =>
      var m := s.(jobs := s.jobs[j := job.(started := false)]);
      RecordTouches(s, w, job.(started := false), s.failures, s.inTransport, s.recycling);
      ExitTouches(m, w);
      TouchThen(s, m, Exit(m, w), w);
    case RecycleWait(u) => AtTouches(s, w, RecycleLeaving(u, true));
    case RecycleRun(u) => AtTouches(s, w, RecycleLeaving(u, true));
    case _ => ExitTouches(s, w);
  }

  lemma RecycleTouches(s: State, e: Event)
    requires Closed(s)
    requires (e.EnterRecycle? || e.RunRecycle? || e.FinishRecycle? || e.LeaveRecycle?) && e.worker in s.slots
    ensures Touch(s, StepRecycle(s, e), e.worker)
  {
    hide Touch, At, Exit, NetworkTail;
    var w := e.worker;
    var p := s.slots[w].phase;
    SameJob(s, w);
    AsideTouches(s, w, s.failures, s.inTransport, s.recycling);
    match e
    case EnterRecycle(_, now) =>
      if p.RecycleEnter? {
        TailTouches(s, w, p.knownUnsent, now);
        RecordAtTouches(s, w, s.jobs[s.slots[w].job], s.failures, s.inTransport, true, RecycleWait(p.knownUnsent));
      }
    case RunRecycle(_) => if p.RecycleWait? { AtTouches(s, w, RecycleRun(p.knownUnsent)); }
    case FinishRecycle(_) =>
      if p.RecycleRun? {
        AtTouches(s, w, RecycleLeaving(p.knownUnsent, false));
        RecordAtTouches(s, w, s.jobs[s.slots[w].job], 0, s.inTransport, s.recycling, RecycleLeaving(p.knownUnsent, false));
      }
    case LeaveRecycle(_, now) =>
      if p.RecycleLeaving? {
        var m := s.(recycling := false);
        AsideTouches(s, w, s.failures, s.inTransport, false);
        ExitTouches(m, w);
        TailTouches(m, w, p.knownUnsent, now);
        TouchThen(s, m, StepRecycle(s, e), w);
      }
  }

  lemma WorkerEventTouches(s: State, e: Event)
    requires Conserved(s) && Closed(s)
    requires !e.Submit? && !e.CallerCancels? && !e.Take? && !e.Start? && !e.StopBegin? && !e.StopEnd?
    requires e.worker in s.slots
    ensures Touch(s, Step(s, e), e.worker)
  {
    hide StepWorker, StepRecycle, Touch, SlotOk;
    EverySlotOk(s, e.worker);
    if e.EnterRecycle? || e.RunRecycle? || e.FinishRecycle? || e.LeaveRecycle? { RecycleTouches(s, e); }
    else { WorkerTouches(s, e); }
  }

  // ---------------------------------------------- one chat at a time

  /** A worker, live or lingering, busy with an interactive call. */
  ghost predicate Serves(s: State, w: Worker) {
    w in s.slots && s.slots[w].job in s.jobs && Keyed(w.cls)
  }

  /** One of the live generation. */
  ghost predicate Talks(s: State, w: Worker) {
    Serves(s, w) && w.generation == s.generation
  }

  ghost function ChatOf(s: State, w: Worker): string
    requires Serves(s, w)
  {
    s.jobs[s.slots[w].job].chat
  }

  /** No two workers of one generation serve one chat. */
  ghost predicate Exclusive(s: State) {
    forall w1, w2 :: Serves(s, w1) && Serves(s, w2) && w1.generation == w2.generation && ChatOf(s, w1) == ChatOf(s, w2)
                     ==> w1 == w2
  }

  ghost predicate Locked(s: State) {
    forall w :: Talks(s, w) ==> (s.generation, ChatOf(s, w)) in s.keys
  }

  /** `i` is an earlier interactive call to the chat of job `j`. */
  ghost predicate Earlier(s: State, i: nat, j: nat)
    requires j in s.jobs
  {
    i in s.jobs && i < j && Keyed(s.jobs[i].cls) && s.jobs[i].chat == s.jobs[j].chat
  }

  /** Whoever is being sent, everything submitted before it to that chat has its answer. */
  ghost predicate InOrder(s: State) {
    forall w, i :: Talks(s, w) && Earlier(s, i, s.slots[w].job) ==> s.jobs[i].future != Pending
  }

  /** No new run has begun inside the grace wait of a `stop`. */
  ghost predicate Settled(s: State) { s.stops > 0 ==> !s.running }

  ghost predicate KeysDated(s: State) {
    forall k :: k in s.keys ==> k.0 <= s.generation
  }

  ghost predicate Fair(s: State) {
    Exclusive(s) && Locked(s) && InOrder(s) && Settled(s) && KeysDated(s)
  }

  /** `start` is not called before the previous `stop` has returned. */
  predicate Orderly(s: State, e: Event) { e.Start? ==> s.stops == 0 }

  lemma TouchKeepsFair(s: State, t: State, w: Worker)
    requires Conserved(s) && w in s.slots && s.slots[w].job in s.jobs && Touch(s, t, w) && Fair(s)
    ensures Fair(t)
  {
    hide QueueOk, JobOk, PhaseOk;
    var j := s.slots[w].job;
    assert SlotOk(s, w);
    forall v | Serves(t, v)
      ensures Serves(s, v) && ChatOf(t, v) == ChatOf(s, v) && t.slots[v].job == s.slots[v].job
    {
      assert SlotOk(s, v);
    }
    forall v | Talks(t, v)
      ensures (t.generation, ChatOf(t, v)) in t.keys
    {
      assert SlotOk(s, v);
      assert s.slots[v].job in s.jobs;
      if v != w && w !in t.slots {
        if Talks(s, w) { assert ChatOf(s, v) != ChatOf(s, w); }
      }
    }
  }

  lemma SameServersStayApart(s: State, t: State)
    requires Exclusive(s) && t.slots == s.slots
    requires forall w :: w in s.slots ==> s.slots[w].job in s.jobs
    requires forall j :: j in s.jobs ==> j in t.jobs && t.jobs[j].chat == s.jobs[j].chat
    ensures Exclusive(t)
  {
    assert forall w :: Serves(t, w) ==> Serves(s, w) && ChatOf(t, w) == ChatOf(s, w);
  }

  lemma SameTalkKeepsFair(s: State, t: State)
    requires Fair(s) && t.slots == s.slots && t.generation == s.generation && Settled(t) && KeysDated(t)
    requires forall w :: Talks(s, w) ==> (s.generation, ChatOf(s, w)) in t.keys
    requires forall w :: w in s.slots ==> s.slots[w].job in s.jobs
    requires forall j :: j in s.jobs ==>
               && j in t.jobs && t.jobs[j].cls == s.jobs[j].cls && t.jobs[j].chat == s.jobs[j].chat
               && (s.jobs[j].future != Pending ==> t.jobs[j].future != Pending)
    requires forall w, i :: w in s.slots && i in t.jobs && i !in s.jobs ==> s.slots[w].job < i
    ensures Fair(t)
  {
    SameServersStayApart(s, t);
    hide Exclusive;
    assert forall w :: Talks(t, w) ==> Talks(s, w) && ChatOf(t, w) == ChatOf(s, w);
    forall w, i | Talks(t, w) && Earlier(t, i, t.slots[w].job)
      ensures t.jobs[i].future != Pending
    {
      assert Talks(s, w);
      assert Earlier(s, i, s.slots[w].job);
    }
  }

  lemma AdmitRecords(s: State, e: Event)
    requires Closed(s) && e.Submit? && s.counter !in s.jobs
    ensures
      var t := Admit(s, e);
      && t.slots == s.slots && t.keys == s.keys && t.generation == s.generation && t.stops == s.stops && t.running == s.running
      && (forall j :: j in s.jobs ==> j in t.jobs && SameCall(s.jobs[j], t.jobs[j]))
      && (forall j :: j in t.jobs && j !in s.jobs ==> j == s.counter)
  {
    hide Accepts, Resendable, Closed, Supersede;
    SupersedeRecords(s, EffectiveKey(e.semantics, e.coalesce));
  }

  lemma SupersedeRecords(s: State, key: Option<CoalesceKey>)
    requires Closed(s)
    ensures forall j :: j in s.jobs ==> SameCall(s.jobs[j], Supersede(s, key).jobs[j])
  {
    hide Closed, Resendable;
  }

  lemma AdmitIsFair(s: State, e: Event)
    requires Conserved(s) && Closed(s) && Fair(s) && e.Submit?
    ensures Fair(Admit(s, e))
  {
    hide Admit, QueueOk, SlotOk, PhaseOk, Fair;
    var t := Admit(s, e);
    assert JobOk(s, s.counter);
    AdmitRecords(s, e);
    forall w, i | w in s.slots && i in t.jobs && i !in s.jobs
      ensures s.slots[w].job < i
    {
      assert JobOk(s, s.slots[w].job);
    }
    SettledOnly(s, t);
    KeysHeld(s);
    SameTalkKeepsFair(s, t);
  }

  lemma SettledOnly(s: State, t: State)
    requires Fair(s) && t.stops == s.stops && t.running == s.running
    ensures Settled(t)
  {
  }

  lemma KeysHeld(s: State)
    requires Fair(s)
    ensures KeysDated(s)
    ensures forall w :: Talks(s, w) ==> (s.generation, ChatOf(s, w)) in s.keys
  {
  }

  lemma NobodyTalks(t: State)
    requires Exclusive(t) && Settled(t) && KeysDated(t) && forall w :: !Talks(t, w)
    ensures Fair(t)
  {
  }

  lemma TakeIsFair(s: State, w: Worker, i: nat)
    requires Conserved(s) && Closed(s) && Fair(s)
    requires w !in s.slots && Exists(s, w) && i < |Of(s.queues, w.cls)|
    requires Eligible(s.jobs, Of(s.queues, w.cls), w.cls, w.generation, s.keys, i)
    ensures Fair(TakeAt(s, w, i))
  {
    var t := TakeAt(s, w, i);
    QueuedNotHeld(s, w.cls, Of(s.queues, w.cls)[i]);
    if w in t.slots { NewTalkIsFair(s, t, w, i); } else { DroppedTalk(s, w, i); }
  }

  lemma TakeAtRecords(s: State, w: Worker, i: nat)
    requires Closed(s) && i < |Of(s.queues, w.cls)|
    ensures
      var t := TakeAt(s, w, i);
      var j := Of(s.queues, w.cls)[i];
      && j in t.jobs && t.jobs == s.jobs[j := t.jobs[j]]
      && t.jobs[j].cls == s.jobs[j].cls && t.jobs[j].chat == s.jobs[j].chat
      && (s.jobs[j].future != Pending ==> t.jobs[j].future == s.jobs[j].future)
      && t.running == s.running && t.stops == s.stops
  {
    var j := Of(s.queues, w.cls)[i];
    assert j in s.jobs;
    hide Closed, Exists;
    var m := s.jobs[j].(generation := w.generation);
    assert s.jobs[j := m][j := m.(future := Failed(Stopping))] == s.jobs[j := m.(future := Failed(Stopping))];
  }

  lemma TakeAtKeys(s: State, w: Worker, i: nat)
    requires Closed(s) && i < |Of(s.queues, w.cls)|
    requires
      var j := Of(s.queues, w.cls)[i];
      j in s.jobs && s.jobs[j].cls == w.cls && (Keyed(w.cls) ==> (w.generation, s.jobs[j].chat) !in s.keys)
    ensures s.keys <= TakeAt(s, w, i).keys <= s.keys + {(w.generation, s.jobs[Of(s.queues, w.cls)[i]].chat)}
  {
    hide Closed, Exists;
  }

  lemma DroppedTalk(s: State, w: Worker, i: nat)
    requires Closed(s) && Fair(s) && w !in s.slots && i < |Of(s.queues, w.cls)|
    requires Eligible(s.jobs, Of(s.queues, w.cls), w.cls, w.generation, s.keys, i)
    requires w.generation <= s.generation && w !in TakeAt(s, w, i).slots && s.jobs[Of(s.queues, w.cls)[i]].cls == w.cls
    ensures Fair(TakeAt(s, w, i))
  {
    hide TakeAt, Fair;
    var t := TakeAt(s, w, i);
    TakeAtSlots(s, w, i);
    TakeAtRecords(s, w, i);
    TakeAtKeys(s, w, i);
    KeysHeld(s);
    SettledOnly(s, t);
    SameTalkKeepsFair(s, t);
  }

  lemma NewTalkIsFair(s: State, t: State, w: Worker, i: nat)
    requires Conserved(s) && Closed(s) && Fair(s)
    requires w !in s.slots && Exists(s, w) && i < |Of(s.queues, w.cls)|
    requires Eligible(s.jobs, Of(s.queues, w.cls), w.cls, w.generation, s.keys, i)
    requires t == TakeAt(s, w, i) && w in t.slots
    ensures Fair(t)
  {
    var j := Of(s.queues, w.cls)[i];
    QueuedNotHeld(s, w.cls, j);
    assert Keyed(w.cls) ==> (w.generation, s.jobs[j].chat) !in s.keys;
    forall k | Keyed(w.cls) && w.generation == s.generation && Earlier(s, k, j)
      ensures s.jobs[k].future != Pending
    {
      EarlierAnswered(s, w, i, k);
    }
    assert t.slots == s.slots[w := Slot(j, Pacing)];
    assert t.jobs == s.jobs[j := s.jobs[j].(generation := w.generation)];
    assert Keyed(w.cls) ==> t.keys == s.keys + {(w.generation, s.jobs[j].chat)};
    assert !Keyed(w.cls) ==> t.keys == s.keys;
    hide Conserved, Eligible, TakeAt, Closed;
    AddedTalk(s, t, w, j);
  }

  lemma AddedTalk(s: State, t: State, w: Worker, j: nat)
    requires Fair(s) && w !in s.slots && w.generation == s.generation && j in s.jobs
    requires forall v :: v in s.slots ==> s.slots[v].job in s.jobs && s.slots[v].job != j
    requires t.slots == s.slots[w := Slot(j, Pacing)] && t.jobs == s.jobs[j := s.jobs[j].(generation := w.generation)]
    requires t.generation == s.generation && t.stops == s.stops && t.running == s.running
    requires t.keys == if Keyed(w.cls) then s.keys + {(w.generation, s.jobs[j].chat)} else s.keys
    requires Keyed(w.cls) ==> (w.generation, s.jobs[j].chat) !in s.keys
    requires Keyed(w.cls) && w.generation == s.generation ==> forall k :: Earlier(s, k, j) ==> s.jobs[k].future != Pending
    ensures Fair(t)
  {
    forall v | Serves(t, v) && v != w
      ensures Serves(s, v) && ChatOf(t, v) == ChatOf(s, v)
      ensures v.generation == w.generation && Keyed(w.cls) ==> ChatOf(s, v) != s.jobs[j].chat
    {
      if v.generation == w.generation { assert Talks(s, v); }
    }
    forall v, k | Talks(t, v) && Earlier(t, k, t.slots[v].job)
      ensures t.jobs[k].future != Pending
    {
      assert Earlier(s, k, t.slots[v].job);
    }
  }

  /** The heart of the order: an eligible call has no unanswered predecessor. */
  lemma EarlierAnswered(s: State, w: Worker, i: nat, k: nat)
    requires Conserved(s) && Closed(s) && Locked(s)
    requires i < |Of(s.queues, w.cls)| && Keyed(w.cls) && w.generation == s.generation
    requires Eligible(s.jobs, Of(s.queues, w.cls), w.cls, w.generation, s.keys, i)
    requires Earlier(s, k, Of(s.queues, w.cls)[i])
    ensures s.jobs[k].future != Pending
  {
    var q := Of(s.queues, w.cls);
    assert JobOk(s, k);
    forall x | 0 <= x < |q|
      ensures q[x] != k
    {
      assert !(s.jobs[q[x]].chat == s.jobs[q[i]].chat && q[x] < q[i]);
    }
    forall v | HeldBy(s, k, v)
      ensures v.generation != s.generation
    {
      assert SlotOk(s, v);
      assert Talks(s, v) ==> (s.generation, ChatOf(s, v)) in s.keys;
    }
  }

  lemma CancelRecords(s: State, j: nat)
    requires Closed(s) && j in s.jobs
    ensures
      var t := Resolve(s, j, Cancelled);
      && t == s.(jobs := t.jobs) && t.jobs.Keys == s.jobs.Keys
      && (forall w :: w in s.slots ==> s.slots[w].job in s.jobs)
      && forall i :: i in s.jobs ==>
           && t.jobs[i].cls == s.jobs[i].cls && t.jobs[i].chat == s.jobs[i].chat
           && (s.jobs[i].future != Pending ==> t.jobs[i].future != Pending)
  {
  }

  lemma CancelIsFair(s: State, j: nat)
    requires Closed(s) && Fair(s) && j in s.jobs
    ensures Fair(Resolve(s, j, Cancelled))
  {
    var t := Resolve(s, j, Cancelled);
    CancelRecords(s, j);
    hide Fair, Closed, Resolve;
    SettledOnly(s, t);
    KeysHeld(s);
    SameTalkKeepsFair(s, t);
  }

  lemma TakeJobIsFair(s: State, w: Worker, now: real)
    requires Conserved(s) && Closed(s) && Fair(s)
    ensures Fair(TakeJob(s, w, now))
  {
    hide TakeAt, Fair, Eligible, Conserved;
    if w !in s.slots && Exists(s, w) {
      var r := FirstDue(s.jobs, Of(s.queues, w.cls), w.cls, w.generation, s.keys, now, 0);
      if r.Some? { TakeIsFair(s, w, r.value); }
    }
  }

  lemma WorkerIsFair(s: State, e: Event)
    requires Conserved(s) && Closed(s) && Fair(s)
    requires !e.Submit? && !e.CallerCancels? && !e.Take? && !e.Start? && !e.StopBegin? && !e.StopEnd?
    requires e.worker in s.slots
    ensures Fair(Step(s, e))
  {
    assert s.slots[e.worker].job in s.jobs;
    hide *;
    WorkerEventTouches(s, e);
    TouchKeepsFair(s, Step(s, e), e.worker);
  }

  /** Every orderly event keeps interactive calls exclusive and in order. */
  lemma KeepFair(s: State, e: Event)
    requires Conserved(s) && Closed(s) && Fair(s) && Orderly(s, e)
    ensures Fair(Step(s, e))
  {
    hide Fair, Conserved, Closed, Admit, TakeJob, StepLifecycle, Resolve, StepWorker, StepRecycle;
    if e.Submit? {
      AdmitIsFair(s, e);
    } else if e.CallerCancels? {
      if e.job in s.jobs { CancelIsFair(s, e.job); }
    } else if e.Take? {
      TakeJobIsFair(s, e.worker, e.now);
    } else if e.Start? || e.StopBegin? || e.StopEnd? {
      LifecycleIsFair(s, e);
    } else if e.worker in s.slots {
      hide Step;
      WorkerIsFair(s, e);
    }
  }

  lemma LifecycleServers(s: State, e: Event)
    requires e.Start? || e.StopBegin? || e.StopEnd?
    ensures
      var t := StepLifecycle(s, e);
      t.slots == s.slots && forall j :: j in s.jobs ==> j in t.jobs && t.jobs[j].chat == s.jobs[j].chat
  {
    hide QueuedIds, HeldIds, Emptied;
  }

  /** Behind the half of a stop, or before a start, no worker is live. */
  lemma NobodyLeft(s: State, e: Event)
    requires Conserved(s) && Fair(s) && Orderly(s, e)
    requires (e.Start? && !s.running) || e.StopBegin? || (e.StopEnd? && s.stops > 0)
    ensures
      var t := StepLifecycle(s, e);
      Settled(t) && KeysDated(t) && forall w :: !Talks(t, w)
  {
    hide QueueOk, JobOk, PhaseOk, Exclusive, InOrder, Locked, FailWhere, HeldIds, QueuedIds, Emptied;
    var t := StepLifecycle(s, e);
    assert t.slots == s.slots by { LifecycleServers(s, e); }
    forall w
      ensures !Talks(t, w)
    {
      assert SlotOk(s, w);
    }
  }

  lemma LifecycleIsFair(s: State, e: Event)
    requires Conserved(s) && Closed(s) && Fair(s) && Orderly(s, e) && (e.Start? || e.StopBegin? || e.StopEnd?)
    ensures Fair(StepLifecycle(s, e))
  {
    var t := StepLifecycle(s, e);
    LifecycleServers(s, e);
    SameServersStayApart(s, t);
    if t != s && !(e.Start? && s.running) && !(e.StopEnd? && s.stops == 0) {
      NobodyLeft(s, e);
      NobodyTalks(t);
    }
  }
}
