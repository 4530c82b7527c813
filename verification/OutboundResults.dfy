/** What holds of every run of the outbound scheduler. */
module OutboundResults {
  import opened Wrappers
  import opened OutboundModel
  import opened OutboundInvariants
  import opened OutboundTransport
  import opened OutboundOrdering

  // ----------------------------------------------------------------- runs

  ghost predicate Inv(s: State) {
    Closed(s) && Conserved(s) && TransportOk(s) && CapacityOk(s)
  }

  lemma KeepInv(s: State, e: Event)
    requires Inv(s)
    ensures Inv(Step(s, e))
  {
    hide Step, Conserved, TransportOk, CapacityOk, Closed;
    KeepConserved(s, e);
    KeepCounts(s, e);
  }

  lemma InitialOk(cfg: Config)
    ensures Inv(Initial(cfg)) && Fair(Initial(cfg))
  {
    var s := Initial(cfg);
    forall c ensures Of(s.queues, c) == [] { NoQueuesIsEmpty(c); }
    assert Operations(s) == {} && Busy(s) == {};
    assert forall w :: SlotOk(s, w);
    assert forall j :: JobOk(s, j);
    assert forall c :: QueueOk(s, c);
  }

  ghost function Run(s: State, es: seq<Event>): (t: State)
    requires Inv(s)
    ensures Inv(t)
    decreases |es|
  {
    if es == [] then s else KeepInv(s, es[0]); Run(Step(s, es[0]), es[1..])
  }

  /** A run in which `start` always waits for the previous `stop` to return. */
  ghost predicate OrderlyRun(s: State, es: seq<Event>)
    requires Inv(s)
    decreases |es|
  {
    es == [] || (Orderly(s, es[0]) && (KeepInv(s, es[0]); OrderlyRun(Step(s, es[0]), es[1..])))
  }

  lemma {:induction false} RunIsFair(s: State, es: seq<Event>)
    requires Inv(s) && Fair(s) && OrderlyRun(s, es)
    ensures Fair(Run(s, es))
    decreases |es|
  {
    hide Step, Conserved, TransportOk, CapacityOk, Closed, Fair;
    if es != [] {
      KeepInv(s, es[0]);
      KeepFair(s, es[0]);
      RunIsFair(Step(s, es[0]), es[1..]);
    }
  }

  // --------------------------------------------------------- conservation

  ghost predicate QueuedOnce(q: seq<nat>, j: nat) {
    exists i :: 0 <= i < |q| && q[i] == j && forall k :: 0 <= k < |q| && k != i ==> q[k] != j
  }

  ghost predicate HeldOnlyBy(s: State, j: nat, w: Worker) {
    HeldBy(s, j, w) && forall v :: HeldBy(s, j, v) ==> v == w
  }

  /** An unanswered call is in exactly one place: once in the queue of its own
      class, or with exactly one worker of the live generation. */
  lemma EveryCallHasOnePlace(s: State, j: nat)
    requires Inv(s) && j in s.jobs && s.jobs[j].future == Pending
    ensures
      var q := Of(s.queues, s.jobs[j].cls);
      || (QueuedOnce(q, j) && forall w :: !HeldBy(s, j, w))
      || (j !in q && exists w :: HeldOnlyBy(s, j, w) && w.generation == s.generation)
    ensures forall c :: c != s.jobs[j].cls ==> j !in Of(s.queues, c)
    ensures s.running
  {
    assert JobOk(s, j);
    QueuesOk(s);
    var c := s.jobs[j].cls;
    var q := Of(s.queues, c);
    forall d | d != c
      ensures j !in Of(s.queues, d)
    {
      assert j in Of(s.queues, d) ==> QueuedOk(s, d, j);
    }
    if j in q {
      QueuedNotHeld(s, c, j);
      assert NoDup(q);
      var i :| 0 <= i < |q| && q[i] == j;
      assert forall k :: 0 <= k < |q| && k != i ==> q[k] != j;
    } else {
      var w :| HeldBy(s, j, w) && w.generation == s.generation;
      assert SlotOk(s, w);
      assert HeldOnlyBy(s, j, w);
    }
  }

  lemma TakeRecords(s: State, e: Event, j: nat)
    requires Closed(s) && j in s.jobs && e.Take?
    ensures j in Step(s, e).jobs && SameCall(s.jobs[j], Step(s, e).jobs[j]) && Step(s, e).cfg == s.cfg
  {
    hide TakeAt, SameCall, Eligible;
    if e.worker !in s.slots && Exists(s, e.worker) {
      var r := FirstDue(s.jobs, Of(s.queues, e.worker.cls), e.worker.cls, e.worker.generation, s.keys, e.now, 0);
      if r.Some? { TakeAtCall(s, e.worker, r.value); }
    }
    SameCallSelf(s, j);
  }

  lemma SameCallSelf(s: State, j: nat)
    requires j in s.jobs
    ensures SameCall(s.jobs[j], s.jobs[j])
  {
  }

  lemma CallsRecord(s: State, e: Event, j: nat)
    requires Conserved(s) && Closed(s) && j in s.jobs && (e.Submit? || e.CallerCancels?)
    ensures j in Step(s, e).jobs && SameCall(s.jobs[j], Step(s, e).jobs[j]) && Step(s, e).cfg == s.cfg
  {
    if e.Submit? {
      FreshNumber(s);
      hide Admit, Conserved, Closed, SameCall;
      AdmitRecords(s, e);
      AdmitTotal(s, e);
    } else {
      hide Conserved, Closed, Resendable;
    }
  }

  lemma LifecycleRecords(s: State, e: Event, j: nat)
    requires Closed(s) && j in s.jobs && (e.Start? || e.StopBegin? || e.StopEnd?)
    ensures j in Step(s, e).jobs && SameCall(s.jobs[j], Step(s, e).jobs[j]) && Step(s, e).cfg == s.cfg
  {
    hide Closed, Resendable, HeldIds, QueuedIds, Emptied;
  }

  /** One event leaves every admitted call what it was, with any answer it had. */
  lemma StepRecords(s: State, e: Event, j: nat)
    requires Inv(s) && j in s.jobs
    ensures j in Step(s, e).jobs && SameCall(s.jobs[j], Step(s, e).jobs[j])
    ensures Step(s, e).cfg == s.cfg
  {
    if e.Submit? || e.CallerCancels? {
      hide Step, SameCall;
      CallsRecord(s, e, j);
    } else if e.Start? || e.StopBegin? || e.StopEnd? {
      hide Step, SameCall;
      LifecycleRecords(s, e, j);
    } else if e.Take? {
      hide Step, SameCall;
      TakeRecords(s, e, j);
    } else if e.worker in s.slots {
      hide Step, SameCall, Conserved, Closed, TransportOk, CapacityOk;
      WorkerEventTouches(s, e);
      StepEffectCfg(s, e);
      SameCallSelf(s, j);
    } else {
      hide SameCall;
      SameCallSelf(s, j);
    }
  }

  lemma TakeAtCall(s: State, w: Worker, i: nat)
    requires Closed(s) && i < |Of(s.queues, w.cls)|
    ensures forall j :: j in s.jobs ==> j in TakeAt(s, w, i).jobs && SameCall(s.jobs[j], TakeAt(s, w, i).jobs[j])
    ensures TakeAt(s, w, i).cfg == s.cfg
  {
    hide TakeAt, Closed, Of, Resendable;
    TakeAtIs(s, w, i);
  }

  lemma StepEffectCfg(s: State, e: Event)
    requires Inv(s)
    requires !e.Submit? && !e.CallerCancels? && !e.Take? && !e.Start? && !e.StopBegin? && !e.StopEnd?
    requires e.worker in s.slots
    ensures Step(s, e).cfg == s.cfg
  {
    hide StepWorker, StepRecycle, TransportOk, CapacityOk, SlotOk, Closed;
    EverySlotOk(s, e.worker);
    if e.EnterRecycle? || e.RunRecycle? || e.FinishRecycle? { RecycleEffect(s, e); }
    else if e.LeaveRecycle? { LeaveRecycleEffect(s, e); }
    else if e.Leave? { LeaveEffect(s, e); }
    else if e.Abort? { AbortEffect(s, e); }
    else { AttemptEffect(s, e); }
  }

  /** No call is forgotten, and none is ever answered twice. */
  lemma {:induction false} AnswersAreFinal(s: State, es: seq<Event>, j: nat)
    requires Inv(s) && j in s.jobs
    ensures j in Run(s, es).jobs
    ensures s.jobs[j].future != Pending ==> Run(s, es).jobs[j].future == s.jobs[j].future
    ensures Run(s, es).cfg == s.cfg
    decreases |es|
  {
    hide Step, Conserved, TransportOk, CapacityOk, Closed, Resendable;
    if es != [] {
      KeepInv(s, es[0]);
      StepRecords(s, es[0], j);
      AnswersAreFinal(Step(s, es[0]), es[1..], j);
    }
  }

  /** `stop` answers every call, whatever happened before it. */
  lemma StopLeavesNothingWaiting(s: State)
    requires Inv(s)
    ensures
      var t := Step(s, StopBegin);
      && t.jobs.Keys == s.jobs.Keys && (forall j :: j in t.jobs ==> t.jobs[j].future != Pending)
      && (forall c :: Of(t.queues, c) == [])
  {
    StopAnswersAll(s);
  }

  /** Waiting calls plus busy live workers never exceed the queue bound by more
      than the number of workers. */
  lemma NeverOverCapacity(s: State, es: seq<Event>)
    requires Inv(s)
    ensures QueuedTotal(Run(s, es).queues) + |Busy(Run(s, es))| <= Run(s, es).cfg.maxQueue + 8
    ensures |Busy(Run(s, es))| <= 8
  {
    AtMostEightBusy(Run(s, es));
  }

  // -------------------------------------------------------- at most once

  /** Some attempt of a non-idempotent call may have acted. */
  ghost predicate MayHaveActed(job: Job) {
    job.semantics == NonIdempotent && exists o :: o in job.history && !Retriable(o)
  }

  /** Attempts are bounded across any mix of failures; a non-idempotent call has
      at most one attempt that may have acted, and it is the last. */
  lemma AttemptsAreBounded(s: State, es: seq<Event>, j: nat)
    requires Inv(s) && j in s.jobs
    ensures j in Run(s, es).jobs
    ensures
      var job := Run(s, es).jobs[j];
      && |job.history| <= job.attempts <= s.cfg.retries + 1
      && (job.semantics == NonIdempotent ==> forall i :: 0 <= i < |job.history| && !Retriable(job.history[i]) ==> i == |job.history| - 1)
  {
    AnswersAreFinal(s, es, j);
    assert JobOk(Run(s, es), j);
  }

  /** After an attempt that may have acted there is never another one. */
  lemma {:induction false} NothingAfterAnEffect(s: State, es: seq<Event>, j: nat)
    requires Inv(s) && j in s.jobs && MayHaveActed(s.jobs[j])
    ensures j in Run(s, es).jobs
    ensures Run(s, es).jobs[j].attempts == s.jobs[j].attempts && Run(s, es).jobs[j].history == s.jobs[j].history
    decreases |es|
  {
    hide Step, Conserved, TransportOk, CapacityOk, Closed;
    if es != [] {
      KeepInv(s, es[0]);
      StepRecords(s, es[0], j);
      NothingAfterAnEffect(Step(s, es[0]), es[1..], j);
    }
  }

  /** Without a minimum interval nothing is sent for a call that already has its
      answer; the two events that begin an attempt are `Pass` and `Begin`. */
  lemma NoLateSendWithoutInterval(s: State, w: Worker)
    requires Inv(s) && !s.cfg.interval && w in s.slots
    ensures Step(s, Begin(w)) == s
    ensures
      var t := Step(s, Pass(w));
      !s.slots[w].phase.Waiting? && w in t.slots && t.slots[w].phase.Waiting? ==> s.jobs[s.slots[w].job].future == Pending
  {
    assert SlotOk(s, w);
    hide Conserved, TransportOk, CapacityOk;
  }

  // ------------------------------------------------------------- recycle

  /** The transport is replaced only when nothing runs, by one worker at a time,
      and no operation starts before the flag is down again. */
  lemma RecycleIsExclusive(s: State, w: Worker)
    requires Inv(s)
    ensures s.inTransport == |Operations(s)|
    ensures w in s.slots && s.slots[w].phase.RecycleRun? ==> Operations(s) == {} && s.recycling
    ensures forall v :: Recycles(s, w) && Recycles(s, v) ==> v == w
    ensures s.recycling ==> Step(s, Enter(w)) == s
    ensures Recycles(s, w) ==> !Counted(s, w)
  {
    if w in s.slots && s.slots[w].phase.RecycleRun? { assert Recycles(s, w); }
  }

  // ------------------------------------------------- interactive ordering

  /** In an orderly run no two workers of one generation, be it the live one or
      one that lingers, serve one chat. */
  lemma OneWorkerPerChat(s: State, es: seq<Event>, w1: Worker, w2: Worker)
    requires Inv(s) && Fair(s) && OrderlyRun(s, es) && w1.generation == w2.generation
    requires var t := Run(s, es); Serves(t, w1) && Serves(t, w2) && ChatOf(t, w1) == ChatOf(t, w2)
    ensures w1 == w2
  {
    RunIsFair(s, es);
  }

  /** Whoever is being served has no unanswered predecessor in its chat. */
  lemma InteractiveOrder(s: State, es: seq<Event>, w: Worker, i: nat)
    requires Inv(s) && Fair(s) && OrderlyRun(s, es)
    requires var t := Run(s, es); Talks(t, w) && Earlier(t, i, t.slots[w].job)
    ensures Run(s, es).jobs[i].future != Pending
  {
    RunIsFair(s, es);
  }

  // ------------------------------------------------------------- edits

  ghost predicate EditOf(s: State, j: nat, key: CoalesceKey) {
    j in s.jobs && s.jobs[j].coalesce == Some(key)
  }

  /** All edits with this key are interactive calls to one chat. */
  ghost predicate OneConversation(s: State, key: CoalesceKey) {
    forall i, j :: EditOf(s, i, key) && EditOf(s, j, key) ==>
      Keyed(s.jobs[i].cls) && Keyed(s.jobs[j].cls) && s.jobs[i].chat == s.jobs[j].chat
  }

  ghost predicate WaitingEdit(s: State, j: nat, key: CoalesceKey) {
    EditOf(s, j, key) && s.jobs[j].future == Pending
  }

  ghost predicate AtMostTwo(s: State, key: CoalesceKey) {
    forall a, b, c :: WaitingEdit(s, a, key) && WaitingEdit(s, b, key) && WaitingEdit(s, c, key) ==> a == b || b == c || a == c
  }

  /** After superseding, at most one older edit waits: the one being sent. */
  lemma OneSurvivor(s: State, key: CoalesceKey, a: nat, b: nat)
    requires Inv(s) && Fair(s) && OneConversation(s, key)
    requires var t := Supersede(s, Some(key)); WaitingEdit(t, a, key) && WaitingEdit(t, b, key)
    ensures a == b
  {
    var wa := SurvivorIsSent(s, key, a);
    var wb := SurvivorIsSent(s, key, b);
    assert EditOf(s, a, key) && EditOf(s, b, key);
  }

  lemma SurvivorIsSent(s: State, key: CoalesceKey, j: nat) returns (w: Worker)
    requires Inv(s) && OneConversation(s, key) && WaitingEdit(Supersede(s, Some(key)), j, key)
    ensures HeldBy(s, j, w) && Talks(s, w)
  {
    assert EditOf(s, j, key) && s.jobs[j].started;
    assert JobOk(s, j);
    QueuesOk(s);
    assert j in Of(s.queues, s.jobs[j].cls) ==> QueuedOk(s, s.jobs[j].cls, j);
    w :| HeldBy(s, j, w) && w.generation == s.generation;
    assert SlotOk(s, w);
  }

  /** What waits after a submission: the new call, or one that waited before;
      for the submitted key, one that superseding spared. */
  lemma AdmittedEdit(s: State, e: Event, key: CoalesceKey, a: nat)
    requires Closed(s) && e.Submit? && s.counter !in s.jobs && WaitingEdit(Admit(s, e), a, key) && a != s.counter
    ensures WaitingEdit(s, a, key)
    ensures Admit(s, e) != s && EffectiveKey(e.semantics, e.coalesce) == Some(key) ==> WaitingEdit(Supersede(s, Some(key)), a, key)
  {
    AdmitRecords(s, e);
    hide Supersede, Closed, Accepts, Resendable;
  }

  lemma AdmitKeepsTwo(s: State, e: Event, key: CoalesceKey)
    requires Inv(s) && Fair(s) && OneConversation(s, key) && AtMostTwo(s, key) && e.Submit?
    ensures AtMostTwo(Admit(s, e), key)
  {
    var t := Admit(s, e);
    var n := s.counter;
    assert JobOk(s, n);
    AdmitRecords(s, e);
    forall a, b, c | WaitingEdit(t, a, key) && WaitingEdit(t, b, key) && WaitingEdit(t, c, key)
      ensures a == b || b == c || a == c
    {
      if t != s {
        if a != n { AdmittedEdit(s, e, key, a); }
        if b != n { AdmittedEdit(s, e, key, b); }
        if c != n { AdmittedEdit(s, e, key, c); }
        if EffectiveKey(e.semantics, e.coalesce) == Some(key) {
          if a != n && b != n { OneSurvivor(s, key, a, b); }
          else if a != n && c != n { OneSurvivor(s, key, a, c); }
          else if b != n && c != n { OneSurvivor(s, key, b, c); }
        } else {
          NewCallIsNoEdit(s, e, key);
        }
      }
    }
  }

  lemma NewCallIsNoEdit(s: State, e: Event, key: CoalesceKey)
    requires Closed(s) && e.Submit? && s.counter !in s.jobs && EffectiveKey(e.semantics, e.coalesce) != Some(key)
    ensures !WaitingEdit(Admit(s, e), s.counter, key)
  {
    hide Supersede, Closed, Accepts;
  }

  /** Only a submission creates a call. */
  lemma OnlySubmitCreates(s: State, e: Event)
    requires Inv(s) && !e.Submit?
    ensures Step(s, e).jobs.Keys == s.jobs.Keys
  {
    hide QueueOk, SlotOk, JobOk, TransportOk, CapacityOk, Eligible, TakeAt, StepWorker, StepRecycle;
    if e.Take? {
      if e.worker !in s.slots && Exists(s, e.worker) {
        match FirstDue(s.jobs, Of(s.queues, e.worker.cls), e.worker.cls, e.worker.generation, s.keys, e.now, 0)
        case None =>
        case Some(i) => TakeAtRecords(s, e.worker, i);
      }
    } else if e.CallerCancels? || e.Start? || e.StopBegin? || e.StopEnd? {
    } else if e.worker in s.slots {
      WorkerEventTouches(s, e);
    }
  }

  lemma StepKeepsTwo(s: State, e: Event, key: CoalesceKey)
    requires Inv(s) && Fair(s) && OneConversation(s, key) && AtMostTwo(s, key)
    ensures AtMostTwo(Step(s, e), key)
  {
    hide Conserved, TransportOk, CapacityOk, Closed, Fair;
    if e.Submit? {
      hide Step;
      AdmitKeepsTwo(s, e, key);
      assert Step(s, e) == Admit(s, e) by { SubmitStep(s, e); }
    } else {
      hide Step;
      OnlySubmitCreates(s, e);
      forall a | WaitingEdit(Step(s, e), a, key)
        ensures WaitingEdit(s, a, key)
      {
        StepRecords(s, e, a);
      }
    }
  }

  lemma SubmitStep(s: State, e: Event)
    requires Closed(s) && e.Submit?
    ensures Step(s, e) == Admit(s, e)
  {
  }

  /** Earlier states of a run have fewer edits, so they too are one conversation. */
  lemma ConversationShrinks(s: State, e: Event, key: CoalesceKey)
    requires Inv(s) && OneConversation(Step(s, e), key)
    ensures OneConversation(s, key)
  {
    hide Step, Conserved, TransportOk, CapacityOk, Closed;
    forall i, j | EditOf(s, i, key) && EditOf(s, j, key)
      ensures Keyed(s.jobs[i].cls) && Keyed(s.jobs[j].cls) && s.jobs[i].chat == s.jobs[j].chat
    {
      StepRecords(s, e, i);
      StepRecords(s, e, j);
      assert EditOf(Step(s, e), i, key) && EditOf(Step(s, e), j, key);
    }
  }

  lemma {:induction false} RunShrinks(s: State, es: seq<Event>, key: CoalesceKey)
    requires Inv(s) && OneConversation(Run(s, es), key)
    ensures OneConversation(s, key)
    decreases |es|
  {
    hide Step, Conserved, TransportOk, CapacityOk, Closed, OneConversation;
    if es != [] {
      KeepInv(s, es[0]);
      RunShrinks(Step(s, es[0]), es[1..], key);
      ConversationShrinks(s, es[0], key);
    }
  }

  /** Interactive edits of one message in one chat: however many are submitted,
      at most two are unanswered at any time. */
  lemma {:induction false} AtMostTwoEditsWait(s: State, es: seq<Event>, key: CoalesceKey)
    requires Inv(s) && Fair(s) && OrderlyRun(s, es) && AtMostTwo(s, key)
    requires OneConversation(Run(s, es), key)
    ensures AtMostTwo(Run(s, es), key)
    decreases |es|
  {
    hide Step, Conserved, TransportOk, CapacityOk, Closed, Fair, AtMostTwo;
    if es != [] {
      KeepInv(s, es[0]);
      RunShrinks(s, es, key);
      KeepFair(s, es[0]);
      StepKeepsTwo(s, es[0], key);
      AtMostTwoEditsWait(Step(s, es[0]), es[1..], key);
    }
  }

  // ------------------------------------------- older edits are over

  /** Answered, and with no live worker. */
  ghost predicate Over(s: State, i: nat) {
    && i in s.jobs && s.jobs[i].future != Pending
    && forall w :: HeldBy(s, i, w) ==> w.generation != s.generation
  }

  lemma StepKeepsOver(s: State, e: Event, i: nat)
    requires Inv(s) && Over(s, i)
    ensures Over(Step(s, e), i)
    ensures forall w :: HeldBy(Step(s, e), i, w) ==> HeldBy(s, i, w)
  {
    StepRecords(s, e, i);
    NoNewHolder(s, e, i);
    NoGenerationReturns(s, e);
    hide Step, Conserved, TransportOk, CapacityOk, Closed, SameCall;
    forall w | HeldBy(Step(s, e), i, w)
      ensures w.generation != Step(s, e).generation
    {
      assert HeldBy(s, i, w);
      HolderDated(s, i, w);
    }
  }

  lemma HolderDated(s: State, i: nat, w: Worker)
    requires Inv(s) && HeldBy(s, i, w)
    ensures w.generation <= s.generation
  {
    assert SlotOk(s, w);
  }

  lemma NoGenerationReturns(s: State, e: Event)
    requires Inv(s)
    ensures Step(s, e).generation == s.generation || Step(s, e).generation == s.generation + 1
  {
    hide QueueOk, SlotOk, JobOk, TransportOk, CapacityOk, Eligible, TakeAt, StepWorker, StepRecycle, Admit;
    if e.Submit? {
      AdmitTotal(s, e);
    } else if e.Take? {
      if e.worker !in s.slots && Exists(s, e.worker) {
        match FirstDue(s.jobs, Of(s.queues, e.worker.cls), e.worker.cls, e.worker.generation, s.keys, e.now, 0)
        case None =>
        case Some(i) => TakeAtSlots(s, e.worker, i);
      }
    } else if e.CallerCancels? || e.Start? || e.StopBegin? || e.StopEnd? {
    } else if e.worker in s.slots {
      WorkerEventTouches(s, e);
    }
  }

  /** An answered call is never given to a worker again. */
  lemma NoNewHolder(s: State, e: Event, i: nat)
    requires Inv(s) && i in s.jobs && s.jobs[i].future != Pending
    ensures forall w :: HeldBy(Step(s, e), i, w) ==> HeldBy(s, i, w)
  {
    hide SlotOk, JobOk, PhaseOk, TransportOk, CapacityOk, Eligible, TakeAt, StepWorker, StepRecycle, Admit;
    if e.Submit? {
      AdmitTotal(s, e);
    } else if e.Take? {
      if e.worker !in s.slots && Exists(s, e.worker) {
        match FirstDue(s.jobs, Of(s.queues, e.worker.cls), e.worker.cls, e.worker.generation, s.keys, e.now, 0)
        case None =>
        case Some(k) =>
          TakeAtSlots(s, e.worker, k);
          QueuedNotHeld(s, e.worker.cls, Of(s.queues, e.worker.cls)[k]);
          TakenIsUnanswered(s, e.worker, k);
      }
    } else if e.CallerCancels? || e.Start? || e.StopBegin? || e.StopEnd? {
    } else if e.worker in s.slots {
      WorkerEventTouches(s, e);
    }
  }

  lemma TakenIsUnanswered(s: State, w: Worker, i: nat)
    requires Closed(s) && w !in s.slots && i < |Of(s.queues, w.cls)| && QueuedOk(s, w.cls, Of(s.queues, w.cls)[i])
    ensures w in TakeAt(s, w, i).slots ==> s.jobs[Of(s.queues, w.cls)[i]].future == Pending
  {
    hide Closed, Resendable;
  }

  lemma {:induction false} RunKeepsOver(s: State, es: seq<Event>, i: nat)
    requires Inv(s) && Over(s, i)
    ensures Over(Run(s, es), i) && forall w :: HeldBy(Run(s, es), i, w) ==> HeldBy(s, i, w)
    decreases |es|
  {
    hide Step, Conserved, TransportOk, CapacityOk, Closed, Over;
    if es != [] {
      KeepInv(s, es[0]);
      StepKeepsOver(s, es[0], i);
      RunKeepsOver(Step(s, es[0]), es[1..], i);
    }
  }

  /** Once an edit is being sent, every older call to its chat is over and stays
      over: no live worker has it now, and none ever gets it again. */
  lemma OlderEditsNeverRunAgain(s: State, w: Worker, i: nat, es: seq<Event>)
    requires Inv(s) && Fair(s) && Talks(s, w) && Earlier(s, i, s.slots[w].job)
    ensures Over(s, i) && Over(Run(s, es), i)
    ensures forall v :: HeldBy(Run(s, es), i, v) ==> HeldBy(s, i, v) && v.generation < s.generation
  {
    forall v | HeldBy(s, i, v)
      ensures v.generation < s.generation
    {
      assert SlotOk(s, v) && SlotOk(s, w);
      assert !Talks(s, v);
    }
    assert Over(s, i);
    hide Conserved, TransportOk, CapacityOk, Closed, Fair;
    RunKeepsOver(s, es, i);
  }

  // ------------------------------------------------------ restarting

  const CHAT := "chat:1"

  function AnyCall(): Event { Submit(Interactive, Some(CHAT), Query, None, 0.0, false) }

  /** A running, idle scheduler whose chat is unlocked. */
  ghost predicate Open(s: State, w: Worker) {
    && Inv(s) && s.running && s.cfg.maxQueue >= 1 && (forall c :: Of(s.queues, c) == [])
    && w !in s.slots && w.generation == s.generation && w.cls == Interactive && w.slot < 2
    && (s.generation, CHAT) !in s.keys
  }

  /** With nothing queued there is nothing to replace, and there is room. */
  lemma NothingToReplace(s: State)
    requires Closed(s) && s.running && !s.stopping && s.cfg.maxQueue >= 1 && forall c :: Of(s.queues, c) == []
    ensures Accepts(s, None) && forall c :: Of(Supersede(s, None).queues, c) == []
  {
    forall c ensures Of(Supersede(s, None).queues, c) == [] { SupersedeQueue(s, None, c); }
  }

  lemma EnlistedAlone(s: State, n: nat, job: Job)
    requires forall c :: Of(s.queues, c) == []
    ensures
      var t := Enlist(s, n, job);
      && t == s.(jobs := t.jobs, queues := t.queues) && n in t.jobs && t.jobs[n] == job
      && Of(t.queues, job.cls) == [n] && forall c :: c != job.cls ==> Of(t.queues, c) == []
  {
    hide Of;
    assert Of(s.queues, job.cls) + [n] == [n];
    OfUpdate(s.queues, Enlist(s, n, job).queues, job.cls, Of(s.queues, job.cls) + [n]);
  }

  lemma SubmitOpens(s: State, w: Worker)
    requires Open(s, w)
    ensures
      var u := Step(s, AnyCall());
      && Inv(u) && u == s.(jobs := u.jobs, queues := u.queues, counter := s.counter + 1)
      && Of(u.queues, Interactive) == [s.counter] && (forall c :: c != Interactive ==> Of(u.queues, c) == [])
      && s.counter in u.jobs && u.jobs[s.counter] == NewJob(s, AnyCall())
  {
    assert s.running && !s.stopping by { assert LifeOk(s); }
    hide Step, Conserved, TransportOk, CapacityOk, Closed, Admit, Supersede, Accepts, Enlist, Of;
    KeepInv(s, AnyCall());
    NothingToReplace(s);
    SubmitStep(s, AnyCall());
    AdmitIs(s, AnyCall());
    var s1 := Supersede(s, None);
    EnlistedAlone(s1.(counter := s1.counter + 1), s.counter, NewJob(s, AnyCall()));
  }

  lemma TakeOnly(u: State, w: Worker, n: nat)
    requires Inv(u) && w !in u.slots && Exists(u, w) && w.generation == u.generation && u.running && w.cls == Interactive
    requires Of(u.queues, Interactive) == [n] && (forall c :: c != Interactive ==> Of(u.queues, c) == [])
    requires n in u.jobs && u.jobs[n].chat == CHAT && u.jobs[n].dueAt == 0.0 && u.jobs[n].future == Pending
    requires (u.generation, CHAT) !in u.keys
    ensures
      var t := Step(u, Take(w, 0.0));
      && Inv(t) && t.slots == u.slots[w := Slot(n, Pacing)]
      && t.running && t.generation == u.generation && t.stops == u.stops && t.cfg == u.cfg
      && (forall c :: Of(t.queues, c) == [])
      && Talks(t, w) && ChatOf(t, w) == CHAT
  {
    hide Of;
    KeepInv(u, Take(w, 0.0));
    assert !u.stopping;
    hide Conserved, TransportOk, CapacityOk;
    assert Eligible(u.jobs, Of(u.queues, Interactive), Interactive, w.generation, u.keys, 0);
    OfUpdate(u.queues, Step(u, Take(w, 0.0)).queues, Interactive, []);
    hide Closed, Eligible;
  }

  /** Submitting one call and letting `w` take it. */
  lemma SubmitThenTake(s: State, w: Worker)
    requires Open(s, w)
    ensures
      var u := Step(s, AnyCall());
      && Inv(u)
      && var t := Step(u, Take(w, 0.0));
      && Inv(t)
      && t.slots == s.slots[w := Slot(s.counter, Pacing)]
      && t.running && t.generation == s.generation && t.stops == s.stops && t.cfg == s.cfg
      && (forall c :: Of(t.queues, c) == [])
      && Talks(t, w) && ChatOf(t, w) == CHAT
  {
    SubmitOpens(s, w);
    hide Step, Conserved, TransportOk, CapacityOk, Closed;
    TakeOnly(Step(s, AnyCall()), w, s.counter);
  }

  /** Two calls to one chat, the second taken after a late `StopEnd`. */
  function Overlap(g: nat): seq<Event> {
    [AnyCall(), Take(Worker(g, Interactive, 0), 0.0), StopEnd, AnyCall(), Take(Worker(g, Interactive, 1), 0.0)]
  }

  /** The end of a `stop` that outlives a `start` unlocks the chats of the new
      run: two live workers end up serving one chat. */
  lemma LateStopBreaksExclusion(s: State)
    requires Inv(s) && s.running && s.stops > 0 && s.cfg.maxQueue >= 1
    requires (forall c :: Of(s.queues, c) == []) && (forall w :: w in s.slots ==> w.generation < s.generation)
    requires (s.generation, CHAT) !in s.keys
    ensures OrderlyRun(s, Overlap(s.generation)) && !Exclusive(Run(s, Overlap(s.generation)))
    ensures
      var t := Run(s, Overlap(s.generation));
      var w0, w1 := Worker(s.generation, Interactive, 0), Worker(s.generation, Interactive, 1);
      Talks(t, w0) && Talks(t, w1) && ChatOf(t, w0) == ChatOf(t, w1)
  {
    hide Step, Conserved, TransportOk, CapacityOk, Closed;
    var g := s.generation;
    var w0, w1 := Worker(g, Interactive, 0), Worker(g, Interactive, 1);
    SubmitThenTake(s, w0);
    var s1 := Step(s, AnyCall());
    var s2 := Step(s1, Take(w0, 0.0));
    KeepInv(s2, StopEnd);
    StopEndStep(s2);
    var s3 := Step(s2, StopEnd);
    SubmitThenTake(s3, w1);
    var s4 := Step(s3, AnyCall());
    var s5 := Step(s4, Take(w1, 0.0));
    var j := s.counter;
    StepRecords(s3, AnyCall(), j);
    StepRecords(s4, Take(w1, 0.0), j);
    assert Talks(s5, w0) && ChatOf(s5, w0) == ChatOf(s5, w1);
    RunFive(s, Overlap(g));
  }

  lemma StopEndStep(s: State)
    requires Closed(s) && s.stops > 0
    ensures Step(s, StopEnd) == s.(stops := s.stops - 1, keys := {})
  {
  }

  lemma RunFive(s: State, es: seq<Event>)
    requires Inv(s) && |es| == 5 && forall i :: 0 <= i < 5 ==> !es[i].Start?
    ensures
      && Inv(Step(s, es[0])) && var s1 := Step(s, es[0]);
      && Inv(Step(s1, es[1])) && var s2 := Step(s1, es[1]);
      && Inv(Step(s2, es[2])) && var s3 := Step(s2, es[2]);
      && Inv(Step(s3, es[3])) && var s4 := Step(s3, es[3]);
      && Inv(Step(s4, es[4])) && Run(s, es) == Step(s4, es[4]) && OrderlyRun(s, es)
  {
    hide Step, Conserved, TransportOk, CapacityOk, Closed;
    KeepInv(s, es[0]);
    var s1 := Step(s, es[0]);
    KeepInv(s1, es[1]);
    var s2 := Step(s1, es[1]);
    KeepInv(s2, es[2]);
    var s3 := Step(s2, es[2]);
    KeepInv(s3, es[3]);
    var s4 := Step(s3, es[3]);
    KeepInv(s4, es[4]);
    var s5 := Step(s4, es[4]);
    assert Run(s4, es[4..]) == s5 && OrderlyRun(s4, es[4..]) by { assert es[4..][1..] == []; }
    assert es[3..][1..] == es[4..] && es[2..][1..] == es[3..] && es[1..][1..] == es[2..];
    assert Run(s3, es[3..]) == s5 && OrderlyRun(s3, es[3..]);
    assert Run(s2, es[2..]) == s5 && OrderlyRun(s2, es[2..]);
    assert Run(s1, es[1..]) == s5 && OrderlyRun(s1, es[1..]);
  }

  /** Starting again is safe for every orderly future exactly when no earlier
      `stop` is still waiting: the caller's condition is that `stop` returned. */
  lemma RestartIsSafeExactlyAfterStop(s: State)
    requires Inv(s) && Fair(s) && !s.running && s.cfg.maxQueue >= 1
    ensures Inv(Step(s, Start))
    ensures s.stops == 0 <==>
      forall es: seq<Event> :: OrderlyRun(Step(s, Start), es) ==> Exclusive(Run(Step(s, Start), es))
  {
    KeepInv(s, Start);
    var t := Step(s, Start);
    if s.stops == 0 {
      KeepFair(s, Start);
      forall es: seq<Event> | OrderlyRun(t, es)
        ensures Exclusive(Run(t, es))
      {
        RunIsFair(t, es);
      }
    } else {
      forall w | w in t.slots
        ensures w.generation < t.generation
      {
        assert SlotOk(s, w);
      }
      LateStopBreaksExclusion(t);
    }
  }

  // ----------------------------------------------------------- readiness

  /** A worker neither sleeps past a job it may take nor wakes up for nothing:
      a job can be taken now exactly when the computed wake-up time has come. */
  lemma ReadyExactlyWhenDue(jobs: map<nat, Job>, q: seq<nat>, c: TrafficClass, gen: nat, keys: set<(nat, string)>, now: real)
    requires forall j :: j in q ==> j in jobs
    ensures
      var due := EarliestDue(jobs, q, c, gen, keys, 0);
      FirstDue(jobs, q, c, gen, keys, now, 0).Some? <==> due.Some? && due.value <= now
  {
  }
}
