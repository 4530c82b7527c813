/** What every event of the outbound scheduler keeps, and what follows for
    whole runs: no call is lost, none is answered twice, the queue bound holds,
    attempts are bounded, and a transport recycle is exclusive. */
module OutboundInvariants {
  import opened Wrappers
  import opened OutboundModel

  // ------------------------------------------------------------ invariant

  /** A non-idempotent job that may still be sent has only had attempts that
      cannot have acted. */
  ghost predicate Resendable(job: Job) {
    job.semantics == NonIdempotent ==> forall o :: o in job.history ==> Retriable(o)
  }

  ghost predicate HistoryOk(job: Job) {
    job.semantics == NonIdempotent ==>
      forall i :: 0 <= i < |job.history| - 1 ==> Retriable(job.history[i])
  }

  ghost predicate HeldBy(s: State, j: nat, w: Worker) {
    w in s.slots && s.slots[w].job == j
  }

  ghost predicate QueuedOk(s: State, c: TrafficClass, j: nat) {
    && j in s.jobs
    && var job := s.jobs[j];
    && job.cls == c && (job.future == Pending || job.future == Cancelled)
    && !job.started && job.attempts <= s.cfg.retries && Resendable(job)
  }

  ghost predicate QueueOk(s: State, c: TrafficClass) {
    NoDup(Of(s.queues, c)) && forall j :: j in Of(s.queues, c) ==> QueuedOk(s, c, j)
  }

  ghost predicate PhaseOk(s: State, job: Job, p: Phase) {
    match p
    case Pacing => !job.started && job.attempts <= s.cfg.retries && Resendable(job)
    case Ready => s.cfg.interval && !job.started && job.attempts <= s.cfg.retries && Resendable(job)
    case Waiting => job.started && |job.history| < job.attempts && Resendable(job)
    case InFlight => job.started && |job.history| < job.attempts && Resendable(job)
    case Leaving(o) => job.started && EndedIn(job, o)
    case Settling(o) => !job.started && EndedIn(job, o)
    case RecycleEnter(u) => !job.started && AfterNetwork(job, u)
    case RecycleWait(u) => !job.started && AfterNetwork(job, u)
    case RecycleRun(u) => !job.started && AfterNetwork(job, u)
    case RecycleLeaving(u, interrupted) =>
      !job.started && AfterNetwork(job, u) && (interrupted ==> job.future != Pending)
  }

  /** The last attempt ended this way; only an answered job is interrupted. */
  ghost predicate EndedIn(job: Job, o: Outcome) {
    |job.history| > 0 && o == job.history[|job.history| - 1] && (o == Interrupted ==> job.future != Pending)
  }

  /** The last attempt ended in a network error of this kind. */
  ghost predicate AfterNetwork(job: Job, unsent: bool) {
    |job.history| > 0 && job.history[|job.history| - 1] == Network(unsent)
  }

  ghost predicate SlotOk(s: State, w: Worker) {
    w in s.slots ==>
      var j := s.slots[w].job;
      && j in s.jobs
      && var job := s.jobs[j];
      && job.cls == w.cls && job.generation == w.generation
      && Exists(s, w)
      && j !in Of(s.queues, w.cls)
      && (w.generation != s.generation ==> job.future != Pending)
      && PhaseOk(s, job, s.slots[w].phase)
  }

  ghost predicate OneHolder(s: State) {
    forall w1, w2 :: w1 in s.slots && w2 in s.slots && s.slots[w1].job == s.slots[w2].job ==> w1 == w2
  }

  /** An unanswered call sits in its queue or with a worker of this generation. */
  ghost predicate Waits(s: State, j: nat)
    requires j in s.jobs
  {
    j in Of(s.queues, s.jobs[j].cls) || exists w :: HeldBy(s, j, w) && w.generation == s.generation
  }

  ghost predicate JobOk(s: State, j: nat) {
    j in s.jobs ==>
      var job := s.jobs[j];
      && j < s.counter
      && |job.history| <= job.attempts <= s.cfg.retries + 1
      && HistoryOk(job)
      && (job.future == Pending ==> !s.stopping && Waits(s, j))
  }

  ghost predicate LifeOk(s: State) {
    && (s.running ==> !s.stopping)
    && (!s.running && !s.stopping ==> s.jobs == map[])
    && (!s.running ==> forall c :: Of(s.queues, c) == [])
  }

  ghost predicate Conserved(s: State) {
    && (forall c :: QueueOk(s, c))
    && (forall w :: SlotOk(s, w))
    && OneHolder(s)
    && (forall j :: JobOk(s, j))
    && LifeOk(s)
  }

  // ----------------------------------------------------- building blocks

  lemma ConservedCloses(s: State)
    requires Conserved(s)
    ensures Closed(s)
  {
    forall c, j | j in Of(s.queues, c)
      ensures j in s.jobs
    {
      assert QueueOk(s, c);
    }
    forall w | w in s.slots
      ensures s.slots[w].job in s.jobs
    {
      assert SlotOk(s, w);
    }
  }

  /** The frame of every event that touches one job `j` and at most the one
      worker `w` that holds it: all other jobs, workers and queue entries keep
      their part of the invariant. */
  lemma Rebuild(s: State, t: State, j: nat, w: Worker)
    requires Conserved(s)
    requires t.cfg == s.cfg && t.counter == s.counter && t.generation == s.generation
    requires t.running == s.running && t.stopping == s.stopping
    requires j in s.jobs && j in t.jobs && t.jobs == s.jobs[j := t.jobs[j]] && t.jobs[j].cls == s.jobs[j].cls
    requires forall v :: v != w ==> (v in t.slots <==> v in s.slots)
    requires forall v :: v != w && v in s.slots ==> t.slots[v] == s.slots[v] && s.slots[v].job != j
    requires w in s.slots ==> s.slots[w].job == j
    requires w in t.slots ==> t.slots[w].job == j
    requires forall c :: NoDup(Of(t.queues, c))
    requires forall c, k :: k != j ==> (k in Of(t.queues, c) <==> k in Of(s.queues, c))
    requires forall c :: j in Of(t.queues, c) ==> QueuedOk(t, c, j)
    requires !s.running ==> t.queues == s.queues
    requires SlotOk(t, w) && JobOk(t, j)
    ensures Conserved(t)
  {
    forall c
      ensures QueueOk(t, c)
    {
      RebuildQueue(s, t, j, c);
    }
    forall v
      ensures SlotOk(t, v)
    {
      assert SlotOk(s, v);
    }
    forall k
      ensures JobOk(t, k)
    {
      if k != j { RebuildJob(s, t, j, w, k); }
    }
  }

  lemma RebuildQueue(s: State, t: State, j: nat, c: TrafficClass)
    requires QueueOk(s, c) && NoDup(Of(t.queues, c)) && t.cfg == s.cfg
    requires j in s.jobs && j in t.jobs && t.jobs == s.jobs[j := t.jobs[j]]
    requires forall k :: k != j ==> (k in Of(t.queues, c) <==> k in Of(s.queues, c))
    requires j in Of(t.queues, c) ==> QueuedOk(t, c, j)
    ensures QueueOk(t, c)
  {
    forall k | k in Of(t.queues, c)
      ensures QueuedOk(t, c, k)
    {
      if k != j { assert QueuedOk(s, c, k); }
    }
  }

  lemma RebuildJob(s: State, t: State, j: nat, w: Worker, k: nat)
    requires JobOk(s, k) && k != j && t.cfg == s.cfg && t.counter == s.counter
    requires t.generation == s.generation && t.stopping == s.stopping
    requires j in s.jobs && j in t.jobs && t.jobs == s.jobs[j := t.jobs[j]]
    requires forall v :: v != w && v in s.slots ==> v in t.slots && t.slots[v] == s.slots[v]
    requires w in s.slots ==> s.slots[w].job == j
    requires forall c, i :: i != j ==> (i in Of(t.queues, c) <==> i in Of(s.queues, c))
    ensures JobOk(t, k)
  {
    assert forall v :: HeldBy(s, k, v) ==> HeldBy(t, k, v);
  }

  lemma QueuesOk(s: State)
    requires Conserved(s)
    ensures forall c :: NoDup(Of(s.queues, c))
    ensures forall c, j :: j in Of(s.queues, c) ==> QueuedOk(s, c, j)
  {
    forall c
      ensures NoDup(Of(s.queues, c)) && forall j :: j in Of(s.queues, c) ==> QueuedOk(s, c, j)
    {
      assert QueueOk(s, c);
    }
  }

  /** Moving a worker to another phase, with any change to its own job record
      that the new phase allows. */
  lemma KeepMove(s: State, w: Worker, p: Phase, job: Job)
    requires Conserved(s) && w in s.slots && s.slots[w].job in s.jobs
    requires
      var before := s.jobs[s.slots[w].job];
      && job.(attempts := before.attempts, started := before.started, history := before.history) == before
      && PhaseOk(s, job, p) && |job.history| <= job.attempts <= s.cfg.retries + 1 && HistoryOk(job)
    ensures Conserved(At(s.(jobs := s.jobs[s.slots[w].job := job]), w, p))
  {
    var j := s.slots[w].job;
    var t := At(s.(jobs := s.jobs[j := job]), w, p);
    assert SlotOk(s, w) && JobOk(s, j);
    NotQueued(s, w);
    QueuesOk(s);
    assert forall v :: HeldBy(s, j, v) ==> HeldBy(t, j, v);
    Rebuild(s, t, j, w);
  }

  /** A held job is in no queue at all. */
  lemma NotQueued(s: State, w: Worker)
    requires Conserved(s) && w in s.slots
    ensures forall c :: s.slots[w].job !in Of(s.queues, c)
  {
    assert SlotOk(s, w);
    forall c
      ensures s.slots[w].job !in Of(s.queues, c)
    {
      assert QueueOk(s, c);
      assert s.slots[w].job in Of(s.queues, c) ==> QueuedOk(s, c, s.slots[w].job);
    }
  }

  /** A worker may drop a job once it has its answer. */
  lemma KeepExit(s: State, w: Worker)
    requires Conserved(s) && w in s.slots && s.slots[w].job in s.jobs
    requires s.jobs[s.slots[w].job].future != Pending
    ensures Conserved(Exit(s, w))
  {
    var j := s.slots[w].job;
    assert JobOk(s, j);
    NotQueued(s, w);
    QueuesOk(s);
    assert s.jobs == s.jobs[j := s.jobs[j]];
    Rebuild(s, Exit(s, w), j, w);
  }

  /** Answering a held job. */
  lemma KeepResolve(s: State, w: Worker, f: Future)
    requires Conserved(s) && w in s.slots && s.slots[w].job in s.jobs && f != Pending
    ensures Conserved(Resolve(s, s.slots[w].job, f))
  {
    var j := s.slots[w].job;
    var t := Resolve(s, j, f);
    assert SlotOk(s, w) && JobOk(s, j);
    NotQueued(s, w);
    QueuesOk(s);
    assert s.jobs == s.jobs[j := s.jobs[j]];
    Rebuild(s, t, j, w);
  }

  /** A current job goes from its worker straight to the end of its queue. */
  lemma KeepRequeue(s: State, w: Worker, due: real)
    requires Conserved(s) && w in s.slots && s.slots[w].job in s.jobs
    requires
      var job := s.jobs[s.slots[w].job];
      Current(s, s.slots[w].job) ==> !job.started && job.attempts <= s.cfg.retries && Resendable(job)
    ensures Conserved(Requeue(s, w, due))
  {
    var j := s.slots[w].job;
    assert SlotOk(s, w) && JobOk(s, j);
    if !Current(s, j) {
      KeepExit(s, w);
    } else {
      hide Of;
      var t := Requeue(s, w, due);
      NotQueued(s, w);
      QueuesOk(s);
      OfUpdate(s.queues, t.queues, w.cls, Of(s.queues, w.cls) + [j]);
      assert Of(t.queues, w.cls)[|Of(s.queues, w.cls)|] == j;
      assert QueuedOk(t, w.cls, j);
      Rebuild(s, t, j, w);
    }
  }

  /** Nothing in the invariant depends on keys or on the transport counters. */
  lemma KeepAside(s: State, t: State)
    requires Conserved(s)
    requires t == s.(keys := t.keys, failures := t.failures, inTransport := t.inTransport,
                     recycling := t.recycling, stops := t.stops)
    ensures Conserved(t)
  {
    forall c ensures QueueOk(t, c) { assert QueueOk(s, c); assert forall k :: QueuedOk(s, c, k) ==> QueuedOk(t, c, k); }
    forall w ensures SlotOk(t, w) { assert SlotOk(s, w); }
    forall k ensures JobOk(t, k) { assert JobOk(s, k); assert forall v :: HeldBy(s, k, v) ==> HeldBy(t, k, v); }
  }

  // ------------------------------------------------------------ handlers

  lemma KeepFinishJob(s: State, w: Worker, f: Future)
    requires Conserved(s) && w in s.slots && s.slots[w].job in s.jobs && f != Pending
    ensures Conserved(FinishJob(s, w, f))
  {
    var j := s.slots[w].job;
    assert SlotOk(s, w) && JobOk(s, j);
    if Current(s, j) {
      KeepResolve(s, w, f);
      KeepExit(Resolve(s, j, f), w);
    } else {
      KeepExit(s, w);
    }
  }

  /** When the last attempt is retriable, so is every attempt. */
  lemma AllButLast(job: Job)
    requires HistoryOk(job) && |job.history| > 0 && Retriable(job.history[|job.history| - 1])
    ensures Resendable(job)
  {
    if job.semantics == NonIdempotent {
      forall o | o in job.history
        ensures Retriable(o)
      {
        var i :| 0 <= i < |job.history| && job.history[i] == o;
      }
    }
  }

  lemma KeepNetworkTail(s: State, w: Worker, unsent: bool, now: real)
    requires Conserved(s) && w in s.slots && s.slots[w].job in s.jobs
    requires !s.jobs[s.slots[w].job].started && AfterNetwork(s.jobs[s.slots[w].job], unsent)
    ensures Conserved(NetworkTail(s, w, unsent, now))
  {
    var j := s.slots[w].job;
    var job := s.jobs[j];
    assert SlotOk(s, w) && JobOk(s, j);
    if !Current(s, j) {
      KeepExit(s, w);
    } else if job.semantics == NonIdempotent && !unsent {
      KeepFinishJob(s, w, Failed(Uncertain));
    } else if job.attempts <= s.cfg.retries {
      assert Resendable(job) by { if unsent { AllButLast(job); } }
      KeepRequeue(s, w, now + RetryDelay(job.attempts));
    } else {
      KeepFinishJob(s, w, Failed(Transport));
    }
  }

  lemma KeepSettle(s: State, w: Worker, now: real)
    requires Conserved(s) && w in s.slots && s.slots[w].job in s.jobs && s.slots[w].phase.Settling?
    ensures Conserved(Settle(s, w, s.slots[w].phase.outcome, now))
  {
    var j := s.slots[w].job;
    var job := s.jobs[j];
    var o := s.slots[w].phase.outcome;
    assert SlotOk(s, w) && JobOk(s, j);
    assert !Current(s, j) ==> job.future != Pending;
    assert |job.history| <= job.attempts <= s.cfg.retries + 1 && HistoryOk(job) && EndedIn(job, o) && !job.started;
    hide Conserved, SlotOk, JobOk, FinishJob, Requeue, NetworkTail, Exit, Resendable, HistoryOk;
    match o
    case Delivered =>
      if Current(s, j) {
        KeepAside(s, s.(failures := 0));
        KeepFinishJob(s.(failures := 0), w, Fulfilled);
      } else {
        KeepExit(s, w);
      }
    case RetryAfter(d) =>
      if job.attempts <= s.cfg.retries {
        AllButLast(job);
        KeepRequeue(s, w, now + Max(0.0, Max(0.0, d) + 0.1));
      } else {
        KeepFinishJob(s, w, Failed(Transport));
      }
    case Network(unsent) =>
      if Current(s, j) {
        var s1 := s.(failures := s.failures + 1);
        KeepAside(s, s1);
        if s1.failures >= 2 && s.cfg.canRecycle {
          KeepMove(s1, w, RecycleEnter(unsent), job);
          SameJob(s1, w);
        } else {
          KeepNetworkTail(s1, w, unsent, now);
        }
      } else {
        KeepExit(s, w);
      }
    case Interrupted => KeepExit(s, w);
    case _ => KeepFinishJob(s, w, Failed(Transport));
  }

  lemma KeepLeave(s: State, w: Worker, now: real)
    requires Conserved(s) && w in s.slots && s.slots[w].job in s.jobs && s.slots[w].phase.Leaving?
    ensures
      var o := s.slots[w].phase.outcome;
      Conserved(Settle(LeaveTransport(s, w, o), w, o, now))
  {
    var j := s.slots[w].job;
    var o := s.slots[w].phase.outcome;
    assert SlotOk(s, w) && JobOk(s, j);
    KeepMove(s, w, Settling(o), s.jobs[j].(started := false));
    var m := At(Stopped(s, j), w, Settling(o));
    KeepAside(m, LeaveTransport(s, w, o));
    KeepSettle(LeaveTransport(s, w, o), w, now);
  }

  lemma KeepAbortWaiting(s: State, w: Worker)
    requires Conserved(s) && Closed(s) && w in s.slots && s.slots[w].phase.Waiting?
    requires s.jobs[s.slots[w].job].future != Pending
    ensures Conserved(Exit(Stopped(s, s.slots[w].job), w))
  {
    var j := s.slots[w].job;
    var t := Exit(Stopped(s, j), w);
    assert JobOk(s, j);
    assert JobOk(t, j) && SlotOk(t, w);
    NotQueued(s, w);
    QueuesOk(s);
    hide Of, SlotOk, JobOk, Closed, LifeOk;
    Rebuild(s, t, j, w);
  }

  lemma StaleIsAnswered(s: State, w: Worker)
    requires Conserved(s) && Closed(s) && w in s.slots && Stale(s, w)
    ensures s.jobs[s.slots[w].job].future != Pending
  {
    assert SlotOk(s, w) && JobOk(s, s.slots[w].job);
  }

  lemma KeepAbort(s: State, w: Worker)
    requires Conserved(s) && Closed(s) && w in s.slots && Stale(s, w)
    ensures Conserved(AbortWorker(s, w))
  {
    var j := s.slots[w].job;
    var job := s.jobs[j];
    var p := s.slots[w].phase;
    assert SlotOk(s, w) && JobOk(s, j);
    StaleIsAnswered(s, w);
    SameJob(s, w);
    hide Conserved, SlotOk, Closed, Exit, At, Stale, Exists;
    if p.Waiting? {
      KeepAbortWaiting(s, w);
    } else if p.InFlight? {
      InterruptedHistory(job);
      KeepMove(s, w, Leaving(Interrupted), job.(history := job.history + [Interrupted]));
    } else if p.RecycleWait? || p.RecycleRun? {
      KeepMove(s, w, RecycleLeaving(p.knownUnsent, true), job);
    } else if p.Pacing? || p.Ready? || p.RecycleEnter? {
      KeepExit(s, w);
    }
  }

  lemma InterruptedHistory(job: Job)
    requires Resendable(job)
    ensures HistoryOk(job.(history := job.history + [Interrupted]))
  {
  }

  lemma SameJob(s: State, w: Worker)
    requires w in s.slots && s.slots[w].job in s.jobs
    ensures s.(jobs := s.jobs[s.slots[w].job := s.jobs[s.slots[w].job]]) == s
  {
    assert s.jobs[s.slots[w].job := s.jobs[s.slots[w].job]] == s.jobs;
  }

  lemma KeepAttempt(s: State, w: Worker)
    requires Conserved(s) && Closed(s) && w in s.slots && (s.slots[w].phase.Pacing? || s.slots[w].phase.Ready?)
    ensures Conserved(BeginAttempt(s, w))
  {
    var job := s.jobs[s.slots[w].job];
    assert SlotOk(s, w) && JobOk(s, s.slots[w].job);
    hide Conserved, SlotOk, Closed, Of, At, Exists;
    KeepMove(s, w, Waiting, job.(attempts := job.attempts + 1, started := true));
  }

  lemma KeepPass(s: State, w: Worker)
    requires Conserved(s) && Closed(s) && w in s.slots && s.slots[w].phase.Pacing?
    ensures Conserved(StepWorker(s, Pass(w)))
  {
    var j := s.slots[w].job;
    SameJob(s, w);
    assert SlotOk(s, w) && JobOk(s, j);
    assert !Current(s, j) ==> s.jobs[j].future != Pending;
    hide Conserved, SlotOk, JobOk, Closed, Of, At, Exit, BeginAttempt;
    if !Current(s, j) { KeepExit(s, w); }
    else if s.cfg.interval { KeepMove(s, w, Ready, s.jobs[j]); }
    else { KeepAttempt(s, w); }
  }

  lemma KeepEnter(s: State, w: Worker)
    requires Conserved(s) && Closed(s) && w in s.slots && s.slots[w].phase.Waiting?
    ensures Conserved(At(s.(inTransport := s.inTransport + 1), w, InFlight))
  {
    var j := s.slots[w].job;
    SameJob(s, w);
    assert SlotOk(s, w) && JobOk(s, j);
    hide Conserved, SlotOk, JobOk, Closed, Of;
    KeepMove(s, w, InFlight, s.jobs[j]);
    KeepAside(At(s, w, InFlight), At(s.(inTransport := s.inTransport + 1), w, InFlight));
  }

  lemma KeepFinish(s: State, w: Worker, o: Outcome)
    requires Conserved(s) && Closed(s) && w in s.slots && s.slots[w].phase.InFlight? && !o.Interrupted?
    ensures Conserved(LogOutcome(s, w, o))
  {
    var job := s.jobs[s.slots[w].job];
    assert SlotOk(s, w) && JobOk(s, s.slots[w].job);
    hide Conserved, SlotOk, Closed, Of, At, Exists;
    KeepMove(s, w, Leaving(o), job.(history := job.history + [o]));
  }

  lemma KeepStepWorker(s: State, e: Event)
    requires Conserved(s) && Closed(s)
    requires (e.Pass? || e.Begin? || e.Enter? || e.Finish? || e.Leave? || e.Abort?) && e.worker in s.slots
    ensures Conserved(StepWorker(s, e))
  {
    var w := e.worker;
    var p := s.slots[w].phase;
    assert s.slots[w].job in s.jobs;
    hide Conserved, Closed, At, Exit, BeginAttempt, LogOutcome, AbortWorker, Settle, LeaveTransport, Stale;
    if e.Pass? { if p.Pacing? { KeepPass(s, w); } }
    else if e.Begin? { if p.Ready? { KeepAttempt(s, w); } }
    else if e.Enter? { if p.Waiting? && !s.recycling { KeepEnter(s, w); } }
    else if e.Finish? { if p.InFlight? && !e.outcome.Interrupted? { KeepFinish(s, w, e.outcome); } }
    else if e.Leave? { if p.Leaving? { KeepLeave(s, w, e.now); } }
    else if Stale(s, w) { KeepAbort(s, w); }
  }

  lemma KeepEnterRecycle(s: State, w: Worker, now: real)
    requires Conserved(s) && Closed(s) && w in s.slots && s.slots[w].phase.RecycleEnter?
    ensures Conserved(StepRecycle(s, EnterRecycle(w, now)))
  {
    var job := s.jobs[s.slots[w].job];
    var u := s.slots[w].phase.knownUnsent;
    SameJob(s, w);
    assert SlotOk(s, w) && JobOk(s, s.slots[w].job);
    hide Conserved, SlotOk, JobOk, Closed, Of, NetworkTail;
    if s.recycling {
      KeepNetworkTail(s, w, u, now);
    } else {
      KeepMove(s, w, RecycleWait(u), job);
      KeepAside(At(s, w, RecycleWait(u)), StepRecycle(s, EnterRecycle(w, now)));
    }
  }

  lemma KeepLeaveRecycle(s: State, w: Worker, now: real)
    requires Conserved(s) && Closed(s) && w in s.slots && s.slots[w].phase.RecycleLeaving?
    ensures Conserved(StepRecycle(s, LeaveRecycle(w, now)))
  {
    assert SlotOk(s, w);
    var t := s.(recycling := false);
    hide Conserved, SlotOk, Closed, Of, NetworkTail, Exit;
    KeepAside(s, t);
    if s.slots[w].phase.interrupted { KeepExit(t, w); }
    else { KeepNetworkTail(t, w, s.slots[w].phase.knownUnsent, now); }
  }

  lemma KeepStepRecycle(s: State, e: Event)
    requires Conserved(s) && Closed(s)
    requires (e.EnterRecycle? || e.RunRecycle? || e.FinishRecycle? || e.LeaveRecycle?) && e.worker in s.slots
    ensures Conserved(StepRecycle(s, e))
  {
    var w := e.worker;
    var job := s.jobs[s.slots[w].job];
    var p := s.slots[w].phase;
    SameJob(s, w);
    assert SlotOk(s, w) && JobOk(s, s.slots[w].job);
    hide Conserved, SlotOk, JobOk, Closed, Of;
    if e.EnterRecycle? {
      if p.RecycleEnter? { hide StepRecycle; KeepEnterRecycle(s, w, e.now); }
    } else if e.RunRecycle? {
      if p.RecycleWait? && s.inTransport == 0 { KeepMove(s, w, RecycleRun(p.knownUnsent), job); }
    } else if e.FinishRecycle? {
      if p.RecycleRun? {
        KeepMove(s, w, RecycleLeaving(p.knownUnsent, false), job);
        KeepAside(At(s, w, RecycleLeaving(p.knownUnsent, false)), StepRecycle(s, e));
      }
    } else if p.RecycleLeaving? {
      hide StepRecycle;
      KeepLeaveRecycle(s, w, e.now);
    }
  }

  // ------------------------------------------------- taking and admitting

  lemma RemoveAt(q: seq<nat>, i: nat)
    requires NoDup(q) && i < |q|
    ensures var r := q[..i] + q[i + 1..]; NoDup(r) && forall k :: k in r <==> k in q && k != q[i]
  {
    var r := q[..i] + q[i + 1..];
    assert forall k :: 0 <= k < |r| ==> r[k] == q[if k < i then k else k + 1];
    forall k | k in q && k != q[i]
      ensures k in r
    {
      var x :| 0 <= x < |q| && q[x] == k;
      assert r[if x < i then x else x - 1] == k;
    }
  }

  /** Everything a take changes. */
  lemma TakeAtIs(s: State, w: Worker, i: nat)
    requires Closed(s) && i < |Of(s.queues, w.cls)|
    ensures
      var t := TakeAt(s, w, i);
      var q := Of(s.queues, w.cls);
      && q[i] in s.jobs && q[i] in t.jobs
      && t == s.(queues := s.queues[w.cls := q[..i] + q[i + 1..]], keys := t.keys, jobs := t.jobs, slots := t.slots)
      && t.jobs == s.jobs[q[i] := t.jobs[q[i]]]
      && t.jobs[q[i]] == s.jobs[q[i]].(generation := w.generation, future := t.jobs[q[i]].future)
      && (if w.generation != s.generation || s.stopping
          then t.slots == s.slots && t.jobs[q[i]].future == (if s.jobs[q[i]].future == Pending then Failed(Stopping) else s.jobs[q[i]].future)
          else if s.jobs[q[i]].future == Cancelled then t.slots == s.slots && t.jobs[q[i]].future == Cancelled
          else t.slots == s.slots[w := Slot(q[i], Pacing)] && t.jobs[q[i]].future == s.jobs[q[i]].future)
  {
    assert Of(s.queues, w.cls)[i] in s.jobs;
    hide Closed, Exists, Of;
  }

  /** The job that was taken is with its worker, or answered. */
  lemma TakenIsOk(s: State, w: Worker, i: nat)
    requires Conserved(s) && Closed(s) && w !in s.slots && Exists(s, w) && i < |Of(s.queues, w.cls)|
    requires var t := TakeAt(s, w, i); forall c :: Of(s.queues, w.cls)[i] !in Of(t.queues, c)
    ensures
      var t := TakeAt(s, w, i);
      SlotOk(t, w) && JobOk(t, Of(s.queues, w.cls)[i])
  {
    var j := Of(s.queues, w.cls)[i];
    var t := TakeAt(s, w, i);
    TakeAtIs(s, w, i);
    QueuedNotHeld(s, w.cls, j);
    assert JobOk(s, j);
    hide Of, TakeAt, Closed, Conserved;
    assert w in t.slots ==> HeldBy(t, j, w);
  }

  lemma KeepTakeAt(s: State, w: Worker, i: nat)
    requires Conserved(s) && Closed(s) && w !in s.slots && Exists(s, w) && i < |Of(s.queues, w.cls)|
    ensures Conserved(TakeAt(s, w, i))
  {
    var q := Of(s.queues, w.cls);
    var j := q[i];
    var t := TakeAt(s, w, i);
    assert LifeOk(s);
    hide Of, TakeAt, Closed, Conserved, QueueOk, SlotOk, JobOk, QueuedOk, Exists;
    QueuesOk(s);
    RemoveAt(q, i);
    QueuedNotHeld(s, w.cls, j);
    TakeAtIs(s, w, i);
    OfUpdate(s.queues, t.queues, w.cls, q[..i] + q[i + 1..]);
    TakenIsOk(s, w, i);
    Rebuild(s, t, j, w);
  }

  lemma QueuedNotHeld(s: State, c: TrafficClass, j: nat)
    requires Conserved(s) && j in Of(s.queues, c)
    ensures QueuedOk(s, c, j)
    ensures forall v :: v in s.slots ==> s.slots[v].job != j
    ensures forall d :: d != c ==> j !in Of(s.queues, d)
  {
    QueuesOk(s);
    forall v | v in s.slots
      ensures s.slots[v].job != j
    {
      NotQueued(s, v);
    }
    forall d | d != c
      ensures j !in Of(s.queues, d)
    {
      assert j in Of(s.queues, d) ==> QueuedOk(s, d, j);
    }
  }

  lemma KeepTake(s: State, w: Worker, now: real)
    requires Conserved(s) && Closed(s)
    ensures Conserved(TakeJob(s, w, now))
  {
    if w !in s.slots && Exists(s, w) {
      match FirstDue(s.jobs, Of(s.queues, w.cls), w.cls, w.generation, s.keys, now, 0)
      case None =>
      case Some(i) => KeepTakeAt(s, w, i);
    }
  }

  lemma KeepCancel(s: State, j: nat)
    requires Conserved(s) && j in s.jobs
    ensures Conserved(Resolve(s, j, Cancelled))
  {
    var t := Resolve(s, j, Cancelled);
    hide Of;
    forall c ensures QueueOk(t, c) { assert QueueOk(s, c); assert forall k :: QueuedOk(s, c, k) ==> QueuedOk(t, c, k); }
    forall w ensures SlotOk(t, w) { CancelKeepsSlot(s, j, w); }
    forall k ensures JobOk(t, k) { assert JobOk(s, k); assert forall v :: HeldBy(s, k, v) ==> HeldBy(t, k, v); }
    hide QueueOk, SlotOk, JobOk;
  }

  lemma CancelKeepsSlot(s: State, j: nat, w: Worker)
    requires SlotOk(s, w) && j in s.jobs
    ensures SlotOk(Resolve(s, j, Cancelled), w)
  {
    hide Of;
  }

  lemma WithoutKeepsOrder(jobs: map<nat, Job>, q: seq<nat>, key: Option<CoalesceKey>)
    requires NoDup(q) && forall j :: j in q ==> j in jobs
    ensures NoDup(Without(jobs, q, key))
  {
    if key != None && q != [] {
      WithoutKeepsOrder(jobs, q[1..], key);
      assert q[0] !in q[1..];
    }
  }

  lemma SupersedeQueue(s: State, key: Option<CoalesceKey>, c: TrafficClass)
    requires Closed(s)
    ensures Of(Supersede(s, key).queues, c) == Without(s.jobs, Of(s.queues, c), key)
  {
    match c { case CallbackAck => case Interactive => case Media => case Maintenance => }
  }

  lemma KeepSupersede(s: State, key: Option<CoalesceKey>)
    requires Conserved(s) && Closed(s)
    ensures Conserved(Supersede(s, key))
  {
    var t := Supersede(s, key);
    forall c
      ensures QueueOk(t, c)
    {
      SupersedeKeepsQueue(s, key, c);
    }
    forall w
      ensures SlotOk(t, w)
    {
      assert SlotOk(s, w);
      SupersedeQueue(s, key, w.cls);
    }
    forall j
      ensures JobOk(t, j)
    {
      SupersedeKeepsJob(s, key, j);
    }
  }

  lemma SupersedeKeepsQueue(s: State, key: Option<CoalesceKey>, c: TrafficClass)
    requires Conserved(s) && Closed(s)
    ensures QueueOk(Supersede(s, key), c)
  {
    var t := Supersede(s, key);
    assert QueueOk(s, c);
    SupersedeQueue(s, key, c);
    WithoutKeepsOrder(s.jobs, Of(s.queues, c), key);
    forall j | j in Of(t.queues, c)
      ensures QueuedOk(t, c, j)
    {
      assert QueuedOk(s, c, j);
    }
  }

  lemma SupersedeKeepsJob(s: State, key: Option<CoalesceKey>, j: nat)
    requires Conserved(s) && Closed(s)
    ensures JobOk(Supersede(s, key), j)
  {
    var t := Supersede(s, key);
    assert JobOk(s, j);
    if j in s.jobs && t.jobs[j].future == Pending {
      var c := s.jobs[j].cls;
      SupersedeQueue(s, key, c);
      if j in Of(s.queues, c) {
        assert QueueOk(s, c) && QueuedOk(s, c, j);
      } else {
        var w :| HeldBy(s, j, w) && w.generation == s.generation;
        assert HeldBy(t, j, w);
      }
    }
  }

  lemma FreshNumber(s: State)
    requires Conserved(s)
    ensures s.counter !in s.jobs && forall w :: w in s.slots ==> s.slots[w].job != s.counter
  {
    assert JobOk(s, s.counter);
    forall w | w in s.slots ensures s.slots[w].job != s.counter { assert SlotOk(s, w); }
  }

  /** What a submission adds once the edits it replaces are gone. */
  lemma AdmitIs(s: State, e: Event)
    requires Closed(s) && e.Submit? && Accepts(s, EffectiveKey(e.semantics, e.coalesce))
    ensures
      var s1 := Supersede(s, EffectiveKey(e.semantics, e.coalesce));
      var s2 := s1.(counter := s1.counter + 1);
      Admit(s, e) == if e.semantics == NonIdempotent && e.journalFails then s2 else Enlist(s2, s.counter, NewJob(s, e))
  {
    hide Enlist, Supersede, Accepts, NewJob, Closed, Of;
  }

  lemma KeepNewCall(s: State, job: Job)
    requires Conserved(s) && s.counter !in s.jobs && s.running && !s.stopping
    requires forall w :: w in s.slots ==> s.slots[w].job != s.counter
    requires job.attempts == 0 && !job.started && job.future == Pending && job.history == []
    ensures
      var s2 := s.(counter := s.counter + 1);
      && Conserved(s2)
      && Conserved(Enlist(s2, s.counter, job))
  {
    hide *;
    KeepCounter(s);
    KeepAppend(s.(counter := s.counter + 1), s.counter, job);
  }

  lemma NewJobIsFresh(s: State, e: Event)
    requires e.Submit?
    ensures
      var job := NewJob(s, e);
      job.cls == e.cls && job.attempts == 0 && !job.started && job.future == Pending && job.history == []
  {
  }

  lemma KeepAdmit(s: State, e: Event)
    requires Conserved(s) && Closed(s) && e.Submit?
    ensures Conserved(Admit(s, e))
  {
    var key := EffectiveKey(e.semantics, e.coalesce);
    if Accepts(s, key) {
      assert s.running && !s.stopping;
      hide *;
      FreshNumber(s);
      KeepSupersede(s, key);
      NewJobIsFresh(s, e);
      KeepNewCall(Supersede(s, key), NewJob(s, e));
      AdmitIs(s, e);
    }
  }

  lemma KeepCounter(s: State)
    requires Conserved(s)
    ensures Conserved(s.(counter := s.counter + 1))
  {
    var t := s.(counter := s.counter + 1);
    QueuesOk(s);
    forall c ensures QueueOk(t, c) { assert forall j :: QueuedOk(s, c, j) ==> QueuedOk(t, c, j); }
    forall w ensures SlotOk(t, w) { assert SlotOk(s, w); }
    forall j ensures JobOk(t, j) { assert JobOk(s, j); assert forall v :: HeldBy(s, j, v) ==> HeldBy(t, j, v); }
  }

  /** A fresh call joins the end of its queue. */
  lemma KeepAppend(s: State, n: nat, job: Job)
    requires Conserved(s) && n < s.counter && n !in s.jobs && s.running && !s.stopping
    requires job.attempts == 0 && !job.started && job.future == Pending && job.history == []
    requires forall w :: w in s.slots ==> s.slots[w].job != n
    ensures Conserved(Enlist(s, n, job))
  {
    var t := Enlist(s, n, job);
    QueuesOk(s);
    forall c
      ensures QueueOk(t, c)
    {
      assert NoDup(Of(s.queues, c));
      forall j | j in Of(s.queues, c)
        ensures j != n && QueuedOk(t, c, j)
      {
        assert QueuedOk(s, c, j);
      }
      assert QueuedOk(t, job.cls, n);
    }
    forall w
      ensures SlotOk(t, w)
    {
      assert SlotOk(s, w);
      assert forall j :: j in Of(t.queues, w.cls) ==> j == n || j in Of(s.queues, w.cls);
    }
    assert Of(t.queues, job.cls)[|Of(s.queues, job.cls)|] == n;
    forall j
      ensures JobOk(t, j)
    {
      assert JobOk(s, j);
      assert forall v :: HeldBy(s, j, v) ==> HeldBy(t, j, v);
      assert forall c :: j in Of(s.queues, c) ==> j in Of(t.queues, c);
    }
  }

  lemma KeepStart(s: State)
    requires Conserved(s) && !s.running
    ensures Conserved(StepLifecycle(s, Start))
  {
    var t := StepLifecycle(s, Start);
    QueuesOk(s);
    forall j
      ensures JobOk(t, j)
    {
      assert JobOk(s, j);
    }
    forall w
      ensures SlotOk(t, w)
    {
      assert SlotOk(s, w);
      assert w in s.slots ==> JobOk(s, s.slots[w].job);
    }
    forall c
      ensures QueueOk(t, c)
    {
      assert forall j :: j in Of(s.queues, c) ==> QueuedOk(t, c, j);
    }
  }

  lemma StopIs(s: State)
    ensures
      var t := StepLifecycle(s, StopBegin);
      && t.cfg == s.cfg && t.slots == s.slots && t.generation == s.generation + 1 && !t.running && t.jobs.Keys == s.jobs.Keys
      && forall j :: j in s.jobs ==> t.jobs[j] == s.jobs[j].(future := t.jobs[j].future)
  {
    hide HeldIds, QueuedIds;
  }

  lemma AnsweredKeepsPhase(s: State, t: State, job: Job, future: Future, p: Phase)
    requires PhaseOk(s, job, p) && t.cfg == s.cfg && future != Pending
    ensures PhaseOk(t, job.(future := future), p)
  {
  }

  lemma StopKeepsSlot(s: State, w: Worker)
    requires Conserved(s)
    ensures SlotOk(StepLifecycle(s, StopBegin), w)
  {
    var t := StepLifecycle(s, StopBegin);
    assert SlotOk(s, w);
    StopAnswersAll(s);
    StopIs(s);
    hide StepLifecycle, Conserved, PhaseOk, Of;
    if w in s.slots {
      var job := s.jobs[s.slots[w].job];
      AnsweredKeepsPhase(s, t, job, t.jobs[s.slots[w].job].future, s.slots[w].phase);
    }
  }

  lemma StopKeepsJob(s: State, j: nat)
    requires Conserved(s)
    ensures JobOk(StepLifecycle(s, StopBegin), j)
  {
    assert JobOk(s, j);
    StopAnswersAll(s);
    hide HeldIds, QueuedIds, QueueOk, SlotOk, Of;
  }

  lemma KeepStop(s: State)
    requires Conserved(s)
    ensures Conserved(StepLifecycle(s, StopBegin))
  {
    var t := StepLifecycle(s, StopBegin);
    StopAnswersAll(s);
    forall w ensures SlotOk(t, w) { StopKeepsSlot(s, w); }
    forall j ensures JobOk(t, j) { StopKeepsJob(s, j); }
    hide SlotOk, JobOk, FailAll, Of;
    assert forall c :: QueueOk(t, c);
  }

  /** `stop` leaves no call unanswered. */
  lemma StopAnswersAll(s: State)
    requires Conserved(s)
    ensures
      var t := StepLifecycle(s, StopBegin);
      && (forall j :: j in t.jobs ==> t.jobs[j].future != Pending)
      && (forall c :: Of(t.queues, c) == [])
  {
    var t := StepLifecycle(s, StopBegin);
    forall j | j in t.jobs
      ensures t.jobs[j].future != Pending
    {
      assert JobOk(s, j);
      var c := s.jobs[j].cls;
      if s.jobs[j].future == Pending {
        if j in Of(s.queues, c) {
          assert c in s.queues && j in s.queues[c];
        } else {
          var w :| HeldBy(s, j, w);
          assert j in HeldIds(s.slots);
        }
      }
    }
    assert forall c :: Of(t.queues, c) == [];
  }

  lemma NoQueuesIsEmpty(c: TrafficClass)
    ensures Of(NoQueues, c) == []
  {
    match c { case CallbackAck => case Interactive => case Media => case Maintenance => }
  }

  // ------------------------------------------------------------- results

  lemma KeepConserved(s: State, e: Event)
    requires Conserved(s) && Closed(s)
    ensures Conserved(Step(s, e)) && Closed(Step(s, e))
  {
    if e.Submit? { KeepAdmit(s, e); }
    else if e.CallerCancels? { if e.job in s.jobs { KeepCancel(s, e.job); } }
    else if e.Take? { KeepTake(s, e.worker, e.now); }
    else if e.Start? { if !s.running { KeepStart(s); } }
    else if e.StopBegin? { KeepStop(s); }
    else if e.StopEnd? { KeepAside(s, StepLifecycle(s, e)); }
    else if e.worker in s.slots {
      if e.EnterRecycle? || e.RunRecycle? || e.FinishRecycle? || e.LeaveRecycle? { KeepStepRecycle(s, e); }
      else { KeepStepWorker(s, e); }
    }
    ConservedCloses(Step(s, e));
  }
}
