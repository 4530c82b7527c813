/** Which answer a call gets, told by events, transport outcomes and waiting
    places alone. */
module OutboundAnswers {
  import opened Wrappers
  import opened OutboundModel
  import opened OutboundInvariants
  import opened OutboundTransport
  import opened OutboundOrdering
  import opened OutboundResults
  import Text

  // ------------------------------------------------------------ vocabulary

  ghost predicate Awaits(s: State, j: nat) { j in s.jobs && s.jobs[j].future == Pending }

  predicate WorkerEvent(e: Event) {
    !e.Submit? && !e.CallerCancels? && !e.Take? && !e.Start? && !e.StopBegin? && !e.StopEnd?
  }

  /** The phase of call `j` with the worker this event is for. */
  ghost function PhaseAt(s: State, e: Event, j: nat): Option<Phase> {
    if WorkerEvent(e) && e.worker in s.slots && s.slots[e.worker].job == j then Some(s.slots[e.worker].phase) else None
  }

  /** The outcome of the attempt that leaves the transport at this event. */
  ghost function EndedBy(s: State, e: Event, j: nat): Option<Outcome> {
    match PhaseAt(s, e, j)
    case Some(Leaving(o)) => if e.Leave? then Some(o) else None
    case _ => None
  }

  /** At this event a network error of the call has run its course: at once
      (first failure in a row, or no way to recycle), behind another worker's
      recycle, or behind its own. The answer tells whether the request was known
      to be unsent. */
  ghost function ErrorSettled(s: State, e: Event, j: nat): Option<bool> {
    match PhaseAt(s, e, j)
    case Some(Leaving(Network(unsent))) =>
      if e.Leave? && (s.failures == 0 || !s.cfg.canRecycle) then Some(unsent) else None
    case Some(RecycleEnter(unsent)) => if e.EnterRecycle? && s.recycling then Some(unsent) else None
    case Some(RecycleLeaving(unsent, false)) => if e.LeaveRecycle? then Some(unsent) else None
    case _ => None
  }

  ghost predicate Exhausted(s: State, j: nat)
    requires j in s.jobs
  {
    s.jobs[j].attempts > s.cfg.retries
  }

  /** A repeat after this network error could act twice. */
  ghost predicate Risky(s: State, j: nat, unsent: bool)
    requires j in s.jobs
  {
    s.jobs[j].semantics == NonIdempotent && !unsent
  }

  /** One second, doubled with every attempt, at most a minute. */
  function Backoff(attempts: nat): real {
    match attempts
    case 0 => 1.0 case 1 => 1.0 case 2 => 2.0 case 3 => 4.0 case 4 => 8.0 case 5 => 16.0 case 6 => 32.0 case _ => 60.0
  }

  /** The call waits at the end of its own class queue, without a worker, until
      `due`. */
  ghost predicate BackInLine(s: State, t: State, j: nat, due: real) {
    && j in s.jobs && Awaits(t, j) && t.jobs[j].dueAt == due
    && Of(t.queues, s.jobs[j].cls) == Of(s.queues, s.jobs[j].cls) + [j]
    && forall w :: !HeldBy(t, j, w)
  }

  // ----------------------------------------------------------- consequences

  lemma {:induction false} Doubles(n: nat)
    ensures n >= 6 ==> Pow2(n) >= 64
  {
    if n > 6 { Doubles(n - 1); }
    assert n == 6 ==> Pow2(n) == 64 by { assert Pow2(2) == 4 && Pow2(4) == 16; }
  }

  lemma BackoffIs(attempts: nat)
    ensures RetryDelay(attempts) == Backoff(attempts)
  {
    if attempts >= 7 {
      Doubles(attempts - 1);
    } else {
      assert Pow2(2) == 4 && Pow2(4) == 16;
    }
  }

  /** What is known of a call that awaits its answer with worker `w`. */
  lemma HeldIsCurrent(s: State, w: Worker)
    requires Inv(s) && w in s.slots && Awaits(s, s.slots[w].job)
    ensures
      var j := s.slots[w].job;
      && Current(s, j) && w.generation == s.generation && s.running
      && (forall v :: HeldBy(s, j, v) ==> v == w) && (forall c :: j !in Of(s.queues, c))
      && PhaseOk(s, s.jobs[j], s.slots[w].phase)
      && s.jobs[j].cls == w.cls && s.jobs[j].generation == w.generation
  {
    var j := s.slots[w].job;
    assert SlotOk(s, w) && JobOk(s, j);
    NotQueued(s, w);
    hide QueueOk, SlotOk, JobOk, PhaseOk;
  }

  /** Finishing a current call gives exactly this answer. */
  lemma FinishSays(s: State, w: Worker, f: Future)
    requires w in s.slots && s.slots[w].job in s.jobs && Current(s, s.slots[w].job)
    ensures
      var t := FinishJob(s, w, f);
      s.slots[w].job in t.jobs && t.jobs[s.slots[w].job] == s.jobs[s.slots[w].job].(future := f)
      && t.queues == s.queues && t.failures == s.failures && t.slots == s.slots - {w}
  {
  }

  lemma RequeueSays(s: State, w: Worker, due: real)
    requires w in s.slots && s.slots[w].job in s.jobs && Current(s, s.slots[w].job)
    requires forall v :: HeldBy(s, s.slots[w].job, v) ==> v == w
    ensures BackInLine(s, Requeue(s, w, due), s.slots[w].job, due)
    ensures Requeue(s, w, due).failures == s.failures && s.slots[w].job in Requeue(s, w, due).jobs
  {
    var j := s.slots[w].job;
    var c := s.jobs[j].cls;
    var t := Requeue(s, w, due);
    OfUpdate(s.queues, s.queues[c := Of(s.queues, c) + [j]], c, Of(s.queues, c) + [j]);
    assert t.slots == s.slots - {w};
    forall v ensures !HeldBy(t, j, v) { assert HeldBy(t, j, v) ==> HeldBy(s, j, v); }
  }

  lemma TailSays(s: State, w: Worker, unsent: bool, now: real)
    requires w in s.slots && s.slots[w].job in s.jobs && Current(s, s.slots[w].job)
    requires forall v :: HeldBy(s, s.slots[w].job, v) ==> v == w
    ensures
      var t := NetworkTail(s, w, unsent, now);
      var j := s.slots[w].job;
      && j in t.jobs && t.failures == s.failures
      && (Risky(s, j, unsent) ==> t.jobs[j].future == Failed(Uncertain) && t.queues == s.queues)
      && (!Risky(s, j, unsent) && Exhausted(s, j) ==> t.jobs[j].future == Failed(Transport) && t.queues == s.queues)
      && (!Risky(s, j, unsent) && !Exhausted(s, j) ==> BackInLine(s, t, j, now + Backoff(s.jobs[j].attempts)))
  {
    hide FinishJob, Requeue, BackInLine, Exit, RetryDelay, Backoff;
    var j := s.slots[w].job;
    BackoffIs(s.jobs[j].attempts);
    FinishSays(s, w, Failed(Uncertain));
    FinishSays(s, w, Failed(Transport));
    RequeueSays(s, w, now + RetryDelay(s.jobs[j].attempts));
    assert BackInLine(s, Requeue(s, w, now + RetryDelay(s.jobs[j].attempts)), j, now + Backoff(s.jobs[j].attempts));
  }

  /** The operation has left the transport; its outcome decides. */
  lemma SettleSays(s: State, w: Worker, o: Outcome, now: real)
    requires w in s.slots && s.slots[w].job in s.jobs && Current(s, s.slots[w].job) && !o.Interrupted? && !o.Network?
    requires forall v :: HeldBy(s, s.slots[w].job, v) ==> v == w
    ensures
      var t := Settle(s, w, o, now);
      var j := s.slots[w].job;
      && j in t.jobs
      && (o.Delivered? ==> t.jobs[j].future == Fulfilled && t.failures == 0)
      && (o.Rejected? || o.TelegramFailure? || o.Unexpected? ==> t.jobs[j].future == Failed(Transport))
      && (o.RetryAfter? && Exhausted(s, j) ==> t.jobs[j].future == Failed(Transport))
      && (o.RetryAfter? && !Exhausted(s, j) ==> BackInLine(s, t, j, now + (if o.seconds < 0.0 then 0.0 else o.seconds) + 0.1))
  {
    hide FinishJob, Requeue, BackInLine, Exit, NetworkTail, At;
    FinishSays(s, w, Failed(Transport));
    match o
    case Delivered => FinishSays(s.(failures := 0), w, Fulfilled);
    case RetryAfter(d) => RequeueSays(s, w, now + Max(0.0, Max(0.0, d) + 0.1));
    case _ =>
  }

  lemma SettleErrorSays(s: State, w: Worker, unsent: bool, now: real)
    requires w in s.slots && s.slots[w].job in s.jobs && Current(s, s.slots[w].job)
    requires forall v :: HeldBy(s, s.slots[w].job, v) ==> v == w
    ensures
      var t := Settle(s, w, Network(unsent), now);
      var j := s.slots[w].job;
      && j in t.jobs && t.failures == s.failures + 1
      && (if s.failures > 0 && s.cfg.canRecycle
          then t == s.(failures := s.failures + 1, slots := s.slots[w := Slot(j, RecycleEnter(unsent))])
          else t == NetworkTail(s.(failures := s.failures + 1), w, unsent, now))
  {
    var m := s.(failures := s.failures + 1);
    assert forall v :: HeldBy(m, s.slots[w].job, v) ==> HeldBy(s, s.slots[w].job, v);
    TailSays(m, w, unsent, now);
    hide NetworkTail;
  }

  // -------------------------------------------------------- one worker event

  /** The state in which the outcome of a finished attempt is acted upon. */
  lemma LeavingIs(s: State, w: Worker, o: Outcome)
    requires Inv(s) && w in s.slots && Awaits(s, s.slots[w].job) && s.slots[w].phase == Leaving(o)
    ensures
      var j := s.slots[w].job;
      var m := LeaveTransport(s, w, o);
      && w in m.slots && m.slots[w].job == j && j in m.jobs && m.jobs[j] == s.jobs[j].(started := false) && Current(m, j)
      && m.queues == s.queues && m.failures == s.failures && m.cfg == s.cfg && m.generation == s.generation
      && (forall v :: HeldBy(m, j, v) ==> v == w) && !o.Interrupted?
  {
    HeldIsCurrent(s, w);
    var j := s.slots[w].job;
    var m := LeaveTransport(s, w, o);
    assert forall v :: HeldBy(m, j, v) ==> HeldBy(s, j, v);
    hide Inv;
  }

  lemma LeaveSays(s: State, e: Event, j: nat)
    requires Inv(s) && Awaits(s, j) && EndedBy(s, e, j).Some? && !EndedBy(s, e, j).value.Network?
    ensures
      var t := Step(s, e);
      var o := EndedBy(s, e, j).value;
      && j in t.jobs && !o.Interrupted?
      && (o.Delivered? ==> t.jobs[j].future == Fulfilled && t.failures == 0)
      && (o.Rejected? || o.TelegramFailure? || o.Unexpected? ==> t.jobs[j].future == Failed(Transport))
      && (o.RetryAfter? && Exhausted(s, j) ==> t.jobs[j].future == Failed(Transport))
      && (o.RetryAfter? && !Exhausted(s, j) ==> BackInLine(s, t, j, e.now + (if o.seconds < 0.0 then 0.0 else o.seconds) + 0.1))
  {
    var w, o := e.worker, EndedBy(s, e, j).value;
    LeavingIs(s, w, o);
    SettleSays(LeaveTransport(s, w, o), w, o, e.now);
    hide Inv, Settle, LeaveTransport;
  }

  /** What a network error that has run its course comes to. */
  ghost predicate Concluded(s: State, e: Event, t: State, j: nat, unsent: bool)
    requires j in s.jobs && (e.Leave? || e.EnterRecycle? || e.LeaveRecycle?)
  {
    && j in t.jobs
    && (Risky(s, j, unsent) ==> t.jobs[j].future == Failed(Uncertain))
    && (!Risky(s, j, unsent) && Exhausted(s, j) ==> t.jobs[j].future == Failed(Transport))
    && (!Risky(s, j, unsent) && !Exhausted(s, j) ==> BackInLine(s, t, j, e.now + Backoff(s.jobs[j].attempts)))
  }

  lemma ErrorEffects(m: State, w: Worker, unsent: bool, now: real)
    requires w in m.slots && m.slots[w].job in m.jobs && Current(m, m.slots[w].job)
    requires forall v :: HeldBy(m, m.slots[w].job, v) ==> v == w
    ensures
      var j := m.slots[w].job;
      var t := Settle(m, w, Network(unsent), now);
      && j in t.jobs && t.failures == m.failures + 1
      && (m.failures > 0 && m.cfg.canRecycle ==>
            t.jobs[j].future == m.jobs[j].future && Lookup(t.slots, w) == Some(Slot(j, RecycleEnter(unsent))))
      && (m.failures == 0 || !m.cfg.canRecycle ==> Concluded(m, Leave(w, now), t, j, unsent))
  {
    SettleErrorSays(m, w, unsent, now);
    var n := m.(failures := m.failures + 1);
    assert forall v :: HeldBy(n, m.slots[w].job, v) ==> HeldBy(m, m.slots[w].job, v);
    TailSays(n, w, unsent, now);
    hide Settle, NetworkTail;
  }

  /** The conclusion depends on these parts of the state only. */
  lemma SameConclusion(s: State, m: State, e: Event, t: State, j: nat, unsent: bool)
    requires j in s.jobs && j in m.jobs && (e.Leave? || e.EnterRecycle? || e.LeaveRecycle?) && Concluded(m, e, t, j, unsent)
    requires m.jobs[j] == s.jobs[j].(started := m.jobs[j].started) && m.queues == s.queues && m.cfg == s.cfg
    ensures Concluded(s, e, t, j, unsent)
  {
    hide Backoff, Of;
  }

  lemma LeaveErrorSays(s: State, e: Event, j: nat)
    requires Inv(s) && Awaits(s, j) && EndedBy(s, e, j).Some? && EndedBy(s, e, j).value.Network?
    ensures
      var t := Step(s, e);
      var unsent := EndedBy(s, e, j).value.knownUnsent;
      && j in t.jobs && t.failures == s.failures + 1
      && (s.failures > 0 && s.cfg.canRecycle ==>
            t.jobs[j].future == Pending && Lookup(t.slots, e.worker) == Some(Slot(j, RecycleEnter(unsent))))
      && (s.failures == 0 || !s.cfg.canRecycle ==> Concluded(s, e, t, j, unsent))
  {
    var w, o := e.worker, EndedBy(s, e, j).value;
    LeavingIs(s, w, o);
    var m := LeaveTransport(s, w, o);
    ErrorEffects(m, w, o.knownUnsent, e.now);
    hide Inv, Settle, LeaveTransport, Concluded;
    assert e == Leave(w, e.now);
    if s.failures == 0 || !s.cfg.canRecycle { SameConclusion(s, m, e, Step(s, e), j, o.knownUnsent); }
  }

  lemma RecycleSays(s: State, e: Event, j: nat)
    requires Inv(s) && Awaits(s, j) && ErrorSettled(s, e, j).Some? && !e.Leave?
    ensures Concluded(s, e, Step(s, e), j, ErrorSettled(s, e, j).value) && Step(s, e).failures == s.failures
  {
    var w := e.worker;
    HeldIsCurrent(s, w);
    var m := if e.LeaveRecycle? then s.(recycling := false) else s;
    assert forall v :: HeldBy(m, j, v) ==> HeldBy(s, j, v);
    TailSays(m, w, ErrorSettled(s, e, j).value, e.now);
    hide Inv, NetworkTail;
  }

  lemma EventTouches(s: State, e: Event)
    requires Inv(s) && WorkerEvent(e) && e.worker in s.slots
    ensures s.slots[e.worker].job in s.jobs && Touch(s, Step(s, e), e.worker)
  {
    assert SlotOk(s, e.worker);
    hide Touch, Step, SlotOk, TransportOk, CapacityOk;
    WorkerEventTouches(s, e);
  }

  /** Any other event of a worker leaves the call waiting where it is. */
  lemma OtherEventsWait(s: State, e: Event, j: nat)
    requires Inv(s) && Awaits(s, j) && WorkerEvent(e) && EndedBy(s, e, j) == None && ErrorSettled(s, e, j) == None
    ensures
      var t := Step(s, e);
      Awaits(t, j) && forall w :: HeldBy(s, j, w) ==> HeldBy(t, j, w)
  {
    if e.worker in s.slots {
      EventTouches(s, e);
      if s.slots[e.worker].job == j {
        HeldIsCurrent(s, e.worker);
        hide Inv, Touch;
        OwnEventsWait(s, e, j);
      } else {
        hide Inv, Step;
      }
    }
  }

  lemma OwnEventsWait(s: State, e: Event, j: nat)
    requires Closed(s) && WorkerEvent(e) && e.worker in s.slots && s.slots[e.worker].job == j
    requires EndedBy(s, e, j) == None && ErrorSettled(s, e, j) == None && j in s.jobs && Current(s, j) && !Stale(s, e.worker)
    requires PhaseOk(s, s.jobs[j], s.slots[e.worker].phase)
    ensures Awaits(Step(s, e), j) && HeldBy(Step(s, e), j, e.worker)
  {
    hide Closed;
  }

  // -------------------------------------------------------- other events

  /** An operation of this call is with the transport or about to be. */
  ghost predicate Sending(s: State, j: nat) {
    exists w :: HeldBy(s, j, w) && (s.slots[w].phase.Waiting? || s.slots[w].phase.InFlight? || s.slots[w].phase.Leaving?)
  }

  lemma SendingIsStarted(s: State, j: nat)
    requires Inv(s) && Awaits(s, j)
    ensures s.jobs[j].started <==> Sending(s, j)
  {
    assert JobOk(s, j);
    if j in Of(s.queues, s.jobs[j].cls) {
      QueuesOk(s);
      QueuedNotHeld(s, s.jobs[j].cls, j);
    } else {
      var w :| HeldBy(s, j, w) && w.generation == s.generation;
      HeldIsCurrent(s, w);
      assert !s.slots[w].phase.Settling?;
    }
  }

  ghost function QueuedSet(s: State): set<nat> { set j | j in s.jobs && j in Of(s.queues, s.jobs[j].cls) }

  /** The waiting edits of this key in the queues. */
  ghost function QueuedEdits(s: State, key: Option<CoalesceKey>): set<nat> {
    set j | j in QueuedSet(s) && key.Some? && s.jobs[j].coalesce == key && s.jobs[j].future == Pending
  }

  /** Only an idempotent call replaces others. */
  function KeyOfCall(e: Event): Option<CoalesceKey>
    requires e.Submit?
  {
    if e.semantics == Idempotent then e.coalesce else None
  }

  /** There is room once the waiting edits this call replaces are out. */
  ghost predicate Room(s: State, e: Event)
    requires e.Submit?
  {
    s.running && |QueuedSet(s)| - |QueuedEdits(s, KeyOfCall(e))| < s.cfg.maxQueue
  }

  ghost function Members(q: seq<nat>): set<nat> { set j | j in q }

  ghost function EditsIn(jobs: map<nat, Job>, q: seq<nat>, key: Option<CoalesceKey>): set<nat>
    requires forall j :: j in q ==> j in jobs
  {
    set j | j in q && key.Some? && jobs[j].coalesce == key && jobs[j].future == Pending
  }

  lemma {:induction false} SizeOf(q: seq<nat>)
    requires NoDup(q)
    ensures |Members(q)| == |q|
  {
    if q == [] {
      assert Members(q) == {};
    } else {
      SizeOf(q[1..]);
      assert q[0] !in Members(q[1..]);
      assert Members(q) == Members(q[1..]) + {q[0]};
    }
  }

  lemma OneMoreEdit(jobs: map<nat, Job>, q: seq<nat>, key: Option<CoalesceKey>)
    requires NoDup(q) && q != [] && forall j :: j in q ==> j in jobs
    ensures q[0] !in EditsIn(jobs, q[1..], key)
    ensures EditsIn(jobs, q, key) ==
            EditsIn(jobs, q[1..], key) + if key.Some? && jobs[q[0]].coalesce == key && jobs[q[0]].future == Pending then {q[0]} else {}
  {
    assert forall j :: j in q <==> j == q[0] || j in q[1..];
    assert q[0] !in q[1..];
  }

  lemma {:induction false} EditsCounted(jobs: map<nat, Job>, q: seq<nat>, key: Option<CoalesceKey>)
    requires NoDup(q) && forall j :: j in q ==> j in jobs
    ensures |EditsIn(jobs, q, key)| == Replaceable(jobs, q, key)
  {
    if q == [] || key == None {
      assert EditsIn(jobs, q, key) == {};
    } else {
      OneMoreEdit(jobs, q, key);
      EditsCounted(jobs, q[1..], key);
      hide EditsIn;
    }
  }

  ghost function ByClass(u: set<nat>, jobs: map<nat, Job>, c: TrafficClass): set<nat> {
    set j | j in u && j in jobs && jobs[j].cls == c
  }

  /** Every call has one of the four classes. */
  lemma ClassSizes(u: set<nat>, jobs: map<nat, Job>)
    requires u <= jobs.Keys
    ensures |u| == |ByClass(u, jobs, CallbackAck)| + |ByClass(u, jobs, Interactive)| + |ByClass(u, jobs, Media)|
                   + |ByClass(u, jobs, Maintenance)|
  {
    var a, b := ByClass(u, jobs, CallbackAck), ByClass(u, jobs, Interactive);
    var c, d := ByClass(u, jobs, Media), ByClass(u, jobs, Maintenance);
    assert forall j :: j in u <==> j in a || j in b || j in c || j in d;
    assert forall j :: !(j in a && (j in b || j in c || j in d)) && !(j in b && (j in c || j in d)) && !(j in c && j in d);
    hide ByClass;
    assert u == a + b + c + d;
    assert a !! b && (a + b) !! c && (a + b + c) !! d;
  }

  /** The queue of a class holds each queued call of that class once. */
  lemma QueueSize(s: State, key: Option<CoalesceKey>, c: TrafficClass)
    requires Conserved(s) && Closed(s)
    ensures |ByClass(QueuedSet(s), s.jobs, c)| == |Of(s.queues, c)|
    ensures |ByClass(QueuedEdits(s, key), s.jobs, c)| == Replaceable(s.jobs, Of(s.queues, c), key)
  {
    var q := Of(s.queues, c);
    QueuesOk(s);
    hide Conserved, Closed;
    assert forall j :: j in q ==> QueuedOk(s, c, j);
    assert ByClass(QueuedSet(s), s.jobs, c) == Members(q);
    assert ByClass(QueuedEdits(s, key), s.jobs, c) == EditsIn(s.jobs, q, key);
    SizeOf(q);
    EditsCounted(s.jobs, q, key);
  }

  /** The two counts of a submission, as sizes of sets of calls. */
  lemma RoomIs(s: State, e: Event)
    requires Inv(s) && e.Submit?
    ensures Accepts(s, EffectiveKey(e.semantics, e.coalesce)) <==> Room(s, e)
  {
    var key := EffectiveKey(e.semantics, e.coalesce);
    assert LifeOk(s);
    assert QueuedSet(s) <= s.jobs.Keys && QueuedEdits(s, key) <= s.jobs.Keys;
    hide Conserved, QueuedSet, QueuedEdits, ByClass, Replaceable, Closed, Of;
    ClassSizes(QueuedSet(s), s.jobs);
    ClassSizes(QueuedEdits(s, key), s.jobs);
    QueueSize(s, key, CallbackAck);
    QueueSize(s, key, Interactive);
    QueueSize(s, key, Media);
    QueueSize(s, key, Maintenance);
  }

  /** A submission that finds room replaces the waiting edits of its key that are
      not being sent. */
  ghost predicate Replaces(s: State, e: Event, j: nat)
    requires j in s.jobs
  {
    e.Submit? && KeyOfCall(e).Some? && s.jobs[j].coalesce == KeyOfCall(e) && Room(s, e) && !Sending(s, j)
  }

  lemma SubmitSays(s: State, e: Event, j: nat)
    requires Inv(s) && Awaits(s, j) && e.Submit?
    ensures
      var t := Step(s, e);
      j in t.jobs && t.jobs[j].future == if Replaces(s, e, j) then Cancelled else Pending
  {
    RoomIs(s, e);
    SendingIsStarted(s, j);
    FreshNumber(s);
    hide Conserved, TransportOk, CapacityOk, Closed, Room, Accepts, Sending;
    SubmitStep(s, e);
    if Room(s, e) { AdmitIs(s, e); }
    hide Step;
  }

  lemma AdmittedCall(s: State, e: Event)
    requires Inv(s) && e.Submit? && Room(s, e)
    ensures
      var t := Step(s, e);
      && t.counter == s.counter + 1
      && (s.counter in t.jobs <==> !(e.semantics == NonIdempotent && e.journalFails))
      && (s.counter in t.jobs ==>
            var job := t.jobs[s.counter];
            && Awaits(t, s.counter) && job.cls == e.cls && job.semantics == e.semantics && job.coalesce == KeyOfCall(e)
            && job.dueAt == e.now && job.attempts == 0 && job.history == [] && (e.chat.Some? ==> job.chat == e.chat.value)
            && var q := Of(t.queues, e.cls); q != [] && q[|q| - 1] == s.counter)
  {
    RoomIs(s, e);
    FreshNumber(s);
    hide Conserved, TransportOk, CapacityOk, Closed, Room, Accepts, Supersede, Of;
    SubmitStep(s, e);
    AdmitIs(s, e);
    var s1 := Supersede(s, EffectiveKey(e.semantics, e.coalesce)).(counter := s.counter + 1);
    EnlistedLast(s1, s.counter, NewJob(s, e));
    hide Step, Admit;
  }

  lemma EnlistedLast(s: State, n: nat, job: Job)
    ensures
      var t := Enlist(s, n, job);
      n in t.jobs && t.jobs[n] == job && t.counter == s.counter && Of(t.queues, job.cls) == Of(s.queues, job.cls) + [n]
  {
    OfUpdate(s.queues, Enlist(s, n, job).queues, job.cls, Of(s.queues, job.cls) + [n]);
  }

  /** A submission is admitted if and only if there is room; one that is not
      leaves everything as it is. */
  lemma AdmittedExactlyWhenRoom(s: State, e: Event)
    requires Inv(s) && e.Submit?
    ensures Room(s, e) <==> Step(s, e).counter == s.counter + 1
    ensures !Room(s, e) ==> Step(s, e) == s
  {
    if Room(s, e) {
      AdmittedCall(s, e);
    } else {
      RoomIs(s, e);
      hide Inv, Room, Accepts;
    }
  }

  /** A call without a chat is given one of its own: no two such calls keep each
      other waiting. */
  lemma ChatlessCallsAreApart(s: State, e: Event, t: State, f: Event)
    requires e.Submit? && e.chat == None && f.Submit? && f.chat == None && s.counter != t.counter
    ensures NewJob(s, e).chat != NewJob(t, f).chat
  {
    var a, b := Text.Digits(s.counter), Text.Digits(t.counter);
    if "job:" + a == "job:" + b {
      assert ("job:" + a)[4..] == a && ("job:" + b)[4..] == b;
      Text.DigitsTell(s.counter, t.counter);
    }
  }

  /** A worker whose generation is over still takes this call. */
  ghost predicate TakenLate(s: State, e: Event, j: nat)
    requires Closed(s)
  {
    && e.Take? && e.worker !in s.slots && e.worker.slot < Concurrency(e.worker.cls) && e.worker.generation < s.generation
    && var q := Of(s.queues, e.worker.cls);
    var r := FirstDue(s.jobs, q, e.worker.cls, e.worker.generation, s.keys, e.now, 0);
    r.Some? && q[r.value] == j
  }

  lemma TakeSays(s: State, e: Event, j: nat)
    requires Inv(s) && Awaits(s, j) && e.Take?
    ensures
      var t := Step(s, e);
      j in t.jobs && t.jobs[j].future == if TakenLate(s, e, j) then Failed(Stopping) else Pending
  {
    assert JobOk(s, j) && LifeOk(s);
    hide Conserved, TransportOk, CapacityOk, Eligible, TakeAt, Of, Waits;
    if e.worker !in s.slots && Exists(s, e.worker) {
      var r := FirstDue(s.jobs, Of(s.queues, e.worker.cls), e.worker.cls, e.worker.generation, s.keys, e.now, 0);
      if r.Some? { TakeAtIs(s, e.worker, r.value); }
    }
    hide Closed;
  }

  lemma LifecycleSays(s: State, e: Event, j: nat)
    requires Inv(s) && Awaits(s, j) && (e.Start? || e.StopBegin? || e.StopEnd? || e.CallerCancels?)
    ensures
      var t := Step(s, e);
      j in t.jobs && t.jobs[j].future ==
        if e.StopBegin? then Failed(Stopping) else if e == CallerCancels(j) then Cancelled else Pending
  {
    if e.StopBegin? { StopAnswersAll(s); }
    hide Conserved, TransportOk, CapacityOk, Closed, QueuedIds, HeldIds, Of;
  }

  // -------------------------------------------------------- the five answers

  /** What becomes of a call that awaits its answer. */
  ghost function Answer(s: State, e: Event, j: nat): Future
    requires Closed(s) && j in s.jobs
  {
    if e.StopBegin? || TakenLate(s, e, j) then Failed(Stopping)
    else if e == CallerCancels(j) || Replaces(s, e, j) then Cancelled
    else if ErrorSettled(s, e, j).Some? then
      if Risky(s, j, ErrorSettled(s, e, j).value) then Failed(Uncertain)
      else if Exhausted(s, j) then Failed(Transport) else Pending
    else
      match EndedBy(s, e, j)
      case None => Pending
      case Some(Delivered) => Fulfilled
      case Some(Network(_)) => Pending
      case Some(RetryAfter(_)) => if Exhausted(s, j) then Failed(Transport) else Pending
      case Some(_) => Failed(Transport)
  }

  lemma WorkerEventAnswers(s: State, e: Event, j: nat)
    requires Inv(s) && Awaits(s, j) && WorkerEvent(e)
    ensures j in Step(s, e).jobs && Step(s, e).jobs[j].future == Answer(s, e, j)
  {
    hide Inv, Step, Room, Sending, Backoff;
    if EndedBy(s, e, j).Some? && !EndedBy(s, e, j).value.Network? {
      LeaveSays(s, e, j);
    } else if EndedBy(s, e, j).Some? {
      LeaveErrorSays(s, e, j);
    } else if ErrorSettled(s, e, j).Some? {
      RecycleSays(s, e, j);
    } else {
      OtherEventsWait(s, e, j);
    }
  }

  lemma EveryAnswer(s: State, e: Event, j: nat)
    requires Inv(s) && Awaits(s, j)
    ensures j in Step(s, e).jobs && Step(s, e).jobs[j].future == Answer(s, e, j)
  {
    if WorkerEvent(e) {
      hide *;
      WorkerEventAnswers(s, e, j);
    } else {
      assert EndedBy(s, e, j) == None && ErrorSettled(s, e, j) == None;
      hide Inv, Step, Room, Sending, EndedBy, ErrorSettled, PhaseAt;
      if e.Submit? { SubmitSays(s, e, j); }
      else if e.Take? { TakeSays(s, e, j); }
      else { LifecycleSays(s, e, j); }
    }
  }

  /** A call is fulfilled if and only if an attempt of it that was delivered
      leaves the transport while it waits. */
  lemma FulfilledExactlyWhenDelivered(s: State, e: Event, j: nat)
    requires Inv(s) && Awaits(s, j)
    ensures j in Step(s, e).jobs
    ensures Step(s, e).jobs[j].future == Fulfilled <==> EndedBy(s, e, j) == Some(Delivered)
  {
    EveryAnswer(s, e, j);
    OnlyOneCause(s, e, j);
    hide Inv, Step, TakenLate, Replaces, PhaseAt, EndedBy, ErrorSettled;
  }

  /** The causes exclude each other. */
  lemma OnlyOneCause(s: State, e: Event, j: nat)
    requires Closed(s) && j in s.jobs
    ensures EndedBy(s, e, j).Some? || ErrorSettled(s, e, j).Some? ==>
              !e.StopBegin? && !TakenLate(s, e, j) && e != CallerCancels(j) && !Replaces(s, e, j)
    ensures EndedBy(s, e, j).Some? && ErrorSettled(s, e, j).Some? ==> EndedBy(s, e, j) == Some(Network(ErrorSettled(s, e, j).value))
    ensures e.StopBegin? || TakenLate(s, e, j) ==> e != CallerCancels(j) && !Replaces(s, e, j)
  {
  }

  /** The error Telegram gave, or the last one once the attempts are used up. */
  ghost predicate FailsForGood(s: State, e: Event, j: nat)
    requires j in s.jobs
  {
    || EndedBy(s, e, j) == Some(Rejected) || EndedBy(s, e, j) == Some(TelegramFailure) || EndedBy(s, e, j) == Some(Unexpected)
    || (Exhausted(s, j) && EndedBy(s, e, j).Some? && EndedBy(s, e, j).value.RetryAfter?)
    || (Exhausted(s, j) && ErrorSettled(s, e, j).Some? && !Risky(s, j, ErrorSettled(s, e, j).value))
  }

  lemma FailedExactlyWhenRefusedOrExhausted(s: State, e: Event, j: nat)
    requires Inv(s) && Awaits(s, j)
    ensures j in Step(s, e).jobs
    ensures Step(s, e).jobs[j].future == Failed(Transport) <==> FailsForGood(s, e, j)
  {
    EveryAnswer(s, e, j);
    OnlyOneCause(s, e, j);
    NeverInterrupted(s, e, j);
    hide Inv, Step, TakenLate, Replaces, PhaseAt, EndedBy, ErrorSettled;
  }

  lemma NeverInterrupted(s: State, e: Event, j: nat)
    requires Inv(s) && Awaits(s, j)
    ensures EndedBy(s, e, j) != Some(Interrupted)
  {
    if EndedBy(s, e, j).Some? && !EndedBy(s, e, j).value.Network? { LeaveSays(s, e, j); }
    hide Inv, Step;
  }

  /** The outcome is reported as uncertain if and only if the call must not act
      twice and a network error left open whether it did. */
  lemma UncertainExactlyWhenRisky(s: State, e: Event, j: nat)
    requires Inv(s) && Awaits(s, j)
    ensures j in Step(s, e).jobs
    ensures Step(s, e).jobs[j].future == Failed(Uncertain) <==>
              ErrorSettled(s, e, j) == Some(false) && s.jobs[j].semantics == NonIdempotent
  {
    EveryAnswer(s, e, j);
    OnlyOneCause(s, e, j);
    hide Inv, Step, TakenLate, Replaces, PhaseAt, EndedBy, ErrorSettled;
  }

  /** The remaining two answers do not come from the transport. */
  lemma StoppedOrCancelledExactlyWhen(s: State, e: Event, j: nat)
    requires Inv(s) && Awaits(s, j)
    ensures j in Step(s, e).jobs
    ensures Step(s, e).jobs[j].future == Failed(Stopping) <==> e.StopBegin? || TakenLate(s, e, j)
    ensures Step(s, e).jobs[j].future == Cancelled <==> e == CallerCancels(j) || Replaces(s, e, j)
  {
    EveryAnswer(s, e, j);
    OnlyOneCause(s, e, j);
    hide Inv, Step, TakenLate, Replaces, PhaseAt, EndedBy, ErrorSettled;
  }

  /** An attempt that may be repeated. */
  ghost predicate Repeats(s: State, e: Event, j: nat)
    requires j in s.jobs
  {
    && !Exhausted(s, j)
    && ((EndedBy(s, e, j).Some? && EndedBy(s, e, j).value.RetryAfter?)
        || (ErrorSettled(s, e, j).Some? && !Risky(s, j, ErrorSettled(s, e, j).value)))
  }

  /** How long it waits: as long as Telegram says and a tenth of a second, or one
      second doubled with every attempt. */
  ghost function Delay(s: State, e: Event, j: nat): real
    requires j in s.jobs
  {
    match EndedBy(s, e, j)
    case Some(RetryAfter(seconds)) => (if seconds < 0.0 then 0.0 else seconds) + 0.1
    case _ => Backoff(s.jobs[j].attempts)
  }

  lemma RepeatSays(s: State, e: Event, j: nat)
    requires Inv(s) && Awaits(s, j) && Repeats(s, e, j)
    ensures (e.Leave? || e.EnterRecycle? || e.LeaveRecycle?) && BackInLine(s, Step(s, e), j, e.now + Delay(s, e, j))
  {
    if EndedBy(s, e, j).Some? && EndedBy(s, e, j).value.RetryAfter? {
      LeaveSays(s, e, j);
    } else if e.Leave? {
      LeaveErrorSays(s, e, j);
    } else {
      RecycleSays(s, e, j);
    }
    hide Inv, Step, BackInLine;
  }

  /** No event but one for its own worker takes a call from it. */
  lemma OthersKeepSlots(s: State, e: Event, w: Worker)
    requires Inv(s) && !WorkerEvent(e) && w in s.slots
    ensures w in Step(s, e).slots && Step(s, e).slots[w] == s.slots[w]
  {
    hide Conserved, TransportOk, CapacityOk, Eligible, TakeAt, Of, Admit;
    if e.Submit? {
      AdmitTotal(s, e);
    } else if e.Take? && e.worker !in s.slots && Exists(s, e.worker) {
      var r := FirstDue(s.jobs, Of(s.queues, e.worker.cls), e.worker.cls, e.worker.generation, s.keys, e.now, 0);
      if r.Some? { TakeAtSlots(s, e.worker, r.value); }
    }
    hide Closed;
  }

  /** Still waiting without a repeat: the attempt goes on, or a recycle is due. */
  lemma StillUnderWay(s: State, e: Event, j: nat)
    requires Inv(s) && Awaits(s, j) && !Repeats(s, e, j) && Awaits(Step(s, e), j)
    ensures ErrorSettled(s, e, j) == None && (EndedBy(s, e, j).Some? ==> EndedBy(s, e, j).value.Network?)
  {
    EveryAnswer(s, e, j);
    OnlyOneCause(s, e, j);
    hide Inv, Step, TakenLate, Replaces, PhaseAt, EndedBy, ErrorSettled;
  }

  lemma StaysHeld(s: State, e: Event, j: nat, w: Worker)
    requires Inv(s) && Awaits(s, j) && HeldBy(s, j, w) && !Repeats(s, e, j) && Awaits(Step(s, e), j)
    ensures j !in Of(Step(s, e).queues, s.jobs[j].cls)
  {
    var t := Step(s, e);
    StillUnderWay(s, e, j);
    hide Inv, Step, EndedBy, ErrorSettled, Repeats;
    KeepInv(s, e);
    if !WorkerEvent(e) {
      OthersKeepSlots(s, e, w);
      HeldNotQueued(t, j, w);
    } else if EndedBy(s, e, j).Some? {
      LeaveErrorSays(s, e, j);
      SettledAtOnce(s, e, j);
      HeldNotQueued(t, j, e.worker);
    } else {
      OtherEventsWait(s, e, j);
      HeldNotQueued(t, j, w);
    }
  }

  lemma SettledAtOnce(s: State, e: Event, j: nat)
    requires EndedBy(s, e, j).Some? && EndedBy(s, e, j).value.Network? && ErrorSettled(s, e, j) == None
    ensures s.failures > 0 && s.cfg.canRecycle
  {
  }

  lemma HeldNotQueued(t: State, j: nat, w: Worker)
    requires Inv(t) && HeldBy(t, j, w)
    ensures forall c :: j !in Of(t.queues, c)
  {
    NotQueued(t, w);
  }

  /** A call that a worker holds goes back to the end of its class queue if and only
      if its attempt may be repeated, and it is due after that delay. */
  lemma RetriedExactlyWhenRepeatable(s: State, e: Event, j: nat, w: Worker)
    requires Inv(s) && Awaits(s, j) && HeldBy(s, j, w)
    ensures
      var t := Step(s, e);
      && (Awaits(t, j) && j in Of(t.queues, s.jobs[j].cls) <==> Repeats(s, e, j))
      && (Repeats(s, e, j) ==> (e.Leave? || e.EnterRecycle? || e.LeaveRecycle?) && BackInLine(s, t, j, e.now + Delay(s, e, j)))
  {
    var t := Step(s, e);
    hide Inv, Step, Repeats, Delay;
    if Repeats(s, e, j) {
      RepeatSays(s, e, j);
      assert Of(s.queues, s.jobs[j].cls) + [j] == Of(t.queues, s.jobs[j].cls);
    } else if Awaits(t, j) {
      StaysHeld(s, e, j, w);
    }
  }

  // ---------------------------------------------- outcomes come from events

  /** What the transport reports of the call at this event; a worker that a stop
      interrupts in the transport counts as one more report. */
  ghost function Reported(s: State, e: Event, j: nat): seq<Outcome> {
    match PhaseAt(s, e, j)
    case Some(InFlight) =>
      if e.Finish? && e.outcome != Interrupted then [e.outcome]
      else if e.Abort? && (e.worker.generation != s.generation || s.stopping) then [Interrupted] else []
    case _ => []
  }

  /** The worker's call has the same recorded outcomes. */
  ghost predicate SameHistory(s: State, t: State, w: Worker)
    requires w in s.slots && s.slots[w].job in s.jobs
  {
    s.slots[w].job in t.jobs && t.jobs[s.slots[w].job].history == s.jobs[s.slots[w].job].history
  }

  lemma TailHistory(s: State, w: Worker, unsent: bool, now: real)
    requires w in s.slots && s.slots[w].job in s.jobs
    ensures SameHistory(s, NetworkTail(s, w, unsent, now), w)
  {
    hide RetryDelay;
  }

  lemma FinishHistory(s: State, w: Worker, f: Future)
    requires w in s.slots && s.slots[w].job in s.jobs
    ensures SameHistory(s, FinishJob(s, w, f), w) && SameHistory(s, Exit(s, w), w)
  {
  }

  lemma RequeueHistory(s: State, w: Worker, due: real)
    requires w in s.slots && s.slots[w].job in s.jobs
    ensures SameHistory(s, Requeue(s, w, due), w)
  {
  }

  lemma SettleHistory(s: State, w: Worker, o: Outcome, now: real)
    requires w in s.slots && s.slots[w].job in s.jobs
    ensures SameHistory(s, Settle(s, w, o, now), w)
  {
    FinishHistory(s, w, Failed(Transport));
    match o
    case Delivered => FinishHistory(s.(failures := 0), w, Fulfilled); hide FinishJob, Exit;
    case RetryAfter(d) => RequeueHistory(s, w, now + Max(0.0, Max(0.0, d) + 0.1)); hide FinishJob, Requeue, Exit;
    case Network(unsent) => TailHistory(s.(failures := s.failures + 1), w, unsent, now); hide NetworkTail, Exit;
    case _ => hide FinishJob, Exit;
  }

  lemma LateHistory(s: State, e: Event)
    requires Closed(s) && (e.Leave? || e.EnterRecycle? || e.LeaveRecycle?) && e.worker in s.slots
    ensures SameHistory(s, Step(s, e), e.worker)
  {
    var w := e.worker;
    var p := s.slots[w].phase;
    if e.Leave? && p.Leaving? {
      SettleHistory(LeaveTransport(s, w, p.outcome), w, p.outcome, e.now);
    } else if e.EnterRecycle? && p.RecycleEnter? {
      TailHistory(s, w, p.knownUnsent, e.now);
    } else if e.LeaveRecycle? && p.RecycleLeaving? {
      TailHistory(s.(recycling := false), w, p.knownUnsent, e.now);
    }
    hide Settle, NetworkTail, Closed;
  }

  lemma AbortHistory(s: State, w: Worker)
    requires Closed(s) && w in s.slots
    ensures
      var j := s.slots[w].job;
      && j in AbortWorker(s, w).jobs
      && AbortWorker(s, w).jobs[j].history == s.jobs[j].history + if s.slots[w].phase.InFlight? then [Interrupted] else []
  {
    assert s.slots[w].job in s.jobs;
    hide Closed;
  }

  lemma OwnHistory(s: State, e: Event)
    requires Closed(s) && WorkerEvent(e) && e.worker in s.slots && !e.Leave? && !e.EnterRecycle? && !e.LeaveRecycle?
    ensures
      var j := s.slots[e.worker].job;
      j in s.jobs && j in Step(s, e).jobs && Step(s, e).jobs[j].history == s.jobs[j].history + Reported(s, e, j)
  {
    assert s.slots[e.worker].job in s.jobs;
    if e.Abort? {
      AbortHistory(s, e.worker);
      hide AbortWorker;
    }
    hide Closed;
  }

  /** The recorded outcomes of a call are what the transport reported of it. */
  lemma HistoryIsWhatWasReported(s: State, e: Event, j: nat)
    requires Inv(s) && j in s.jobs
    ensures j in Step(s, e).jobs && Step(s, e).jobs[j].history == s.jobs[j].history + Reported(s, e, j)
  {
    if WorkerEvent(e) && e.worker in s.slots {
      EventTouches(s, e);
      hide Conserved, TransportOk, CapacityOk, Step;
      if s.slots[e.worker].job == j {
        if e.Leave? || e.EnterRecycle? || e.LeaveRecycle? { LateHistory(s, e); } else { OwnHistory(s, e); }
      }
      hide Touch;
    } else {
      OtherHistory(s, e, j);
    }
  }

  lemma SupersedeHistory(s: State, key: Option<CoalesceKey>, j: nat)
    requires Closed(s) && j in s.jobs
    ensures j in Supersede(s, key).jobs && Supersede(s, key).jobs[j].history == s.jobs[j].history
  {
    hide Closed;
  }

  lemma EnlistedHistory(s: State, n: nat, job: Job, j: nat)
    requires j in s.jobs && n !in s.jobs
    ensures j in Enlist(s, n, job).jobs && Enlist(s, n, job).jobs[j] == s.jobs[j]
  {
  }

  lemma SubmitHistory(s: State, e: Event, j: nat)
    requires Inv(s) && j in s.jobs && e.Submit?
    ensures j in Step(s, e).jobs && Step(s, e).jobs[j].history == s.jobs[j].history
  {
    FreshNumber(s);
    SubmitStep(s, e);
    hide Inv, Accepts, Of, Step, Enlist, NewJob;
    SupersedeHistory(s, EffectiveKey(e.semantics, e.coalesce), j);
    if Accepts(s, EffectiveKey(e.semantics, e.coalesce)) {
      AdmitIs(s, e);
      var m := Supersede(s, EffectiveKey(e.semantics, e.coalesce)).(counter := s.counter + 1);
      EnlistedHistory(m, s.counter, NewJob(s, e), j);
      hide Supersede, Admit;
    }
  }

  lemma TakeHistory(s: State, e: Event, j: nat)
    requires Closed(s) && j in s.jobs && e.Take?
    ensures j in Step(s, e).jobs && Step(s, e).jobs[j].history == s.jobs[j].history
  {
    hide Eligible, TakeAt, Of;
    if e.worker !in s.slots && Exists(s, e.worker) {
      var r := FirstDue(s.jobs, Of(s.queues, e.worker.cls), e.worker.cls, e.worker.generation, s.keys, e.now, 0);
      if r.Some? { TakeAtIs(s, e.worker, r.value); }
    }
    hide Closed;
  }

  lemma OtherHistory(s: State, e: Event, j: nat)
    requires Inv(s) && j in s.jobs && (WorkerEvent(e) ==> e.worker !in s.slots)
    ensures j in Step(s, e).jobs && Step(s, e).jobs[j].history == s.jobs[j].history
  {
    if e.Submit? {
      SubmitHistory(s, e, j);
      hide Inv, Step;
    } else if e.Take? {
      TakeHistory(s, e, j);
      hide Inv, Step;
    } else {
      hide Inv, QueuedIds, HeldIds, Of;
    }
  }

  /** The outcome that decides is the last one reported. */
  lemma TheLastOutcomeDecides(s: State, e: Event, j: nat)
    requires Inv(s) && j in s.jobs
    ensures
      var h := s.jobs[j].history;
      && (EndedBy(s, e, j).Some? ==> h != [] && h[|h| - 1] == EndedBy(s, e, j).value)
      && (ErrorSettled(s, e, j).Some? ==> h != [] && h[|h| - 1] == Network(ErrorSettled(s, e, j).value))
  {
    if PhaseAt(s, e, j).Some? { assert SlotOk(s, e.worker); }
    hide Conserved, TransportOk, CapacityOk, Closed;
  }

  // ------------------------------------------------------------ whole runs

  /** A state in which worker `w` has call `j`, and only its own record moved. */
  ghost predicate Has(s: State, t: State, w: Worker, j: nat, p: Phase)
    requires j in s.jobs
  {
    && Inv(t) && Lookup(t.slots, w) == Some(Slot(j, p)) && Awaits(t, j)
    && t.jobs[j].semantics == s.jobs[j].semantics && t.jobs[j].cls == s.jobs[j].cls
    && t.failures == s.failures && t.cfg == s.cfg && t.recycling == s.recycling && t.running == s.running
  }

  lemma {:induction false} RunsOn(s: State, es: seq<Event>, more: seq<Event>)
    requires Inv(s)
    ensures Run(s, es + more) == Run(Run(s, es), more)
    decreases |es|
  {
    if es == [] {
      assert es + more == more;
    } else {
      assert (es + more)[0] == es[0] && (es + more)[1..] == es[1..] + more;
      KeepInv(s, es[0]);
      hide Step, Inv;
      RunsOn(Step(s, es[0]), es[1..], more);
    }
  }

  lemma RunOne(s: State, e: Event)
    requires Inv(s)
    ensures Inv(Step(s, e)) && Run(s, [e]) == Step(s, e)
  {
    KeepInv(s, e);
    assert [e][1..] == [];
    hide Step, Inv;
  }

  lemma EnterRuns(s: State, w: Worker)
    requires Inv(s) && w in s.slots && s.slots[w].phase.Waiting? && Awaits(s, s.slots[w].job) && !s.recycling
    ensures
      var t := Step(s, Enter(w));
      && Has(s, t, w, s.slots[w].job, InFlight) && t.queues == s.queues && t.jobs == s.jobs
      && t.inTransport == s.inTransport + 1
  {
    KeepInv(s, Enter(w));
    hide Inv;
  }

  lemma FinishRuns(s: State, w: Worker, o: Outcome)
    requires Inv(s) && w in s.slots && s.slots[w].phase.InFlight? && Awaits(s, s.slots[w].job) && o != Interrupted
    ensures
      var j := s.slots[w].job;
      var t := Step(s, Finish(w, o));
      && Has(s, t, w, j, Leaving(o)) && t.queues == s.queues && t.jobs[j] == s.jobs[j].(history := s.jobs[j].history + [o])
      && t.inTransport == s.inTransport
  {
    KeepInv(s, Finish(w, o));
    hide Conserved, TransportOk, CapacityOk;
    assert Closed(s);
    assert Step(s, Finish(w, o)) == LogOutcome(s, w, o);
    hide Inv, Step;
  }

  /** What the caller of an attempt that ended like this gets, if it is the last
      word; a recycle comes first after the second network error in a row. */
  ghost predicate Settled(s: State, t: State, j: nat, o: Outcome, now: real)
    requires j in s.jobs && j in t.jobs
  {
    match o
    case Delivered => t.jobs[j].future == Fulfilled && t.failures == 0
    case RetryAfter(seconds) =>
      if Exhausted(s, j) then t.jobs[j].future == Failed(Transport)
      else BackInLine(s, t, j, now + (if seconds < 0.0 then 0.0 else seconds) + 0.1)
    case Network(unsent) =>
      if s.failures > 0 && s.cfg.canRecycle then Awaits(t, j) && exists w :: Lookup(t.slots, w) == Some(Slot(j, RecycleEnter(unsent)))
      else AfterError(s, t, j, unsent, now)
    case Interrupted => true
    case _ => t.jobs[j].future == Failed(Transport)
  }

  ghost predicate AfterError(s: State, t: State, j: nat, unsent: bool, now: real)
    requires j in s.jobs && j in t.jobs
  {
    if Risky(s, j, unsent) then t.jobs[j].future == Failed(Uncertain)
    else if Exhausted(s, j) then t.jobs[j].future == Failed(Transport)
    else BackInLine(s, t, j, now + Backoff(s.jobs[j].attempts))
  }

  lemma LeaveRuns(s: State, w: Worker, now: real)
    requires Inv(s) && w in s.slots && s.slots[w].phase.Leaving? && Awaits(s, s.slots[w].job)
    ensures
      var j := s.slots[w].job;
      var t := Step(s, Leave(w, now));
      j in t.jobs && Settled(s, t, j, s.slots[w].phase.outcome, now)
  {
    var j := s.slots[w].job;
    var o := s.slots[w].phase.outcome;
    assert EndedBy(s, Leave(w, now), j) == Some(o);
    hide Inv, Step, EndedBy, BackInLine;
    if o.Network? { LeaveErrorSays(s, Leave(w, now), j); } else { LeaveSays(s, Leave(w, now), j); }
  }

  function Attempt(w: Worker, o: Outcome, now: real): seq<Event> { [Enter(w)] + ([Finish(w, o)] + [Leave(w, now)]) }

  /** The answer depends on these parts of the state only. */
  lemma SameGrounds(s: State, m: State, t: State, j: nat, o: Outcome, now: real)
    requires j in s.jobs && j in m.jobs && j in t.jobs && Settled(m, t, j, o, now)
    requires m.jobs[j].semantics == s.jobs[j].semantics && m.jobs[j].cls == s.jobs[j].cls
    requires m.jobs[j].attempts == s.jobs[j].attempts && m.queues == s.queues && m.failures == s.failures && m.cfg == s.cfg
    ensures Settled(s, t, j, o, now)
  {
    hide Backoff, Of;
  }

  /** One attempt from entering the transport to leaving it, with any outcome. */
  lemma AttemptSettles(s: State, w: Worker, o: Outcome, now: real)
    requires Inv(s) && w in s.slots && s.slots[w].phase.Waiting? && Awaits(s, s.slots[w].job) && !s.recycling && o != Interrupted
    ensures
      var j := s.slots[w].job;
      var t := Run(s, Attempt(w, o, now));
      j in t.jobs && Settled(s, t, j, o, now)
  {
    var j := s.slots[w].job;
    EnterRuns(s, w);
    var s1 := Step(s, Enter(w));
    FinishRuns(s1, w, o);
    var s2 := Step(s1, Finish(w, o));
    LeaveRuns(s2, w, now);
    hide Inv, Step, Run, Settled, Attempt;
    SameGrounds(s, s2, Step(s2, Leave(w, now)), j, o, now);
    RunOne(s, Enter(w));
    RunOne(s1, Finish(w, o));
    RunOne(s2, Leave(w, now));
    RunsOn(s, [Enter(w)], [Finish(w, o)] + [Leave(w, now)]);
    RunsOn(s1, [Finish(w, o)], [Leave(w, now)]);
    assert Attempt(w, o, now) == [Enter(w)] + ([Finish(w, o)] + [Leave(w, now)]);
  }

  function Recycle(w: Worker, start: real, end: real): seq<Event> {
    [EnterRecycle(w, start)] + ([RunRecycle(w)] + ([FinishRecycle(w)] + [LeaveRecycle(w, end)]))
  }

  lemma EnterRecycleRuns(s: State, w: Worker, now: real)
    requires Inv(s) && w in s.slots && s.slots[w].phase.RecycleEnter? && Awaits(s, s.slots[w].job) && !s.recycling
    ensures
      var j := s.slots[w].job;
      var t := Step(s, EnterRecycle(w, now));
      Inv(t) && t == s.(recycling := true, slots := s.slots[w := Slot(j, RecycleWait(s.slots[w].phase.knownUnsent))])
  {
    KeepInv(s, EnterRecycle(w, now));
    hide Inv;
  }

  lemma RunRecycleRuns(s: State, w: Worker)
    requires Inv(s) && w in s.slots && s.slots[w].phase.RecycleWait? && s.inTransport == 0
    ensures
      var t := Step(s, RunRecycle(w));
      Inv(t) && t == s.(slots := s.slots[w := Slot(s.slots[w].job, RecycleRun(s.slots[w].phase.knownUnsent))])
  {
    KeepInv(s, RunRecycle(w));
    hide Inv;
  }

  lemma FinishRecycleRuns(s: State, w: Worker)
    requires Inv(s) && w in s.slots && s.slots[w].phase.RecycleRun? && Awaits(s, s.slots[w].job)
    ensures
      var t := Step(s, FinishRecycle(w));
      Inv(t) && t == s.(failures := 0, slots := s.slots[w := Slot(s.slots[w].job,
        RecycleLeaving(s.slots[w].phase.knownUnsent, false))])
  {
    KeepInv(s, FinishRecycle(w));
    HeldIsCurrent(s, w);
    hide Inv;
  }

  lemma LeaveRecycleRuns(s: State, w: Worker, now: real)
    requires Inv(s) && w in s.slots && Awaits(s, s.slots[w].job)
    requires s.slots[w].phase.RecycleLeaving? && !s.slots[w].phase.interrupted
    ensures
      var j := s.slots[w].job;
      var t := Step(s, LeaveRecycle(w, now));
      j in t.jobs && AfterError(s, t, j, s.slots[w].phase.knownUnsent, now) && t.failures == s.failures
  {
    assert ErrorSettled(s, LeaveRecycle(w, now), s.slots[w].job) == Some(s.slots[w].phase.knownUnsent);
    hide Inv, Step, ErrorSettled, BackInLine;
    RecycleSays(s, LeaveRecycle(w, now), s.slots[w].job);
  }

  lemma SameErrorGrounds(s: State, m: State, t: State, j: nat, unsent: bool, now: real)
    requires j in s.jobs && j in t.jobs && m.jobs == s.jobs && m.queues == s.queues && m.cfg == s.cfg
    requires AfterError(m, t, j, unsent, now)
    ensures AfterError(s, t, j, unsent, now)
  {
    hide Backoff, Of;
  }

  /** A whole recycle with nothing else in the transport: the failures in a row are
      forgotten, and the network error that caused it decides as if at once. */
  lemma RecycleSettles(s: State, w: Worker, start: real, end: real)
    requires Inv(s) && w in s.slots && s.slots[w].phase.RecycleEnter? && Awaits(s, s.slots[w].job)
    requires !s.recycling && s.inTransport == 0
    ensures
      var j := s.slots[w].job;
      var t := Run(s, Recycle(w, start, end));
      j in t.jobs && t.failures == 0 && AfterError(s, t, j, s.slots[w].phase.knownUnsent, end)
  {
    var j := s.slots[w].job;
    var unsent := s.slots[w].phase.knownUnsent;
    EnterRecycleRuns(s, w, start);
    var s1 := Step(s, EnterRecycle(w, start));
    RunRecycleRuns(s1, w);
    var s2 := Step(s1, RunRecycle(w));
    FinishRecycleRuns(s2, w);
    var s3 := Step(s2, FinishRecycle(w));
    LeaveRecycleRuns(s3, w, end);
    hide Inv, Step, Run, AfterError;
    SameErrorGrounds(s, s3, Step(s3, LeaveRecycle(w, end)), j, unsent, end);
    RunOne(s, EnterRecycle(w, start));
    RunOne(s1, RunRecycle(w));
    RunOne(s2, FinishRecycle(w));
    RunOne(s3, LeaveRecycle(w, end));
    RunsOn(s, [EnterRecycle(w, start)], [RunRecycle(w)] + ([FinishRecycle(w)] + [LeaveRecycle(w, end)]));
    RunsOn(s1, [RunRecycle(w)], [FinishRecycle(w)] + [LeaveRecycle(w, end)]);
    RunsOn(s2, [FinishRecycle(w)], [LeaveRecycle(w, end)]);
  }

  /** From the queue to the transport. */
  function Send(w: Worker, now: real, interval: bool): seq<Event> {
    [Take(w, now)] + ([Pass(w)] + if interval then [Begin(w)] else [])
  }

  lemma TakeRuns(s: State, w: Worker, now: real, i: nat)
    requires Inv(s) && w !in s.slots && w.slot < Concurrency(w.cls) && w.generation == s.generation && s.running
    requires FirstDue(s.jobs, Of(s.queues, w.cls), w.cls, w.generation, s.keys, now, 0) == Some(i)
    requires Awaits(s, Of(s.queues, w.cls)[i])
    ensures
      var j := Of(s.queues, w.cls)[i];
      var t := Step(s, Take(w, now));
      && Has(s, t, w, j, Pacing) && t.jobs[j].attempts == s.jobs[j].attempts && t.inTransport == s.inTransport
      && Of(t.queues, w.cls) == Of(s.queues, w.cls)[..i] + Of(s.queues, w.cls)[i + 1..]
  {
    KeepInv(s, Take(w, now));
    assert LifeOk(s);
    TakeAtIs(s, w, i);
    var q := Of(s.queues, w.cls);
    OfUpdate(s.queues, s.queues[w.cls := q[..i] + q[i + 1..]], w.cls, q[..i] + q[i + 1..]);
    hide Inv, TakeAt, Eligible, Of;
    TakeRecyclesNothing(s, w, i);
  }

  lemma TakeRecyclesNothing(s: State, w: Worker, i: nat)
    requires Closed(s) && w !in s.slots && i < |Of(s.queues, w.cls)|
    ensures
      var t := TakeAt(s, w, i);
      t.recycling == s.recycling && t.failures == s.failures && t.running == s.running && t.inTransport == s.inTransport
  {
    TakeAtIs(s, w, i);
    hide TakeAt;
  }

  lemma PassRuns(s: State, w: Worker)
    requires Inv(s) && w in s.slots && s.slots[w].phase.Pacing? && Awaits(s, s.slots[w].job)
    ensures
      var j := s.slots[w].job;
      var t := Step(s, Pass(w));
      && Has(s, t, w, j, if s.cfg.interval then Ready else Waiting) && t.queues == s.queues
      && t.jobs[j].attempts == s.jobs[j].attempts + if s.cfg.interval then 0 else 1
  {
    KeepInv(s, Pass(w));
    HeldIsCurrent(s, w);
    hide Inv, PhaseOk;
  }

  lemma BeginRuns(s: State, w: Worker)
    requires Inv(s) && w in s.slots && s.slots[w].phase.Ready? && Awaits(s, s.slots[w].job)
    ensures
      var j := s.slots[w].job;
      var t := Step(s, Begin(w));
      Has(s, t, w, j, Waiting) && t.queues == s.queues && t.jobs[j].attempts == s.jobs[j].attempts + 1
  {
    KeepInv(s, Begin(w));
    hide Inv;
  }

  lemma SendRuns(s: State, w: Worker, now: real, i: nat)
    requires Inv(s) && w !in s.slots && w.slot < Concurrency(w.cls) && w.generation == s.generation && s.running
    requires FirstDue(s.jobs, Of(s.queues, w.cls), w.cls, w.generation, s.keys, now, 0) == Some(i)
    requires Awaits(s, Of(s.queues, w.cls)[i])
    ensures
      var j := Of(s.queues, w.cls)[i];
      var m := Run(s, Send(w, now, s.cfg.interval));
      && Has(s, m, w, j, Waiting) && m.jobs[j].attempts == s.jobs[j].attempts + 1
      && Of(m.queues, w.cls) == Of(s.queues, w.cls)[..i] + Of(s.queues, w.cls)[i + 1..]
  {
    TakeRuns(s, w, now, i);
    var s1 := Step(s, Take(w, now));
    PassRuns(s1, w);
    var s2 := Step(s1, Pass(w));
    if s.cfg.interval { BeginRuns(s2, w); }
    hide Inv, Step, Run, Of, FirstDue;
    RunOne(s, Take(w, now));
    RunOne(s1, Pass(w));
    var rest := if s.cfg.interval then [Begin(w)] else [];
    RunsOn(s, [Take(w, now)], [Pass(w)] + rest);
    if s.cfg.interval {
      RunOne(s2, Begin(w));
      RunsOn(s1, [Pass(w)], rest);
    } else {
      assert [Pass(w)] + rest == [Pass(w)];
    }
  }

  /** A waiting call that a live worker finds due, from the queue to its answer,
      for every outcome of the attempt. */
  lemma CallSettles(s: State, w: Worker, now: real, i: nat, o: Outcome, later: real)
    requires Inv(s) && w !in s.slots && w.slot < Concurrency(w.cls) && w.generation == s.generation && s.running && !s.recycling
    requires FirstDue(s.jobs, Of(s.queues, w.cls), w.cls, w.generation, s.keys, now, 0) == Some(i)
    requires Awaits(s, Of(s.queues, w.cls)[i]) && o != Interrupted
    ensures
      var j := Of(s.queues, w.cls)[i];
      var m := Run(s, Send(w, now, s.cfg.interval));
      var t := Run(s, Send(w, now, s.cfg.interval) + Attempt(w, o, later));
      && Awaits(m, j) && m.jobs[j].attempts == s.jobs[j].attempts + 1 && m.jobs[j].semantics == s.jobs[j].semantics
      && m.failures == s.failures && m.cfg == s.cfg
      && j in t.jobs && Settled(m, t, j, o, later)
  {
    SendRuns(s, w, now, i);
    var m := Run(s, Send(w, now, s.cfg.interval));
    hide Inv, Run, Of, FirstDue, Send, Attempt, Settled;
    AttemptSettles(m, w, o, later);
    RunsOn(s, Send(w, now, s.cfg.interval), Attempt(w, o, later));
  }
}
