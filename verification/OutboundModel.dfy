/** The outbound Bot API scheduler as a state machine.

    One event is one stretch of the source between two suspension points: a
    submission, a caller giving up, a worker taking a job, each stage of a
    transport attempt, each stage of a transport recycle, and the two halves of
    `stop`.  Transport outcomes, clock readings and cancellations are inputs.
    An event whose guard does not hold leaves the state as it is. */
module OutboundModel {
  import opened Wrappers
  import Text

  datatype TrafficClass = CallbackAck | Interactive | Media | Maintenance
  datatype Semantics = Query | Idempotent | NonIdempotent
  datatype ErrorKind = Stopping | Uncertain | Transport

  /** An asyncio future; everything but `Pending` is final. */
  datatype Future = Pending | Fulfilled | Failed(error: ErrorKind) | Cancelled

  /** How one transport attempt ended. */
  datatype Outcome =
    | Delivered
    | Rejected                        // BadRequest or Forbidden
    | RetryAfter(seconds: real)
    | Network(knownUnsent: bool)
    | TelegramFailure                 // any other TelegramError
    | Unexpected                      // any other exception
    | Interrupted                     // the worker was cancelled by stop

  type CoalesceKey = (string, int, int)

  datatype Job = Job(
    cls: TrafficClass,
    chat: string,
    semantics: Semantics,
    coalesce: Option<CoalesceKey>,
    dueAt: real,
    attempts: nat,
    generation: nat,
    started: bool,
    future: Future,
    history: seq<Outcome>)            // outcomes of the finished attempts, oldest first

  datatype Worker = Worker(generation: nat, cls: TrafficClass, slot: nat)

  /** Where a busy worker is inside its job. `Leaving` still counts as a running
      transport operation; `Ready` exists only when a minimum interval is set. */
  datatype Phase =
    | Pacing
    | Ready
    | Waiting
    | InFlight
    | Leaving(outcome: Outcome)
    | Settling(outcome: Outcome)      // only ever inside a Leave event
    | RecycleEnter(knownUnsent: bool)
    | RecycleWait(knownUnsent: bool)
    | RecycleRun(knownUnsent: bool)
    | RecycleLeaving(knownUnsent: bool, interrupted: bool)

  datatype Slot = Slot(job: nat, phase: Phase)

  datatype Config = Config(retries: nat, maxQueue: nat, canRecycle: bool, interval: bool)

  type Queues = map<TrafficClass, seq<nat>>

  const NoQueues: Queues := map[CallbackAck := [], Interactive := [], Media := [], Maintenance := []]

  /** The queue of a class; every class has one. */
  function Of(q: Queues, c: TrafficClass): seq<nat> { if c in q then q[c] else [] }

  lemma OfUpdate(q: Queues, m: Queues, c: TrafficClass, r: seq<nat>)
    requires m == q[c := r]
    ensures Of(m, c) == r && forall d :: d != c ==> Of(m, d) == Of(q, d)
  {
    forall d | d != c
      ensures Of(m, d) == Of(q, d)
    {
      assert d in m <==> d in q;
    }
  }

  datatype State = State(
    cfg: Config,
    jobs: map<nat, Job>,              // every job admitted so far, by sequence number
    queues: Queues,
    slots: map<Worker, Slot>,         // busy workers only
    keys: set<(nat, string)>,
    counter: nat,
    generation: nat,
    running: bool,
    stopping: bool,
    stops: nat,                       // stop() calls still inside their grace wait
    failures: nat,
    inTransport: int,
    recycling: bool)

  datatype Event =
    | Submit(cls: TrafficClass, chat: Option<string>, semantics: Semantics, coalesce: Option<CoalesceKey>,
             now: real, journalFails: bool)
    | CallerCancels(job: nat)
    | Take(worker: Worker, now: real)
    | Pass(worker: Worker)            // pacing is over
    | Begin(worker: Worker)           // the minimum interval is over
    | Enter(worker: Worker)
    | Finish(worker: Worker, outcome: Outcome)
    | Leave(worker: Worker, now: real)
    | EnterRecycle(worker: Worker, now: real)
    | RunRecycle(worker: Worker)
    | FinishRecycle(worker: Worker)
    | LeaveRecycle(worker: Worker, now: real)
    | Abort(worker: Worker)           // stop cancels the worker task
    | Start
    | StopBegin
    | StopEnd

  // ------------------------------------------------------------ vocabulary

  function Concurrency(c: TrafficClass): nat {
    match c
    case CallbackAck => 4
    case Interactive => 2
    case Media => 1
    case Maintenance => 1
  }

  predicate Keyed(c: TrafficClass) { c == Interactive }

  /** Every job a queue or a busy worker refers to is in the job table. */
  ghost predicate Closed(s: State) {
    && (forall c, j :: j in Of(s.queues, c) ==> j in s.jobs)
    && (forall w :: w in s.slots ==> s.slots[w].job in s.jobs)
  }

  predicate Current(s: State, j: nat)
    requires j in s.jobs
  {
    s.jobs[j].generation == s.generation && !s.stopping && s.jobs[j].future == Pending
  }

  /** Telegram answered, or the request never left: a repeat cannot act twice. */
  predicate Retriable(o: Outcome) {
    o.RetryAfter? || (o.Network? && o.knownUnsent)
  }

  function Max(a: real, b: real): real { if a < b then b else a }

  function Pow2(n: nat): nat { if n == 0 then 1 else 2 * Pow2(n - 1) }

  function RetryDelay(attempt: nat): real {
    var d := Pow2(if attempt == 0 then 0 else attempt - 1) as real;
    if d < 60.0 then d else 60.0
  }

  // ------------------------------------------------------ choosing a job

  /** The i-th entry of a queue may be taken, due time aside. */
  predicate Eligible(jobs: map<nat, Job>, q: seq<nat>, c: TrafficClass, gen: nat, keys: set<(nat, string)>, i: nat)
    requires i < |q| && forall j :: j in q ==> j in jobs
  {
    Keyed(c) ==>
      && (gen, jobs[q[i]].chat) !in keys
      && forall k :: 0 <= k < |q| ==> !(jobs[q[k]].chat == jobs[q[i]].chat && q[k] < q[i])
  }

  /** Index of the first due and eligible entry at or after `from`. */
  function FirstDue(jobs: map<nat, Job>, q: seq<nat>, c: TrafficClass, gen: nat, keys: set<(nat, string)>,
                    now: real, from: nat): (r: Option<nat>)
    requires from <= |q| && forall j :: j in q ==> j in jobs
    ensures r.Some? ==> from <= r.value < |q| && jobs[q[r.value]].dueAt <= now
                        && Eligible(jobs, q, c, gen, keys, r.value)
    ensures forall k :: from <= k < (if r.Some? then r.value else |q|) ==>
              jobs[q[k]].dueAt > now || !Eligible(jobs, q, c, gen, keys, k)
    decreases |q| - from
  {
    if from == |q| then None
    else if jobs[q[from]].dueAt <= now && Eligible(jobs, q, c, gen, keys, from) then Some(from)
    else FirstDue(jobs, q, c, gen, keys, now, from + 1)
  }

  /** The earliest due time among the eligible entries at or after `from`. */
  function EarliestDue(jobs: map<nat, Job>, q: seq<nat>, c: TrafficClass, gen: nat, keys: set<(nat, string)>,
                       from: nat): (r: Option<real>)
    requires from <= |q| && forall j :: j in q ==> j in jobs
    ensures r.Some? ==> exists k :: from <= k < |q| && Eligible(jobs, q, c, gen, keys, k) && jobs[q[k]].dueAt == r.value
    ensures forall k :: from <= k < |q| && Eligible(jobs, q, c, gen, keys, k) ==> r.Some? && r.value <= jobs[q[k]].dueAt
    decreases |q| - from
  {
    if from == |q| then None
    else
      var rest := EarliestDue(jobs, q, c, gen, keys, from + 1);
      var d := jobs[q[from]].dueAt;
      if !Eligible(jobs, q, c, gen, keys, from) then rest
      else if rest.Some? && rest.value < d then rest
      else Some(d)
  }

  // ------------------------------------------------------ building blocks

  function Resolve(s: State, j: nat, f: Future): State
    requires j in s.jobs
  {
    if s.jobs[j].future == Pending then s.(jobs := s.jobs[j := s.jobs[j].(future := f)]) else s
  }

  function ReleaseKey(s: State, j: nat): State
    requires j in s.jobs
  {
    if Keyed(s.jobs[j].cls) then s.(keys := s.keys - {(s.jobs[j].generation, s.jobs[j].chat)}) else s
  }

  /** The worker's `finally`: forget the job, release its chat. */
  function Exit(s: State, w: Worker): State
    requires w in s.slots && s.slots[w].job in s.jobs
  {
    ReleaseKey(s.(slots := s.slots - {w}), s.slots[w].job)
  }

  function At(s: State, w: Worker, p: Phase): State
    requires w in s.slots
  {
    s.(slots := s.slots[w := s.slots[w].(phase := p)])
  }

  function FinishJob(s: State, w: Worker, f: Future): State
    requires w in s.slots && s.slots[w].job in s.jobs
  {
    Exit(if Current(s, s.slots[w].job) then Resolve(s, s.slots[w].job, f) else s, w)
  }

  /** Back to the end of its own class queue, if it still matters. */
  function Requeue(s: State, w: Worker, due: real): State
    requires w in s.slots && s.slots[w].job in s.jobs
  {
    var j := s.slots[w].job;
    Exit(if Current(s, j) then
           s.(jobs := s.jobs[j := s.jobs[j].(dueAt := due)],
              queues := s.queues[s.jobs[j].cls := Of(s.queues, s.jobs[j].cls) + [j]])
         else s, w)
  }

  /** What a network error does once recycling is out of the way. */
  function NetworkTail(s: State, w: Worker, knownUnsent: bool, now: real): State
    requires w in s.slots && s.slots[w].job in s.jobs
  {
    var j := s.slots[w].job;
    if !Current(s, j) then Exit(s, w)
    else if s.jobs[j].semantics == NonIdempotent && !knownUnsent then FinishJob(s, w, Failed(Uncertain))
    else if s.jobs[j].attempts <= s.cfg.retries then Requeue(s, w, now + RetryDelay(s.jobs[j].attempts))
    else FinishJob(s, w, Failed(Transport))
  }

  /** The attempt is over and no longer counted; act on its outcome. */
  function Settle(s: State, w: Worker, o: Outcome, now: real): State
    requires w in s.slots && s.slots[w].job in s.jobs
  {
    var j := s.slots[w].job;
    match o
    case Delivered => if Current(s, j) then FinishJob(s.(failures := 0), w, Fulfilled) else Exit(s, w)
    case RetryAfter(d) =>
      if s.jobs[j].attempts <= s.cfg.retries then Requeue(s, w, now + Max(0.0, Max(0.0, d) + 0.1))
      else FinishJob(s, w, Failed(Transport))
    case Network(unsent) =>
      if !Current(s, j) then Exit(s, w)
      else
        var s1 := s.(failures := s.failures + 1);
        if s1.failures >= 2 && s.cfg.canRecycle then At(s1, w, RecycleEnter(unsent))
        else NetworkTail(s1, w, unsent, now)
    case Interrupted => Exit(s, w)
    case _ => FinishJob(s, w, Failed(Transport))
  }

  /** `transport_started` is set and the attempt counted in one go. */
  function BeginAttempt(s: State, w: Worker): State
    requires w in s.slots && s.slots[w].job in s.jobs
  {
    var j := s.slots[w].job;
    At(s.(jobs := s.jobs[j := s.jobs[j].(attempts := s.jobs[j].attempts + 1, started := true)]), w, Waiting)
  }

  // ------------------------------------------------------------ submission

  function QueuedTotal(q: Queues): nat {
    |Of(q, CallbackAck)| + |Of(q, Interactive)| + |Of(q, Media)| + |Of(q, Maintenance)|
  }

  /** How many queued edits with this key still wait for an answer. */
  function Replaceable(jobs: map<nat, Job>, q: seq<nat>, key: Option<CoalesceKey>): (n: nat)
    requires forall j :: j in q ==> j in jobs
    ensures n <= |q|
  {
    if key == None || q == [] then 0
    else (if jobs[q[0]].coalesce == key && jobs[q[0]].future == Pending then 1 else 0) + Replaceable(jobs, q[1..], key)
  }

  function Without(jobs: map<nat, Job>, q: seq<nat>, key: Option<CoalesceKey>): (r: seq<nat>)
    requires forall j :: j in q ==> j in jobs
    ensures forall j :: j in r <==> j in q && (key == None || jobs[j].coalesce != key)
    ensures |r| + Replaceable(jobs, q, key) <= |q|
  {
    if key == None || q == [] then q
    else
      var rest := Without(jobs, q[1..], key);
      assert forall j :: j in q <==> j == q[0] || j in q[1..];
      if jobs[q[0]].coalesce == key then rest else [q[0]] + rest
  }

  /** A new edit replaces every older one that has not reached the transport. */
  predicate Supersedable(job: Job, key: Option<CoalesceKey>) {
    key.Some? && job.coalesce == key && !job.started && job.future == Pending
  }

  /** The same queues without the edits of this key. */
  function WithoutAll(jobs: map<nat, Job>, queues: Queues, key: Option<CoalesceKey>): Queues
    requires forall c, j :: j in Of(queues, c) ==> j in jobs
  {
    map c | c in queues :: Without(jobs, Of(queues, c), key)
  }

  /** Cancel the edits among `ids` that a new one with this key replaces. */
  function CancelWhere(jobs: map<nat, Job>, ids: set<nat>, key: Option<CoalesceKey>): (m: map<nat, Job>)
    ensures m.Keys == jobs.Keys
  {
    map j | j in jobs :: if j in ids && Supersedable(jobs[j], key) then jobs[j].(future := Cancelled) else jobs[j]
  }

  function Supersede(s: State, key: Option<CoalesceKey>): (r: State)
    requires Closed(s)
    ensures r == s.(jobs := r.jobs, queues := r.queues) && r.jobs.Keys == s.jobs.Keys
  {
    s.(jobs := CancelWhere(s.jobs, s.jobs.Keys, key), queues := WithoutAll(s.jobs, s.queues, key))
  }

  function ReplaceableTotal(s: State, key: Option<CoalesceKey>): nat
    requires Closed(s)
  {
    Replaceable(s.jobs, Of(s.queues, CallbackAck), key) + Replaceable(s.jobs, Of(s.queues, Interactive), key)
    + Replaceable(s.jobs, Of(s.queues, Media), key) + Replaceable(s.jobs, Of(s.queues, Maintenance), key)
  }

  function EffectiveKey(semantics: Semantics, coalesce: Option<CoalesceKey>): Option<CoalesceKey> {
    if semantics == Idempotent then coalesce else None
  }

  predicate Accepts(s: State, key: Option<CoalesceKey>)
    requires Closed(s)
  {
    s.running && !s.stopping && QueuedTotal(s.queues) - ReplaceableTotal(s, key) < s.cfg.maxQueue
  }

  function NewJob(s: State, e: Event): Job
    requires e.Submit?
  {
    Job(e.cls, if e.chat.Some? then e.chat.value else "job:" + Text.Digits(s.counter), e.semantics,
        EffectiveKey(e.semantics, e.coalesce), e.now, 0, 0, false, Pending, [])
  }

  /** A new call joins the end of its queue. */
  function Enlist(s: State, n: nat, job: Job): State {
    s.(jobs := s.jobs[n := job], queues := s.queues[job.cls := Of(s.queues, job.cls) + [n]])
  }

  function Admit(s: State, e: Event): State
    requires Closed(s) && e.Submit?
  {
    var key := EffectiveKey(e.semantics, e.coalesce);
    if !Accepts(s, key) then s
    else
      var s1 := Supersede(s, key);
      var s2 := s1.(counter := s.counter + 1);
      if e.semantics == NonIdempotent && e.journalFails then s2
      else Enlist(s2, s.counter, NewJob(s, e))
  }

  // ------------------------------------------------------------- workers

  /** Workers of the live generation exist while it runs; those of older
      generations may linger until their cancellation reaches them. */
  predicate Exists(s: State, w: Worker) {
    w.slot < Concurrency(w.cls) && w.generation <= s.generation && (w.generation == s.generation ==> s.running)
  }

  /** The i-th entry leaves the queue for worker `w`. A worker of an older
      generation only fails the job; a job its caller gave up is dropped. */
  function TakeAt(s: State, w: Worker, i: nat): State
    requires Closed(s) && i < |Of(s.queues, w.cls)|
  {
    var q := Of(s.queues, w.cls);
    var j := q[i];
    var s1 := s.(queues := s.queues[w.cls := q[..i] + q[i + 1..]],
                 keys := if Keyed(w.cls) then s.keys + {(w.generation, s.jobs[j].chat)} else s.keys,
                 jobs := s.jobs[j := s.jobs[j].(generation := w.generation)]);
    if w.generation != s.generation || s.stopping then Resolve(s1, j, Failed(Stopping))
    else if s.jobs[j].future == Cancelled then ReleaseKey(s1, j)
    else s1.(slots := s1.slots[w := Slot(j, Pacing)])
  }

  function TakeJob(s: State, w: Worker, now: real): State
    requires Closed(s)
  {
    if w in s.slots || !Exists(s, w) then s
    else
      match FirstDue(s.jobs, Of(s.queues, w.cls), w.cls, w.generation, s.keys, now, 0)
      case None => s
      case Some(i) => TakeAt(s, w, i)
  }

  predicate Stale(s: State, w: Worker) { w.generation != s.generation || s.stopping }

  function AbortWorker(s: State, w: Worker): State
    requires Closed(s) && w in s.slots
  {
    match s.slots[w].phase
    case InFlight => LogOutcome(s, w, Interrupted)
    case Leaving(_) => s
    case Settling(_) => s
    case RecycleWait(u) => At(s, w, RecycleLeaving(u, true))
    case RecycleRun(u) => At(s, w, RecycleLeaving(u, true))
    case RecycleLeaving(_, _) => s
    case Waiting => Exit(Stopped(s, s.slots[w].job), w)
    case _ => Exit(s, w)
  }

  /** The transport returned: `transport_started` stays set until the operation
      is no longer counted. */
  function LogOutcome(s: State, w: Worker, o: Outcome): State
    requires w in s.slots && s.slots[w].job in s.jobs
  {
    var j := s.slots[w].job;
    At(s.(jobs := s.jobs[j := s.jobs[j].(history := s.jobs[j].history + [o])]), w, Leaving(o))
  }

  function Stopped(s: State, j: nat): State
    requires j in s.jobs
  {
    s.(jobs := s.jobs[j := s.jobs[j].(started := false)])
  }

  function LeaveTransport(s: State, w: Worker, outcome: Outcome): State
    requires w in s.slots && s.slots[w].job in s.jobs
  {
    At(Stopped(s, s.slots[w].job).(inTransport := s.inTransport - 1), w, Settling(outcome))
  }

  function StepWorker(s: State, e: Event): State
    requires Closed(s) && (e.Pass? || e.Begin? || e.Enter? || e.Finish? || e.Leave? || e.Abort?) && e.worker in s.slots
  {
    var w := e.worker;
    var slot := s.slots[w];
    match e
    case Pass(_) =>
      if !slot.phase.Pacing? then s
      else if !Current(s, slot.job) then Exit(s, w)
      else if s.cfg.interval then At(s, w, Ready)
      else BeginAttempt(s, w)
    case Begin(_) => if slot.phase.Ready? then BeginAttempt(s, w) else s
    case Enter(_) =>
      if slot.phase.Waiting? && !s.recycling then At(s.(inTransport := s.inTransport + 1), w, InFlight) else s
    case Finish(_, o) =>
      if slot.phase.InFlight? && !o.Interrupted? then LogOutcome(s, w, o) else s
    case Leave(_, now) =>
      if slot.phase.Leaving? then Settle(LeaveTransport(s, w, slot.phase.outcome), w, slot.phase.outcome, now) else s
    case Abort(_) => if Stale(s, w) then AbortWorker(s, w) else s
  }

  function StepRecycle(s: State, e: Event): State
    requires Closed(s) && (e.EnterRecycle? || e.RunRecycle? || e.FinishRecycle? || e.LeaveRecycle?) && e.worker in s.slots
  {
    var w := e.worker;
    var slot := s.slots[w];
    match e
    case EnterRecycle(_, now) =>
      if !slot.phase.RecycleEnter? then s
      else if s.recycling then NetworkTail(s, w, slot.phase.knownUnsent, now)
      else At(s.(recycling := true), w, RecycleWait(slot.phase.knownUnsent))
    case RunRecycle(_) =>
      if slot.phase.RecycleWait? && s.inTransport == 0 then At(s, w, RecycleRun(slot.phase.knownUnsent)) else s
    case FinishRecycle(_) =>
      if !slot.phase.RecycleRun? then s
      else At(if Current(s, slot.job) then s.(failures := 0) else s, w, RecycleLeaving(slot.phase.knownUnsent, false))
    case LeaveRecycle(_, now) =>
      if !slot.phase.RecycleLeaving? then s
      else if slot.phase.interrupted then Exit(s.(recycling := false), w)
      else NetworkTail(s.(recycling := false), w, slot.phase.knownUnsent, now)
  }

  // ----------------------------------------------------------- life cycle

  /** The jobs of the busy workers. */
  function HeldIds(slots: map<Worker, Slot>): set<nat> { set w | w in slots :: slots[w].job }

  /** The jobs in the queues of these classes. */
  function QueuedIds(q: Queues, classes: set<TrafficClass>): set<nat> {
    set c, j | c in classes && c in q && j in q[c] :: j
  }

  /** Fail the unanswered calls among `ids`. */
  function FailWhere(jobs: map<nat, Job>, ids: set<nat>): (m: map<nat, Job>)
    ensures m.Keys == jobs.Keys
  {
    map j | j in jobs :: if j in ids && jobs[j].future == Pending then jobs[j].(future := Failed(Stopping)) else jobs[j]
  }

  function Emptied(q: Queues): Queues { map c | c in q :: [] }

  /** Every active or queued job is failed, every queue emptied. */
  function FailAll(s: State): State {
    s.(jobs := FailWhere(s.jobs, HeldIds(s.slots) + QueuedIds(s.queues, s.queues.Keys)), queues := Emptied(s.queues))
  }

  function StepLifecycle(s: State, e: Event): State
    requires e.Start? || e.StopBegin? || e.StopEnd?
  {
    match e
    case Start =>
      if s.running then s
      else s.(running := true, stopping := false, generation := s.generation + 1)
    case StopBegin =>
      var s1 := FailAll(s).(stopping := true, generation := s.generation + 1, running := false);
      if s.running then s1.(stops := s.stops + 1) else s1.(keys := {})
    case StopEnd => if s.stops == 0 then s else s.(stops := s.stops - 1, keys := {})
  }

  function Step(s: State, e: Event): State
    requires Closed(s)
  {
    if e.Submit? then Admit(s, e)
    else if e.CallerCancels? then (if e.job in s.jobs then Resolve(s, e.job, Cancelled) else s)
    else if e.Take? then TakeJob(s, e.worker, e.now)
    else if e.Start? || e.StopBegin? || e.StopEnd? then StepLifecycle(s, e)
    else if e.worker !in s.slots then s
    else if e.EnterRecycle? || e.RunRecycle? || e.FinishRecycle? || e.LeaveRecycle? then StepRecycle(s, e)
    else StepWorker(s, e)
  }

  function Initial(cfg: Config): State {
    State(cfg, map[], NoQueues, map[], {}, 0, 0, false, false, 0, 0, 0, false)
  }
}
