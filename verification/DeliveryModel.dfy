/** Reconciling editable messages to their latest payload: one worker a message,
    superseded payloads, and a stop in three steps. One event is one stretch
    between two suspension points; edit results, clock readings and callers that
    give up are inputs. */
module DeliveryModel {
  import opened Wrappers

  type Key = (string, int, int)         // bot role, chat, message

  datatype Verdict = Delivered | Superseded | TransientFailure | PermanentFailure

  datatype Future = Waiting | Done(verdict: Verdict, attempts: nat, performed: bool) | GivenUp

  datatype EditResult = Edited | Rejected | Transport | Unexpected

  /** A pending delivery; its revision names it. */
  datatype Delivery = Delivery(
    key: Key, fingerprint: string, terminal: bool, dueAt: real, attempts: nat, future: Future)

  datatype Phase = Looking | Sleeping | Editing(revision: nat)

  datatype Worker = Worker(key: Key, phase: Phase)

  datatype State = State(
    deliveries: map<nat, Delivery>,     // every delivery admitted so far
    pending: map<Key, nat>,
    delivered: map<Key, string>,
    tasks: map<Key, nat>,
    workers: map<nat, Worker>,          // tasks that have not ended
    nextTask: nat,
    revision: nat,
    started: bool,
    accepting: bool,
    stopping: bool,
    draining: bool,                     // inside stop()
    edits: seq<(Key, nat)>)             // edits begun, oldest first

  datatype Event =
    | Start
    | Submit(key: Key, fingerprint: string, terminal: bool, now: real)
    | GiveUp(revision: nat)             // a caller cancels its future
    | Look(worker: nat, now: real)
    | Wake(worker: nat)
    | EditEnds(worker: nat, result: EditResult)
    | StopBegin
    | StopCancel
    | Cancelled(worker: nat, ran: bool)
    | StopEnd

  // ---------------------------------------------------------------- steps

  function FinishIn(ds: map<nat, Delivery>, r: nat, v: Verdict, performed: bool): map<nat, Delivery> {
    if r in ds && ds[r].future == Waiting
    then ds[r := ds[r].(future := Done(v, ds[r].attempts, performed))]
    else ds
  }

  /** Every waiting delivery among `ids` is superseded. */
  function SupersedeIn(ds: map<nat, Delivery>, ids: set<nat>): (m: map<nat, Delivery>)
    ensures m.Keys == ds.Keys
  {
    map r | r in ds ::
      if r in ids && ds[r].future == Waiting then ds[r].(future := Done(Superseded, ds[r].attempts, false)) else ds[r]
  }

  predicate HasWorker(s: State, k: Key) { k in s.tasks && s.tasks[k] in s.workers }

  function EnsureWorker(s: State, k: Key): State {
    if HasWorker(s, k) then s
    else s.(tasks := s.tasks[k := s.nextTask], workers := s.workers[s.nextTask := Worker(k, Looking)], nextTask := s.nextTask + 1)
  }

  predicate Joins(s: State, e: Event)
    requires e.Submit?
  {
    && s.started && s.accepting
    && e.key in s.pending && s.pending[e.key] in s.deliveries
    && s.deliveries[s.pending[e.key]].fingerprint == e.fingerprint
  }

  predicate Admits(s: State, e: Event)
    requires e.Submit?
  {
    s.started && s.accepting && !Joins(s, e) && !(e.key in s.delivered && s.delivered[e.key] == e.fingerprint)
  }

  function Min(a: real, b: real): real { if a < b then a else b }

  function SubmitStep(s: State, e: Event): State
    requires e.Submit?
  {
    if Joins(s, e) then
      var r := s.pending[e.key];
      if e.terminal && !s.deliveries[r].terminal
      then s.(deliveries := s.deliveries[r := s.deliveries[r].(terminal := true, dueAt := Min(s.deliveries[r].dueAt, e.now))])
      else s
    else if Admits(s, e) then
      var r := s.revision + 1;
      var ds := if e.key in s.pending then FinishIn(s.deliveries, s.pending[e.key], Superseded, false) else s.deliveries;
      EnsureWorker(
        s.(revision := r,
           deliveries := ds[r := Delivery(e.key, e.fingerprint, e.terminal, e.now, 0, Waiting)],
           pending := s.pending[e.key := r]),
        e.key)
    else s
  }

  function At(s: State, w: nat, p: Phase): State
    requires w in s.workers
  {
    s.(workers := s.workers[w := s.workers[w].(phase := p)])
  }

  /** The worker's `finally` clause. */
  function Exit(s: State, w: nat): State
    requires w in s.workers
  {
    var k := s.workers[w].key;
    var s1 := s.(workers := s.workers - {w}, tasks := if k in s.tasks && s.tasks[k] == w then s.tasks - {k} else s.tasks);
    if k in s.pending && !s.stopping then EnsureWorker(s1, k) else s1
  }

  function LookStep(s: State, w: nat, now: real): State
    requires w in s.workers
  {
    var k := s.workers[w].key;
    if !s.workers[w].phase.Looking? then s
    else if s.stopping || k !in s.pending then Exit(s, w)
    else
      var r := s.pending[k];
      if r !in s.deliveries then s
      else if s.deliveries[r].dueAt > now then At(s, w, Sleeping)
      else At(s.(deliveries := s.deliveries[r := s.deliveries[r].(attempts := s.deliveries[r].attempts + 1)],
                 edits := s.edits + [(k, r)]), w, Editing(r))
  }

  function VerdictOf(result: EditResult): Verdict {
    match result
    case Edited => Delivered
    case Transport => TransientFailure
    case Rejected => PermanentFailure
    case Unexpected => PermanentFailure
  }

  function EditStep(s: State, w: nat, result: EditResult): State
    requires w in s.workers
  {
    var k := s.workers[w].key;
    if !s.workers[w].phase.Editing? then s
    else
      var r := s.workers[w].phase.revision;
      var s1 := At(s, w, Looking);
      if k in s.pending && s.pending[k] == r && r in s.deliveries
      then s1.(pending := s.pending - {k},
               delivered := if result.Edited? then s.delivered[k := s.deliveries[r].fingerprint] else s.delivered,
               deliveries := FinishIn(s.deliveries, r, VerdictOf(result), result.Edited?))
      else s1
  }

  /** Keys whose pending delivery need not survive a stop. */
  function Dispensable(s: State): set<Key> {
    set k | k in s.pending && (s.pending[k] in s.deliveries ==> !s.deliveries[s.pending[k]].terminal)
  }

  function PendingIds(pending: map<Key, nat>, ks: set<Key>): set<nat> { set k | k in ks && k in pending :: pending[k] }

  function Withdraw(s: State, ks: set<Key>): State {
    s.(pending := s.pending - ks, deliveries := SupersedeIn(s.deliveries, PendingIds(s.pending, ks)))
  }

  function StopStep(s: State, e: Event): State
    requires e.StopBegin? || e.StopCancel? || e.StopEnd?
  {
    match e
    case StopBegin => if !s.started || s.draining then s else Withdraw(s, Dispensable(s)).(accepting := false, draining := true)
    case StopCancel => if s.draining then s.(stopping := true) else s
    case StopEnd =>
      if s.draining && s.stopping && s.workers == map[]
      then Withdraw(s, s.pending.Keys).(tasks := map[], started := false, draining := false)
      else s
  }

  function GiveUpStep(s: State, r: nat): State {
    if r in s.deliveries && s.deliveries[r].future == Waiting
    then s.(deliveries := s.deliveries[r := s.deliveries[r].(future := GivenUp)])
    else s
  }

  /** A task cancelled before it first ran skips its `finally` clause. */
  function CancelledStep(s: State, w: nat, ran: bool): State
    requires w in s.workers
  {
    if !s.stopping || !s.draining then s
    else if ran || !s.workers[w].phase.Looking? then Exit(s, w)
    else s.(workers := s.workers - {w})
  }

  function Step(s: State, e: Event): State {
    if e.Start? then (if s.started then s else s.(started := true, accepting := true, stopping := false))
    else if e.Submit? then SubmitStep(s, e)
    else if e.GiveUp? then GiveUpStep(s, e.revision)
    else if e.StopBegin? || e.StopCancel? || e.StopEnd? then StopStep(s, e)
    else if e.worker !in s.workers then s
    else if e.Look? then LookStep(s, e.worker, e.now)
    else if e.Wake? then (if s.workers[e.worker].phase.Sleeping? then At(s, e.worker, Looking) else s)
    else if e.EditEnds? then EditStep(s, e.worker, e.result)
    else CancelledStep(s, e.worker, e.ran)
  }

  const Initial := State(map[], map[], map[], map[], map[], 0, 0, false, false, false, false, [])

  // ------------------------------------------------------------ invariant

  ghost predicate DeliveryOk(s: State, r: nat) {
    r in s.deliveries ==>
      var d := s.deliveries[r];
      && r <= s.revision && d.attempts <= 1
      && (d.future == Waiting ==> Lookup(s.pending, d.key) == Some(r))
      && (d.key in s.pending ==> r <= s.pending[d.key])
  }

  ghost predicate PendingOk(s: State, k: Key) {
    k in s.pending ==>
      && s.pending[k] in s.deliveries && s.deliveries[s.pending[k]].key == k
      && (!s.stopping ==> HasWorker(s, k))
      && (!s.stopping && s.deliveries[s.pending[k]].attempts == 1 ==> s.workers[s.tasks[k]].phase == Editing(s.pending[k]))
  }

  ghost predicate WorkerOk(s: State, w: nat) {
    w in s.workers ==>
      && w < s.nextTask
      && Lookup(s.tasks, s.workers[w].key) == Some(w)
      && (s.workers[w].phase.Editing? ==>
            var r := s.workers[w].phase.revision;
            r in s.deliveries && s.deliveries[r].key == s.workers[w].key && s.deliveries[r].attempts == 1)
  }

  ghost predicate TaskOk(s: State, k: Key) {
    k in s.tasks ==> s.tasks[k] < s.nextTask && (s.tasks[k] in s.workers ==> s.workers[s.tasks[k]].key == k)
  }

  /** Edits go out once per revision and in increasing revisions per message. */
  ghost predicate EditsOk(s: State) {
    && (forall i :: 0 <= i < |s.edits| ==>
          s.edits[i].1 in s.deliveries && s.deliveries[s.edits[i].1].key == s.edits[i].0 && s.deliveries[s.edits[i].1].attempts == 1)
    && (forall i, j :: 0 <= i < j < |s.edits| && s.edits[i].0 == s.edits[j].0 ==> s.edits[i].1 < s.edits[j].1)
  }

  ghost predicate LifeOk(s: State) {
    && (!s.started ==> s.pending == map[] && s.workers == map[] && !s.draining && s.tasks == map[])
    && (s.draining ==> s.started && !s.accepting)
    && (s.started && s.stopping ==> s.draining)
  }

  ghost predicate Valid(s: State) {
    && (forall r :: DeliveryOk(s, r))
    && (forall k :: PendingOk(s, k))
    && (forall w :: WorkerOk(s, w))
    && (forall k :: TaskOk(s, k))
    && EditsOk(s)
    && LifeOk(s)
  }
}
