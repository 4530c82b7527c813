/** Delivery of queued prompts. The server, the receipts it gives and the points
    where a dispatcher is suspended are all in the state; a start call was
    applied before it failed or never is. */
module QueueDispatch {
  import opened Wrappers

  /** `Rejected`: the server refused the start. `NoDirectory`: the session has no
      usable working directory. */
  datatype Status = Queued | Dispatched | Rejected | NoDirectory | Cancelled

  datatype Entry = Entry(client: string, thread: string, space: Option<(string, nat)>, status: Status)

  /** The lock a dispatcher holds: the queue of a thread, or of a space. */
  datatype Key = ThreadQueue(thread: string) | SpaceQueue(space: (string, nat))

  datatype Phase =
    // Asking for a receipt; the server's answer, once given, is as old as that.
    | Reading(entry: nat, answer: Option<bool>)
    | Found(entry: nat)                       // a receipt exists, asking for its turn
    | Starting(entry: nat, applied: bool)     // the start call is in flight
    | Tracking(entry: nat)                    // the start call returned
    | Reconciling(entry: nat, refused: bool, answer: Option<bool>)   // the start call raised
    | Closing                                 // only the lock is left to release

  datatype State = State(
    entries: map<nat, Entry>,
    dispatchers: map<Key, Phase>,             // held queue locks
    gates: map<string, string>,               // thread to the prompt holding its turn gate
    accepted: map<string, nat>)               // turns the server started, by prompt

  datatype Event =
    | Enqueue(id: nat, client: string, thread: string, space: Option<(string, nat)>)
    | Cancel(id: nat)                         // the user takes the prompt back
    | Begin(key: Key, id: nat, directory: bool)
    | Answer(key: Key)                        // the server takes its snapshot of the thread
    | Receipt(key: Key, known: bool)          // the reading returns that answer, or fails
    | Mark(key: Key, bindsGate: bool)
    | Apply(key: Key)                         // the server starts the turn
    | Return(key: Key)
    | Raise(key: Key, refused: bool)
    | Release(key: Key)
    | Abort(key: Key)                         // the dispatcher is cancelled
    | Crash
    | OpenGate(thread: string)                // a completion, or a forced release

  // ---------------------------------------------------------------- steps

  function Count(s: State, client: string): nat { if client in s.accepted then s.accepted[client] else 0 }

  predicate Delivered(s: State, id: nat)
    requires id in s.entries
  {
    Count(s, s.entries[id].client) > 0
  }

  /** The queue of a thread also lists the prompts of its spaces. */
  predicate Lists(k: Key, e: Entry) {
    e.status == Queued && match k
                          case ThreadQueue(thread) => e.thread == thread
                          case SpaceQueue(space) => e.space == Some(space)
  }

  function To(s: State, k: Key, p: Phase): State { s.(dispatchers := s.dispatchers[k := p]) }

  /** `UPDATE ... WHERE status = 'queued'`. */
  function Leave(s: State, id: nat, status: Status): State
    requires id in s.entries
  {
    if s.entries[id].status == Queued then s.(entries := s.entries[id := s.entries[id].(status := status)]) else s
  }

  function EntryOf(p: Phase): Option<nat> { if p.Closing? then None else Some(p.entry) }

  /** Every dispatcher works on an entry that exists. */
  ghost predicate Known(s: State) {
    forall k :: k in s.dispatchers && !s.dispatchers[k].Closing? ==> s.dispatchers[k].entry in s.entries
  }

  /** The server looks once; what happens afterwards does not change its answer. */
  function OnAnswer(s: State, k: Key): State
    requires Known(s) && k in s.dispatchers
  {
    match s.dispatchers[k]
    case Reading(id, answer) =>
      if answer == None then To(s, k, Reading(id, Some(Delivered(s, id)))) else s
    case Reconciling(id, refused, answer) =>
      if answer == None then To(s, k, Reconciling(id, refused, Some(Delivered(s, id)))) else s
    case _ => s
  }

  /** The dispatcher resumes with whatever answer the server gave. */
  function OnReceipt(s: State, k: Key, known: bool): State
    requires Known(s) && k in s.dispatchers
  {
    match s.dispatchers[k]
    case Reading(id, answer) =>
      var e := s.entries[id];
      if !known then To(s, k, Closing)
      else if answer == None then s
      else if answer.value then To(s, k, Found(id))
      else if e.thread in s.gates then To(s, k, Closing)
      else To(s.(gates := s.gates[e.thread := e.client]), k, Starting(id, false))
    case Reconciling(id, refused, answer) =>
      if !known then To(s, k, Closing)
      else if answer == None then s
      else if answer.value then To(Leave(s, id, Dispatched), k, Closing)
      else if refused then To(Leave(s.(gates := s.gates - {s.entries[id].thread}), id, Rejected), k, Closing)
      else To(s, k, Closing)
    case _ => s
  }

  function OnMark(s: State, k: Key, bindsGate: bool): State
    requires Known(s) && k in s.dispatchers
  {
    match s.dispatchers[k]
    case Found(id) =>
      var e := s.entries[id];
      var s1 := if bindsGate && e.thread !in s.gates then s.(gates := s.gates[e.thread := e.client]) else s;
      To(Leave(s1, id, Dispatched), k, Closing)
    case Tracking(id) => To(Leave(s, id, Dispatched), k, Closing)
    case _ => s
  }

  function OnCall(s: State, e: Event): State
    requires Known(s) && (e.Apply? || e.Return? || e.Raise?) && e.key in s.dispatchers
  {
    var k := e.key;
    var p := s.dispatchers[k];
    if p.Starting? then
      var client := s.entries[p.entry].client;
      if e.Apply? then
        if p.applied then s
        else To(s.(accepted := s.accepted[client := Count(s, client) + 1]), k, Starting(p.entry, true))
      else if e.Return? then (if p.applied then To(s, k, Tracking(p.entry)) else s)
      else To(s, k, Reconciling(p.entry, e.refused, None))
    else if p.Tracking? && e.Raise? then To(s, k, Reconciling(p.entry, e.refused, None))
    else s
  }

  function OnBegin(s: State, k: Key, id: nat, directory: bool): State {
    if k in s.dispatchers || id !in s.entries || !Lists(k, s.entries[id]) then s
    else if !directory then To(Leave(s, id, NoDirectory), k, Closing)
    else To(s, k, Reading(id, None))
  }

  predicate Unused(s: State, client: string) {
    client !in s.accepted && forall id :: id in s.entries ==> s.entries[id].client != client
  }

  function Step(s: State, e: Event): State
    requires Known(s)
  {
    match e
    case Enqueue(id, client, thread, space) =>
      if id in s.entries || !Unused(s, client) then s
      else s.(entries := s.entries[id := Entry(client, thread, space, Queued)])
    case Cancel(id) => if id in s.entries then Leave(s, id, Cancelled) else s
    case Begin(k, id, directory) => OnBegin(s, k, id, directory)
    case Answer(k) => if k in s.dispatchers then OnAnswer(s, k) else s
    case Receipt(k, known) => if k in s.dispatchers then OnReceipt(s, k, known) else s
    case Mark(k, binds) => if k in s.dispatchers then OnMark(s, k, binds) else s
    case Apply(k) => if k in s.dispatchers then OnCall(s, e) else s
    case Return(k) => if k in s.dispatchers then OnCall(s, e) else s
    case Raise(k, _) => if k in s.dispatchers then OnCall(s, e) else s
    case Release(k) => if k in s.dispatchers && s.dispatchers[k].Closing? then s.(dispatchers := s.dispatchers - {k}) else s
    case Abort(k) => s.(dispatchers := s.dispatchers - {k})
    case Crash => s.(dispatchers := map[], gates := map[])
    case OpenGate(thread) => s.(gates := s.gates - {thread})
  }

  const Initial := State(map[], map[], map[], map[])

  // ------------------------------------------------------------ invariant

  ghost predicate EntryOk(s: State, id: nat) {
    id in s.entries ==>
      && (s.entries[id].status == Dispatched ==> Count(s, s.entries[id].client) == 1)
      && (s.entries[id].status == Rejected ==> Count(s, s.entries[id].client) == 0)
      && Count(s, s.entries[id].client) <= 1
  }

  /** What a dispatcher at work on an entry may rely on. */
  ghost predicate PhaseOk(s: State, p: Phase) {
    !p.Closing? ==>
      && p.entry in s.entries
      && var count := Count(s, s.entries[p.entry].client);
      && s.entries[p.entry].status in {Queued, Cancelled}
      && (p.Found? ==> count == 1)
      && (p.Starting? ==> count == if p.applied then 1 else 0)
      && (p.Tracking? ==> count == 1)
      && (p.Reading? && p.answer.Some? ==> (p.answer.value <==> count == 1))
      && (p.Reconciling? && p.answer.Some? ==> (p.answer.value <==> count == 1))
  }

  predicate SameEntry(p: Phase, q: Phase) { !p.Closing? && EntryOf(p) == EntryOf(q) }

  /** No prompt has two turns. */
  ghost predicate AtMostOne(s: State) { forall id :: id in s.entries ==> Count(s, s.entries[id].client) <= 1 }

  ghost predicate OwnClients(s: State) {
    forall i, j :: i in s.entries && j in s.entries && i != j ==> s.entries[i].client != s.entries[j].client
  }

  ghost predicate Apart(s: State) {
    && OwnClients(s)
    && (forall k, l :: k in s.dispatchers && l in s.dispatchers && SameEntry(s.dispatchers[k], s.dispatchers[l]) ==> k == l)
  }

  ghost predicate Valid(s: State) {
    && (forall id :: EntryOk(s, id))
    && (forall k :: k in s.dispatchers ==> PhaseOk(s, s.dispatchers[k]))
    && Apart(s)
    && Known(s)
  }

  /** No dispatcher picks an entry another one is working on. */
  predicate Solo(s: State, e: Event) {
    e.Begin? ==> forall k :: k in s.dispatchers ==> EntryOf(s.dispatchers[k]) != Some(e.id)
  }

  ghost predicate NobodyOn(s: State, id: nat) {
    forall l :: l in s.dispatchers ==> EntryOf(s.dispatchers[l]) != Some(id)
  }

  /** A dispatcher begins or moves on; gates do not matter. */
  lemma MovesOn(s: State, k: Key, p: Phase, gates: map<string, string>)
    requires Valid(s) && PhaseOk(s, p)
    requires p.Closing? || (k in s.dispatchers && EntryOf(p) == EntryOf(s.dispatchers[k])) || NobodyOn(s, p.entry)
    ensures Valid(To(s.(gates := gates), k, p))
  {
    var t := To(s.(gates := gates), k, p);
    forall i ensures EntryOk(t, i) { assert EntryOk(s, i); }
    forall l | l in t.dispatchers ensures PhaseOk(t, t.dispatchers[l]) {
      assert l != k ==> PhaseOk(s, s.dispatchers[l]);
    }
    hide EntryOk, PhaseOk;
  }

  lemma LeaveIs(s: State, id: nat, status: Status)
    requires id in s.entries
    ensures
      var t := Leave(s, id, status);
      var e := s.entries[id];
      && t == s.(entries := t.entries) && t.entries.Keys == s.entries.Keys
      && (forall i :: i in s.entries && i != id ==> t.entries[i] == s.entries[i])
      && t.entries[id] == e.(status := if e.status == Queued then status else e.status)
  {
  }

  /** An entry nobody works on leaves the queue. */
  lemma LeavesFreely(s: State, id: nat, status: Status)
    requires Valid(s) && id in s.entries && NobodyOn(s, id)
    requires status == Dispatched ==> Count(s, s.entries[id].client) == 1
    requires status == Rejected ==> Count(s, s.entries[id].client) == 0
    ensures Valid(Leave(s, id, status))
  {
    var t := Leave(s, id, status);
    LeaveIs(s, id, status);
    hide Leave;
    forall i ensures EntryOk(t, i) { assert EntryOk(s, i); }
    forall l | l in t.dispatchers ensures PhaseOk(t, t.dispatchers[l]) {
      assert PhaseOk(s, s.dispatchers[l]);
    }
    hide EntryOk, PhaseOk;
  }

  /** The one dispatcher at work on an entry takes it off the queue. */
  lemma Leaves(s: State, k: Key, id: nat, status: Status, gates: map<string, string>)
    requires Valid(s) && id in s.entries
    requires forall l :: l in s.dispatchers && l != k ==> EntryOf(s.dispatchers[l]) != Some(id)
    requires status == Dispatched ==> Count(s, s.entries[id].client) == 1
    requires status == Rejected ==> Count(s, s.entries[id].client) == 0
    ensures Valid(To(Leave(s.(gates := gates), id, status), k, Closing))
  {
    var t := To(s.(gates := gates), k, Closing);
    MovesOn(s, k, Closing, gates);
    assert NobodyOn(t, id);
    hide Valid;
    LeavesFreely(t, id, status);
  }

  /** The server starts the turn of a call in flight. */
  lemma Accepts(s: State, k: Key)
    requires Valid(s) && k in s.dispatchers && s.dispatchers[k].Starting? && !s.dispatchers[k].applied
    ensures
      var id := s.dispatchers[k].entry;
      var client := s.entries[id].client;
      Valid(To(s.(accepted := s.accepted[client := Count(s, client) + 1]), k, Starting(id, true)))
  {
    var id := s.dispatchers[k].entry;
    var client := s.entries[id].client;
    var t := To(s.(accepted := s.accepted[client := Count(s, client) + 1]), k, Starting(id, true));
    assert PhaseOk(s, s.dispatchers[k]);
    forall i ensures EntryOk(t, i) { assert EntryOk(s, i); }
    forall l | l in t.dispatchers ensures PhaseOk(t, t.dispatchers[l]) {
      assert l in s.dispatchers && PhaseOk(s, s.dispatchers[l]);
      assert l != k ==> !SameEntry(s.dispatchers[l], s.dispatchers[k]);
    }
    hide EntryOk, PhaseOk;
  }

  lemma OnlyOne(s: State, k: Key)
    requires Apart(s) && k in s.dispatchers && !s.dispatchers[k].Closing?
    ensures forall l :: l in s.dispatchers && l != k ==> EntryOf(s.dispatchers[l]) != Some(s.dispatchers[k].entry)
  {
    forall l | l in s.dispatchers && l != k
      ensures EntryOf(s.dispatchers[l]) != Some(s.dispatchers[k].entry)
    {
      assert !SameEntry(s.dispatchers[k], s.dispatchers[l]);
    }
  }

  lemma AnswerStep(s: State, k: Key)
    requires Valid(s) && k in s.dispatchers && !s.dispatchers[k].Closing?
    ensures Valid(OnAnswer(s, k))
  {
    var p := s.dispatchers[k];
    assert PhaseOk(s, p) && EntryOk(s, p.entry);
    hide Valid, Apart, EntryOk, Known;
    if p.Reading? && p.answer == None {
      MovesOn(s, k, Reading(p.entry, Some(Delivered(s, p.entry))), s.gates);
    } else if p.Reconciling? && p.answer == None {
      MovesOn(s, k, Reconciling(p.entry, p.refused, Some(Delivered(s, p.entry))), s.gates);
    }
  }

  lemma ReceiptStep(s: State, k: Key, known: bool)
    requires Valid(s) && k in s.dispatchers && !s.dispatchers[k].Closing?
    ensures Valid(OnReceipt(s, k, known))
  {
    var id := s.dispatchers[k].entry;
    assert PhaseOk(s, s.dispatchers[k]) && EntryOk(s, id);
    OnlyOne(s, k);
    hide Valid, Apart, EntryOk, Known;
    var e := s.entries[id];
    var p := s.dispatchers[k];
    MovesOn(s, k, Closing, s.gates);
    if p.Reading? && p.answer.Some? {
      if p.answer.value {
        MovesOn(s, k, Found(id), s.gates);
      } else {
        MovesOn(s, k, Starting(id, false), s.gates[e.thread := e.client]);
      }
    } else if p.Reconciling? && p.answer.Some? {
      if p.answer.value {
        Leaves(s, k, id, Dispatched, s.gates);
      } else {
        Leaves(s, k, id, Rejected, s.gates - {e.thread});
      }
    }
  }

  lemma MarkStep(s: State, k: Key, binds: bool)
    requires Valid(s) && k in s.dispatchers && !s.dispatchers[k].Closing?
    ensures Valid(OnMark(s, k, binds))
  {
    var id := s.dispatchers[k].entry;
    assert PhaseOk(s, s.dispatchers[k]);
    OnlyOne(s, k);
    hide Valid, Apart, EntryOk, Known;
    var e := s.entries[id];
    if s.dispatchers[k].Found? || s.dispatchers[k].Tracking? {
      Leaves(s, k, id, Dispatched, s.gates);
      Leaves(s, k, id, Dispatched, s.gates[e.thread := e.client]);
    }
  }

  lemma CallStep(s: State, e: Event)
    requires Valid(s) && (e.Apply? || e.Return? || e.Raise?) && e.key in s.dispatchers && !s.dispatchers[e.key].Closing?
    ensures Valid(OnCall(s, e))
  {
    var k := e.key;
    var id := s.dispatchers[k].entry;
    assert PhaseOk(s, s.dispatchers[k]);
    hide Valid, Apart, EntryOk, Known;
    if e.Raise? {
      MovesOn(s, k, Reconciling(id, e.refused, None), s.gates);
    } else if s.dispatchers[k].Starting? {
      if e.Apply? && !s.dispatchers[k].applied {
        Accepts(s, k);
      } else if e.Return? && s.dispatchers[k].applied {
        MovesOn(s, k, Tracking(id), s.gates);
      }
    }
  }

  lemma BeginStep(s: State, k: Key, id: nat, directory: bool)
    requires Valid(s) && NobodyOn(s, id)
    ensures Valid(OnBegin(s, k, id, directory))
  {
    if k !in s.dispatchers && id in s.entries && Lists(k, s.entries[id]) {
      assert EntryOk(s, id);
      MovesOn(s, k, Reading(id, None), s.gates);
      Leaves(s, k, id, NoDirectory, s.gates);
    }
  }

  /** A prompt can be taken back even while its start is in flight. */
  lemma CancelStep(s: State, id: nat)
    requires Valid(s) && id in s.entries
    ensures Valid(Leave(s, id, Cancelled))
  {
    var t := Leave(s, id, Cancelled);
    LeaveIs(s, id, Cancelled);
    hide Leave;
    forall i ensures EntryOk(t, i) { assert EntryOk(s, i); }
    forall l | l in t.dispatchers ensures PhaseOk(t, t.dispatchers[l]) {
      assert PhaseOk(s, s.dispatchers[l]);
    }
    hide EntryOk, PhaseOk;
  }

  lemma EnqueueStep(s: State, e: Event)
    requires Valid(s) && e.Enqueue?
    ensures Valid(Step(s, e))
  {
    var t := Step(s, e);
    forall i ensures EntryOk(t, i) { assert EntryOk(s, i); }
    forall l | l in t.dispatchers ensures PhaseOk(t, t.dispatchers[l]) {
      assert PhaseOk(s, s.dispatchers[l]);
    }
    hide EntryOk, PhaseOk;
  }

  /** Dispatchers stop and gates open wherever they are. */
  lemma FewerDispatchers(s: State, t: State)
    requires Valid(s) && t == s.(dispatchers := t.dispatchers, gates := t.gates)
    requires forall k :: k in t.dispatchers ==> k in s.dispatchers && t.dispatchers[k] == s.dispatchers[k]
    ensures Valid(t)
  {
    forall i ensures EntryOk(t, i) { assert EntryOk(s, i); }
    forall l | l in t.dispatchers ensures PhaseOk(t, t.dispatchers[l]) {
      assert PhaseOk(s, s.dispatchers[l]);
    }
    hide EntryOk, PhaseOk;
  }

  lemma StepKeepsValid(s: State, e: Event)
    requires Valid(s) && Solo(s, e)
    ensures Valid(Step(s, e))
  {
    assert Known(s);
    hide Valid, Known, OnBegin, OnAnswer, OnReceipt, OnMark, OnCall, Leave;
    if e.Enqueue? {
      EnqueueStep(s, e);
    } else if e.Cancel? {
      if e.id in s.entries { CancelStep(s, e.id); }
    } else if e.Begin? {
      BeginStep(s, e.key, e.id, e.directory);
    } else if e.Abort? || e.Crash? || e.OpenGate? || e.Release? {
      FewerDispatchers(s, Step(s, e));
    } else if e.key in s.dispatchers {
      if s.dispatchers[e.key].Closing? { ClosingIsDone(s, e); }
      else if e.Answer? { AnswerStep(s, e.key); }
      else if e.Receipt? { ReceiptStep(s, e.key, e.known); }
      else if e.Mark? { MarkStep(s, e.key, e.bindsGate); }
      else { CallStep(s, e); }
    }
  }

  lemma ClosingIsDone(s: State, e: Event)
    requires Known(s) && (e.Answer? || e.Receipt? || e.Mark? || e.Apply? || e.Return? || e.Raise?)
    requires e.key in s.dispatchers && s.dispatchers[e.key].Closing?
    ensures Step(s, e) == s
  {
  }

  // ----------------------------------------------------------------- runs

  ghost function Run(s: State, es: seq<Event>): State
    decreases |es|
  {
    if es == [] || !Known(s) then s else Run(Step(s, es[0]), es[1..])
  }

  ghost predicate SoloRun(s: State, es: seq<Event>)
    decreases |es|
  {
    es == [] || (Known(s) && Solo(s, es[0]) && SoloRun(Step(s, es[0]), es[1..]))
  }

  lemma {:induction false} RunKeepsValid(s: State, es: seq<Event>)
    requires Valid(s) && SoloRun(s, es)
    ensures Valid(Run(s, es))
    decreases |es|
  {
    if es != [] {
      StepKeepsValid(s, es[0]);
      hide Valid, Step, Solo;
      RunKeepsValid(Step(s, es[0]), es[1..]);
    }
  }

  /** However calls fail and dispatchers are cancelled or restarted, the server
      starts at most one turn per queued prompt; a prompt leaves the queue as
      dispatched only if it started one, and as rejected only if it did not. */
  lemma AtMostOneTurnPerPrompt(s: State, es: seq<Event>, id: nat)
    requires Valid(s) && SoloRun(s, es) && id in Run(s, es).entries
    ensures
      var t := Run(s, es);
      var e := t.entries[id];
      && Count(t, e.client) <= 1
      && (e.status == Dispatched ==> Count(t, e.client) == 1)
      && (e.status == Rejected ==> Count(t, e.client) == 0)
  {
    RunKeepsValid(s, es);
    assert EntryOk(Run(s, es), id);
  }

  // ------------------------------------------- prompts that left the queue

  /** Decided: no dispatcher will touch it again. */
  ghost predicate Decided(s: State, id: nat) {
    id in s.entries && s.entries[id].status in {Dispatched, Rejected, NoDirectory}
  }

  lemma DecidedIsFree(s: State, id: nat)
    requires Valid(s) && Decided(s, id)
    ensures NobodyOn(s, id)
  {
    forall l | l in s.dispatchers
      ensures EntryOf(s.dispatchers[l]) != Some(id)
    {
      assert PhaseOk(s, s.dispatchers[l]);
    }
  }

  ghost predicate SameEntryIn(s: State, t: State, id: nat)
    requires id in s.entries
  {
    id in t.entries && t.entries[id] == s.entries[id] && Count(t, s.entries[id].client) == Count(s, s.entries[id].client)
  }

  /** A dispatcher touches no entry but its own. */
  lemma AnswerIsLocal(s: State, k: Key, id: nat)
    requires Known(s) && k in s.dispatchers && id in s.entries
    ensures SameEntryIn(s, OnAnswer(s, k), id)
  {
  }

  lemma ReceiptIsLocal(s: State, k: Key, known: bool, id: nat)
    requires Known(s) && k in s.dispatchers && id in s.entries && EntryOf(s.dispatchers[k]) != Some(id)
    ensures SameEntryIn(s, OnReceipt(s, k, known), id)
  {
  }

  lemma MarkIsLocal(s: State, k: Key, binds: bool, id: nat)
    requires Known(s) && k in s.dispatchers && id in s.entries && EntryOf(s.dispatchers[k]) != Some(id)
    ensures SameEntryIn(s, OnMark(s, k, binds), id)
  {
  }

  lemma CallIsLocal(s: State, e: Event, id: nat)
    requires Known(s) && Apart(s) && (e.Apply? || e.Return? || e.Raise?)
    requires e.key in s.dispatchers && id in s.entries && EntryOf(s.dispatchers[e.key]) != Some(id)
    ensures SameEntryIn(s, OnCall(s, e), id)
  {
  }

  /** A dispatcher touches no entry but its own. */
  lemma WorkIsLocal(s: State, e: Event, id: nat)
    requires Known(s) && Apart(s) && (e.Answer? || e.Receipt? || e.Mark? || e.Apply? || e.Return? || e.Raise?)
    requires e.key in s.dispatchers && id in s.entries && EntryOf(s.dispatchers[e.key]) != Some(id)
    ensures SameEntryIn(s, Step(s, e), id)
  {
    hide Known, Apart, OnAnswer, OnReceipt, OnMark, OnCall, SameEntryIn;
    if e.Answer? { AnswerIsLocal(s, e.key, id); }
    else if e.Receipt? { ReceiptIsLocal(s, e.key, e.known, id); }
    else if e.Mark? { MarkIsLocal(s, e.key, e.bindsGate, id); }
    else { CallIsLocal(s, e, id); }
  }

  lemma OthersLeaveIt(s: State, e: Event, id: nat)
    requires Known(s) && Apart(s) && Decided(s, id)
    requires !((e.Answer? || e.Receipt? || e.Mark? || e.Apply? || e.Return? || e.Raise?) && e.key in s.dispatchers)
    ensures SameEntryIn(s, Step(s, e), id)
  {
    hide Known, Apart, OnAnswer, OnReceipt, OnMark, OnCall;
  }

  lemma DecidedStep(s: State, e: Event, id: nat)
    requires Valid(s) && Decided(s, id)
    ensures SameEntryIn(s, Step(s, e), id)
  {
    DecidedIsFree(s, id);
    assert Apart(s) && Known(s);
    if (e.Answer? || e.Receipt? || e.Mark? || e.Apply? || e.Return? || e.Raise?) && e.key in s.dispatchers {
      assert EntryOf(s.dispatchers[e.key]) != Some(id);
      hide Valid, Step, NobodyOn, SameEntryIn, Apart;
      WorkIsLocal(s, e, id);
    } else {
      hide *;
      OthersLeaveIt(s, e, id);
    }
  }

  /** What became of a prompt that left the queue is settled for good. */
  lemma {:induction false} LeftForGood(s: State, es: seq<Event>, id: nat)
    requires Valid(s) && SoloRun(s, es) && Decided(s, id)
    ensures SameEntryIn(s, Run(s, es), id)
    decreases |es|
  {
    if es != [] {
      DecidedStep(s, es[0], id);
      StepKeepsValid(s, es[0]);
      hide Valid, Step, Solo, Count;
      LeftForGood(Step(s, es[0]), es[1..], id);
    }
  }

  // -------------------------------------------------------- as an object

  class PromptQueue {
    var entries: map<nat, Entry>
    var queueLocks: map<Key, Phase>
    var turnGates: map<string, string>
    var accepted: map<string, nat>        // the server's side

    ghost function View(): State
      reads this
    {
      State(entries, queueLocks, turnGates, accepted)
    }

    ghost predicate IsValid()
      reads this
    {
      Valid(View())
    }

    constructor ()
      ensures IsValid() && View() == Initial
    {
      entries, queueLocks, turnGates, accepted := map[], map[], map[], map[];
    }

    method Mark(id: nat, status: Status)
      requires id in entries
      modifies this`entries
      ensures View() == Leave(old(View()), id, status)
    {
      if entries[id].status == Queued { entries := entries[id := entries[id].(status := status)]; }
    }

    /** `dispatch_queue` up to its first suspension. */
    method Dispatch(k: Key, id: nat, directory: bool)
      requires IsValid() && Solo(View(), Begin(k, id, directory))
      modifies this`entries, this`queueLocks
      ensures IsValid() && View() == Step(old(View()), Begin(k, id, directory))
    {
      Keeps(View(), Begin(k, id, directory));
      hide Valid, Known, Leave;
      if k in queueLocks || id !in entries || !Lists(k, entries[id]) { return; }
      if !directory {
        Mark(id, NoDirectory);
        queueLocks := queueLocks[k := Closing];
        return;
      }
      queueLocks := queueLocks[k := Reading(id, None)];
    }

    method BeginTurnGate(thread: string, client: string) returns (begun: bool)
      modifies this`turnGates
      ensures begun <==> thread !in old(turnGates)
      ensures turnGates == if begun then old(turnGates)[thread := client] else old(turnGates)
    {
      if thread in turnGates { return false; }
      turnGates := turnGates[thread := client];
      return true;
    }

    /** The server, while a reading is under way: its answer is a snapshot. */
    method ServerAnswers(k: Key)
      requires IsValid() && k in queueLocks && (queueLocks[k].Reading? || queueLocks[k].Reconciling?)
      requires queueLocks[k].answer == None
      modifies this`queueLocks
      ensures IsValid() && View() == Step(old(View()), Answer(k))
    {
      Keeps(View(), Answer(k));
      var p := queueLocks[k];
      assert p.entry in entries;
      hide Valid;
      var client := entries[p.entry].client;
      queueLocks := queueLocks[k := p.(answer := Some(client in accepted && accepted[client] > 0))];
    }

    /** The reading that must say "not delivered" before a start is tried. */
    method ReceiptBeforeStart(k: Key, known: bool)
      requires IsValid() && k in queueLocks && queueLocks[k].Reading? && (known ==> queueLocks[k].answer.Some?)
      modifies this`queueLocks, this`turnGates
      ensures IsValid() && View() == Step(old(View()), Receipt(k, known))
    {
      Keeps(View(), Receipt(k, known));
      var id := queueLocks[k].entry;
      assert id in entries;
      hide Valid;
      var client := entries[id].client;
      if !known {
        queueLocks := queueLocks[k := Closing];
      } else if queueLocks[k].answer.value {
        queueLocks := queueLocks[k := Found(id)];
      } else {
        var begun := BeginTurnGate(entries[id].thread, client);
        queueLocks := queueLocks[k := if begun then Starting(id, false) else Closing];
      }
    }

    /** The reading that follows a failed start. */
    method ReconcilePromptDelivery(k: Key, known: bool)
      requires IsValid() && k in queueLocks && queueLocks[k].Reconciling? && (known ==> queueLocks[k].answer.Some?)
      modifies this`entries, this`queueLocks, this`turnGates
      ensures IsValid() && View() == Step(old(View()), Receipt(k, known))
    {
      Keeps(View(), Receipt(k, known));
      ReconcileIs(View(), k, known);
      hide Valid, Leave, Step;
      var id, refused, answer := queueLocks[k].entry, queueLocks[k].refused, queueLocks[k].answer;
      if known && answer.value {
        Mark(id, Status.Dispatched);
      } else if known && refused {
        turnGates := turnGates - {entries[id].thread};
        Mark(id, Rejected);
      }
      queueLocks := queueLocks[k := Closing];
    }

    method MarkPromptDispatched(k: Key, bindsGate: bool)
      requires IsValid() && k in queueLocks && (queueLocks[k].Found? || queueLocks[k].Tracking?)
      modifies this`entries, this`queueLocks, this`turnGates
      ensures IsValid() && View() == Step(old(View()), Event.Mark(k, bindsGate))
    {
      Keeps(View(), Event.Mark(k, bindsGate));
      MarkIs(View(), k, bindsGate);
      hide Valid, Leave, Step;
      var id := queueLocks[k].entry;
      if queueLocks[k].Found? && bindsGate {
        var _ := BeginTurnGate(entries[id].thread, entries[id].client);
      }
      Mark(id, Status.Dispatched);
      queueLocks := queueLocks[k := Closing];
    }

    /** The server, while the call is in flight. */
    method ServerStartsTurn(k: Key)
      requires IsValid() && k in queueLocks && queueLocks[k].Starting? && !queueLocks[k].applied
      modifies this`queueLocks, this`accepted
      ensures IsValid() && View() == Step(old(View()), Apply(k))
    {
      Keeps(View(), Apply(k));
      var id := queueLocks[k].entry;
      assert id in entries;
      hide Valid;
      var client := entries[id].client;
      accepted := accepted[client := (if client in accepted then accepted[client] else 0) + 1];
      queueLocks := queueLocks[k := Starting(id, true)];
    }

    method StartTurnReturned(k: Key)
      requires IsValid() && k in queueLocks && queueLocks[k].Starting? && queueLocks[k].applied
      modifies this`queueLocks
      ensures IsValid() && View() == Step(old(View()), Return(k))
    {
      Keeps(View(), Return(k));
      hide Valid;
      queueLocks := queueLocks[k := Tracking(queueLocks[k].entry)];
    }

    method StartTurnRaised(k: Key, refused: bool)
      requires IsValid() && k in queueLocks && (queueLocks[k].Starting? || queueLocks[k].Tracking?)
      modifies this`queueLocks
      ensures IsValid() && View() == Step(old(View()), Raise(k, refused))
    {
      Keeps(View(), Raise(k, refused));
      hide Valid;
      queueLocks := queueLocks[k := Reconciling(queueLocks[k].entry, refused, None)];
    }
  }

  lemma MarkIs(s: State, k: Key, binds: bool)
    requires Known(s) && k in s.dispatchers && (s.dispatchers[k].Found? || s.dispatchers[k].Tracking?)
    ensures
      var id := s.dispatchers[k].entry;
      && id in s.entries
      && var e := s.entries[id];
      var s1 := if s.dispatchers[k].Found? && binds && e.thread !in s.gates then s.(gates := s.gates[e.thread := e.client]) else s;
      Step(s, Event.Mark(k, binds)) == To(Leave(s1, id, Dispatched), k, Closing)
  {
    hide Leave;
  }

  lemma ReconcileIs(s: State, k: Key, known: bool)
    requires Known(s) && k in s.dispatchers && s.dispatchers[k].Reconciling? && (known ==> s.dispatchers[k].answer.Some?)
    ensures
      var p := s.dispatchers[k];
      && p.entry in s.entries
      && Step(s, Receipt(k, known)) ==
         To(if known && p.answer.value then Leave(s, p.entry, Dispatched)
            else if known && p.refused then Leave(s.(gates := s.gates - {s.entries[p.entry].thread}), p.entry, Rejected)
            else s, k, Closing)
  {
    hide Leave;
  }

  lemma Keeps(s: State, e: Event)
    requires Valid(s) && Solo(s, e)
    ensures Known(s) && Valid(Step(s, e))
  {
    StepKeepsValid(s, e);
  }
}
