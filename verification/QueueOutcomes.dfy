/** How a queued prompt leaves the queue, in entry states and turn counts. */
module QueueOutcomes {
  import opened Wrappers
  import opened QueueDispatch
  import opened QueuePick

  // ------------------------------------------------- the four ways to leave

  /** The phase of the dispatcher an event is for. */
  function PhaseOf(s: State, k: Key): Option<Phase> { Lookup(s.dispatchers, k) }

  /** A turn of the prompt is known of: by a receipt before or after the start, or
      because the start returned. */
  ghost predicate LearnsOfTurn(s: State, e: Event, id: nat) {
    || (e.Mark? && (PhaseOf(s, e.key) == Some(Found(id)) || PhaseOf(s, e.key) == Some(Tracking(id))))
    || (e.Receipt? && e.known && exists refused :: PhaseOf(s, e.key) == Some(Reconciling(id, refused, Some(true))))
  }

  /** The server refused the start and has no turn of the prompt. */
  ghost predicate LearnsOfRefusal(s: State, e: Event, id: nat) {
    e.Receipt? && e.known && PhaseOf(s, e.key) == Some(Reconciling(id, true, Some(false)))
  }

  lemma ReceiptLeaves(s: State, e: Event, id: nat)
    requires Known(s) && e.Receipt? && e.key in s.dispatchers && id in s.entries && s.entries[id].status == Queued
    ensures
      var t := Step(s, e);
      && id in t.entries
      && t.entries[id].status ==
           (if LearnsOfTurn(s, e, id) then Dispatched else if LearnsOfRefusal(s, e, id) then Rejected else Queued)
      && (LearnsOfRefusal(s, e, id) ==> s.entries[id].thread !in t.gates)
  {
    assert PhaseOf(s, e.key) == Some(s.dispatchers[e.key]);
    match s.dispatchers[e.key]
    case Reconciling(i, refused, answer) =>
      assert LearnsOfTurn(s, e, id) <==> e.known && i == id && answer == Some(true);
    case _ =>
  }

  lemma MarkLeaves(s: State, e: Event, id: nat)
    requires Known(s) && e.Mark? && e.key in s.dispatchers && id in s.entries && s.entries[id].status == Queued
    ensures
      var t := Step(s, e);
      id in t.entries && t.entries[id].status == if LearnsOfTurn(s, e, id) then Dispatched else Queued
  {
    assert PhaseOf(s, e.key) == Some(s.dispatchers[e.key]);
  }

  /** For a queued prompt and any event: it becomes dispatched, rejected, failed or
      cancelled if and only if that is what the event says. */
  lemma LeavesExactlyWhenTold(s: State, e: Event, id: nat)
    requires Known(s) && id in s.entries && s.entries[id].status == Queued
    ensures id in Step(s, e).entries
    ensures
      var now := Step(s, e).entries[id].status;
      && (now == Dispatched <==> LearnsOfTurn(s, e, id))
      && (now == Rejected <==> LearnsOfRefusal(s, e, id))
      && (now == NoDirectory <==> e.Begin? && e.id == id && !e.directory && e.key !in s.dispatchers && Lists(e.key, s.entries[id]))
      && (now == Cancelled <==> e == Cancel(id))
  {
    if e.Receipt? && e.key in s.dispatchers {
      ReceiptLeaves(s, e, id);
      hide Step;
    } else if e.Mark? && e.key in s.dispatchers {
      MarkLeaves(s, e, id);
      hide Step;
    } else {
      hide OnReceipt, OnMark;
    }
  }

  // ------------------------------------------------------ one dispatcher's run

  /** The entry in this state, its prompt with so many turns, its dispatcher here. */
  ghost predicate Stands(u: State, id: nat, e: Entry, k: Key, p: Phase, count: nat, gates: map<string, string>) {
    && Known(u) && id in u.entries && u.entries[id] == e && Lookup(u.dispatchers, k) == Some(p)
    && Count(u, e.client) == count && u.gates == gates
  }

  lemma Picked(s: State, id: nat, k: Key)
    requires Known(s) && k !in s.dispatchers && id in s.entries && Lists(k, s.entries[id])
    ensures Stands(Step(s, Begin(k, id, true)), id, s.entries[id], k, Reading(id, None), Count(s, s.entries[id].client), s.gates)
  {
  }

  lemma Answered(u: State, id: nat, e: Entry, k: Key, p: Phase, count: nat, gates: map<string, string>)
    requires Stands(u, id, e, k, p, count, gates)
    requires p == Reading(id, None) || (p.Reconciling? && p.entry == id && p.answer == None)
    ensures
      var q := if p.Reading? then Reading(id, Some(count > 0)) else Reconciling(id, p.refused, Some(count > 0));
      Stands(Step(u, Answer(k)), id, e, k, q, count, gates)
  {
    assert u.dispatchers[k] == p;
    assert Delivered(u, id) <==> count > 0;
  }

  lemma ReadFound(u: State, id: nat, e: Entry, k: Key, count: nat, gates: map<string, string>)
    requires Stands(u, id, e, k, Reading(id, Some(true)), count, gates)
    ensures Stands(Step(u, Receipt(k, true)), id, e, k, Found(id), count, gates)
  {
  }

  lemma ReadStarts(u: State, id: nat, e: Entry, k: Key, count: nat, gates: map<string, string>)
    requires Stands(u, id, e, k, Reading(id, Some(false)), count, gates)
    ensures
      if e.thread in gates then Stands(Step(u, Receipt(k, true)), id, e, k, Closing, count, gates)
      else Stands(Step(u, Receipt(k, true)), id, e, k, Starting(id, false), count, gates[e.thread := e.client])
  {
  }

  lemma Applied(u: State, id: nat, e: Entry, k: Key, count: nat, gates: map<string, string>)
    requires Stands(u, id, e, k, Starting(id, false), count, gates)
    ensures Stands(Step(u, Apply(k)), id, e, k, Starting(id, true), count + 1, gates)
  {
  }

  lemma Returned(u: State, id: nat, e: Entry, k: Key, count: nat, gates: map<string, string>)
    requires Stands(u, id, e, k, Starting(id, true), count, gates)
    ensures Stands(Step(u, Return(k)), id, e, k, Tracking(id), count, gates)
  {
  }

  lemma Raised(u: State, id: nat, e: Entry, k: Key, applied: bool, refused: bool, count: nat, gates: map<string, string>)
    requires Stands(u, id, e, k, Starting(id, applied), count, gates)
    ensures Stands(Step(u, Raise(k, refused)), id, e, k, Reconciling(id, refused, None), count, gates)
  {
  }

  lemma Marked(u: State, id: nat, e: Entry, k: Key, p: Phase, binds: bool, count: nat, gates: map<string, string>)
    requires Stands(u, id, e, k, p, count, gates) && (p == Found(id) || p == Tracking(id)) && e.status == Queued
    ensures
      var t := Step(u, Mark(k, binds));
      && Stands(t, id, e.(status := Dispatched), k, Closing, count, t.gates)
      && t.gates == (if p.Found? && binds && e.thread !in gates then gates[e.thread := e.client] else gates)
  {
    assert u.dispatchers[k] == p;
  }

  lemma Reconciled(u: State, id: nat, e: Entry, k: Key, refused: bool, found: bool, count: nat, gates: map<string, string>)
    requires Stands(u, id, e, k, Reconciling(id, refused, Some(found)), count, gates) && e.status == Queued
    ensures
      Stands(Step(u, Receipt(k, true)), id, e.(status := if found then Dispatched else if refused then Rejected else Queued),
             k, Closing, count, if !found && refused then gates - {e.thread} else gates)
  {
  }

  // ------------------------------------------------------------- whole runs

  /** A dispatcher takes the prompt and reads a receipt. */
  function Look(k: Key, id: nat, rest: seq<Event>): seq<Event> {
    [Begin(k, id, true)] + ([Answer(k)] + ([Receipt(k, true)] + rest))
  }

  /** A free lock and a queued entry it lists. */
  ghost predicate Ready(s: State, k: Key, id: nat) {
    Known(s) && k !in s.dispatchers && id in s.entries && Lists(k, s.entries[id])
  }

  lemma Looks(s: State, k: Key, id: nat, rest: seq<Event>) returns (u: State)
    requires Ready(s, k, id)
    ensures Run(s, Look(k, id, rest)) == Run(u, rest)
    ensures
      var e := s.entries[id];
      var count := Count(s, e.client);
      if count > 0 then Stands(u, id, e, k, Found(id), count, s.gates)
      else if e.thread in s.gates then Stands(u, id, e, k, Closing, 0, s.gates)
      else Stands(u, id, e, k, Starting(id, false), 0, s.gates[e.thread := e.client])
  {
    var e := s.entries[id];
    var count := Count(s, e.client);
    Picked(s, id, k);
    var s1 := Step(s, Begin(k, id, true));
    Answered(s1, id, e, k, Reading(id, None), count, s.gates);
    var s2 := Step(s1, Answer(k));
    if count > 0 { ReadFound(s2, id, e, k, count, s.gates); } else { ReadStarts(s2, id, e, k, count, s.gates); }
    u := Step(s2, Receipt(k, true));
    assert Known(s1) && Known(s2);
    hide Step, Run, Known;
    RunOne(s, Begin(k, id, true), [Answer(k)] + ([Receipt(k, true)] + rest));
    RunOne(s1, Answer(k), [Receipt(k, true)] + rest);
    RunOne(s2, Receipt(k, true), rest);
  }

  lemma LastStep(u: State, e: Event)
    requires Known(u)
    ensures Run(u, [e]) == Step(u, e)
  {
    assert [e] == [e] + [];
    RunOne(u, e, []);
    hide Step;
  }

  /** A prompt that has its turn is dispatched at the next attempt, which starts
      nothing: whatever was lost before, it does not stay in the queue. */
  lemma FoundTurnIsDispatched(s: State, k: Key, id: nat, binds: bool)
    requires Ready(s, k, id) && Delivered(s, id)
    ensures
      var t := Run(s, Look(k, id, [Mark(k, binds)]));
      id in t.entries && t.entries[id] == s.entries[id].(status := Dispatched)
      && Count(t, s.entries[id].client) == Count(s, s.entries[id].client) && Lookup(t.dispatchers, k) == Some(Closing)
  {
    var e := s.entries[id];
    var u := Looks(s, k, id, [Mark(k, binds)]);
    Marked(u, id, e, k, Found(id), binds, Count(s, e.client), s.gates);
    LastStep(u, Mark(k, binds));
    hide Step, Run, Look;
  }

  /** One without a turn gets one and is dispatched, if the gate is free; behind a
      shut gate it stays queued. */
  lemma FreshPromptIsDispatched(s: State, k: Key, id: nat, binds: bool)
    requires Ready(s, k, id) && !Delivered(s, id) && s.entries[id].thread !in s.gates
    ensures
      var t := Run(s, Look(k, id, [Apply(k)] + ([Return(k)] + [Mark(k, binds)])));
      id in t.entries && t.entries[id] == s.entries[id].(status := Dispatched) && Count(t, s.entries[id].client) == 1
      && Lookup(t.gates, s.entries[id].thread) == Some(s.entries[id].client)
  {
    var e := s.entries[id];
    var held := s.gates[e.thread := e.client];
    var u := Looks(s, k, id, [Apply(k)] + ([Return(k)] + [Mark(k, binds)]));
    Applied(u, id, e, k, 0, held);
    var u1 := Step(u, Apply(k));
    Returned(u1, id, e, k, 1, held);
    var u2 := Step(u1, Return(k));
    Marked(u2, id, e, k, Tracking(id), binds, 1, held);
    assert Known(u) && Known(u1) && Known(u2);
    hide Step, Run, Look, Known;
    RunOne(u, Apply(k), [Return(k)] + [Mark(k, binds)]);
    RunOne(u1, Return(k), [Mark(k, binds)]);
    LastStep(u2, Mark(k, binds));
  }

  lemma ShutGateKeepsQueued(s: State, k: Key, id: nat)
    requires Ready(s, k, id) && !Delivered(s, id) && s.entries[id].thread in s.gates
    ensures
      var t := Run(s, Look(k, id, []));
      id in t.entries && t.entries[id] == s.entries[id] && Count(t, s.entries[id].client) == 0 && t.gates == s.gates
      && Lookup(t.dispatchers, k) == Some(Closing)
  {
    var u := Looks(s, k, id, []);
    hide Step, Look;
  }

  /** The start call raised, and a receipt can be read: dispatched with its turn if
      the start was applied, whatever the error; otherwise rejected with the gate
      open if the server refused it, and queued behind its gate if not. */
  function Failing(k: Key, applied: bool, refused: bool): seq<Event> {
    (if applied then [Apply(k)] else []) + ([Raise(k, refused)] + ([Answer(k)] + [Receipt(k, true)]))
  }

  lemma RaisedStartIsReconciled(u: State, id: nat, e: Entry, k: Key, applied: bool, refused: bool, gates: map<string, string>)
    requires Stands(u, id, e, k, Starting(id, applied), if applied then 1 else 0, gates) && e.status == Queued
    ensures
      var t := Run(u, [Raise(k, refused)] + ([Answer(k)] + [Receipt(k, true)]));
      Stands(t, id, e.(status := if applied then Dispatched else if refused then Rejected else Queued), k, Closing,
             if applied then 1 else 0, if !applied && refused then gates - {e.thread} else gates)
  {
    var count := if applied then 1 else 0;
    Raised(u, id, e, k, applied, refused, count, gates);
    var u1 := Step(u, Raise(k, refused));
    Answered(u1, id, e, k, Reconciling(id, refused, None), count, gates);
    var u2 := Step(u1, Answer(k));
    Reconciled(u2, id, e, k, refused, applied, count, gates);
    assert Known(u) && Known(u1) && Known(u2);
    hide Step, Run, Known;
    RunOne(u, Raise(k, refused), [Answer(k)] + [Receipt(k, true)]);
    RunOne(u1, Answer(k), [Receipt(k, true)]);
    LastStep(u2, Receipt(k, true));
  }

  lemma FailedStartIsSortedOut(s: State, k: Key, id: nat, applied: bool, refused: bool)
    requires Ready(s, k, id) && !Delivered(s, id) && s.entries[id].thread !in s.gates
    ensures
      var t := Run(s, Look(k, id, Failing(k, applied, refused)));
      var e := s.entries[id];
      && id in t.entries && t.entries[id] == e.(status := if applied then Dispatched else if refused then Rejected else Queued)
      && Count(t, e.client) == (if applied then 1 else 0)
      && (e.thread in t.gates <==> applied || !refused)
  {
    var e := s.entries[id];
    var held := s.gates[e.thread := e.client];
    var rest := [Raise(k, refused)] + ([Answer(k)] + [Receipt(k, true)]);
    var u := Looks(s, k, id, Failing(k, applied, refused));
    if applied {
      Applied(u, id, e, k, 0, held);
      RaisedStartIsReconciled(Step(u, Apply(k)), id, e, k, true, refused, held);
      RunOne(u, Apply(k), rest);
    } else {
      RaisedStartIsReconciled(u, id, e, k, false, refused, held);
      assert Failing(k, false, refused) == rest;
    }
    hide Step, Run, Look;
  }

  // ------------------------------------------------------------------ locks

  /** A lock is held from the pick of an entry until its dispatcher, done with it,
      releases it, is cancelled, or the process ends. */
  lemma LocksHeldExactly(s: State, e: Event, k: Key)
    requires Known(s)
    ensures
      var freed := || (e.Release? && e.key == k && PhaseOf(s, k) == Some(Closing)) || (e.Abort? && e.key == k) || e.Crash?;
      var taken := e.Begin? && e.key == k && e.id in s.entries && Lists(k, s.entries[e.id]);
      k in Step(s, e).dispatchers <==> (k in s.dispatchers && !freed) || taken
  {
    if e.Receipt? && e.key in s.dispatchers {
      ReceiptHolds(s, e.key, e.known);
      hide OnReceipt, OnMark, OnCall, OnAnswer, OnBegin;
    } else if e.Mark? && e.key in s.dispatchers {
      MarkHolds(s, e.key, e.bindsGate);
      hide OnReceipt, OnMark, OnCall, OnAnswer, OnBegin;
    } else {
      hide OnReceipt, OnMark;
    }
  }

  lemma ReceiptHolds(s: State, k: Key, known: bool)
    requires Known(s) && k in s.dispatchers
    ensures OnReceipt(s, k, known).dispatchers.Keys == s.dispatchers.Keys
  {
  }

  lemma MarkHolds(s: State, k: Key, binds: bool)
    requires Known(s) && k in s.dispatchers
    ensures OnMark(s, k, binds).dispatchers.Keys == s.dispatchers.Keys
  {
  }

  /** A receipt that cannot be read ends the attempt and changes nothing else. */
  lemma UnreadableReceiptPostpones(s: State, k: Key)
    requires Known(s) && k in s.dispatchers && (s.dispatchers[k].Reading? || s.dispatchers[k].Reconciling?)
    ensures Step(s, Receipt(k, false)) == s.(dispatchers := s.dispatchers[k := Closing])
  {
  }

  // ------------------------------------------------------------- restarting

  /** After a restart of the process a queued prompt is dispatched at the next
      attempt, whatever locks and gates there were: with the turn it has, or with its
      first one. */
  lemma RestartedQueueMoves(s: State, k: Key, id: nat, binds: bool)
    requires Known(s) && id in s.entries && Lists(k, s.entries[id])
    ensures
      var rest := if Delivered(s, id) then [Mark(k, binds)] else [Apply(k)] + ([Return(k)] + [Mark(k, binds)]);
      var t := Run(s, [Crash] + Look(k, id, rest));
      var before := Count(s, s.entries[id].client);
      id in t.entries && t.entries[id] == s.entries[id].(status := Dispatched)
      && Count(t, s.entries[id].client) == if before > 0 then before else 1
  {
    var m := Step(s, Crash);
    assert Ready(m, k, id) && (Delivered(m, id) <==> Delivered(s, id)) && m.gates == map[];
    var rest := if Delivered(s, id) then [Mark(k, binds)] else [Apply(k)] + ([Return(k)] + [Mark(k, binds)]);
    RunOne(s, Crash, Look(k, id, rest));
    if Delivered(s, id) { FoundTurnIsDispatched(m, k, id, binds); } else { FreshPromptIsDispatched(m, k, id, binds); }
    hide Run, Look;
  }

  /** A prompt joins the queue unless its number or its client name is taken. */
  lemma QueuedExactlyWhenNew(s: State, e: Event)
    requires Known(s) && e.Enqueue?
    ensures
      var isNew := e.id !in s.entries && e.client !in s.accepted && forall i :: i in s.entries ==> s.entries[i].client != e.client;
      Step(s, e).entries == if isNew then s.entries[e.id := Entry(e.client, e.thread, e.space, Queued)] else s.entries
  {
  }
}
