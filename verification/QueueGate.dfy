/** What the turn gate alone guarantees for queued prompts, whichever locks the
    dispatchers hold. */
module QueueGate {
  import opened Wrappers
  import opened QueueDispatch

  /** A start of this thread that the server has not applied yet. */
  ghost predicate InFlight(s: State, k: Key, thread: string) {
    && k in s.dispatchers && s.dispatchers[k].Starting? && !s.dispatchers[k].applied
    && s.dispatchers[k].entry in s.entries && s.entries[s.dispatchers[k].entry].thread == thread
  }

  /** An unapplied start holds the gate of its thread for its prompt, and the
      prompt has no turn yet. */
  ghost predicate HoldsGate(s: State, k: Key) {
    k in s.dispatchers && s.dispatchers[k].Starting? && s.dispatchers[k].entry in s.entries ==>
      var e := s.entries[s.dispatchers[k].entry];
      if s.dispatchers[k].applied then Count(s, e.client) == 1
      else Count(s, e.client) == 0 && Lookup(s.gates, e.thread) == Some(e.client)
  }

  ghost predicate OnePerThread(s: State) {
    forall k, l, thread :: InFlight(s, k, thread) && InFlight(s, l, thread) ==> k == l
  }

  /** A dispatcher that was told "no" before the turn it asked about was started. */
  ghost predicate Stale(s: State, k: Key, thread: string) {
    && k in s.dispatchers && s.dispatchers[k].Reading? && s.dispatchers[k].answer == Some(false)
    && s.dispatchers[k].entry in s.entries && s.entries[s.dispatchers[k].entry].thread == thread
    && Delivered(s, s.dispatchers[k].entry)
  }

  ghost predicate StaleBlocked(s: State) { forall k, thread :: Stale(s, k, thread) ==> thread in s.gates }

  ghost predicate Gated(s: State) {
    Known(s) && AtMostOne(s) && OwnClients(s) && OnePerThread(s) && StaleBlocked(s) && forall k :: HoldsGate(s, k)
  }

  /** No gate opens, by whatever event, while a start it covers is in flight. */
  ghost predicate CoversStarts(s: State, t: State) {
    forall k, thread :: InFlight(s, k, thread) && InFlight(t, k, thread) ==> Lookup(t.gates, thread) == Lookup(s.gates, thread)
  }

  /** No gate opens while a dispatcher waiting behind it holds a stale "no". */
  ghost predicate CoversStale(s: State, t: State) {
    forall k, thread :: Stale(s, k, thread) && Stale(t, k, thread) && thread in s.gates ==> thread in t.gates
  }

  ghost predicate Keeps(s: State, e: Event)
    requires Known(s)
  {
    CoversStarts(s, Step(s, e)) && CoversStale(s, Step(s, e))
  }

  /** A change that begins no start and adds no turn. */
  ghost predicate Quieter(s: State, t: State) {
    && t.accepted == s.accepted && t.entries.Keys == s.entries.Keys
    && (forall i :: i in s.entries ==> t.entries[i].client == s.entries[i].client && t.entries[i].thread == s.entries[i].thread)
    && (forall k :: k in t.dispatchers && t.dispatchers[k].Starting? ==> k in s.dispatchers && s.dispatchers[k] == t.dispatchers[k])
    && (forall k :: k in t.dispatchers && !t.dispatchers[k].Closing? ==> t.dispatchers[k].entry in t.entries)
    && (forall k, thread :: Stale(t, k, thread) ==> Stale(s, k, thread))
  }

  lemma QuieterKeeps(s: State, t: State)
    requires Gated(s) && Quieter(s, t) && CoversStarts(s, t) && CoversStale(s, t)
    ensures Gated(t)
  {
    forall k
      ensures HoldsGate(t, k)
    {
      assert HoldsGate(s, k);
      if k in t.dispatchers && t.dispatchers[k].Starting? && t.dispatchers[k].entry in t.entries {
        var thread := t.entries[t.dispatchers[k].entry].thread;
        assert !t.dispatchers[k].applied ==> InFlight(s, k, thread) && InFlight(t, k, thread);
      }
    }
    forall k, l, thread | InFlight(t, k, thread) && InFlight(t, l, thread)
      ensures k == l
    {
      assert InFlight(s, k, thread) && InFlight(s, l, thread);
    }
  }

  /** Taking the gate and sending the start. */
  lemma BeginsStart(s: State, k: Key)
    requires Gated(s) && k in s.dispatchers && s.dispatchers[k].Reading? && s.dispatchers[k].answer == Some(false)
    requires s.entries[s.dispatchers[k].entry].thread !in s.gates
    ensures
      var id := s.dispatchers[k].entry;
      var e := s.entries[id];
      Gated(To(s.(gates := s.gates[e.thread := e.client]), k, Starting(id, false)))
  {
    var id := s.dispatchers[k].entry;
    var e := s.entries[id];
    var t := To(s.(gates := s.gates[e.thread := e.client]), k, Starting(id, false));
    assert !Stale(s, k, e.thread);
    forall l
      ensures HoldsGate(t, l)
    {
      assert HoldsGate(s, l);
      assert l != k ==> !InFlight(s, l, e.thread);
    }
    forall l, thread | Stale(t, l, thread) ensures thread in t.gates { assert Stale(s, l, thread); }
    forall l, m, thread | InFlight(t, l, thread) && InFlight(t, m, thread)
      ensures l == m
    {
      NobodyElse(s, k, l, e.thread);
      NobodyElse(s, k, m, e.thread);
      assert l != k ==> InFlight(s, l, thread);
      assert m != k ==> InFlight(s, m, thread);
    }
  }

  /** With its gate free a thread has no start in flight. */
  lemma NobodyElse(s: State, k: Key, l: Key, thread: string)
    requires HoldsGate(s, l) && thread !in s.gates
    ensures !InFlight(s, l, thread)
  {
  }

  function Applied(s: State, k: Key): State
    requires Known(s) && k in s.dispatchers && s.dispatchers[k].Starting?
  {
    var id := s.dispatchers[k].entry;
    var client := s.entries[id].client;
    To(s.(accepted := s.accepted[client := Count(s, client) + 1]), k, Starting(id, true))
  }

  lemma AppliedHoldsGate(s: State, k: Key, l: Key)
    requires Gated(s) && k in s.dispatchers && s.dispatchers[k].Starting? && !s.dispatchers[k].applied
    ensures HoldsGate(Applied(s, k), l)
  {
    var id := s.dispatchers[k].entry;
    assert HoldsGate(s, l) && HoldsGate(s, k) && InFlight(s, k, s.entries[id].thread);
    assert l in s.dispatchers && s.dispatchers[l].Starting? && s.dispatchers[l].entry == id && !s.dispatchers[l].applied ==>
        InFlight(s, l, s.entries[id].thread);
  }

  lemma Applies(s: State, k: Key)
    requires Gated(s) && k in s.dispatchers && s.dispatchers[k].Starting? && !s.dispatchers[k].applied
    ensures Gated(Applied(s, k))
  {
    var e := s.entries[s.dispatchers[k].entry];
    var t := Applied(s, k);
    assert HoldsGate(s, k);
    forall l ensures HoldsGate(t, l) { AppliedHoldsGate(s, k, l); }
    hide HoldsGate;
    forall l, thread | Stale(t, l, thread)
      ensures thread in t.gates
    {
      assert Stale(s, l, thread) || thread == e.thread;
    }
    forall l, m, thread | InFlight(t, l, thread) && InFlight(t, m, thread)
      ensures l == m
    {
      assert InFlight(s, l, thread) && InFlight(s, m, thread);
    }
    hide InFlight, Stale;
  }

  lemma EnqueueKeeps(s: State, e: Event)
    requires Gated(s) && e.Enqueue?
    ensures Gated(Step(s, e))
  {
    var t := Step(s, e);
    forall k
      ensures HoldsGate(t, k)
    {
      assert HoldsGate(s, k);
    }
    forall k, thread | Stale(t, k, thread) ensures thread in t.gates { assert Stale(s, k, thread); }
    forall k, l, thread | InFlight(t, k, thread) && InFlight(t, l, thread)
      ensures k == l
    {
      assert InFlight(s, k, thread) && InFlight(s, l, thread);
    }
  }

  lemma MovingIsQuieter(s: State, k: Key, p: Phase, gates: map<string, string>)
    requires Known(s) && !p.Starting? && (p.Closing? || p.entry in s.entries)
    requires p.Reading? && p.answer == Some(false) ==> !Delivered(s, p.entry)
    ensures Quieter(s, To(s.(gates := gates), k, p))
  {
  }

  lemma LeavingIsQuieter(s: State, k: Key, id: nat, status: Status, gates: map<string, string>)
    requires Known(s) && id in s.entries
    ensures Quieter(s, To(Leave(s.(gates := gates), id, status), k, Closing))
  {
    var m := To(s.(gates := gates), k, Closing);
    assert Quieter(s, m);
    LeaveIs(m, id, status);
    LeaveCommutes(s.(gates := gates), k, id, status);
    hide Leave;
  }

  lemma LeaveCommutes(s: State, k: Key, id: nat, status: Status)
    requires id in s.entries
    ensures To(Leave(s, id, status), k, Closing) == Leave(To(s, k, Closing), id, status)
  {
  }

  /** A receipt either begins a start or makes the state quieter. */
  lemma ReceiptIsQuieter(s: State, k: Key, known: bool)
    requires Known(s) && k in s.dispatchers
    requires s.dispatchers[k].Reading? && known && s.dispatchers[k].answer == Some(false) ==>
               s.entries[s.dispatchers[k].entry].thread in s.gates
    ensures Quieter(s, OnReceipt(s, k, known))
  {
    NothingIsQuieter(s);
    var p := s.dispatchers[k];
    if p.Reading? || p.Reconciling? {
      var id := p.entry;
      assert id in s.entries;
      hide Quieter, Known, Leave, To;
      MovingIsQuieter(s, k, Closing, s.gates);
      if p.Reading? {
        MovingIsQuieter(s, k, Found(id), s.gates);
      } else {
        LeavingIsQuieter(s, k, id, Dispatched, s.gates);
        LeavingIsQuieter(s, k, id, Rejected, s.gates - {s.entries[id].thread});
      }
    }
  }

  lemma NothingIsQuieter(s: State)
    requires Known(s)
    ensures Quieter(s, s)
  {
  }

  /** What the server answers now is not stale yet. */
  lemma AnswerIsQuieter(s: State, k: Key)
    requires Known(s) && k in s.dispatchers
    ensures Quieter(s, OnAnswer(s, k))
  {
    NothingIsQuieter(s);
    var p := s.dispatchers[k];
    if p.Reading? || p.Reconciling? {
      assert p.entry in s.entries;
      hide Quieter, Known;
      if p.Reading? {
        MovingIsQuieter(s, k, Reading(p.entry, Some(Delivered(s, p.entry))), s.gates);
      } else {
        MovingIsQuieter(s, k, Reconciling(p.entry, p.refused, Some(Delivered(s, p.entry))), s.gates);
      }
    }
  }

  lemma CallIsQuieter(s: State, e: Event)
    requires Known(s) && (e.Return? || e.Raise?) && e.key in s.dispatchers
    ensures Quieter(s, OnCall(s, e))
  {
  }

  lemma MarkIsQuieter(s: State, k: Key, binds: bool)
    requires Known(s) && k in s.dispatchers
    ensures Quieter(s, OnMark(s, k, binds))
  {
    NothingIsQuieter(s);
    if s.dispatchers[k].Found? || s.dispatchers[k].Tracking? {
      var id := s.dispatchers[k].entry;
      assert id in s.entries;
      hide Quieter, Known, Leave;
      LeavingIsQuieter(s, k, id, Dispatched, s.gates);
      LeavingIsQuieter(s, k, id, Dispatched, s.gates[s.entries[id].thread := s.entries[id].client]);
    }
  }

  lemma BeginIsQuieter(s: State, k: Key, id: nat, directory: bool)
    requires Known(s)
    ensures Quieter(s, OnBegin(s, k, id, directory))
  {
    NothingIsQuieter(s);
    if id in s.entries {
      hide Quieter, Known, Leave;
      LeavingIsQuieter(s, k, id, NoDirectory, s.gates);
      MovingIsQuieter(s, k, Reading(id, None), s.gates);
    }
  }

  lemma CancelIsQuieter(s: State, id: nat)
    requires Known(s) && id in s.entries
    ensures Quieter(s, Leave(s, id, Cancelled))
  {
    LeaveIs(s, id, Cancelled);
    hide Leave;
  }

  lemma FewerIsQuieter(s: State, t: State)
    requires Known(s) && t == s.(dispatchers := t.dispatchers, gates := t.gates)
    requires forall k :: k in t.dispatchers ==> k in s.dispatchers && t.dispatchers[k] == s.dispatchers[k]
    ensures Quieter(s, t)
  {
  }

  lemma OthersAreQuieter(s: State, e: Event)
    requires Known(s) && (e.Cancel? || e.Begin? || e.Mark? || e.Release? || e.Abort? || e.Crash? || e.OpenGate?)
    ensures Quieter(s, Step(s, e))
  {
    NothingIsQuieter(s);
    hide Quieter, OnBegin, OnMark, Leave, Known;
    if e.Mark? {
      if e.key in s.dispatchers { MarkIsQuieter(s, e.key, e.bindsGate); }
    } else if e.Begin? {
      BeginIsQuieter(s, e.key, e.id, e.directory);
    } else if e.Cancel? {
      if e.id in s.entries { CancelIsQuieter(s, e.id); }
    } else {
      FewerIsQuieter(s, Step(s, e));
    }
  }

  /** A receipt that says "not delivered" while the gate is free. */
  ghost predicate Starts(s: State, e: Event)
    requires Known(s)
  {
    && e.Receipt? && e.known && e.key in s.dispatchers && s.dispatchers[e.key].Reading?
    && s.dispatchers[e.key].answer == Some(false) && s.entries[s.dispatchers[e.key].entry].thread !in s.gates
  }

  lemma StartsIs(s: State, e: Event)
    requires Known(s) && Starts(s, e)
    ensures
      var id := s.dispatchers[e.key].entry;
      var x := s.entries[id];
      Step(s, e) == To(s.(gates := s.gates[x.thread := x.client]), e.key, Starting(id, false))
  {
  }

  lemma StepKeepsGated(s: State, e: Event)
    requires Gated(s) && Keeps(s, e)
    ensures Gated(Step(s, e))
  {
    assert Known(s);
    if e.Enqueue? {
      hide *;
      EnqueueKeeps(s, e);
    } else if Starts(s, e) {
      BeginsStart(s, e.key);
      StartsIs(s, e);
    } else if e.Apply? {
      if e.key in s.dispatchers && s.dispatchers[e.key].Starting? && !s.dispatchers[e.key].applied {
        Applies(s, e.key);
        hide Gated;
      }
    } else {
      StepIsQuieter(s, e);
      hide Gated, Quieter, Step, InFlight;
      QuieterKeeps(s, Step(s, e));
    }
  }

  lemma StepIsQuieter(s: State, e: Event)
    requires Known(s) && !e.Enqueue? && !e.Apply? && !Starts(s, e)
    ensures Quieter(s, Step(s, e))
  {
    if e.Receipt? {
      if e.key in s.dispatchers { ReceiptIsQuieter(s, e.key, e.known); }
      hide OnReceipt, OnMark, OnCall;
    } else if e.Answer? {
      NothingIsQuieter(s);
      if e.key in s.dispatchers { AnswerIsQuieter(s, e.key); }
      hide Quieter, OnAnswer;
    } else if e.Return? || e.Raise? {
      if e.key in s.dispatchers { CallIsQuieter(s, e); }
      hide OnReceipt, OnMark, OnCall;
    } else {
      OthersAreQuieter(s, e);
    }
  }

  ghost predicate KeepsAll(s: State, es: seq<Event>)
    decreases |es|
  {
    es == [] || (Known(s) && Keeps(s, es[0]) && KeepsAll(Step(s, es[0]), es[1..]))
  }

  /** Whatever locks are held and however many dispatchers pick one entry: as long
      as no gate opens over a start in flight or before a dispatcher with a stale
      "no", the server starts at most one turn per prompt, and at most one start
      per thread is in flight. */
  lemma {:induction false} GateAloneBoundsTurns(s: State, es: seq<Event>)
    requires Gated(s) && KeepsAll(s, es)
    ensures Gated(Run(s, es))
    ensures forall id :: id in Run(s, es).entries ==> Count(Run(s, es), Run(s, es).entries[id].client) <= 1
    ensures forall k, l, thread :: InFlight(Run(s, es), k, thread) && InFlight(Run(s, es), l, thread) ==> k == l
    decreases |es|
  {
    if es != [] {
      StepKeepsGated(s, es[0]);
      hide Gated, Step, Keeps;
      GateAloneBoundsTurns(Step(s, es[0]), es[1..]);
    }
  }

  lemma InitialGated()
    ensures Gated(Initial)
  {
  }
}
