/** When a turn gate may open: the exact condition for the server to start at most
    one turn per prompt, whichever locks the dispatchers hold. */
module QueueOpening {
  import opened Wrappers
  import opened QueueDispatch
  import opened QueuePick
  import Gate = QueueGate

  /** This lock may bring a start of the entry: it can still pick it, its dispatcher
      has not learnt of a turn, or has sent a start that is not applied. */
  predicate Near(s: State, l: Key, id: nat) {
    && id in s.entries
    && (Lists(l, s.entries[id])
        || (l in s.dispatchers && match s.dispatchers[l]
                                  case Reading(i, answer) => i == id && answer != Some(true)
                                  case Starting(i, applied) => i == id && !applied
                                  case _ => false))
  }

  /** A start in flight that somebody else could repeat. */
  ghost predicate Contested(s: State, k: Key, thread: string) {
    Gate.InFlight(s, k, thread) && exists l :: l != k && Near(s, l, s.dispatchers[k].entry)
  }

  /** A contested start holds the gate of its thread for its prompt, and a prompt
      whose start is not applied has no turn yet. */
  ghost predicate Kept(s: State, k: Key) {
    k in s.dispatchers && s.dispatchers[k].Starting? && s.dispatchers[k].entry in s.entries ==>
      var e := s.entries[s.dispatchers[k].entry];
      if s.dispatchers[k].applied then Count(s, e.client) == 1
      else Count(s, e.client) == 0 && (Contested(s, k, e.thread) ==> Lookup(s.gates, e.thread) == Some(e.client))
  }

  ghost predicate Unapplied(s: State, k: Key, id: nat) { k in s.dispatchers && s.dispatchers[k] == Starting(id, false) }

  ghost predicate OneStart(s: State) {
    forall k, l, id :: Unapplied(s, k, id) && Unapplied(s, l, id) ==> k == l
  }

  ghost predicate Guarded(s: State) {
    Known(s) && AtMostOne(s) && OwnClients(s) && OneStart(s) && Gate.StaleBlocked(s) && forall k :: Kept(s, k)
  }

  /** No gate opens over a contested start. */
  ghost predicate CoversContested(s: State, t: State) {
    forall k, thread :: Gate.InFlight(s, k, thread) && Contested(t, k, thread) && thread in s.gates ==>
      Lookup(t.gates, thread) == Lookup(s.gates, thread)
  }

  ghost predicate Guards(s: State, t: State) { CoversContested(s, t) && Gate.CoversStale(s, t) }

  ghost predicate GuardsAll(s: State, es: seq<Event>)
    decreases |es|
  {
    es == [] || (Known(s) && Guards(s, Step(s, es[0])) && GuardsAll(Step(s, es[0]), es[1..]))
  }

  // ------------------------------------------------------------- preservation

  ghost predicate NearFalls(s: State, t: State) {
    forall l, id :: id in s.entries && Near(t, l, id) ==> Near(s, l, id)
  }

  lemma ContestedFalls(s: State, t: State, k: Key, thread: string)
    requires NearFalls(s, t) && Contested(t, k, thread) && Gate.InFlight(s, k, thread) && t.dispatchers[k] == s.dispatchers[k]
    ensures Contested(s, k, thread)
  {
    var l :| l != k && Near(t, l, t.dispatchers[k].entry);
    assert Near(s, l, s.dispatchers[k].entry);
  }

  lemma MovingFalls(s: State, k: Key, gates: map<string, string>)
    ensures NearFalls(s, To(s.(gates := gates), k, Closing))
  {
  }

  /** Leaving the queue and closing. */
  lemma LeavingFalls(s: State, k: Key, id: nat, status: Status, gates: map<string, string>)
    requires id in s.entries && status != Queued
    ensures NearFalls(s, To(Leave(s.(gates := gates), id, status), k, Closing))
  {
    var m := To(s.(gates := gates), k, Closing);
    MovingFalls(s, k, gates);
    LeaveIs(m, id, status);
    Gate.LeaveCommutes(s.(gates := gates), k, id, status);
    hide Leave;
  }

  lemma NothingFalls(s: State)
    ensures NearFalls(s, s)
  {
  }

  lemma MarkFalls(s: State, k: Key, binds: bool)
    requires Known(s) && k in s.dispatchers
    ensures NearFalls(s, OnMark(s, k, binds))
  {
    NothingFalls(s);
    var p := s.dispatchers[k];
    if p.Found? || p.Tracking? {
      assert p.entry in s.entries;
      hide NearFalls, Leave, To, Known;
      LeavingFalls(s, k, p.entry, Dispatched, s.gates);
      LeavingFalls(s, k, p.entry, Dispatched, s.gates[s.entries[p.entry].thread := s.entries[p.entry].client]);
    }
  }

  lemma ReceiptFalls(s: State, k: Key, known: bool)
    requires Known(s) && k in s.dispatchers
    ensures NearFalls(s, OnReceipt(s, k, known))
  {
    NothingFalls(s);
    var p := s.dispatchers[k];
    if p.Reading? || p.Reconciling? {
      var id := p.entry;
      assert id in s.entries;
      MovingFalls(s, k, s.gates);
      if p.Reconciling? {
        hide NearFalls, Leave, To, Known;
        LeavingFalls(s, k, id, Dispatched, s.gates);
        LeavingFalls(s, k, id, Rejected, s.gates - {s.entries[id].thread});
      }
    }
  }

  lemma StepFalls(s: State, e: Event)
    requires Known(s)
    ensures NearFalls(s, Step(s, e))
  {
    if e.Receipt? {
      if e.key in s.dispatchers { ReceiptFalls(s, e.key, e.known); }
      hide OnReceipt, OnMark, OnCall, OnAnswer, OnBegin;
    } else if e.Mark? {
      if e.key in s.dispatchers { MarkFalls(s, e.key, e.bindsGate); }
      hide OnReceipt, OnMark, OnCall, OnAnswer, OnBegin;
    } else {
      hide OnReceipt, OnMark;
    }
  }

  lemma QuieterKeeps(s: State, t: State)
    requires Guarded(s) && Gate.Quieter(s, t) && NearFalls(s, t) && Guards(s, t)
    ensures Guarded(t)
  {
    forall k
      ensures Kept(t, k)
    {
      assert Kept(s, k);
      if k in t.dispatchers && t.dispatchers[k].Starting? && t.dispatchers[k].entry in t.entries {
        var thread := t.entries[t.dispatchers[k].entry].thread;
        if Contested(t, k, thread) { ContestedFalls(s, t, k, thread); }
      }
    }
    hide NearFalls, Near;
    assert forall k, id :: Unapplied(t, k, id) ==> Unapplied(s, k, id);
  }

  /** Taking the gate and sending the start. */
  lemma BeginsStart(s: State, e: Event)
    requires Guarded(s) && Gate.Starts(s, e)
    ensures Guarded(Step(s, e))
  {
    var k := e.key;
    var id := s.dispatchers[k].entry;
    var x := s.entries[id];
    var t := Step(s, e);
    Gate.StartsIs(s, e);
    StepFalls(s, e);
    assert !Gate.Stale(s, k, x.thread) && Near(s, k, id);
    forall l
      ensures Kept(t, l)
    {
      assert Kept(s, l);
      if l != k && l in s.dispatchers && s.dispatchers[l].Starting? && s.dispatchers[l].entry in s.entries {
        var thread := s.entries[s.dispatchers[l].entry].thread;
        if Contested(t, l, thread) { ContestedFalls(s, t, l, thread); }
      }
    }
    forall l, m, i | Unapplied(t, l, i) && Unapplied(t, m, i)
      ensures l == m
    {
      NobodyElse(s, k, id, l);
      NobodyElse(s, k, id, m);
      assert l != k ==> Unapplied(s, l, i);
      assert m != k ==> Unapplied(s, m, i);
    }
    forall l, thread | Gate.Stale(t, l, thread) ensures thread in t.gates { assert Gate.Stale(s, l, thread); }
  }

  /** Behind a free gate nobody else has a start of the same prompt in flight. */
  lemma NobodyElse(s: State, k: Key, id: nat, l: Key)
    requires Kept(s, l) && Near(s, k, id) && s.entries[id].thread !in s.gates
    ensures l != k ==> !Unapplied(s, l, id)
  {
    if l != k && Unapplied(s, l, id) { assert Contested(s, l, s.entries[id].thread); }
  }

  lemma Applies(s: State, k: Key)
    requires Guarded(s) && k in s.dispatchers && s.dispatchers[k].Starting? && !s.dispatchers[k].applied
    ensures Guarded(Gate.Applied(s, k))
  {
    var id := s.dispatchers[k].entry;
    var e := s.entries[id];
    var t := Gate.Applied(s, k);
    assert Kept(s, k) && Unapplied(s, k, id);
    assert NearFalls(s, t);
    forall l
      ensures Kept(t, l)
    {
      assert Kept(s, l);
      if l != k && l in s.dispatchers && s.dispatchers[l].Starting? && s.dispatchers[l].entry in s.entries {
        assert Unapplied(s, l, id) ==> l == k;
        var thread := s.entries[s.dispatchers[l].entry].thread;
        if Contested(t, l, thread) { ContestedFalls(s, t, l, thread); }
      }
    }
    forall l, thread | Gate.Stale(t, l, thread)
      ensures thread in t.gates
    {
      assert Gate.Stale(s, l, thread) || s.dispatchers[l].entry == id;
      if !Gate.Stale(s, l, thread) { assert Near(s, l, id) && Contested(s, k, thread); }
    }
    forall l, i | Unapplied(t, l, i) ensures Unapplied(s, l, i) { }
  }

  lemma EnqueueKeeps(s: State, e: Event)
    requires Guarded(s) && e.Enqueue?
    ensures Guarded(Step(s, e))
  {
    var t := Step(s, e);
    StepFalls(s, e);
    forall k
      ensures Kept(t, k)
    {
      assert Kept(s, k);
      if k in s.dispatchers && s.dispatchers[k].Starting? {
        var thread := s.entries[s.dispatchers[k].entry].thread;
        if Contested(t, k, thread) { ContestedFalls(s, t, k, thread); }
      }
    }
    forall k, thread | Gate.Stale(t, k, thread) ensures thread in t.gates { assert Gate.Stale(s, k, thread); }
    forall l, i | Unapplied(t, l, i) ensures Unapplied(s, l, i) { }
  }

  lemma StepKeepsGuarded(s: State, e: Event)
    requires Guarded(s) && Guards(s, Step(s, e))
    ensures Guarded(Step(s, e))
  {
    assert Known(s);
    if e.Enqueue? {
      EnqueueKeeps(s, e);
    } else if Gate.Starts(s, e) {
      BeginsStart(s, e);
    } else if e.Apply? {
      if e.key in s.dispatchers && s.dispatchers[e.key].Starting? && !s.dispatchers[e.key].applied {
        Applies(s, e.key);
        hide Guarded;
      }
    } else {
      Gate.StepIsQuieter(s, e);
      StepFalls(s, e);
      hide Guarded, Gate.Quieter, NearFalls, Step, Guards;
      QuieterKeeps(s, Step(s, e));
    }
  }

  lemma {:induction false} GuardedRuns(s: State, es: seq<Event>)
    requires Guarded(s) && GuardsAll(s, es)
    ensures Guarded(Run(s, es)) && AtMostOne(Run(s, es))
    decreases |es|
  {
    if es != [] {
      StepKeepsGuarded(s, es[0]);
      hide Guarded, Step, Guards, AtMostOne;
      GuardedRuns(Step(s, es[0]), es[1..]);
    }
  }

  // ---------------------------------------------------------- the second turn

  /** A run that opens no gate it should not, and where it leads. */
  ghost predicate Leads(s: State, es: seq<Event>, t: State) { Known(s) && GuardsAll(s, es) && Run(s, es) == t }

  ghost predicate GatesGrow(s: State, t: State) {
    forall thread :: thread in s.gates ==> Lookup(t.gates, thread) == Lookup(s.gates, thread)
  }

  lemma LeadsOn(s: State, e: Event, es: seq<Event>, u: State)
    requires Known(s) && GatesGrow(s, Step(s, e)) && Leads(Step(s, e), es, u)
    ensures Leads(s, [e] + es, u)
  {
    assert ([e] + es)[0] == e && ([e] + es)[1..] == es;
    hide Step;
  }

  lemma TwoApply(s: State, id: nat, e: Entry, k: Key, l: Key) returns (u: State)
    requires Pair(s, id, e, k, Starting(id, false), l, Starting(id, false), 0)
    ensures Leads(s, [Apply(k)] + ([Apply(l)] + []), u) && id in u.entries && Count(u, u.entries[id].client) == 2
  {
    PairApplies(s, id, e, k, l, Starting(id, false), 0);
    var t := Step(s, Apply(k));
    PairFlips(t, id, e, k, Starting(id, true), l, Starting(id, false), 1);
    PairApplies(t, id, e, l, k, Starting(id, true), 1);
    u := Step(t, Apply(l));
    assert t.gates == s.gates && u.gates == t.gates;
    assert Leads(u, [], u);
    hide Step, Leads;
    LeadsOn(t, Apply(l), [], u);
    LeadsOn(s, Apply(k), [Apply(l)] + [], u);
  }

  function AnswerThenApply(k: Key, l: Key): seq<Event> { [Answer(l)] + ([Receipt(l, true)] + ([Apply(k)] + ([Apply(l)] + []))) }

  /** One start is in flight behind an open gate, and another dispatcher asks. */
  lemma AnotherStarts(s: State, id: nat, e: Entry, k: Key, l: Key, q: Phase) returns (u: State)
    requires Pair(s, id, e, k, Starting(id, false), l, q, 0) && q.Reading? && q.answer != Some(true) && e.thread !in s.gates
    ensures Leads(s, AnswerThenApply(k, l), u) && id in u.entries && Count(u, u.entries[id].client) == 2
  {
    PairFlips(s, id, e, k, Starting(id, false), l, q, 0);
    PairAnswers(s, id, e, l, q, k, Starting(id, false));
    var t := Step(s, Answer(l));
    assert t.gates == s.gates;
    PairStarts(t, id, e, l, k, Starting(id, false), 0);
    var v := Step(t, Receipt(l, true));
    assert v.gates == t.gates[e.thread := e.client];
    PairFlips(v, id, e, l, Starting(id, false), k, Starting(id, false), 0);
    hide Step, Leads;
    u := TwoApply(v, id, e, k, l);
    LeadsOn(t, Receipt(l, true), [Apply(k)] + ([Apply(l)] + []), u);
    LeadsOn(s, Answer(l), [Receipt(l, true)] + ([Apply(k)] + ([Apply(l)] + [])), u);
  }

  /** A lock that lists the entry is made free, and picks it. */
  lemma AnotherPicks(s: State, id: nat, e: Entry, k: Key, l: Key) returns (u: State)
    requires Known(s) && k != l && Unapplied(s, k, id) && id in s.entries && s.entries[id] == e
    requires Count(s, e.client) == 0 && Lists(l, e) && e.thread !in s.gates
    ensures Leads(s, [Abort(l)] + ([Begin(l, id, true)] + AnswerThenApply(k, l)), u)
    ensures id in u.entries && Count(u, u.entries[id].client) == 2
  {
    var t := Step(s, Abort(l));
    var v := Step(t, Begin(l, id, true));
    assert v == To(t, l, Reading(id, None));
    assert Pair(v, id, e, k, Starting(id, false), l, Reading(id, None), 0);
    assert t.gates == s.gates && v.gates == t.gates && Known(t);
    hide Step, Leads, Lists, AnswerThenApply;
    u := AnotherStarts(v, id, e, k, l, Reading(id, None));
    LeadsOn(t, Begin(l, id, true), AnswerThenApply(k, l), u);
    LeadsOn(s, Abort(l), [Begin(l, id, true)] + AnswerThenApply(k, l), u);
  }

  /** A contested start behind an open gate: some run starts a second turn. */
  lemma ContestedIsUnsafe(s: State, k: Key, thread: string) returns (es: seq<Event>)
    requires Known(s) && Contested(s, k, thread) && thread !in s.gates
    requires Count(s, s.entries[s.dispatchers[k].entry].client) == 0
    ensures GuardsAll(s, es) && !AtMostOne(Run(s, es))
  {
    var id := s.dispatchers[k].entry;
    var e := s.entries[id];
    var l :| l != k && Near(s, l, id);
    assert Unapplied(s, k, id) && e.thread == thread;
    var u;
    if Lists(l, e) {
      u := AnotherPicks(s, id, e, k, l);
      es := [Abort(l)] + ([Begin(l, id, true)] + AnswerThenApply(k, l));
    } else {
      var q := s.dispatchers[l];
      assert Pair(s, id, e, k, Starting(id, false), l, q, 0);
      if q.Reading? {
        u := AnotherStarts(s, id, e, k, l, q);
        es := AnswerThenApply(k, l);
      } else {
        u := TwoApply(s, id, e, k, l);
        es := [Apply(k)] + ([Apply(l)] + []);
      }
    }
    assert Leads(s, es, u);
    hide GuardsAll, Run, Near, Contested;
  }

  /** So does a stale "no" behind an open gate. */
  lemma StaleIsUnsafe(s: State, k: Key, thread: string) returns (es: seq<Event>)
    requires Known(s) && Gate.Stale(s, k, thread) && thread !in s.gates
    ensures GuardsAll(s, es) && !AtMostOne(Run(s, es))
  {
    var id := s.dispatchers[k].entry;
    var client := s.entries[id].client;
    var t := Step(s, Receipt(k, true));
    assert t == To(s.(gates := s.gates[thread := client]), k, Starting(id, false));
    var u := Step(t, Apply(k));
    assert u.gates == t.gates && id in u.entries && Count(u, u.entries[id].client) >= 2;
    assert Known(t) && Leads(u, [], u);
    es := [Receipt(k, true)] + ([Apply(k)] + []);
    assert Leads(s, es, u) by {
      hide Step, Leads;
      LeadsOn(t, Apply(k), [], u);
      LeadsOn(s, Receipt(k, true), [Apply(k)] + [], u);
    }
  }

  // ----------------------------------------------------- the exact condition

  /** Every later run in which gates open only with care. */
  ghost predicate SafeBehindGates(t: State) { forall es :: GuardsAll(t, es) ==> AtMostOne(Run(t, es)) }

  lemma ReceiptGates(s: State, k: Key, known: bool)
    requires Known(s) && k in s.dispatchers
    ensures forall h :: h in s.gates && h in OnReceipt(s, k, known).gates ==> OnReceipt(s, k, known).gates[h] == s.gates[h]
  {
  }

  lemma MarkGates(s: State, k: Key, binds: bool)
    requires Known(s) && k in s.dispatchers
    ensures forall h :: h in s.gates ==> h in OnMark(s, k, binds).gates && OnMark(s, k, binds).gates[h] == s.gates[h]
  {
  }

  /** An event loses a gate only by opening it, and starts no turn with that. */
  lemma GateLost(s: State, e: Event, thread: string)
    requires Known(s) && thread in s.gates && Lookup(Step(s, e).gates, thread) != Lookup(s.gates, thread)
    ensures thread !in Step(s, e).gates && Step(s, e).accepted == s.accepted && Gate.Quieter(s, Step(s, e))
  {
    if e.Receipt? && e.key in s.dispatchers { ReceiptGates(s, e.key, e.known); }
    if e.Mark? && e.key in s.dispatchers { MarkGates(s, e.key, e.bindsGate); }
    if Gate.Starts(s, e) { Gate.StartsIs(s, e); }
    hide OnReceipt, OnMark, Leave;
    assert !e.Enqueue? && !e.Apply? && !Gate.Starts(s, e);
    Gate.StepIsQuieter(s, e);
    hide Gate.Quieter;
  }

  lemma GuardedIsSafe(t: State)
    requires Guarded(t)
    ensures SafeBehindGates(t)
  {
    forall es | GuardsAll(t, es)
      ensures AtMostOne(Run(t, es))
    {
      GuardedRuns(t, es);
    }
    hide Guarded, GuardsAll, AtMostOne, Run;
  }

  lemma UnguardedIsUnsafe(s: State, e: Event)
    requires Guarded(s) && !Guards(s, Step(s, e))
    ensures !SafeBehindGates(Step(s, e))
  {
    var t := Step(s, e);
    StepKnown(s, e);
    var es;
    if k, thread :| Gate.InFlight(s, k, thread) && Contested(t, k, thread) && thread in s.gates
                    && Lookup(t.gates, thread) != Lookup(s.gates, thread) {
      GateLost(s, e, thread);
      assert Kept(s, k);
      es := ContestedIsUnsafe(t, k, thread);
    } else {
      var k, thread :| Gate.Stale(s, k, thread) && Gate.Stale(t, k, thread) && thread in s.gates && thread !in t.gates;
      es := StaleIsUnsafe(t, k, thread);
    }
    hide Step, AtMostOne, Run, GuardsAll, Guarded;
  }

  /** Whatever event it is: it is safe, in that every careful run after it starts at
      most one turn per prompt, if and only if it opens no gate over a contested
      start and none before a stale "no". */
  lemma StepIsSafeExactlyWhenGuarded(s: State, e: Event)
    requires Guarded(s)
    ensures SafeBehindGates(Step(s, e)) <==> Guards(s, Step(s, e))
  {
    assert Known(s);
    hide Guards, Step, SafeBehindGates, Guarded, Known;
    if Guards(s, Step(s, e)) {
      StepKeepsGuarded(s, e);
      GuardedIsSafe(Step(s, e));
    } else {
      UnguardedIsUnsafe(s, e);
    }
  }

  /** Gates do not matter to who could repeat a start. */
  lemma OtherGates(s: State, gates: map<string, string>, k: Key, thread: string)
    ensures Contested(s.(gates := gates), k, thread) <==> Contested(s, k, thread)
    ensures Contested(s, k, thread) ==> Gate.InFlight(s, k, thread)
  {
    var t := s.(gates := gates);
    assert forall l, id :: Near(t, l, id) <==> Near(s, l, id);
    hide Near;
  }

  /** What can be looked up before a gate is opened: nobody could repeat a start
      under way behind it, and nobody waits behind it with a stale "no". */
  lemma OpeningIsSafeExactlyWhenNobodyStartsTwice(s: State, thread: string)
    requires Guarded(s)
    ensures SafeBehindGates(Step(s, OpenGate(thread))) <==>
              forall k :: !Contested(s, k, thread) && !Gate.Stale(s, k, thread)
  {
    var t := Step(s, OpenGate(thread));
    StepIsSafeExactlyWhenGuarded(s, OpenGate(thread));
    forall k
      ensures Contested(s, k, thread) || Gate.Stale(s, k, thread) ==> thread in s.gates
    {
      assert Kept(s, k);
    }
    forall k, h
      ensures Contested(t, k, h) <==> Contested(s, k, h)
      ensures Contested(s, k, h) ==> Gate.InFlight(s, k, h)
    {
      OtherGates(s, s.gates - {thread}, k, h);
    }
    hide SafeBehindGates, Contested, Guarded;
  }

  /** From the empty queue on, gates that open with care are enough. */
  lemma GuardedFromTheStart(es: seq<Event>)
    requires GuardsAll(Initial, es)
    ensures Guarded(Run(Initial, es)) && AtMostOne(Run(Initial, es))
  {
    assert Guarded(Initial);
    hide Guarded, GuardsAll, Run, AtMostOne;
    GuardedRuns(Initial, es);
  }

  /** The states and the rule of the gates' own bound are a special case. */
  lemma GatedIsGuarded(s: State, e: Event)
    requires Gate.Gated(s)
    ensures Guarded(s) && (Gate.Keeps(s, e) ==> Guards(s, Step(s, e)))
  {
    forall k ensures Kept(s, k) { assert Gate.HoldsGate(s, k); }
    forall k, l, id | Unapplied(s, k, id) && Unapplied(s, l, id)
      ensures k == l
    {
      assert s.dispatchers[k].entry in s.entries && s.dispatchers[l].entry in s.entries;
      var thread := s.entries[id].thread;
      assert Gate.InFlight(s, k, thread) && Gate.InFlight(s, l, thread);
    }
    hide Step, Near;
  }
}
