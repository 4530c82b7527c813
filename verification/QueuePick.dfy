/** When a second dispatcher may pick a queued prompt: the exact condition for the
    server to start at most one turn for it. */
module QueuePick {
  import opened Wrappers
  import opened QueueDispatch

  /** This dispatcher may still make the server start a turn of the entry that has
      none: it has not read, or was told "no", or its start is not applied. */
  predicate MayStart(s: State, k: Key, id: nat) {
    && k in s.dispatchers && id in s.entries && EntryOf(s.dispatchers[k]) == Some(id)
    && !Delivered(s, id)
    && (s.dispatchers[k].Reading? || (s.dispatchers[k].Starting? && !s.dispatchers[k].applied))
  }

  /** An answer still tells the truth; a start not yet applied means no turn yet. */
  ghost predicate Honest(s: State, k: Key) {
    k in s.dispatchers && !s.dispatchers[k].Closing? && s.dispatchers[k].entry in s.entries ==>
      && (s.dispatchers[k].Starting? && !s.dispatchers[k].applied ==> !Delivered(s, s.dispatchers[k].entry))
      && (s.dispatchers[k].Reading? && s.dispatchers[k].answer.Some? ==>
            (s.dispatchers[k].answer.value <==> Delivered(s, s.dispatchers[k].entry)))
  }

  /** At most one dispatcher an entry may still start its turn. */
  ghost predicate OneStarter(s: State) {
    forall k, l, id :: MayStart(s, k, id) && MayStart(s, l, id) ==> k == l
  }

  ghost predicate Careful(s: State) {
    Known(s) && AtMostOne(s) && OwnClients(s) && OneStarter(s) && forall k :: Honest(s, k)
  }

  /** The guard of a pick: nobody else may still start the turn. */
  ghost predicate PicksWell(s: State, e: Event) {
    e.Begin? && e.directory ==> forall k :: !MayStart(s, k, e.id)
  }

  // ------------------------------------------------------------- preservation

  /** No turn is started, no entry gains a starter. */
  ghost predicate Calmer(s: State, t: State) {
    && t.accepted == s.accepted && t.entries.Keys == s.entries.Keys
    && (forall i :: i in s.entries ==> t.entries[i].client == s.entries[i].client)
    && (forall k :: k in t.dispatchers && !t.dispatchers[k].Closing? ==> t.dispatchers[k].entry in t.entries)
    && (forall k, id :: MayStart(t, k, id) ==> MayStart(s, k, id))
    && (forall k :: Honest(t, k))
  }

  lemma CalmerKeeps(s: State, t: State)
    requires Careful(s) && Calmer(s, t)
    ensures Careful(t)
  {
    hide Honest, MayStart;
    forall id | id in t.entries
      ensures Count(t, t.entries[id].client) <= 1
    {
      assert Count(s, s.entries[id].client) <= 1;
    }
  }

  /** One dispatcher moves; what it may start it might have started before. */
  lemma MovesCalmly(s: State, k: Key, p: Phase, gates: map<string, string>)
    requires Careful(s) && (p.Closing? || p.entry in s.entries)
    requires p.Reading? || (p.Starting? && !p.applied) ==> MayStart(s, k, p.entry) || Delivered(s, p.entry)
    requires p.Starting? && !p.applied ==> !Delivered(s, p.entry)
    requires p.Reading? && p.answer.Some? ==> (p.answer.value <==> Delivered(s, p.entry))
    ensures Careful(To(s.(gates := gates), k, p))
  {
    var t := To(s.(gates := gates), k, p);
    forall l ensures Honest(t, l) { assert Honest(s, l); }
    forall l, id | MayStart(t, l, id) ensures MayStart(s, l, id) { }
    hide MayStart, Honest;
    CalmerKeeps(s, t);
  }

  lemma LeavesCalmly(s: State, id: nat, status: Status)
    requires Careful(s) && id in s.entries
    ensures Careful(Leave(s, id, status))
  {
    var t := Leave(s, id, status);
    LeaveIs(s, id, status);
    hide Leave;
    forall l ensures Honest(t, l) { assert Honest(s, l); }
    forall l, i | MayStart(t, l, i) ensures MayStart(s, l, i) { }
    hide MayStart, Honest;
    CalmerKeeps(s, t);
  }

  /** Fewer dispatchers, other gates. */
  lemma FewerCalmly(s: State, t: State)
    requires Careful(s) && t == s.(dispatchers := t.dispatchers, gates := t.gates)
    requires forall k :: k in t.dispatchers ==> k in s.dispatchers && t.dispatchers[k] == s.dispatchers[k]
    ensures Careful(t)
  {
    forall l ensures Honest(t, l) { assert Honest(s, l); }
    forall l, i | MayStart(t, l, i) ensures MayStart(s, l, i) { }
    hide MayStart, Honest;
    CalmerKeeps(s, t);
  }

  /** A pick adds the only starter. */
  lemma PickKeeps(s: State, k: Key, id: nat)
    requires Careful(s) && id in s.entries && k !in s.dispatchers && forall l :: !MayStart(s, l, id)
    ensures Careful(To(s, k, Reading(id, None)))
  {
    var t := To(s, k, Reading(id, None));
    forall l ensures Honest(t, l) { assert Honest(s, l); }
    forall l, m, i | MayStart(t, l, i) && MayStart(t, m, i)
      ensures l == m
    {
      assert l != k ==> MayStart(s, l, i);
      assert m != k ==> MayStart(s, m, i);
    }
    hide Honest;
  }

  /** An applied start leaves its entry without starters. */
  lemma ApplyKeeps(s: State, k: Key)
    requires Careful(s) && k in s.dispatchers && s.dispatchers[k].Starting? && !s.dispatchers[k].applied
    ensures
      var id := s.dispatchers[k].entry;
      var client := s.entries[id].client;
      Careful(To(s.(accepted := s.accepted[client := Count(s, client) + 1]), k, Starting(id, true)))
  {
    var id := s.dispatchers[k].entry;
    var client := s.entries[id].client;
    var t := To(s.(accepted := s.accepted[client := Count(s, client) + 1]), k, Starting(id, true));
    assert Honest(s, k) && MayStart(s, k, id);
    forall i | i in s.entries ensures Delivered(t, i) <==> (i == id || Delivered(s, i)) { }
    forall l
      ensures Honest(t, l)
    {
      assert Honest(s, l);
      assert l != k ==> !MayStart(s, l, id);
    }
    forall l, m, i | MayStart(t, l, i) && MayStart(t, m, i)
      ensures l == m
    {
      assert MayStart(s, l, i) && MayStart(s, m, i);
    }
    hide Honest, MayStart;
  }

  lemma EnqueueKeeps(s: State, e: Event)
    requires Careful(s) && e.Enqueue?
    ensures Careful(Step(s, e))
  {
    var t := Step(s, e);
    forall l ensures Honest(t, l) { assert Honest(s, l); }
    forall l, m, i | MayStart(t, l, i) && MayStart(t, m, i)
      ensures l == m
    {
      assert MayStart(s, l, i) && MayStart(s, m, i);
    }
    hide Honest, MayStart;
  }

  lemma AnswerKeeps(s: State, k: Key)
    requires Careful(s) && k in s.dispatchers
    ensures Careful(OnAnswer(s, k))
  {
    var p := s.dispatchers[k];
    if p.Reading? && p.answer == None {
      assert p.entry in s.entries;
      hide Careful;
      MovesCalmly(s, k, Reading(p.entry, Some(Delivered(s, p.entry))), s.gates);
    } else if p.Reconciling? && p.answer == None {
      assert p.entry in s.entries;
      hide Careful;
      MovesCalmly(s, k, Reconciling(p.entry, p.refused, Some(Delivered(s, p.entry))), s.gates);
    }
  }

  /** `Leave` and closing, in either order. */
  lemma LeavesAndCloses(s: State, k: Key, id: nat, status: Status, gates: map<string, string>)
    requires Careful(s) && id in s.entries
    ensures Careful(To(Leave(s.(gates := gates), id, status), k, Closing))
  {
    var m := To(s.(gates := gates), k, Closing);
    MovesCalmly(s, k, Closing, gates);
    hide Careful;
    LeavesCalmly(m, id, status);
  }

  lemma ReceiptKeeps(s: State, k: Key, known: bool)
    requires Careful(s) && k in s.dispatchers
    ensures Careful(OnReceipt(s, k, known))
  {
    var p := s.dispatchers[k];
    if p.Reading? || p.Reconciling? {
      var id := p.entry;
      assert id in s.entries && Honest(s, k);
      hide Careful, Leave, Known;
      MovesCalmly(s, k, Closing, s.gates);
      if p.answer.Some? {
        if p.answer.value {
          MovesCalmly(s, k, Found(id), s.gates);
          LeavesAndCloses(s, k, id, Dispatched, s.gates);
        } else if p.Reading? {
          MovesCalmly(s, k, Starting(id, false), s.gates[s.entries[id].thread := s.entries[id].client]);
        } else {
          LeavesAndCloses(s, k, id, Rejected, s.gates - {s.entries[id].thread});
        }
      }
    }
  }

  lemma MarkKeeps(s: State, k: Key, binds: bool)
    requires Careful(s) && k in s.dispatchers
    ensures Careful(OnMark(s, k, binds))
  {
    var p := s.dispatchers[k];
    if p.Found? || p.Tracking? {
      var id := p.entry;
      assert id in s.entries;
      hide Careful, Leave, Known;
      LeavesAndCloses(s, k, id, Dispatched, s.gates);
      LeavesAndCloses(s, k, id, Dispatched, s.gates[s.entries[id].thread := s.entries[id].client]);
    }
  }

  lemma CallKeeps(s: State, e: Event)
    requires Careful(s) && (e.Apply? || e.Return? || e.Raise?) && e.key in s.dispatchers
    ensures Careful(OnCall(s, e))
  {
    var k := e.key;
    var p := s.dispatchers[k];
    if p.Starting? || p.Tracking? {
      assert p.entry in s.entries;
      hide Careful, Known;
      MovesCalmly(s, k, Tracking(p.entry), s.gates);
      if e.Raise? { MovesCalmly(s, k, Reconciling(p.entry, e.refused, None), s.gates); }
      if p.Starting? && !p.applied { ApplyKeeps(s, k); }
    }
  }

  lemma BeginKeeps(s: State, e: Event)
    requires Careful(s) && e.Begin? && PicksWell(s, e)
    ensures Careful(OnBegin(s, e.key, e.id, e.directory))
  {
    if e.id in s.entries {
      hide Careful, Leave;
      LeavesAndCloses(s, e.key, e.id, NoDirectory, s.gates);
      if e.key !in s.dispatchers && e.directory { PickKeeps(s, e.key, e.id); }
    }
  }

  lemma StepKeepsCareful(s: State, e: Event)
    requires Careful(s) && PicksWell(s, e)
    ensures Careful(Step(s, e))
  {
    assert Known(s);
    hide Careful, Known, PicksWell, OnBegin, OnAnswer, OnReceipt, OnMark, OnCall, Leave;
    if e.Enqueue? {
      EnqueueKeeps(s, e);
    } else if e.Cancel? {
      if e.id in s.entries { LeavesCalmly(s, e.id, Cancelled); }
    } else if e.Begin? {
      BeginKeeps(s, e);
    } else if e.Abort? || e.Crash? || e.OpenGate? || e.Release? {
      FewerCalmly(s, Step(s, e));
    } else if e.key in s.dispatchers {
      if e.Answer? { AnswerKeeps(s, e.key); }
      else if e.Receipt? { ReceiptKeeps(s, e.key, e.known); }
      else if e.Mark? { MarkKeeps(s, e.key, e.bindsGate); }
      else { CallKeeps(s, e); }
    }
  }

  ghost predicate WellPicked(s: State, es: seq<Event>)
    decreases |es|
  {
    es == [] || (Known(s) && PicksWell(s, es[0]) && WellPicked(Step(s, es[0]), es[1..]))
  }

  /** Whatever locks and gates do: if no pick meets a dispatcher that may still
      start the turn, the server starts at most one turn per prompt. */
  lemma {:induction false} WellPickedStartsOneTurn(s: State, es: seq<Event>)
    requires Careful(s) && WellPicked(s, es)
    ensures Careful(Run(s, es)) && AtMostOne(Run(s, es))
    decreases |es|
  {
    if es != [] {
      StepKeepsCareful(s, es[0]);
      hide Careful, Step, PicksWell, AtMostOne;
      WellPickedStartsOneTurn(Step(s, es[0]), es[1..]);
    }
  }

  lemma ValidIsCareful(s: State)
    requires Valid(s)
    ensures Careful(s)
  {
    forall k
      ensures Honest(s, k)
    {
      if k in s.dispatchers && !s.dispatchers[k].Closing? {
        assert PhaseOk(s, s.dispatchers[k]) && EntryOk(s, s.dispatchers[k].entry);
      }
    }
    forall id | id in s.entries ensures Count(s, s.entries[id].client) <= 1 { assert EntryOk(s, id); }
    forall k, l, id | MayStart(s, k, id) && MayStart(s, l, id) ensures k == l {
      assert SameEntry(s.dispatchers[k], s.dispatchers[l]);
    }
    hide EntryOk, PhaseOk, Honest, MayStart;
  }

  /** From the empty queue on: a run in which every entry has one dispatcher, then
      any in which picks are careful. */
  lemma CarefulFromTheStart(before: seq<Event>, es: seq<Event>)
    requires SoloRun(Initial, before) && WellPicked(Run(Initial, before), es)
    ensures
      var t := Run(Run(Initial, before), es);
      Careful(t) && AtMostOne(t)
  {
    assert Valid(Initial);
    hide Valid, Careful, AtMostOne, Run, SoloRun, WellPicked;
    RunKeepsValid(Initial, before);
    ValidIsCareful(Run(Initial, before));
    WellPickedStartsOneTurn(Run(Initial, before), es);
  }

  lemma {:induction false} SoloIsWellPicked(s: State, es: seq<Event>)
    requires SoloRun(s, es)
    ensures WellPicked(s, es)
    decreases |es|
  {
    if es != [] {
      SoloIsWellPicked(Step(s, es[0]), es[1..]);
    }
  }

  // ---------------------------------------------------- the second dispatcher

  /** Two dispatchers on one entry, and how many turns its prompt has. */
  ghost predicate Pair(s: State, id: nat, e: Entry, k: Key, p: Phase, l: Key, q: Phase, count: nat) {
    && Known(s) && id in s.entries && s.entries[id] == e && k != l
    && Lookup(s.dispatchers, k) == Some(p) && Lookup(s.dispatchers, l) == Some(q)
    && EntryOf(p) == Some(id) && EntryOf(q) == Some(id)
    && Count(s, e.client) == count
  }

  /** The server answers one of them. */
  lemma PairAnswers(s: State, id: nat, e: Entry, k: Key, p: Phase, l: Key, q: Phase)
    requires Pair(s, id, e, k, p, l, q, 0) && p.Reading? && p.answer != Some(true)
    ensures Pair(Step(s, Answer(k)), id, e, k, Reading(id, Some(false)), l, q, 0)
  {
    assert s.dispatchers[k] == p && p.entry == id;
    if p.answer == None {
      assert Step(s, Answer(k)) == To(s, k, Reading(id, Some(false)));
    } else {
      assert p.answer.Some? && !p.answer.value;
      assert p == Reading(id, Some(false));
      assert Step(s, Answer(k)) == s;
    }
  }

  lemma PairGateOpens(s: State, id: nat, e: Entry, k: Key, p: Phase, l: Key, q: Phase, count: nat)
    requires Pair(s, id, e, k, p, l, q, count)
    ensures Pair(Step(s, OpenGate(e.thread)), id, e, k, p, l, q, count)
    ensures e.thread !in Step(s, OpenGate(e.thread)).gates
  {
  }

  /** With its negative answer and a free gate it starts. */
  lemma PairStarts(s: State, id: nat, e: Entry, k: Key, l: Key, q: Phase, count: nat)
    requires Pair(s, id, e, k, Reading(id, Some(false)), l, q, count) && e.thread !in s.gates
    ensures Pair(Step(s, Receipt(k, true)), id, e, k, Starting(id, false), l, q, count)
  {
  }

  lemma PairApplies(s: State, id: nat, e: Entry, k: Key, l: Key, q: Phase, count: nat)
    requires Pair(s, id, e, k, Starting(id, false), l, q, count)
    ensures Pair(Step(s, Apply(k)), id, e, k, Starting(id, true), l, q, count + 1)
  {
  }

  lemma PairFlips(s: State, id: nat, e: Entry, k: Key, p: Phase, l: Key, q: Phase, count: nat)
    requires Pair(s, id, e, k, p, l, q, count)
    ensures Pair(s, id, e, l, q, k, p, count) && Known(s)
  {
  }

  /** An event that is not for this dispatcher's phase. */
  lemma StartingIgnores(s: State, k: Key, id: nat)
    requires Known(s) && Lookup(s.dispatchers, k) == Some(Starting(id, false))
    ensures Step(s, Answer(k)) == s && Step(s, Receipt(k, true)) == s
  {
  }

  /** Answer, open the gate, resume: from any phase before the application to a
      start in flight. */
  function ToStart(k: Key, thread: string): seq<Event> { [Answer(k), OpenGate(thread), Receipt(k, true)] }

  lemma RunOne(s: State, e: Event, rest: seq<Event>)
    requires Known(s)
    ensures Run(s, [e] + rest) == Run(Step(s, e), rest)
  {
    assert ([e] + rest)[0] == e && ([e] + rest)[1..] == rest;
  }

  lemma RunThree(s: State, a: Event, b: Event, c: Event, rest: seq<Event>)
    requires Known(s) && Known(Step(s, a)) && Known(Step(Step(s, a), b))
    ensures Run(s, [a, b, c] + rest) == Run(Step(Step(Step(s, a), b), c), rest)
  {
    assert [a, b, c] + rest == [a] + ([b] + ([c] + rest));
    hide *;
    RunOne(s, a, [b] + ([c] + rest));
    RunOne(Step(s, a), b, [c] + rest);
    RunOne(Step(Step(s, a), b), c, rest);
  }

  lemma RunTwo(s: State, a: Event, b: Event)
    requires Known(s) && Known(Step(s, a))
    ensures Run(s, [a, b]) == Step(Step(s, a), b)
  {
    assert [a, b] == [a] + ([b] + []);
    RunOne(s, a, [b] + []);
    RunOne(Step(s, a), b, []);
    hide Step;
  }

  lemma ReachesStart(s: State, id: nat, e: Entry, k: Key, p: Phase, l: Key, q: Phase, rest: seq<Event>) returns (t: State)
    requires Pair(s, id, e, k, p, l, q, 0)
    requires (p.Reading? && p.answer != Some(true)) || p == Starting(id, false)
    ensures Pair(t, id, e, k, Starting(id, false), l, q, 0)
    ensures Run(s, ToStart(k, e.thread) + rest) == Run(t, rest)
  {
    var s1 := Step(s, Answer(k));
    if p.Reading? {
      PairAnswers(s, id, e, k, p, l, q);
    } else {
      StartingIgnores(s, k, id);
    }
    var p1 := if p.Reading? then Reading(id, Some(false)) else p;
    assert Pair(s1, id, e, k, p1, l, q, 0);
    PairGateOpens(s1, id, e, k, p1, l, q, 0);
    var s2 := Step(s1, OpenGate(e.thread));
    t := Step(s2, Receipt(k, true));
    if p.Reading? {
      PairStarts(s2, id, e, k, l, q, 0);
    } else {
      StartingIgnores(s2, k, id);
    }
    hide Step;
    RunThree(s, Answer(k), OpenGate(e.thread), Receipt(k, true), rest);
  }

  function BothStart(k: Key, l: Key, thread: string): seq<Event> {
    ToStart(k, thread) + (ToStart(l, thread) + [Apply(k), Apply(l)])
  }

  lemma BothStartPicksNothing(k: Key, l: Key, thread: string)
    ensures forall i :: 0 <= i < |BothStart(k, l, thread)| ==> !BothStart(k, l, thread)[i].Begin?
  {
    assert BothStart(k, l, thread) ==
           [Answer(k), OpenGate(thread), Receipt(k, true), Answer(l), OpenGate(thread), Receipt(l, true), Apply(k), Apply(l)];
  }

  /** Two dispatchers that both may start the turn, and a gate that opens between
      them: two turns. */
  lemma BothStartTwoTurns(s: State, id: nat, e: Entry, k: Key, p: Phase, l: Key, q: Phase)
    requires Pair(s, id, e, k, p, l, q, 0)
    requires (p.Reading? && p.answer != Some(true)) || p == Starting(id, false)
    requires (q.Reading? && q.answer != Some(true)) || q == Starting(id, false)
    ensures
      var t := Run(s, BothStart(k, l, e.thread));
      id in t.entries && t.entries[id] == e && Count(t, e.client) == 2
  {
    hide Step, Run, ToStart;
    var last := [Apply(k), Apply(l)];
    var s1 := ReachesStart(s, id, e, k, p, l, q, ToStart(l, e.thread) + last);
    PairFlips(s1, id, e, k, Starting(id, false), l, q, 0);
    var s2 := ReachesStart(s1, id, e, l, q, k, Starting(id, false), last);
    PairFlips(s2, id, e, l, Starting(id, false), k, Starting(id, false), 0);
    PairApplies(s2, id, e, k, l, Starting(id, false), 0);
    var s3 := Step(s2, Apply(k));
    PairFlips(s3, id, e, k, Starting(id, true), l, Starting(id, false), 1);
    PairApplies(s3, id, e, l, k, Starting(id, true), 1);
    RunTwo(s2, Apply(k), Apply(l));
  }

  lemma {:induction false} NoPicks(s: State, es: seq<Event>)
    requires forall i :: 0 <= i < |es| ==> !es[i].Begin?
    requires Known(s)
    ensures SoloRun(s, es) && WellPicked(s, es)
    decreases |es|
  {
    if es != [] {
      assert forall i :: 0 <= i < |es[1..]| ==> es[1..][i] == es[i + 1];
      StepKnown(s, es[0]);
      hide Step;
      NoPicks(Step(s, es[0]), es[1..]);
    }
  }

  lemma ReceiptKnown(s: State, k: Key, known: bool)
    requires Known(s) && k in s.dispatchers
    ensures Known(OnReceipt(s, k, known))
  {
    hide Count;
  }

  lemma MarkKnown(s: State, k: Key, binds: bool)
    requires Known(s) && k in s.dispatchers
    ensures Known(OnMark(s, k, binds))
  {
    hide Count;
  }

  lemma StepKnown(s: State, e: Event)
    requires Known(s)
    ensures Known(Step(s, e))
  {
    if e.Receipt? {
      if e.key in s.dispatchers { ReceiptKnown(s, e.key, e.known); }
      hide Known, OnReceipt;
    } else if e.Mark? {
      if e.key in s.dispatchers { MarkKnown(s, e.key, e.bindsGate); }
      hide Known, OnMark;
    } else {
      hide OnReceipt, OnMark, Count;
    }
  }

  /** Every later run in which picks are careful, or in which every entry has one
      dispatcher, starts at most one turn per prompt. */
  ghost predicate SafeFrom(t: State) { forall es :: WellPicked(t, es) ==> AtMostOne(Run(t, es)) }

  ghost predicate SafeAlone(t: State) { forall es :: SoloRun(t, es) ==> AtMostOne(Run(t, es)) }

  /** Picking an entry under a free lock keeps "at most one turn per prompt" in
      every further run of either kind, if and only if no other dispatcher may
      still start its turn at that moment. */
  lemma PickIsSafeExactlyWhenNobodyMayStart(s: State, k: Key, id: nat)
    requires Careful(s) && k !in s.dispatchers && id in s.entries && Lists(k, s.entries[id])
    ensures
      var t := Step(s, Begin(k, id, true));
      && (SafeFrom(t) <==> forall l :: !MayStart(s, l, id))
      && (SafeAlone(t) <==> forall l :: !MayStart(s, l, id))
  {
    var t := Step(s, Begin(k, id, true));
    if l :| MayStart(s, l, id) {
      var es := UnsafePick(s, k, id, l);
      hide Run, WellPicked, SoloRun, Careful, Step, AtMostOne;
      assert !SafeFrom(t) && !SafeAlone(t);
    } else {
      assert t == To(s, k, Reading(id, None));
      hide AtMostOne, Step, WellPicked, SoloRun, MayStart;
      PickKeeps(s, k, id);
      forall es | WellPicked(t, es) || SoloRun(t, es)
        ensures AtMostOne(Run(t, es))
      {
        if SoloRun(t, es) { SoloIsWellPicked(t, es); }
        WellPickedStartsOneTurn(t, es);
      }
    }
  }

  /** The run that fails needs no further pick. */
  lemma UnsafePick(s: State, k: Key, id: nat, l: Key) returns (es: seq<Event>)
    requires Careful(s) && k !in s.dispatchers && id in s.entries && Lists(k, s.entries[id]) && MayStart(s, l, id)
    ensures
      var t := Step(s, Begin(k, id, true));
      SoloRun(t, es) && WellPicked(t, es) && !AtMostOne(Run(t, es))
  {
    var t := Step(s, Begin(k, id, true));
    var e := s.entries[id];
    assert t == To(s, k, Reading(id, None)) && Honest(s, l);
    StepKnown(s, Begin(k, id, true));
    var q := s.dispatchers[l];
    es := BothStart(k, l, e.thread);
    assert Pair(t, id, e, k, Reading(id, None), l, q, 0);
    BothStartTwoTurns(t, id, e, k, Reading(id, None), l, q);
    BothStartPicksNothing(k, l, e.thread);
    hide BothStart;
    NoPicks(t, es);
    hide Run, WellPicked, SoloRun, Careful;
    assert !AtMostOne(Run(t, es));
  }
}
