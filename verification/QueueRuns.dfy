/** Runs of dispatchers: how the turns of a prompt add up over any run, and the
    runs in which the source's promises about queued prompts fail. */
module QueueRuns {
  import opened Wrappers
  import opened QueueDispatch
  import opened QueuePick
  import Gate = QueueGate

  // -------------------------------------------------- turns, event by event

  ghost predicate Named(s: State) { Known(s) && OwnClients(s) }

  /** The turns of an entry, none before it is queued. */
  function Turns(s: State, id: nat): nat { if id in s.entries then Count(s, s.entries[id].client) else 0 }

  /** The event at which the server starts a turn of this entry. */
  predicate AppliesTo(s: State, e: Event, id: nat) {
    e.Apply? && Lookup(s.dispatchers, e.key) == Some(Starting(id, false))
  }

  ghost function Applications(s: State, es: seq<Event>, id: nat): nat
    decreases |es|
  {
    if es == [] || !Known(s) then 0
    else (if AppliesTo(s, es[0], id) then 1 else 0) + Applications(Step(s, es[0]), es[1..], id)
  }

  /** Neither the turns nor the clients of the entries change. */
  ghost predicate SameTurns(s: State, t: State) {
    t.accepted == s.accepted && t.entries.Keys == s.entries.Keys &&
    forall i :: i in s.entries ==> t.entries[i].client == s.entries[i].client
  }

  lemma ReceiptHasSameTurns(s: State, k: Key, known: bool)
    requires Known(s) && k in s.dispatchers
    ensures SameTurns(s, OnReceipt(s, k, known))
  {
  }

  lemma MarkHasSameTurns(s: State, k: Key, binds: bool)
    requires Known(s) && k in s.dispatchers
    ensures SameTurns(s, OnMark(s, k, binds))
  {
  }

  lemma OthersHaveSameTurns(s: State, e: Event)
    requires Known(s) && !e.Enqueue? && !e.Apply?
    ensures SameTurns(s, Step(s, e))
  {
    if (e.Receipt? || e.Mark?) && e.key in s.dispatchers {
      if e.Receipt? { ReceiptHasSameTurns(s, e.key, e.known); } else { MarkHasSameTurns(s, e.key, e.bindsGate); }
      hide OnReceipt, OnMark;
    } else if e.Begin? || e.Cancel? {
    } else {
      hide Leave;
    }
  }

  lemma ApplyAddsATurn(s: State, e: Event, id: nat)
    requires Named(s) && e.Apply?
    ensures Named(Step(s, e)) && Turns(Step(s, e), id) == Turns(s, id) + if AppliesTo(s, e, id) then 1 else 0
  {
    StepKnown(s, e);
    assert e.key in s.dispatchers && s.dispatchers[e.key].Starting? ==> s.dispatchers[e.key].entry in s.entries;
  }

  lemma StepTurns(s: State, e: Event, id: nat)
    requires Named(s)
    ensures Named(Step(s, e)) && Turns(Step(s, e), id) == Turns(s, id) + if AppliesTo(s, e, id) then 1 else 0
  {
    StepKnown(s, e);
    if e.Apply? {
      ApplyAddsATurn(s, e, id);
    } else if !e.Enqueue? {
      OthersHaveSameTurns(s, e);
      hide Step;
    } else {
      hide OnReceipt, OnMark, OnAnswer, OnBegin, OnCall;
    }
  }

  /** Whatever the locks and gates do, the turns of a prompt are the starts of its
      that the server applied in the run. */
  lemma {:induction false} TurnsAreApplications(s: State, es: seq<Event>, id: nat)
    requires Named(s)
    ensures Named(Run(s, es)) && Turns(Run(s, es), id) == Turns(s, id) + Applications(s, es, id)
    decreases |es|
  {
    if es != [] {
      StepTurns(s, es[0], id);
      assert Known(s);
      hide Step, Named, AppliesTo, Turns;
      TurnsAreApplications(Step(s, es[0]), es[1..], id);
    }
  }

  /** A session directory that disappeared fails the prompt before any receipt is
      read. Its turn exists all the same, then and ever after, exactly when the
      run up to then applied a start of it. */
  lemma FailedForLackOfDirectory(before: seq<Event>, k: Key, id: nat, after: seq<Event>)
    requires SoloRun(Initial, before)
    requires
      var s := Run(Initial, before);
      && k !in s.dispatchers && id in s.entries && Lists(k, s.entries[id]) && NobodyOn(s, id)
      && Known(s) && SoloRun(Step(s, Begin(k, id, false)), after)
    ensures
      var t := Run(Step(Run(Initial, before), Begin(k, id, false)), after);
      && id in t.entries && t.entries[id].status == NoDirectory
      && (Delivered(t, id) <==> Applications(Initial, before, id) > 0)
  {
    assert Valid(Initial) && Named(Initial);
    RunKeepsValid(Initial, before);
    TurnsAreApplications(Initial, before, id);
    var s := Run(Initial, before);
    BeginStep(s, k, id, false);
    var t := Step(s, Begin(k, id, false));
    hide Valid, NobodyOn, Run, Named, Applications;
    LeftForGood(t, after, id);
  }

  // ------------------------------------------------- one prompt, step by step

  /** One entry and the dispatchers on it. */
  function Only(e: Entry, ds: map<Key, Phase>, gates: map<string, string>, turns: map<string, nat>): State {
    State(map[0 := e], ds, gates, turns)
  }

  ghost predicate OnIt(ds: map<Key, Phase>) { forall k :: k in ds && !ds[k].Closing? ==> ds[k].entry == 0 }

  const NO: Phase := Reading(0, Some(false))

  lemma Queues(e: Entry)
    requires e.status == Queued
    ensures Step(Initial, Enqueue(0, e.client, e.thread, e.space)) == Only(e, map[], map[], map[])
  {
  }

  lemma Picks(e: Entry, ds: map<Key, Phase>, gates: map<string, string>, turns: map<string, nat>, k: Key)
    requires OnIt(ds) && k !in ds && Lists(k, e)
    ensures Step(Only(e, ds, gates, turns), Begin(k, 0, true)) == Only(e, ds[k := Reading(0, None)], gates, turns)
    ensures Step(Only(e, ds, gates, turns), Begin(k, 0, false)) ==
            Only(e.(status := NoDirectory), ds[k := Closing], gates, turns)
  {
    assert map[0 := e][0 := e.(status := NoDirectory)] == map[0 := e.(status := NoDirectory)];
  }

  lemma IsToldNo(e: Entry, ds: map<Key, Phase>, gates: map<string, string>, turns: map<string, nat>, k: Key)
    requires OnIt(ds) && k in ds && ds[k] == Reading(0, None) && e.client !in turns
    ensures Step(Only(e, ds, gates, turns), Answer(k)) == Only(e, ds[k := NO], gates, turns)
  {
  }

  lemma Starts(e: Entry, ds: map<Key, Phase>, gates: map<string, string>, turns: map<string, nat>, k: Key)
    requires OnIt(ds) && k in ds && ds[k] == NO && e.thread !in gates
    ensures Step(Only(e, ds, gates, turns), Receipt(k, true)) ==
            Only(e, ds[k := Starting(0, false)], gates[e.thread := e.client], turns)
  {
  }

  lemma IsApplied(e: Entry, ds: map<Key, Phase>, gates: map<string, string>, turns: map<string, nat>, k: Key)
    requires OnIt(ds) && k in ds && ds[k] == Starting(0, false)
    ensures Step(Only(e, ds, gates, turns), Apply(k)) ==
            Only(e, ds[k := Starting(0, true)], gates, turns[e.client := Lookup(turns, e.client).GetOr(0) + 1])
  {
  }

  lemma Returns(e: Entry, ds: map<Key, Phase>, gates: map<string, string>, turns: map<string, nat>, k: Key)
    requires OnIt(ds) && k in ds && ds[k] == Starting(0, true)
    ensures Step(Only(e, ds, gates, turns), Return(k)) == Only(e, ds[k := Tracking(0)], gates, turns)
    ensures Step(Only(e, ds, gates, turns), Raise(k, false)) == Only(e, ds[k := Reconciling(0, false, None)], gates, turns)
  {
  }

  lemma LearnsNothing(e: Entry, ds: map<Key, Phase>, gates: map<string, string>, turns: map<string, nat>, k: Key)
    requires OnIt(ds) && k in ds && ds[k] == Reconciling(0, false, None)
    ensures Step(Only(e, ds, gates, turns), Receipt(k, false)) == Only(e, ds[k := Closing], gates, turns)
  {
  }

  lemma LetsGo(e: Entry, ds: map<Key, Phase>, gates: map<string, string>, turns: map<string, nat>, k: Key)
    requires OnIt(ds) && k in ds && ds[k] == Closing
    ensures Step(Only(e, ds, gates, turns), Release(k)) == Only(e, ds - {k}, gates, turns)
  {
  }

  lemma Opens(e: Entry, ds: map<Key, Phase>, gates: map<string, string>, turns: map<string, nat>)
    requires OnIt(ds)
    ensures Step(Only(e, ds, gates, turns), OpenGate(e.thread)) == Only(e, ds, gates - {e.thread}, turns)
  {
  }

  // ------------------------------------------------------- concrete runs

  /** No gate opens over a start in flight, all along. */
  ghost predicate StartsCovered(s: State, es: seq<Event>)
    decreases |es|
  {
    es == [] || (Known(s) && Gate.CoversStarts(s, Step(s, es[0])) && StartsCovered(Step(s, es[0]), es[1..]))
  }

  /** What a run respects besides the steps themselves. */
  datatype Rule = Nothing | OneEach | CoveredStarts

  ghost predicate Goes(s: State, es: seq<Event>, t: State, rule: Rule) {
    Known(s) && Run(s, es) == t && (rule.OneEach? ==> SoloRun(s, es)) && (rule.CoveredStarts? ==> StartsCovered(s, es))
  }

  lemma Arrived(s: State, rule: Rule)
    requires Known(s)
    ensures Goes(s, [], s, rule)
  {
  }

  lemma GoesOn(s: State, e: Event, t: State, es: seq<Event>, u: State, rule: Rule)
    requires Known(s) && Step(s, e) == t && Goes(t, es, u, rule)
    requires (rule.OneEach? ==> Solo(s, e)) && (rule.CoveredStarts? ==> Gate.CoversStarts(s, t))
    ensures Goes(s, [e] + es, u, rule)
  {
    assert ([e] + es)[0] == e && ([e] + es)[1..] == es;
  }

  function AfterLostAnswer(k: Key): seq<Event> {
    [Raise(k, false)] + ([Receipt(k, false)] + ([Release(k)] + ([Begin(k, 0, false)] + [])))
  }

  lemma LostAnswerFails(e: Entry, k: Key, gates: map<string, string>, turns: map<string, nat>)
    requires Lists(k, e)
    ensures Goes(Only(e, map[k := Starting(0, true)], gates, turns), AfterLostAnswer(k),
                 Only(e.(status := NoDirectory), map[k := Closing], gates, turns), OneEach)
  {
    var d0 := map[k := Starting(0, true)];
    var d1 := d0[k := Reconciling(0, false, None)];
    var d2 := d1[k := Closing];
    var d3 := d2 - {k};
    var d4 := d3[k := Closing];
    assert d4 == map[k := Closing];
    var s0, s1, s2, s3 := Only(e, d0, gates, turns), Only(e, d1, gates, turns), Only(e, d2, gates, turns), Only(e, d3, gates, turns);
    var s4 := Only(e.(status := NoDirectory), d4, gates, turns);
    assert Known(s0) && Known(s1) && Known(s2) && Known(s3) && Known(s4);
    assert Solo(s3, Begin(k, 0, false));
    Returns(e, d0, gates, turns, k);
    LearnsNothing(e, d1, gates, turns, k);
    LetsGo(e, d2, gates, turns, k);
    Picks(e, d3, gates, turns, k);
    hide Only, Lists, Known, Step, Goes;
    Arrived(s4, OneEach);
    GoesOn(s3, Begin(k, 0, false), s4, [], s4, OneEach);
    GoesOn(s2, Release(k), s3, [Begin(k, 0, false)] + [], s4, OneEach);
    GoesOn(s1, Receipt(k, false), s2, [Release(k)] + ([Begin(k, 0, false)] + []), s4, OneEach);
    GoesOn(s0, Raise(k, false), s1, [Receipt(k, false)] + ([Release(k)] + ([Begin(k, 0, false)] + [])), s4, OneEach);
  }

  function UntilApplied(e: Entry, k: Key, es: seq<Event>): seq<Event> {
    [Enqueue(0, e.client, e.thread, e.space)] + ([Begin(k, 0, true)] + ([Answer(k)] + ([Receipt(k, true)] + ([Apply(k)] + es))))
  }

  lemma IsPicked(e: Entry, k: Key, es: seq<Event>, u: State)
    requires Lists(k, e) && Goes(Only(e, map[k := Reading(0, None)], map[], map[]), es, u, OneEach)
    ensures Goes(Initial, [Enqueue(0, e.client, e.thread, e.space)] + ([Begin(k, 0, true)] + es), u, OneEach)
  {
    var d0: map<Key, Phase> := map[];
    var d1 := d0[k := Reading(0, None)];
    assert d1 == map[k := Reading(0, None)];
    var s0, s1 := Only(e, d0, map[], map[]), Only(e, d1, map[], map[]);
    assert Known(Initial) && Known(s0) && Known(s1);
    assert Solo(s0, Begin(k, 0, true));
    Queues(e);
    Picks(e, d0, map[], map[], k);
    hide Only, Lists, Known, Step, Goes;
    GoesOn(s0, Begin(k, 0, true), s1, es, u, OneEach);
    GoesOn(Initial, Enqueue(0, e.client, e.thread, e.space), s0, [Begin(k, 0, true)] + es, u, OneEach);
  }

  /** A negative answer behind a free gate, and the server starts the turn. */
  lemma StartIsApplied(e: Entry, ds: map<Key, Phase>, k: Key, es: seq<Event>, u: State, rule: Rule)
    requires OnIt(ds) && k in ds && ds[k] == NO && forall l :: l in ds ==> !ds[l].Starting?
    requires Goes(Only(e, ds[k := Starting(0, false)][k := Starting(0, true)], map[][e.thread := e.client], map[][e.client := 1]),
                  es, u, rule)
    ensures Goes(Only(e, ds, map[], map[]), [Receipt(k, true)] + ([Apply(k)] + es), u, rule)
  {
    var turns: map<string, nat> := map[];
    var held, one := map[][e.thread := e.client], turns[e.client := 1];
    var d1 := ds[k := Starting(0, false)];
    var d2 := d1[k := Starting(0, true)];
    var s0, s1, s2 := Only(e, ds, map[], turns), Only(e, d1, held, turns), Only(e, d2, held, one);
    assert Known(s0) && Known(s1) && Known(s2);
    assert Gate.CoversStarts(s0, s1) && Gate.CoversStarts(s1, s2);
    Starts(e, ds, map[], turns, k);
    IsApplied(e, d1, held, turns, k);
    hide Only, OnIt, Known, Step, Goes, Gate.CoversStarts;
    GoesOn(s1, Apply(k), s2, es, u, rule);
    GoesOn(s0, Receipt(k, true), s1, [Apply(k)] + es, u, rule);
  }

  lemma FirstAttemptApplies(e: Entry, k: Key, es: seq<Event>, u: State)
    requires Lists(k, e)
    requires Goes(Only(e, map[k := Starting(0, true)], map[e.thread := e.client], map[e.client := 1]), es, u, OneEach)
    ensures Goes(Initial, UntilApplied(e, k, es), u, OneEach)
  {
    var d1 := map[k := Reading(0, None)];
    var d2 := d1[k := NO];
    assert d2[k := Starting(0, false)][k := Starting(0, true)] == map[k := Starting(0, true)];
    assert map[][e.thread := e.client] == map[e.thread := e.client];
    assert map[][e.client := 1] == map[e.client := 1];
    var s1, s2 := Only(e, d1, map[], map[]), Only(e, d2, map[], map[]);
    assert Known(s1);
    IsToldNo(e, d1, map[], map[], k);
    hide Only, Lists, Known, Step, Goes;
    StartIsApplied(e, d2, k, es, u, OneEach);
    GoesOn(s1, Answer(k), s2, [Receipt(k, true)] + ([Apply(k)] + es), u, OneEach);
    IsPicked(e, k, [Answer(k)] + ([Receipt(k, true)] + ([Apply(k)] + es)), u);
  }

  function LostAnswer(e: Entry, k: Key): seq<Event> { UntilApplied(e, k, AfterLostAnswer(k)) }

  /** The start was applied, its answer was lost, no receipt could be read, and at
      the next attempt the directory was gone: reported as never started, though
      the prompt has its turn. */
  lemma FailedThoughStarted(e: Entry, k: Key)
    requires Lists(k, e)
    ensures SoloRun(Initial, LostAnswer(e, k))
    ensures
      var t := Run(Initial, LostAnswer(e, k));
      0 in t.entries && t.entries[0] == e.(status := NoDirectory) && Turns(t, 0) == 1
  {
    hide Run, SoloRun, Lists, UntilApplied, AfterLostAnswer;
    LostAnswerFails(e, k, map[e.thread := e.client], map[e.client := 1]);
    FirstAttemptApplies(e, k, AfterLostAnswer(k),
                        Only(e.(status := NoDirectory), map[k := Closing], map[e.thread := e.client], map[e.client := 1]));
  }

  // ------------------------------------------------------------ two locks

  /** Exactly the prompts of a space can be picked under two locks. */
  lemma SpacePromptsHaveTwoLocks(e: Entry)
    ensures (exists k, l :: k != l && Lists(k, e) && Lists(l, e)) <==> e.status == Queued && e.space.Some?
  {
    if e.status == Queued && e.space.Some? {
      assert ThreadQueue(e.thread) != SpaceQueue(e.space.value);
      assert Lists(ThreadQueue(e.thread), e) && Lists(SpaceQueue(e.space.value), e);
    }
  }

  function BothPick(e: Entry, k: Key, l: Key, es: seq<Event>): seq<Event> {
    [Enqueue(0, e.client, e.thread, e.space)] + ([Begin(k, 0, true)] + ([Begin(l, 0, true)] + es))
  }

  lemma BothArePicked(e: Entry, k: Key, l: Key, es: seq<Event>, u: State, rule: Rule)
    requires Lists(k, e) && Lists(l, e) && k != l && rule != OneEach
    requires Goes(Only(e, map[k := Reading(0, None), l := Reading(0, None)], map[], map[]), es, u, rule)
    ensures Goes(Initial, BothPick(e, k, l, es), u, rule)
  {
    var d0: map<Key, Phase> := map[];
    var d1 := d0[k := Reading(0, None)];
    var d2 := d1[l := Reading(0, None)];
    assert d2 == map[k := Reading(0, None), l := Reading(0, None)];
    var s0, s1, s2 := Only(e, d0, map[], map[]), Only(e, d1, map[], map[]), Only(e, d2, map[], map[]);
    assert Known(Initial) && Known(s0) && Known(s1) && Known(s2);
    Queues(e);
    Picks(e, d0, map[], map[], k);
    Picks(e, d1, map[], map[], l);
    assert Gate.CoversStarts(Initial, s0) && Gate.CoversStarts(s0, s1) && Gate.CoversStarts(s1, s2);
    hide Only, Lists, Known, Step, Goes, Gate.CoversStarts;
    GoesOn(s1, Begin(l, 0, true), s2, es, u, rule);
    GoesOn(s0, Begin(k, 0, true), s1, [Begin(l, 0, true)] + es, u, rule);
    GoesOn(Initial, Enqueue(0, e.client, e.thread, e.space), s0, [Begin(k, 0, true)] + ([Begin(l, 0, true)] + es), u, rule);
  }

  /** Both dispatchers start if the gate is forced open in between. */
  function TwoLocks(e: Entry, k: Key, l: Key): seq<Event> { BothPick(e, k, l, BothStart(k, l, e.thread)) }

  /** Without the rule that an entry has one dispatcher the bound fails: the
      server starts two turns for one prompt. */
  lemma TwoLocksStartTwoTurns(e: Entry, k: Key, l: Key)
    requires Lists(k, e) && Lists(l, e) && k != l
    ensures 0 in Run(Initial, TwoLocks(e, k, l)).entries && Turns(Run(Initial, TwoLocks(e, k, l)), 0) == 2
    ensures !SoloRun(Initial, TwoLocks(e, k, l))
  {
    var s := Only(e, map[k := Reading(0, None), l := Reading(0, None)], map[], map[]);
    assert Pair(s, 0, e, k, Reading(0, None), l, Reading(0, None), 0);
    BothStartTwoTurns(s, 0, e, k, Reading(0, None), l, Reading(0, None));
    var u := Run(s, BothStart(k, l, e.thread));
    BothArePicked(e, k, l, BothStart(k, l, e.thread), u, Nothing);
    assert Valid(Initial);
    hide SoloRun, Valid, Run, Lists, Pair;
    if SoloRun(Initial, TwoLocks(e, k, l)) {
      AtMostOneTurnPerPrompt(Initial, TwoLocks(e, k, l), 0);
    }
  }

  // --------------------------------------------------------- the stale "no"

  /** Both readings are answered before the first start; its turn completes, the
      gate opens, and the second dispatcher resumes with its old answer. */
  function StaleAnswer(e: Entry, k: Key, l: Key): seq<Event> {
    BothPick(e, k, l, [Answer(k)] + ([Answer(l)] + ([Receipt(k, true)] + ([Apply(k)] + ([Return(k)] + GateThenStart(e, l))))))
  }

  function GateThenStart(e: Entry, l: Key): seq<Event> { [OpenGate(e.thread)] + ([Receipt(l, true)] + ([Apply(l)] + [])) }

  /** The gate opens with no start in flight; the stale "no" starts a second turn. */
  lemma StaleAnswerStarts(e: Entry, k: Key, l: Key, ds: map<Key, Phase>, gates: map<string, string>, turns: map<string, nat>)
    requires OnIt(ds) && k in ds && ds[k] == Tracking(0) && l in ds && ds[l] == NO && ds.Keys == {k, l}
    ensures
      var held := (gates - {e.thread})[e.thread := e.client];
      Goes(Only(e, ds, gates, turns), GateThenStart(e, l),
           Only(e, ds[l := Starting(0, false)][l := Starting(0, true)], held,
                turns[e.client := Lookup(turns, e.client).GetOr(0) + 1]), CoveredStarts)
  {
    var open := gates - {e.thread};
    var held := open[e.thread := e.client];
    var more := turns[e.client := Lookup(turns, e.client).GetOr(0) + 1];
    var d1 := ds[l := Starting(0, false)];
    var d2 := d1[l := Starting(0, true)];
    var s0, s1, s2, s3 := Only(e, ds, gates, turns), Only(e, ds, open, turns), Only(e, d1, held, turns), Only(e, d2, held, more);
    assert Known(s0) && Known(s1) && Known(s2) && Known(s3);
    assert Gate.CoversStarts(s0, s1) && Gate.CoversStarts(s1, s2) && Gate.CoversStarts(s2, s3);
    Opens(e, ds, gates, turns);
    Starts(e, ds, open, turns, l);
    IsApplied(e, d1, held, turns, l);
    hide Only, OnIt, Known, Step, Goes, Gate.CoversStarts;
    Arrived(s3, CoveredStarts);
    GoesOn(s2, Apply(l), s3, [], s3, CoveredStarts);
    GoesOn(s1, Receipt(l, true), s2, [Apply(l)] + [], s3, CoveredStarts);
    GoesOn(s0, OpenGate(e.thread), s1, [Receipt(l, true)] + ([Apply(l)] + []), s3, CoveredStarts);
  }

  lemma FirstStartReturns(e: Entry, k: Key, l: Key, ds: map<Key, Phase>, es: seq<Event>, u: State)
    requires k != l && ds.Keys == {k, l} && ds[k] == NO && ds[l] == NO
    requires Goes(Only(e, ds[k := Starting(0, false)][k := Starting(0, true)][k := Tracking(0)], map[][e.thread := e.client],
                       map[][e.client := 1]), es, u, CoveredStarts)
    ensures Goes(Only(e, ds, map[], map[]), [Receipt(k, true)] + ([Apply(k)] + ([Return(k)] + es)), u, CoveredStarts)
  {
    var held, one := map[][e.thread := e.client], map[][e.client := 1];
    var d2 := ds[k := Starting(0, false)][k := Starting(0, true)];
    var s2, s3 := Only(e, d2, held, one), Only(e, d2[k := Tracking(0)], held, one);
    assert Known(s2) && OnIt(d2) && OnIt(ds);
    assert Gate.CoversStarts(s2, s3);
    Returns(e, d2, held, one, k);
    hide Only, OnIt, Known, Step, Goes, Gate.CoversStarts;
    GoesOn(s2, Return(k), s3, es, u, CoveredStarts);
    StartIsApplied(e, ds, k, [Return(k)] + es, u, CoveredStarts);
  }

  lemma BothAreToldNo(e: Entry, k: Key, l: Key, es: seq<Event>, u: State)
    requires k != l && Goes(Only(e, map[k := NO, l := NO], map[], map[]), es, u, CoveredStarts)
    ensures Goes(Only(e, map[k := Reading(0, None), l := Reading(0, None)], map[], map[]), [Answer(k)] + ([Answer(l)] + es), u,
                 CoveredStarts)
  {
    var d0 := map[k := Reading(0, None), l := Reading(0, None)];
    var d1 := d0[k := NO];
    var d2 := d1[l := NO];
    assert d2 == map[k := NO, l := NO];
    var s0, s1, s2 := Only(e, d0, map[], map[]), Only(e, d1, map[], map[]), Only(e, d2, map[], map[]);
    assert Known(s0) && Known(s1) && Known(s2);
    assert Gate.CoversStarts(s0, s1) && Gate.CoversStarts(s1, s2);
    IsToldNo(e, d0, map[], map[], k);
    IsToldNo(e, d1, map[], map[], l);
    hide Only, Known, Step, Goes, Gate.CoversStarts;
    GoesOn(s1, Answer(l), s2, es, u, CoveredStarts);
    GoesOn(s0, Answer(k), s1, [Answer(l)] + es, u, CoveredStarts);
  }

  lemma StaleAnswerGoes(e: Entry, k: Key, l: Key) returns (u: State)
    requires Lists(k, e) && Lists(l, e) && k != l
    ensures Goes(Initial, StaleAnswer(e, k, l), u, CoveredStarts)
    ensures 0 in u.entries && Turns(u, 0) == 2
  {
    var ds := map[k := NO, l := NO];
    var ds3 := ds[k := Starting(0, false)][k := Starting(0, true)][k := Tracking(0)];
    var held := map[][e.thread := e.client];
    var one := map[][e.client := 1];
    u := Only(e, ds3[l := Starting(0, false)][l := Starting(0, true)], (held - {e.thread})[e.thread := e.client], one[e.client := 2]);
    assert OnIt(ds3) && ds3.Keys == {k, l};
    StaleAnswerStarts(e, k, l, ds3, held, one);
    hide Goes, Lists, BothPick, GateThenStart, OnIt;
    FirstStartReturns(e, k, l, ds, GateThenStart(e, l), u);
    BothAreToldNo(e, k, l, [Receipt(k, true)] + ([Apply(k)] + ([Return(k)] + GateThenStart(e, l))), u);
    BothArePicked(e, k, l, [Answer(k)] + ([Answer(l)] + ([Receipt(k, true)] + ([Apply(k)] + ([Return(k)] + GateThenStart(e, l))))), u,
                  CoveredStarts);
  }

  /** Keeping every gate shut over a start in flight is not enough: in this run no
      gate opens over one, and the prompt has two turns. */
  lemma StaleAnswerStartsTwoTurns(e: Entry, k: Key, l: Key)
    requires Lists(k, e) && Lists(l, e) && k != l
    ensures StartsCovered(Initial, StaleAnswer(e, k, l)) && !Gate.KeepsAll(Initial, StaleAnswer(e, k, l))
    ensures 0 in Run(Initial, StaleAnswer(e, k, l)).entries && Turns(Run(Initial, StaleAnswer(e, k, l)), 0) == 2
  {
    var u := StaleAnswerGoes(e, k, l);
    Gate.InitialGated();
    hide Run, StartsCovered, Gate.KeepsAll, Gate.Gated, StaleAnswer, Lists;
    if Gate.KeepsAll(Initial, StaleAnswer(e, k, l)) {
      Gate.GateAloneBoundsTurns(Initial, StaleAnswer(e, k, l));
    }
  }
}
