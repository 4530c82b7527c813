/** The pump of requests the app-server sends: a bounded queue, bounded
    concurrency, one running request a thread. */
module ServerRequests {
  import opened Wrappers

  /** Requests are numbered in the order they were accepted. */
  datatype Envelope = Envelope(id: nat, thread: string)

  datatype State = State(
    capacity: nat,
    concurrency: nat,
    queue: seq<Envelope>,
    running: map<nat, Envelope>,
    active: set<string>,
    stopping: bool,
    next: nat,
    started: seq<Envelope>,         // every request ever started, oldest first
    dropped: set<nat>)              // requests a lost connection discarded

  datatype Event = Arrive(thread: string) | Finished(id: nat) | Stop | ClearQueue | ClearRest | Restart

  // ---------------------------------------------------------------- steps

  /** Index of the first request at or after `from` whose thread is idle. */
  function FirstIdle(q: seq<Envelope>, active: set<string>, from: nat): (r: Option<nat>)
    requires from <= |q|
    ensures r.Some? ==> from <= r.value < |q| && q[r.value].thread !in active
    ensures forall k :: from <= k < (if r.Some? then r.value else |q|) ==> q[k].thread in active
    decreases |q| - from
  {
    if from == |q| then None
    else if q[from].thread !in active then Some(from)
    else FirstIdle(q, active, from + 1)
  }

  function Without(q: seq<Envelope>, i: nat): seq<Envelope>
    requires i < |q|
  {
    q[..i] + q[i + 1..]
  }

  predicate CanStart(s: State) {
    s.queue != [] && |s.running| < s.concurrency && FirstIdle(s.queue, s.active, 0).Some?
  }

  function StartOne(s: State): State
    requires CanStart(s)
  {
    var i := FirstIdle(s.queue, s.active, 0).value;
    var e := s.queue[i];
    s.(queue := Without(s.queue, i),
       running := s.running[e.id := e],
       active := s.active + {e.thread},
       started := s.started + [e])
  }

  function Pump(s: State): State
    decreases |s.queue|
  {
    if CanStart(s) then Pump(StartOne(s)) else s
  }

  predicate Refuses(s: State) { |s.queue| >= s.capacity }

  function Step(s: State, e: Event): State {
    match e
    case Arrive(thread) =>
      if Refuses(s) then s
      else Pump(s.(queue := s.queue + [Envelope(s.next, thread)], next := s.next + 1))
    case Finished(id) =>
      var s1 := if id in s.running
                then s.(running := s.running - {id}, active := s.active - {s.running[id].thread})
                else s;
      if s.stopping then s1 else Pump(s1)
    case Stop => s.(stopping := true)
    case ClearQueue => s.(queue := [], dropped := s.dropped + Ids(s.queue))
    case ClearRest => if s.running == map[] then s.(active := {}) else s
    // `start` acts only once the connection's task has ended, which clears the queue.
    case Restart => if s.queue == [] then s.(stopping := false) else s
  }

  function Ids(q: seq<Envelope>): set<nat> { set e | e in q :: e.id }

  function Initial(capacity: nat, concurrency: nat): State {
    State(capacity, concurrency, [], map[], {}, false, 0, [], {})
  }

  ghost function Run(s: State, es: seq<Event>): State
    decreases |es|
  {
    if es == [] then s else Run(Step(s, es[0]), es[1..])
  }

  // ------------------------------------------------------------ invariant

  /** The busy threads are exactly those of the running requests, one each. */
  ghost predicate Exclusive(s: State) {
    && (forall id :: id in s.running ==> s.running[id].id == id && s.running[id].thread in s.active)
    && (forall i, j :: i in s.running && j in s.running && s.running[i].thread == s.running[j].thread ==> i == j)
    && (forall t :: t in s.active ==> exists id :: id in s.running && s.running[id].thread == t)
  }

  ghost predicate Bounded(s: State) { |s.queue| <= s.capacity && |s.running| <= s.concurrency }

  /** `a` went before `b` if both belong to one thread. */
  predicate Before(a: Envelope, b: Envelope) { a.thread == b.thread ==> a.id < b.id }

  ghost predicate Sorted(q: seq<Envelope>) { forall i, j :: 0 <= i < j < |q| ==> q[i].id < q[j].id }

  /** Requests of one thread start in the order of their arrival, and before
      those that still wait. */
  ghost predicate Ordered(s: State) {
    && Sorted(s.queue)
    && (forall i, j :: 0 <= i < j < |s.started| ==> Before(s.started[i], s.started[j]))
    && (forall i, j :: 0 <= i < |s.started| && 0 <= j < |s.queue| ==> Before(s.started[i], s.queue[j]))
  }

  /** Every accepted request waits, was started or was dropped: one of the three. */
  ghost predicate Accounted(s: State) {
    && (forall n: nat :: n < s.next <==> n in Ids(s.queue) || n in Ids(s.started) || n in s.dropped)
    && Ids(s.queue) !! Ids(s.started) && Ids(s.queue) !! s.dropped && Ids(s.started) !! s.dropped
    && s.running.Keys <= Ids(s.started)
  }

  ghost predicate Quiet(s: State) {
    s.queue == [] || |s.running| >= s.concurrency || forall e :: e in s.queue ==> e.thread in s.active
  }

  ghost predicate Valid(s: State) {
    Exclusive(s) && Bounded(s) && Ordered(s) && Accounted(s) && (!s.stopping ==> Quiet(s))
  }

  /** The invariant while the pump is at work. */
  ghost predicate Pumping(s: State) { Exclusive(s) && Bounded(s) && Ordered(s) && Accounted(s) }

  // ------------------------------------------------------------ one start

  lemma StartKeepsExclusive(s: State)
    requires CanStart(s) && Exclusive(s) && Accounted(s)
    ensures Exclusive(StartOne(s))
  {
    var i := FirstIdle(s.queue, s.active, 0).value;
    var e := s.queue[i];
    var t := StartOne(s);
    hide FirstIdle;
    assert e.id in Ids(s.queue);
    forall x | x in t.active ensures exists id :: id in t.running && t.running[id].thread == x {
      if x == e.thread { assert e.id in t.running; }
      else { var id :| id in s.running && s.running[id].thread == x; assert id in t.running && id != e.id; }
    }
  }

  lemma StartKeepsBounded(s: State)
    requires CanStart(s) && Bounded(s)
    ensures Bounded(StartOne(s))
  {
    var e := s.queue[FirstIdle(s.queue, s.active, 0).value];
    assert (s.running[e.id := e]).Keys == s.running.Keys + {e.id};
  }

  lemma WithoutIndex(q: seq<Envelope>, i: nat)
    requires i < |q|
    ensures var r := Without(q, i); |r| == |q| - 1 && forall j :: 0 <= j < |r| ==> r[j] == q[if j < i then j else j + 1]
  {
  }

  lemma WithoutIds(q: seq<Envelope>, i: nat)
    requires i < |q| && Sorted(q)
    ensures Ids(Without(q, i)) == Ids(q) - {q[i].id}
  {
    assert q == q[..i] + [q[i]] + q[i + 1..];
    IdsConcat(q[..i] + [q[i]], q[i + 1..]);
    IdsConcat(q[..i], [q[i]]);
    IdsConcat(q[..i], q[i + 1..]);
    assert Ids([q[i]]) == {q[i].id};
    assert q[i].id !in Ids(q[..i]) && q[i].id !in Ids(q[i + 1..]);
    hide Ids, Sorted;
  }

  lemma WithoutAt(q: seq<Envelope>, i: nat)
    requires i < |q| && Sorted(q)
    ensures var r := Without(q, i); |r| == |q| - 1 && forall j :: 0 <= j < |r| ==> r[j] == q[if j < i then j else j + 1]
    ensures Sorted(Without(q, i))
    ensures Ids(Without(q, i)) == Ids(q) - {q[i].id}
  {
    WithoutIndex(q, i);
    WithoutIds(q, i);
    hide Ids, Without;
  }

  lemma FirstIdleGoesFirst(s: State, i: nat, j: nat)
    requires CanStart(s) && Sorted(s.queue) && i == FirstIdle(s.queue, s.active, 0).value && j < |s.queue| && j != i
    ensures Before(s.queue[i], s.queue[j])
  {
  }

  lemma StartKeepsOrder(s: State)
    requires CanStart(s) && Ordered(s)
    ensures Ordered(StartOne(s))
  {
    var i := FirstIdle(s.queue, s.active, 0).value;
    var e := s.queue[i];
    var rest := Without(s.queue, i);
    WithoutAt(s.queue, i);
    forall j | 0 <= j < |rest|
      ensures Before(e, rest[j]) && rest[j] in s.queue
    {
      FirstIdleGoesFirst(s, i, if j < i then j else j + 1);
    }
    hide FirstIdle, Before, Sorted, Without;
    StartedOrder(s, e, rest);
    hide Ordered;
    OrderedFields(s.(queue := rest, started := s.started + [e]), StartOne(s));
  }

  lemma StartedOrder(s: State, e: Envelope, rest: seq<Envelope>)
    requires Ordered(s) && e in s.queue && Sorted(rest)
    requires forall j :: 0 <= j < |rest| ==> Before(e, rest[j]) && rest[j] in s.queue
    ensures Ordered(s.(queue := rest, started := s.started + [e]))
  {
    hide Before, Sorted;
    var t := s.(queue := rest, started := s.started + [e]);
    forall i, j | 0 <= i < |t.started| && 0 <= j < |rest|
      ensures Before(t.started[i], rest[j])
    {
      var k :| 0 <= k < |s.queue| && s.queue[k] == rest[j];
    }
    forall i, j | 0 <= i < j < |t.started|
      ensures Before(t.started[i], t.started[j])
    {
      var k :| 0 <= k < |s.queue| && s.queue[k] == e;
    }
  }

  lemma OrderedFields(s: State, t: State)
    requires Ordered(s) && t.queue == s.queue && t.started == s.started
    ensures Ordered(t)
  {
    hide Before, Sorted;
  }

  lemma StartKeepsAccount(s: State)
    requires CanStart(s) && Accounted(s) && Sorted(s.queue)
    ensures Accounted(StartOne(s))
  {
    var i := FirstIdle(s.queue, s.active, 0).value;
    var e := s.queue[i];
    WithoutAt(s.queue, i);
    IdsConcat(s.started, [e]);
    assert Ids([e]) == {e.id} && e.id in Ids(s.queue);
    hide Sorted, FirstIdle, Without, Ids;
  }

  lemma IdsConcat(a: seq<Envelope>, b: seq<Envelope>)
    ensures Ids(a + b) == Ids(a) + Ids(b)
  {
  }

  lemma PumpKeeps(s: State)
    requires Pumping(s)
    ensures Pumping(Pump(s)) && Quiet(Pump(s))
    decreases |s.queue|
  {
    if CanStart(s) {
      StartKeepsExclusive(s);
      StartKeepsBounded(s);
      StartKeepsOrder(s);
      StartKeepsAccount(s);
      hide Exclusive, Bounded, Ordered, Accounted, Quiet;
      PumpKeeps(StartOne(s));
    }
  }

  // ------------------------------------------------------------ one event

  lemma ArriveKeepsAccount(s: State, thread: string)
    requires Accounted(s)
    ensures Accounted(s.(queue := s.queue + [Envelope(s.next, thread)], next := s.next + 1))
  {
    IdsConcat(s.queue, [Envelope(s.next, thread)]);
    assert Ids([Envelope(s.next, thread)]) == {s.next};
    assert s.next !in Ids(s.queue) && s.next !in Ids(s.started) && s.next !in s.dropped;
    hide Ids;
  }

  lemma ArriveKeepsRest(s: State, thread: string)
    requires Exclusive(s) && Bounded(s) && !Refuses(s)
    ensures
      var t := s.(queue := s.queue + [Envelope(s.next, thread)], next := s.next + 1);
      Exclusive(t) && Bounded(t)
  {
  }

  /** The newcomer joins the queue before the pump runs. */
  lemma ArriveIsPumping(s: State, thread: string)
    requires Valid(s) && !Refuses(s)
    ensures Pumping(s.(queue := s.queue + [Envelope(s.next, thread)], next := s.next + 1))
  {
    ArriveKeepsOrder(s, thread);
    hide Exclusive, Ordered, Accounted, Bounded, Quiet, Refuses;
    ArriveKeepsAccount(s, thread);
    ArriveKeepsRest(s, thread);
  }

  lemma ArriveKeeps(s: State, thread: string)
    requires Valid(s) && !Refuses(s)
    ensures
      var t := s.(queue := s.queue + [Envelope(s.next, thread)], next := s.next + 1);
      Pumping(Pump(t)) && Quiet(Pump(t))
  {
    hide *;
    ArriveIsPumping(s, thread);
    PumpKeeps(s.(queue := s.queue + [Envelope(s.next, thread)], next := s.next + 1));
  }

  /** The newcomer is the youngest of all. */
  lemma ArriveKeepsOrder(s: State, thread: string)
    requires Valid(s)
    ensures Ordered(s.(queue := s.queue + [Envelope(s.next, thread)], next := s.next + 1))
  {
    assert forall i :: 0 <= i < |s.queue| ==> s.queue[i].id in Ids(s.queue);
    assert forall i :: 0 <= i < |s.started| ==> s.started[i].id in Ids(s.started);
    hide Ids, Exclusive, Quiet, Bounded;
  }

  lemma FinishedKeeps(s: State, id: nat)
    requires Valid(s)
    ensures Pumping(Step(s, Finished(id))) && (!s.stopping ==> Quiet(Step(s, Finished(id))))
  {
    var t := if id in s.running
             then s.(running := s.running - {id}, active := s.active - {s.running[id].thread})
             else s;
    assert Exclusive(t) by { if id in s.running { FinishedKeepsExclusive(s, id); } }
    assert Bounded(t) by { assert (s.running - {id}).Keys == s.running.Keys - {id}; hide Exclusive, Ordered, Accounted; }
    assert Ordered(t) && Accounted(t) by { hide Exclusive, Ids, Before, Sorted; }
    hide Exclusive, Ordered, Accounted, Bounded, Quiet;
    PumpKeeps(t);
  }

  lemma FinishedKeepsExclusive(s: State, id: nat)
    requires Exclusive(s) && id in s.running
    ensures Exclusive(s.(running := s.running - {id}, active := s.active - {s.running[id].thread}))
  {
    var t := s.(running := s.running - {id}, active := s.active - {s.running[id].thread});
    forall x | x in t.active ensures exists i :: i in t.running && t.running[i].thread == x {
      var i :| i in s.running && s.running[i].thread == x;
      assert i in t.running;
    }
  }

  lemma ArriveStep(s: State, thread: string)
    ensures Step(s, Arrive(thread)) == if Refuses(s) then s
                                       else Pump(s.(queue := s.queue + [Envelope(s.next, thread)], next := s.next + 1))
  {
    hide Pump, Refuses;
  }

  lemma ArriveValid(s: State, thread: string)
    requires Valid(s)
    ensures Valid(Step(s, Arrive(thread)))
  {
    hide *;
    ArriveStep(s, thread);
    if !Refuses(s) {
      ArriveKeeps(s, thread);
      PumpedIsValid(s.(queue := s.queue + [Envelope(s.next, thread)], next := s.next + 1));
    }
  }

  lemma PumpedIsValid(s: State)
    requires Pumping(Pump(s)) && Quiet(Pump(s))
    ensures Valid(Pump(s))
  {
    hide Exclusive, Ordered, Accounted, Bounded, Quiet, Pump;
  }

  lemma FinishedValid(s: State, id: nat)
    requires Valid(s)
    ensures Valid(Step(s, Finished(id)))
  {
    FinishedKeeps(s, id);
    var t := if id in s.running
             then s.(running := s.running - {id}, active := s.active - {s.running[id].thread})
             else s;
    PumpFrame(t);
    hide Exclusive, Ordered, Accounted, Bounded, Quiet, Pump;
  }

  lemma ClearValid(s: State)
    requires Valid(s)
    ensures Valid(Step(s, ClearQueue))
  {
    assert Ids([]) == {};
    hide Exclusive, Ids;
  }

  lemma ClearRestValid(s: State)
    requires Valid(s)
    ensures Valid(Step(s, ClearRest))
  {
    if s.running == map[] { assert s.active == {}; }
    hide Ordered, Accounted, Bounded;
  }

  lemma FlagValid(s: State, e: Event)
    requires Valid(s) && (e.Stop? || e.Restart?)
    ensures Valid(Step(s, e))
  {
    hide Exclusive, Ordered, Accounted, Bounded;
    SamePump(s, Step(s, e));
  }

  lemma SamePump(s: State, t: State)
    requires t == s.(stopping := t.stopping)
    ensures Exclusive(s) ==> Exclusive(t)
    ensures Ordered(s) ==> Ordered(t)
    ensures Accounted(s) ==> Accounted(t)
    ensures Bounded(s) ==> Bounded(t)
  {
  }

  lemma StepKeepsValid(s: State, e: Event)
    requires Valid(s)
    ensures Valid(Step(s, e))
  {
    hide *;
    match e
    case Arrive(thread) => ArriveValid(s, thread);
    case Finished(id) => FinishedValid(s, id);
    case ClearQueue => ClearValid(s);
    case ClearRest => ClearRestValid(s);
    case _ => FlagValid(s, e);
  }

  lemma PumpFrame(s: State)
    ensures Pump(s).stopping == s.stopping && Pump(s).next == s.next && Pump(s).dropped == s.dropped
    decreases |s.queue|
  {
    if CanStart(s) { PumpFrame(StartOne(s)); }
  }

  lemma InitialOk(capacity: nat, concurrency: nat)
    ensures Valid(Initial(capacity, concurrency))
  {
  }

  lemma {:induction false} RunKeepsValid(s: State, es: seq<Event>)
    requires Valid(s)
    ensures Valid(Run(s, es))
    decreases |es|
  {
    if es != [] {
      StepKeepsValid(s, es[0]);
      hide Valid, Step;
      RunKeepsValid(Step(s, es[0]), es[1..]);
    }
  }

  // -------------------------------------------------------------- promises

  /** In every run: bounds, one running request a thread, the busy threads known
      exactly, and nothing lost. */
  lemma BoundedAndExclusive(s: State, es: seq<Event>)
    requires Valid(s)
    ensures
      var t := Run(s, es);
      && |t.queue| <= t.capacity && |t.running| <= t.concurrency
      && t.active == (set id | id in t.running :: t.running[id].thread)
      && (forall i, j :: i in t.running && j in t.running && t.running[i].thread == t.running[j].thread ==> i == j)
      && forall n: nat :: n < t.next ==> n in Ids(t.queue) || n in Ids(t.started) || n in t.dropped
  {
    RunKeepsValid(s, es);
    hide Run, Ids, Ordered, Quiet;
  }

  /** Requests of one thread start in the order of their arrival, over any run. */
  lemma StartsInArrivalOrder(s: State, es: seq<Event>, i: nat, j: nat)
    requires Valid(s) && i < j < |Run(s, es).started|
    requires Run(s, es).started[i].thread == Run(s, es).started[j].thread
    ensures Run(s, es).started[i].id < Run(s, es).started[j].id
  {
    RunKeepsValid(s, es);
    assert Before(Run(s, es).started[i], Run(s, es).started[j]);
  }

  // ------------------------------------------------------------- the flag

  /** A `stop` was asked for, and since then no start found its connection ended
      (which leaves an empty queue). */
  ghost predicate StopStands(s: State, es: seq<Event>, i: nat)
    requires i <= |es|
  {
    forall k :: i <= k < |es| && es[k].Restart? ==> Run(s, es[..k]).queue != []
  }

  ghost predicate StopRequested(s: State, es: seq<Event>) {
    (s.stopping && StopStands(s, es, 0)) || exists i :: 0 <= i < |es| && es[i].Stop? && StopStands(s, es, i + 1)
  }

  lemma {:induction false} RunsOn(s: State, es: seq<Event>, e: Event)
    ensures Run(s, es + [e]) == Step(Run(s, es), e)
    decreases |es|
  {
    if es == [] {
      assert es + [e] == [e] && [e][1..] == [];
    } else {
      assert (es + [e])[0] == es[0] && (es + [e])[1..] == es[1..] + [e];
      hide Step;
      RunsOn(Step(s, es[0]), es[1..], e);
    }
  }

  lemma FlagAfter(s: State, e: Event)
    ensures Step(s, e).stopping <==> e.Stop? || (s.stopping && !(e.Restart? && s.queue == []))
  {
    if e.Arrive? {
      PumpFrame(s.(queue := s.queue + [Envelope(s.next, e.thread)], next := s.next + 1));
    } else if e.Finished? {
      PumpFrame(if e.id in s.running
                then s.(running := s.running - {e.id}, active := s.active - {s.running[e.id].thread})
                else s);
    }
    hide Pump;
  }

  /** A request to stop stands one event later, unless that is a start that found
      its connection ended. */
  lemma StandsLonger(s: State, es: seq<Event>, e: Event, i: nat)
    requires i <= |es|
    ensures StopStands(s, es + [e], i) <==> StopStands(s, es, i) && (e.Restart? ==> Run(s, es).queue != [])
  {
    var more := es + [e];
    forall k | i <= k < |es| ensures more[k] == es[k] && more[..k] == es[..k] { }
    assert more[..|es|] == es && more[|es|] == e;
    hide Run;
    if StopStands(s, more, i) {
      forall k | i <= k < |es| && es[k].Restart?
        ensures Run(s, es[..k]).queue != []
      {
        assert more[k].Restart? && Run(s, more[..k]).queue != [];
      }
    }
  }

  /** After any run the pump is stopping if and only if a request to stop stands. */
  lemma {:induction false} StoppingExactlyWhenRequested(s: State, es: seq<Event>)
    ensures Run(s, es).stopping <==> StopRequested(s, es)
    decreases |es|
  {
    if es != [] {
      var first, e := es[..|es| - 1], es[|es| - 1];
      assert es == first + [e];
      StoppingExactlyWhenRequested(s, first);
      RunsOn(s, first, e);
      FlagAfter(Run(s, first), e);
      forall i | 0 <= i <= |first|
        ensures StopStands(s, es, i) <==> StopStands(s, first, i) && (e.Restart? ==> Run(s, first).queue != [])
      {
        StandsLonger(s, first, e, i);
      }
      hide Run, Step;
      LastRequest(s, first, e);
    }
  }

  lemma LastRequest(s: State, first: seq<Event>, e: Event)
    requires forall i :: 0 <= i <= |first| ==>
               (StopStands(s, first + [e], i) <==> StopStands(s, first, i) && (e.Restart? ==> Run(s, first).queue != []))
    ensures StopRequested(s, first + [e]) <==>
              e.Stop? || (StopRequested(s, first) && !(e.Restart? && Run(s, first).queue == []))
  {
    var es := first + [e];
    assert forall i :: 0 <= i < |first| ==> es[i] == first[i];
    assert es[|first|] == e && StopStands(s, es, |es|);
    hide StopStands, Run;
    if i :| 0 <= i < |first| && first[i].Stop? && StopStands(s, first, i + 1) && !(e.Restart? && Run(s, first).queue == []) {
      assert es[i].Stop? && StopStands(s, es, i + 1);
    }
    if i :| 0 <= i < |es| && es[i].Stop? && StopStands(s, es, i + 1) {
      if i < |first| { assert first[i].Stop? && StopStands(s, first, i + 1); }
    }
  }

  /** Unless a request to stop stands, the pump never rests while it could start
      something: whatever waits, waits for a worker or for its own thread; restarts
      included. */
  lemma NeverIdleInVain(s: State, es: seq<Event>)
    requires Valid(s) && !StopRequested(s, es)
    ensures
      var t := Run(s, es);
      || |t.running| >= t.concurrency
      || forall e :: e in t.queue ==> exists id :: id in t.running && t.running[id].thread == e.thread
  {
    StoppingExactlyWhenRequested(s, es);
    RunKeepsValid(s, es);
    hide StopRequested, Run, Ordered, Accounted, Bounded;
  }

  // ------------------------------------------------- what each event does

  /** Requests started between two states. */
  ghost function StartedSince(s: State, t: State): set<nat>
    requires |s.started| <= |t.started|
  {
    Ids(t.started[|s.started|..])
  }

  /** Whatever starts is recorded and runs; nothing else runs. */
  ghost predicate Starts(s: State, t: State) {
    && |s.started| <= |t.started| && t.started[..|s.started|] == s.started
    && t.running.Keys == s.running.Keys + StartedSince(s, t)
    && StartedSince(s, t) <= Ids(s.queue) && Ids(t.queue) <= Ids(s.queue)
  }

  lemma IdsWithout(q: seq<Envelope>, i: nat)
    requires i < |q|
    ensures Ids(Without(q, i)) <= Ids(q) && q[i].id in Ids(q)
  {
  }

  lemma OneStarts(s: State)
    requires CanStart(s)
    ensures Starts(s, StartOne(s))
  {
    var t := StartOne(s);
    var i := FirstIdle(s.queue, s.active, 0).value;
    var e := s.queue[i];
    IdsWithout(s.queue, i);
    assert t.started[|s.started|..] == [e] && t.started[..|s.started|] == s.started;
    assert Ids([e]) == {e.id};
    hide FirstIdle, Ids, Without;
    assert t.running.Keys == s.running.Keys + {e.id};
  }

  lemma StartsThen(s: State, m: State, t: State)
    requires Starts(s, m) && Starts(m, t)
    ensures Starts(s, t)
  {
    var n, k := |s.started|, |m.started|;
    assert t.started[n..] == m.started[n..] + t.started[k..];
    IdsConcat(m.started[n..], t.started[k..]);
    assert t.started[..n] == t.started[..k][..n];
    hide Ids;
    assert StartedSince(s, t) == StartedSince(s, m) + StartedSince(m, t);
  }

  lemma {:induction false} PumpStarts(s: State)
    ensures Starts(s, Pump(s))
    decreases |s.queue|
  {
    if CanStart(s) {
      OneStarts(s);
      hide Starts, StartOne;
      PumpStarts(StartOne(s));
      StartsThen(s, StartOne(s), Pump(s));
    } else {
      assert s.started[|s.started|..] == [];
      assert Ids([]) == {};
    }
  }

  /** What one event does to the requests that run. */
  ghost predicate RunsAfter(s: State, t: State, ended: set<nat>) {
    && |s.started| <= |t.started| && t.started[..|s.started|] == s.started
    && t.running.Keys == s.running.Keys - ended + StartedSince(s, t)
  }

  lemma NothingStarts(s: State, t: State)
    requires t.started == s.started
    ensures |s.started| <= |t.started| && t.started[..|s.started|] == s.started && StartedSince(s, t) == {}
  {
    assert t.started[|s.started|..] == [];
    assert Ids([]) == {};
    hide Ids;
  }

  lemma SameStarts(s: State, m: State, t: State, ended: set<nat>)
    requires m.started == s.started && m.running.Keys == s.running.Keys - ended && Starts(m, t)
    ensures RunsAfter(s, t, ended) && StartedSince(s, t) <= Ids(m.queue)
  {
    hide Ids;
  }

  lemma ArriveRuns(s: State, thread: string)
    ensures RunsAfter(s, Step(s, Arrive(thread)), {})
  {
    ArriveStep(s, thread);
    hide Pump, Step, Starts, RunsAfter;
    if Refuses(s) {
      StartsNothing(s);
      SameStarts(s, s, s, {});
    } else {
      var m := s.(queue := s.queue + [Envelope(s.next, thread)], next := s.next + 1);
      PumpStarts(m);
      SameStarts(s, m, Pump(m), {});
    }
  }

  lemma StartsNothing(s: State)
    ensures Starts(s, s)
  {
    assert s.started[|s.started|..] == [];
    assert Ids([]) == {};
  }

  lemma FinishedRuns(s: State, id: nat)
    requires Valid(s)
    ensures RunsAfter(s, Step(s, Finished(id)), {id})
    ensures id in s.running ==> id !in Step(s, Finished(id)).running
    ensures s.stopping ==> Step(s, Finished(id)).started == s.started
  {
    var m := if id in s.running
             then s.(running := s.running - {id}, active := s.active - {s.running[id].thread})
             else s;
    FinishedIs(s, id);
    assert m.running.Keys == s.running.Keys - {id};
    var t := Step(s, Finished(id));
    assert Accounted(s);
    hide Step, Pump, Starts, RunsAfter, Valid;
    if s.stopping { StartsNothing(m); } else { PumpStarts(m); }
    SameStarts(s, m, t, {id});
    EndedStaysEnded(s, t, id);
  }

  lemma EndedStaysEnded(s: State, t: State, id: nat)
    requires Accounted(s) && RunsAfter(s, t, {id}) && StartedSince(s, t) <= Ids(s.queue)
    ensures id in s.running ==> id !in t.running
  {
    hide Ids, StartedSince;
  }

  /** A request that ended runs no more; requests start only when one arrives, or
      when one ends and no stop is under way. */
  lemma RunningExactlyTheStarted(s: State, e: Event)
    requires Valid(s)
    ensures
      var t := Step(s, e);
      && RunsAfter(s, t, if e.Finished? then {e.id} else {})
      && (e.Finished? && e.id in s.running ==> e.id !in t.running)
      && (t.started != s.started ==> e.Arrive? || (e.Finished? && !s.stopping))
  {
    NothingStarts(s, s);
    if e.Arrive? {
      ArriveRuns(s, e.thread);
      hide Step;
    } else if e.Finished? {
      FinishedRuns(s, e.id);
      hide Step;
    } else {
      NothingStarts(s, Step(s, e));
    }
    hide Valid, Ids;
  }

  lemma {:induction false} PumpLosesNothing(s: State, e: Envelope)
    requires e in s.queue || e in s.started
    ensures e in Pump(s).queue || e in Pump(s).started
    decreases |s.queue|
  {
    if CanStart(s) {
      var i := FirstIdle(s.queue, s.active, 0).value;
      if e in s.queue && e != s.queue[i] {
        var k :| 0 <= k < |s.queue| && s.queue[k] == e;
        assert Without(s.queue, i)[if k < i then k else k - 1] == e;
      }
      hide FirstIdle;
      PumpLosesNothing(StartOne(s), e);
    }
  }

  /** A request is turned away exactly at capacity; otherwise it is the next one, and
      waits or has started. */
  lemma ArrivalIsTaken(s: State, thread: string)
    ensures
      var t := Step(s, Arrive(thread));
      var e := Envelope(s.next, thread);
      if |s.queue| >= s.capacity then t == s
      else t.next == s.next + 1 && (e in t.queue || e in t.started)
  {
    ArriveStep(s, thread);
    if !Refuses(s) {
      var m := s.(queue := s.queue + [Envelope(s.next, thread)], next := s.next + 1);
      assert m.queue[|s.queue|] == Envelope(s.next, thread);
      PumpFrame(m);
      PumpLosesNothing(m, Envelope(s.next, thread));
    }
    hide Step, Pump;
  }

  /** A lost connection drops exactly what waits. */
  lemma ClearingDropsTheQueue(s: State)
    ensures
      var t := Step(s, ClearQueue);
      t.queue == [] && t.started == s.started && t.running == s.running
      && forall n :: n in t.dropped <==> n in s.dropped || exists e :: e in s.queue && e.id == n
  {
  }

  // -------------------------------------------------------- as an object

  lemma ArriveIs(s: State, thread: string)
    requires Valid(s)
    ensures Valid(Step(s, Arrive(thread)))
    ensures Step(s, Arrive(thread)) == if Refuses(s) then s
                                       else Pump(s.(queue := s.queue + [Envelope(s.next, thread)], next := s.next + 1))
  {
    hide *;
    ArriveValid(s, thread);
    ArriveStep(s, thread);
  }

  lemma FinishedIs(s: State, id: nat)
    requires Valid(s)
    ensures Valid(Step(s, Finished(id)))
    ensures
      var s1 := if id in s.running
                then s.(running := s.running - {id}, active := s.active - {s.running[id].thread})
                else s;
      Step(s, Finished(id)) == if s.stopping then s1 else Pump(s1)
  {
    StepKeepsValid(s, Finished(id));
    hide Valid, Pump;
  }

  class ServerRequestPump {
    const capacity: nat
    const concurrency: nat
    var queue: seq<Envelope>
    var tasks: map<nat, Envelope>
    var activeThreads: set<string>
    var stopping: bool
    var next: nat
    ghost var started: seq<Envelope>
    ghost var dropped: set<nat>

    ghost function View(): State
      reads this
    {
      State(capacity, concurrency, queue, tasks, activeThreads, stopping, next, started, dropped)
    }

    ghost predicate IsValid()
      reads this
    {
      Valid(View())
    }

    constructor (capacity: nat, concurrency: nat)
      ensures IsValid() && View() == Initial(capacity, concurrency)
    {
      this.capacity, this.concurrency := capacity, concurrency;
      queue, tasks, activeThreads, stopping, next, started, dropped := [], map[], {}, false, 0, [], {};
      new;
      InitialOk(capacity, concurrency);
    }

    /** `_enqueue_server_request`; a full queue disconnects instead. */
    method Enqueue(thread: string) returns (accepted: bool)
      requires IsValid()
      modifies this
      ensures IsValid() && View() == Step(old(View()), Arrive(thread))
      ensures accepted <==> |old(queue)| < capacity
    {
      ghost var s := View();
      ArriveIs(s, thread);
      hide Valid, Pump, Step;
      accepted := |queue| < capacity;
      if accepted {
        queue := queue + [Envelope(next, thread)];
        next := next + 1;
        assert View() == s.(queue := s.queue + [Envelope(s.next, thread)], next := s.next + 1);
        hide View;
        PumpRequests();
      }
    }

    method IdleIndex() returns (i: Option<nat>)
      ensures i == FirstIdle(queue, activeThreads, 0)
    {
      for k := 0 to |queue|
        invariant FirstIdle(queue, activeThreads, 0) == FirstIdle(queue, activeThreads, k)
      {
        if queue[k].thread !in activeThreads { return Some(k); }
      }
      return None;
    }

    /** `_pump_server_requests`. */
    method PumpRequests()
      modifies this`queue, this`tasks, this`activeThreads, this`started
      ensures View() == Pump(old(View()))
    {
      ghost var s := View();
      while queue != [] && |tasks| < concurrency
        invariant Pump(View()) == Pump(s)
        decreases |queue|
      {
        ghost var before := View();
        var i := IdleIndex();
        if i == None { return; }
        hide FirstIdle;
        var e := queue[i.value];
        queue := queue[..i.value] + queue[i.value + 1..];
        activeThreads := activeThreads + {e.thread};
        tasks := tasks[e.id := e];
        started := started + [e];
        assert View() == StartOne(before);
      }
    }

    /** Neither the request nor its thread is busy any more. */
    method Forget(id: nat)
      requires id in tasks
      modifies this`tasks, this`activeThreads
      ensures View() == old(View()).(running := old(tasks) - {id}, active := old(activeThreads) - {old(tasks)[id].thread})
    {
      var e := tasks[id];
      tasks := tasks - {id};
      activeThreads := activeThreads - {e.thread};
    }

    /** `_server_request_finished`. */
    method RequestFinished(id: nat)
      requires IsValid()
      modifies this
      ensures IsValid() && View() == Step(old(View()), Finished(id))
    {
      FinishedIs(View(), id);
      hide Valid, Pump, Step;
      if id in tasks { Forget(id); }
      if !stopping { PumpRequests(); }
    }

    /** A lost connection: nothing that waits is started any more. */
    method Clear()
      requires IsValid()
      modifies this`queue, this`dropped
      ensures IsValid() && View() == Step(old(View()), ClearQueue)
    {
      StepKeepsValid(View(), ClearQueue);
      hide Valid, Ids;
      dropped := dropped + Ids(queue);
      queue := [];
    }

    /** `start` after `stop`: a connection that has ended left no queue behind. */
    method Start(connectionEnded: bool)
      requires IsValid() && (connectionEnded ==> queue == [])
      modifies this`stopping
      ensures IsValid() && View() == if connectionEnded then Step(old(View()), Restart) else old(View())
      ensures stopping == (old(stopping) && !connectionEnded)
    {
      StepKeepsValid(View(), Restart);
      hide Valid;
      if connectionEnded { stopping := false; }
    }

    /** Once every task has ended. */
    method ClearBookkeeping()
      requires IsValid() && tasks == map[]
      modifies this`activeThreads
      ensures IsValid() && View() == old(View())
    {
      assert activeThreads == {};
      activeThreads := {};
    }
  }
}
