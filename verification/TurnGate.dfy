/** The rendezvous between the answer to a turn start and the notification that
    the turn completed, which may come first. */
module TurnGate {
  import opened Wrappers

  datatype Gate = Gate(client: string, expected: Option<string>)

  type Marker = (string, string)      // thread, turn

  /** `requests` records, for every queue request after a completion, the thread
      and the prompt whose gate the completion opened. */
  datatype State = State(
    locked: set<string>,
    gates: map<string, Gate>,
    terminal: seq<Marker>,
    requests: seq<(string, string)>)

  datatype Event =
    | Begin(thread: string, client: string)
    | Bind(thread: string, client: string, turn: string)
    | Complete(thread: string, turn: string)
    | Reconcile(thread: string, turn: string)   // a receipt says this turn is over
    | Force(thread: string, awaited: Option<string>)   // a start or a review is given up

  const REMEMBERED: nat := 512

  // ---------------------------------------------------------------- steps

  function Release(s: State, thread: string): State {
    s.(gates := s.gates - {thread}, locked := s.locked - {thread})
  }

  function ReleaseAndRequest(s: State, thread: string): State
    requires thread in s.gates
  {
    Release(s, thread).(requests := s.requests + [(thread, s.gates[thread].client)])
  }

  /** `dict[marker] = ...`: a known marker keeps its place. */
  function Remember(terminal: seq<Marker>, m: Marker): seq<Marker> {
    var longer := if m in terminal then terminal else terminal + [m];
    if |longer| > REMEMBERED then longer[|longer| - REMEMBERED..] else longer
  }

  predicate Waits(s: State, thread: string, turn: string) {
    thread in s.gates && s.gates[thread].expected == Some(turn)
  }

  function Step(s: State, e: Event): State {
    match e
    case Begin(th, c) =>
      if th in s.locked then s
      else s.(locked := s.locked + {th}, gates := s.gates[th := Gate(c, None)])
    case Bind(th, c, t) =>
      if th !in s.gates || s.gates[th].client != c || t == "" then s
      else
        var s1 := s.(gates := s.gates[th := Gate(c, Some(t))]);
        if (th, t) in s.terminal then ReleaseAndRequest(s1, th) else s1
    case Complete(th, t) =>
      var s1 := s.(terminal := Remember(s.terminal, (th, t)));
      if Waits(s, th, t) then ReleaseAndRequest(s1, th) else s1
    // The receipt is no notification: nothing is remembered.
    case Reconcile(th, t) => if Waits(s, th, t) then ReleaseAndRequest(s, th) else s
    // With no turn named, whatever the gate waits for.
    case Force(th, t) => if th in s.gates && (t == None || s.gates[th].expected == t) then Release(s, th) else s
  }

  ghost function Run(s: State, es: seq<Event>): State
    decreases |es|
  {
    if es == [] then s else Run(Step(s, es[0]), es[1..])
  }

  // ------------------------------------------------------------ invariant

  /** The gate of a thread exists exactly when its lock is held. */
  ghost predicate Valid(s: State) {
    s.locked == s.gates.Keys && NoDup(s.terminal) && |s.terminal| <= REMEMBERED
  }

  lemma RememberKeeps(q: seq<Marker>, m: Marker)
    requires NoDup(q) && |q| <= REMEMBERED
    ensures NoDup(Remember(q, m)) && |Remember(q, m)| <= REMEMBERED
  {
  }

  lemma StepKeepsValid(s: State, e: Event)
    requires Valid(s)
    ensures Valid(Step(s, e))
  {
    if e.Complete? { RememberKeeps(s.terminal, (e.thread, e.turn)); }
    hide NoDup, Remember;
  }

  lemma {:induction false} RunKeepsValid(s: State, es: seq<Event>)
    requires Valid(s)
    ensures Valid(Run(s, es))
    decreases |es|
  {
    if es != [] {
      StepKeepsValid(s, es[0]);
      hide Valid, Step;
      RunKeepsValid(Step(s, es[0]), es[1..]);
    }
  }

  // ------------------------------------------------- memory of completions

  /** How many markers were remembered after this one, if it still is. */
  ghost predicate Newer(q: seq<Marker>, m: Marker, n: nat) {
    n < |q| && q[|q| - 1 - n] == m
  }

  /** Each fresh marker pushes the others one place towards oblivion. */
  lemma RememberPushes(q: seq<Marker>, m: Marker, other: Marker, n: nat)
    requires NoDup(q) && |q| <= REMEMBERED && Newer(q, m, n)
    ensures
      var r := Remember(q, other);
      if other in q then r == q
      else if n + 1 < REMEMBERED then Newer(r, m, n + 1)
      else m !in r
  {
    if other !in q && n + 1 >= REMEMBERED {
      assert q[0] == m && forall i :: 0 < i < |q| ==> q[i] != q[0];
    }
  }

  lemma RememberAdds(q: seq<Marker>, m: Marker)
    requires |q| <= REMEMBERED && m !in q
    ensures Newer(Remember(q, m), m, 0)
  {
  }

  /** Markers a run remembers that were not remembered when they arrived. */
  ghost function Fresh(s: State, es: seq<Event>): nat
    decreases |es|
  {
    if es == [] then 0
    else (if es[0].Complete? && (es[0].thread, es[0].turn) !in s.terminal then 1 else 0) + Fresh(Step(s, es[0]), es[1..])
  }

  lemma StepTerminal(s: State, e: Event)
    ensures Step(s, e).terminal == if e.Complete? then Remember(s.terminal, (e.thread, e.turn)) else s.terminal
  {
  }

  ghost predicate NeverCompletes(es: seq<Event>, m: Marker) {
    forall i :: 0 <= i < |es| && es[i].Complete? ==> (es[i].thread, es[i].turn) != m
  }

  lemma {:induction false} StaysForgotten(s: State, es: seq<Event>, m: Marker)
    requires Valid(s) && m !in s.terminal && NeverCompletes(es, m)
    ensures m !in Run(s, es).terminal
    decreases |es|
  {
    if es != [] {
      StepKeepsValid(s, es[0]);
      StepTerminal(s, es[0]);
      assert NeverCompletes(es[1..], m) by { assert forall i :: 0 <= i < |es[1..]| ==> es[1..][i] == es[i + 1]; }
      StaysForgotten(Step(s, es[0]), es[1..], m);
    }
  }

  /** A completion is remembered exactly as long as fewer than 512 fresh ones
      follow it: a bind that comes later releases the gate iff it comes in time. */
  lemma {:induction false} RememberedExactlyFor512(s: State, es: seq<Event>, m: Marker, n: nat)
    requires Valid(s) && Newer(s.terminal, m, n) && NeverCompletes(es, m)
    ensures m in Run(s, es).terminal <==> n + Fresh(s, es) < 512
    decreases |es|
  {
    if es != [] {
      var e, rest := es[0], es[1..];
      StepKeepsValid(s, e);
      StepTerminal(s, e);
      assert NeverCompletes(rest, m) by { assert forall i :: 0 <= i < |rest| ==> rest[i] == es[i + 1]; }
      if e.Complete? {
        var other := (e.thread, e.turn);
        RememberPushes(s.terminal, m, other, n);
        if other !in s.terminal && n + 1 >= REMEMBERED {
          StaysForgotten(Step(s, e), rest, m);
        } else {
          RememberedExactlyFor512(Step(s, e), rest, m, if other in s.terminal then n else n + 1);
        }
      } else {
        RememberedExactlyFor512(Step(s, e), rest, m, n);
      }
    }
  }

  lemma BindReleasesIffRemembered(s: State, thread: string, client: string, turn: string)
    requires Valid(s) && thread in s.gates && s.gates[thread].client == client && turn != ""
    ensures
      var t := Step(s, Bind(thread, client, turn));
      if (thread, turn) in s.terminal
      then thread !in t.locked && t.requests == s.requests + [(thread, client)]
      else t.gates == s.gates[thread := Gate(client, Some(turn))] && t.requests == s.requests && t.locked == s.locked
  {
  }

  /** This event opens the gate of its thread: a completion or a receipt of the turn
      it waits for, the naming of a turn that is remembered as over, or a release,
      forced or of the turn it waits for. */
  ghost predicate OpensGate(s: State, e: Event) {
    && e.thread in s.gates
    && match e
       case Begin(_, _) => false
       case Bind(th, client, turn) => s.gates[th].client == client && turn != "" && (th, turn) in s.terminal
       case Complete(th, turn) => s.gates[th].expected == Some(turn)
       case Reconcile(th, turn) => s.gates[th].expected == Some(turn)
       case Force(th, awaited) => awaited == None || s.gates[th].expected == awaited
  }

  /** Every gate, after any event: begun with nothing to wait for, given a turn to
      wait for, opened with one queue request unless it was forced, or as it was. */
  lemma GatesOpenExactly(s: State, e: Event)
    requires Valid(s)
    ensures
      var t := Step(s, e);
      var th := e.thread;
      var begun := e.Begin? && th !in s.gates;
      var named := e.Bind? && th in s.gates && s.gates[th].client == e.client && e.turn != "" && !OpensGate(s, e);
      && t.gates == (if OpensGate(s, e) then s.gates - {th}
                     else if begun then s.gates[th := Gate(e.client, None)]
                     else if named then s.gates[th := Gate(e.client, Some(e.turn))] else s.gates)
      && t.requests == s.requests + (if OpensGate(s, e) && !e.Force? then [(th, s.gates[th].client)] else [])
  {
    hide NoDup, Remember;
    if e.Bind? && OpensGate(s, e) {
      assert s.gates[e.thread := Gate(e.client, Some(e.turn))] - {e.thread} == s.gates - {e.thread};
    }
  }

  // -------------------------------------------------------- the rendezvous

  /** Turn `turn` of `thread`, begun for `client`, and nothing that forces the
      gate open, begins it again or binds it to another turn. */
  ghost predicate Fair(e: Event, thread: string, client: string, turn: string) {
    e.thread == thread ==>
      && !e.Force?
      && (e.Begin? ==> e.client != client)
      && (e.Bind? && e.client == client ==> e.turn == turn || e.turn == "")
  }

  ghost predicate FairRun(es: seq<Event>, thread: string, client: string, turn: string) {
    forall i :: 0 <= i < |es| ==> Fair(es[i], thread, client, turn)
  }

  /** Turns other than this one that finish during the run. */
  ghost function OtherCompletions(es: seq<Event>, m: Marker): nat {
    if es == [] then 0
    else (if es[0].Complete? && (es[0].thread, es[0].turn) != m then 1 else 0) + OtherCompletions(es[1..], m)
  }

  ghost function Requested(q: seq<(string, string)>, r: (string, string)): nat { multiset(q)[r] }

  /** Remembered, with at most `n` markers remembered since. */
  ghost predicate Recalled(q: seq<Marker>, m: Marker, n: nat) { exists k: nat :: k <= n && Newer(q, m, k) }

  /** What the gate of this prompt looks like, named or not, opened or not. */
  ghost predicate GateStands(s: State, m: Marker, client: string, bound: bool, open: bool, before: nat) {
    && (if open then m.0 in s.gates ==> s.gates[m.0].client != client
        else m.0 in s.gates && s.gates[m.0] == Gate(client, if bound then Some(m.1) else None))
    && Requested(s.requests, (m.0, client)) == before + (if open then 1 else 0)
  }

  ghost predicate MemoryStands(q: seq<Marker>, m: Marker, done: bool, n: nat) {
    if done then Recalled(q, m, n) else m !in q
  }

  predicate Completes(e: Event, m: Marker) { e == Complete(m.0, m.1) }
  predicate Binds(e: Event, m: Marker, client: string) { e == Bind(m.0, client, m.1) }
  predicate Reconciles(e: Event, m: Marker) { e == Reconcile(m.0, m.1) }
  predicate CompletesOther(e: Event, m: Marker) { e.Complete? && (e.thread, e.turn) != m }

  lemma MemoryStep(s: State, e: Event, m: Marker, done: bool, n: nat)
    requires Valid(s) && MemoryStands(s.terminal, m, done, n)
    requires (if CompletesOther(e, m) then n + 1 else n) < REMEMBERED
    ensures MemoryStands(Step(s, e).terminal, m, done || Completes(e, m), if CompletesOther(e, m) then n + 1 else n)
  {
    StepTerminal(s, e);
    hide Step;
    if e.Complete? {
      var other := (e.thread, e.turn);
      if done {
        var k: nat :| k <= n && Newer(s.terminal, m, k);
        RememberPushes(s.terminal, m, other, k);
        assert Newer(s.terminal, m, k) ==> m in s.terminal;
      } else if other == m {
        RememberAdds(s.terminal, m);
      }
    }
  }

  /** The event after which the gate is open. */
  predicate Opens(e: Event, m: Marker, client: string, bound: bool, done: bool) {
    ((bound || Binds(e, m, client)) && (done || Completes(e, m))) || (bound && Reconciles(e, m))
  }

  lemma OtherThreadStep(s: State, e: Event, m: Marker, client: string, bound: bool, open: bool, before: nat)
    requires GateStands(s, m, client, bound, open, before) && e.thread != m.0
    ensures GateStands(Step(s, e), m, client, bound, open, before)
  {
    hide Remember;
  }

  /** Once it is open, nothing about the gate concerns this prompt any more. */
  lemma OpenStep(s: State, e: Event, m: Marker, client: string, bound: bool, before: nat)
    requires GateStands(s, m, client, bound, true, before) && Fair(e, m.0, client, m.1) && e.thread == m.0
    ensures GateStands(Step(s, e), m, client, bound || Binds(e, m, client), true, before)
  {
    hide Remember;
  }

  lemma ShutStep(s: State, e: Event, m: Marker, client: string, bound: bool, done: bool, before: nat)
    requires GateStands(s, m, client, bound, false, before) && Fair(e, m.0, client, m.1) && m.1 != "" && Valid(s)
    requires !(bound && done) && (done <==> m in s.terminal) && e.thread == m.0
    ensures GateStands(Step(s, e), m, client, bound || Binds(e, m, client), Opens(e, m, client, bound, done), before)
  {
    hide NoDup, Remember;
  }

  lemma GateStep(s: State, e: Event, m: Marker, client: string, bound: bool, done: bool, open: bool, before: nat)
    requires GateStands(s, m, client, bound, open, before) && Fair(e, m.0, client, m.1) && m.1 != "" && Valid(s)
    requires (bound && done ==> open) && (!open ==> (done <==> m in s.terminal))
    ensures GateStands(Step(s, e), m, client, bound || Binds(e, m, client), open || Opens(e, m, client, bound, done), before)
  {
    hide GateStands, Step, Valid, Fair;
    if e.thread != m.0 { OtherThreadStep(s, e, m, client, bound, open, before); }
    else if open { OpenStep(s, e, m, client, bound, before); }
    else { ShutStep(s, e, m, client, bound, done, before); }
  }

  lemma RecalledIsKnown(q: seq<Marker>, m: Marker, done: bool, n: nat)
    requires MemoryStands(q, m, done, n)
    ensures done <==> m in q
  {
  }

  ghost predicate ReconciledAt(es: seq<Event>, m: Marker, client: string, bound: bool, j: int) {
    0 <= j < |es| && Reconciles(es[j], m) && (bound || Bind(m.0, client, m.1) in es[..j])
  }

  /** Some receipt reconciles the turn once it is bound. */
  ghost predicate ReconciledBound(es: seq<Event>, m: Marker, client: string, bound: bool) {
    exists j :: ReconciledAt(es, m, client, bound, j)
  }

  /** Named and completed, in either order, or named and then reconciled. */
  ghost predicate OpenAfter(es: seq<Event>, m: Marker, client: string, bound: bool, done: bool, open: bool) {
    || open
    || ((bound || Bind(m.0, client, m.1) in es) && (done || Complete(m.0, m.1) in es))
    || ReconciledBound(es, m, client, bound)
  }

  lemma ReconciledOneLater(es: seq<Event>, m: Marker, client: string, bound: bool, j: nat)
    requires es != []
    ensures ReconciledAt(es, m, client, bound, j + 1) <==>
              ReconciledAt(es[1..], m, client, bound || Binds(es[0], m, client), j)
  {
    if j < |es| - 1 { assert es[..j + 1] == [es[0]] + es[1..][..j]; }
  }

  lemma ReconciledLater(es: seq<Event>, m: Marker, client: string, bound: bool)
    requires es != []
    ensures ReconciledBound(es, m, client, bound) <==>
              (bound && Reconciles(es[0], m)) || ReconciledBound(es[1..], m, client, bound || Binds(es[0], m, client))
  {
    var rest, named := es[1..], bound || Binds(es[0], m, client);
    assert ReconciledAt(es, m, client, bound, 0) <==> bound && Reconciles(es[0], m);
    if j :| ReconciledAt(es, m, client, bound, j) {
      if j > 0 { ReconciledOneLater(es, m, client, bound, j - 1); }
      assert j > 0 ==> ReconciledAt(rest, m, client, named, j - 1);
    }
    if j :| ReconciledAt(rest, m, client, named, j) {
      ReconciledOneLater(es, m, client, bound, j);
      assert ReconciledAt(es, m, client, bound, j + 1);
    }
    hide ReconciledAt, Binds, Reconciles;
  }

  lemma OpenLater(es: seq<Event>, m: Marker, client: string, bound: bool, done: bool, open: bool)
    requires es != []
    ensures OpenAfter(es, m, client, bound, done, open) <==>
              OpenAfter(es[1..], m, client, bound || Binds(es[0], m, client), done || Completes(es[0], m),
                        open || Opens(es[0], m, client, bound, done))
  {
    assert es == [es[0]] + es[1..];
    ReconciledLater(es, m, client, bound);
    hide ReconciledBound;
  }

  /** From any point of the rendezvous on. */
  lemma {:induction false} RendezvousFrom(s: State, es: seq<Event>, m: Marker, client: string, bound: bool, done: bool,
                                          open: bool, n: nat, before: nat)
    requires Valid(s) && m.1 != "" && FairRun(es, m.0, client, m.1) && n + OtherCompletions(es, m) < REMEMBERED
    requires GateStands(s, m, client, bound, open, before) && MemoryStands(s.terminal, m, done, n) && (bound && done ==> open)
    ensures GateStands(Run(s, es), m, client, bound || Bind(m.0, client, m.1) in es,
                       OpenAfter(es, m, client, bound, done, open), before)
    decreases |es|
  {
    if es != [] {
      var e, rest := es[0], es[1..];
      assert es == [e] + rest;
      assert Fair(e, m.0, client, m.1);
      assert FairRun(rest, m.0, client, m.1) by { assert forall i :: 0 <= i < |rest| ==> rest[i] == es[i + 1]; }
      RecalledIsKnown(s.terminal, m, done, n);
      StepKeepsValid(s, e);
      MemoryStep(s, e, m, done, n);
      GateStep(s, e, m, client, bound, done, open, before);
      OpenLater(es, m, client, bound, done, open);
      hide Valid, Step, GateStands, MemoryStands, FairRun, Fair, OpenAfter;
      RendezvousFrom(Step(s, e), rest, m, client, bound || Binds(e, m, client), done || Completes(e, m),
                     open || Opens(e, m, client, bound, done), if CompletesOther(e, m) then n + 1 else n, before);
    }
  }

  /** Whatever the order of "turn bound" and "turn completed", and whatever the
      other turns do, the gate opens exactly when both have happened, or when a
      receipt says that the bound turn is over, with exactly one queue request;
      until then it stays shut. */
  lemma Rendezvous(s: State, es: seq<Event>, thread: string, client: string, turn: string)
    requires Valid(s) && turn != "" && FairRun(es, thread, client, turn)
    requires thread in s.gates && s.gates[thread] == Gate(client, None) && (thread, turn) !in s.terminal
    requires OtherCompletions(es, (thread, turn)) < 512
    ensures
      var t := Run(s, es);
      var open := || (Bind(thread, client, turn) in es && Complete(thread, turn) in es)
                  || ReconciledBound(es, (thread, turn), client, false);
      && (thread in t.gates && t.gates[thread].client == client <==> !open)
      && (!open ==> thread in t.locked)
      && Requested(t.requests, (thread, client)) == Requested(s.requests, (thread, client)) + (if open then 1 else 0)
  {
    RendezvousFrom(s, es, (thread, turn), client, false, false, false, 0, Requested(s.requests, (thread, client)));
    RunKeepsValid(s, es);
  }

  // -------------------------------------------------------- as an object

  class TurnGates {
    var turnLocks: set<string>             // threads whose lock is held
    var turnGates: map<string, Gate>
    var terminalTurns: seq<Marker>         // oldest first
    var queueRequests: seq<(string, string)>

    ghost function View(): State
      reads this
    {
      State(turnLocks, turnGates, terminalTurns, queueRequests)
    }

    ghost predicate IsValid()
      reads this
    {
      Valid(View())
    }

    constructor ()
      ensures IsValid() && View() == State({}, map[], [], [])
    {
      turnLocks, turnGates, terminalTurns, queueRequests := {}, map[], [], [];
    }

    method BeginTurnGate(thread: string, client: string) returns (begun: bool)
      requires IsValid()
      modifies this`turnLocks, this`turnGates
      ensures IsValid() && View() == Step(old(View()), Begin(thread, client))
      ensures begun <==> thread !in old(turnGates)
    {
      StepKeepsValid(View(), Begin(thread, client));
      if thread in turnLocks { return false; }
      turnLocks := turnLocks + {thread};
      turnGates := turnGates[thread := Gate(client, None)];
      return true;
    }

    /** With no turn named, whatever gate there is opens. */
    method ReleaseTurnGate(thread: string, completed: Option<string>) returns (released: bool)
      requires IsValid()
      modifies this`turnLocks, this`turnGates
      ensures IsValid()
      ensures released <==> thread in old(turnGates) && (completed == None || old(turnGates)[thread].expected == completed)
      ensures View() == if released then Release(old(View()), thread) else old(View())
      ensures View() == Step(old(View()), Force(thread, completed))
    {
      StepKeepsValid(View(), Force(thread, completed));
      if thread !in turnGates { return false; }
      if completed.Some? && turnGates[thread].expected != completed { return false; }
      turnGates := turnGates - {thread};
      if thread in turnLocks { turnLocks := turnLocks - {thread}; }
      return true;
    }

    method BindTurnGate(thread: string, client: string, turn: string)
      requires IsValid()
      modifies this
      ensures IsValid() && View() == Step(old(View()), Bind(thread, client, turn))
    {
      StepKeepsValid(View(), Bind(thread, client, turn));
      if thread !in turnGates || turnGates[thread].client != client || turn == "" { return; }
      turnGates := turnGates[thread := turnGates[thread].(expected := Some(turn))];
      if (thread, turn) in terminalTurns {
        var released := ReleaseTurnGate(thread, Some(turn));
        if released { queueRequests := queueRequests + [(thread, client)]; }
      }
    }

    /** A receipt of the gate's prompt names its turn; `final`: the turn is over. */
    method ReconcileTurn(thread: string, client: string, turn: string, final: bool)
      requires IsValid()
      modifies this
      ensures IsValid()
      ensures View() == var s1 := Step(old(View()), Bind(thread, client, turn));
        if final then Step(s1, Reconcile(thread, turn)) else s1
    {
      BindTurnGate(thread, client, turn);
      if final {
        StepKeepsValid(View(), Reconcile(thread, turn));
        if thread in turnGates {
          var waiting := turnGates[thread].client;
          var released := ReleaseTurnGate(thread, Some(turn));
          if released { queueRequests := queueRequests + [(thread, waiting)]; }
        }
      }
    }

    /** The `turn/completed` notification. */
    method TurnCompleted(thread: string, turn: string)
      requires IsValid()
      modifies this
      ensures IsValid() && View() == Step(old(View()), Complete(thread, turn))
    {
      StepKeepsValid(View(), Complete(thread, turn));
      RememberTerminal((thread, turn));
      if thread in turnGates {
        var client := turnGates[thread].client;
        var released := ReleaseTurnGate(thread, Some(turn));
        if released { queueRequests := queueRequests + [(thread, client)]; }
      }
    }

    method RememberTerminal(m: Marker)
      requires IsValid()
      modifies this`terminalTurns
      ensures IsValid() && terminalTurns == Remember(old(terminalTurns), m)
    {
      RememberKeeps(terminalTurns, m);
      if m !in terminalTurns { terminalTurns := terminalTurns + [m]; }
      ghost var longer := terminalTurns;
      ghost var dropped := 0;
      while |terminalTurns| > REMEMBERED
        invariant dropped <= |longer| && terminalTurns == longer[dropped..]
        invariant dropped > 0 ==> |terminalTurns| >= REMEMBERED
      {
        terminalTurns := terminalTurns[1..];
        dropped := dropped + 1;
      }
    }
  }
}
