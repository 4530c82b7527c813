/** The isolated side question: messages of several turns are captured, and the
    turn that is the answer may be named before, between or after them. */
module SideQuestion {
  import opened Wrappers
  import opened Text

  datatype Item = Item(agentMessage: bool, id: string, phase: Option<string>, text: string)

  /** Parameters of a notification that name a turn. */
  datatype Event =
    | ItemCompleted(turn: string, item: Item)
    | ErrorReported(turn: string, willRetry: bool, message: Option<string>)   // None: not an object
    | TurnCompleted(turn: string, items: seq<Item>, status: string, error: Option<string>)
    | Other(turn: string)

  datatype Message = Message(id: string, phase: Option<string>, text: string)

  datatype Captured = Captured(messages: seq<Message>, status: Option<string>, error: Option<string>)

  datatype Failure = Failed(message: string) | Interrupted | NoFinalMessage

  datatype Question = Question(
    turn: Option<string>,
    turns: map<string, Captured>,
    outcome: Option<Result<string, Failure>>)

  const NO_CAPTURE := Captured([], None, None)
  const GENERIC := "Codex side question failed"

  // ------------------------------------------------------- captured turns

  /** `dict[id] = ...`: a known id keeps its place. */
  function Put(messages: seq<Message>, m: Message): seq<Message> {
    if messages == [] then [m]
    else if messages[0].id == m.id then [m] + messages[1..]
    else [messages[0]] + Put(messages[1..], m)
  }

  function Numbered(n: nat): string { "message-" + Digits(n) }

  function RecordItem(c: Captured, item: Item): Captured {
    var text := Strip(item.text);
    if !item.agentMessage || text == "" then c
    else
      var id := if item.id != "" then item.id else Numbered(|c.messages|);
      c.(messages := Put(c.messages, Message(id, item.phase, text)))
  }

  function RecordItems(c: Captured, items: seq<Item>): Captured
    decreases |items|
  {
    if items == [] then c else RecordItems(RecordItem(c, items[0]), items[1..])
  }

  /** The text of the last message in this phase. */
  function LastIn(messages: seq<Message>, phase: Option<string>): (r: Option<string>)
    ensures r == None <==> forall i :: 0 <= i < |messages| ==> messages[i].phase != phase
    ensures r.Some? ==> exists i :: 0 <= i < |messages| && messages[i].phase == phase && messages[i].text == r.value
                                    && forall j :: i < j < |messages| ==> messages[j].phase != phase
  {
    if messages == [] then None
    else if messages[|messages| - 1].phase == phase then Some(messages[|messages| - 1].text)
    else LastIn(messages[..|messages| - 1], phase)
  }

  function FinalAnswer(c: Captured): Option<string> {
    var final := LastIn(c.messages, Some("final_answer"));
    if final.Some? then final else LastIn(c.messages, None)
  }

  predicate Final(status: Option<string>) {
    status == Some("completed") || status == Some("failed") || status == Some("interrupted")
  }

  function Verdict(c: Captured): Result<string, Failure>
    requires Final(c.status)
  {
    if c.status == Some("failed") then Err(Failed(if c.error.Some? && c.error.value != "" then c.error.value else GENERIC))
    else if c.status == Some("interrupted") then Err(Interrupted)
    else match FinalAnswer(c)
         case Some(answer) => Ok(answer)
         case None => Err(NoFinalMessage)
  }

  function Or(s: string, default: string): string { if s != "" then s else default }

  function Capture(c: Captured, e: Event): Captured {
    match e
    case ItemCompleted(_, item) => RecordItems(c, [item])
    case ErrorReported(_, willRetry, message) =>
      if !willRetry && message.Some? then c.(error := Some(Or(message.value, GENERIC))) else c
    case TurnCompleted(_, items, status, error) =>
      var c1 := RecordItems(c, items).(status := Some(Or(status, "completed")));
      if error.Some? then c1.(error := Some(Or(error.value, GENERIC))) else c1
    case Other(_) => c
  }

  // ---------------------------------------------------------- the question

  function FinishIfReady(q: Question): Question {
    if q.turn == None || q.turn == Some("") || q.outcome.Some? then q
    else if q.turn.value !in q.turns || !Final(q.turns[q.turn.value].status) then q
    else q.(outcome := Some(Verdict(q.turns[q.turn.value])))
  }

  function Bind(q: Question, turn: string): Option<Question> {
    if q.turn.Some? && q.turn.value != "" && q.turn.value != turn then None
    else Some(FinishIfReady(q.(turn := Some(turn))))
  }

  function Of(q: Question, turn: string): Captured { if turn in q.turns then q.turns[turn] else NO_CAPTURE }

  function Ingest(q: Question, e: Event): Question {
    if e.turn == "" then q
    else FinishIfReady(q.(turns := q.turns[e.turn := Capture(Of(q, e.turn), e)]))
  }

  function IngestAll(q: Question, es: seq<Event>): Question
    decreases |es|
  {
    if es == [] then q else IngestAll(Ingest(q, es[0]), es[1..])
  }

  const Asked := Question(None, map[], None)

  /** The question's outcome when its turn is named after `p` of the events. */
  ghost function Outcome(es: seq<Event>, t: string, p: nat): Option<Result<string, Failure>>
    requires p <= |es|
  {
    match Bind(IngestAll(Asked, es[..p]), t)
    case Some(q) => IngestAll(q, es[p..]).outcome
    case None => None
  }

  // --------------------------------------------- what depends on one turn

  /** The capture of one turn's own events. */
  ghost function Own(es: seq<Event>, t: string): Captured {
    if es == [] then NO_CAPTURE
    else
      var before := Own(es[..|es| - 1], t);
      if es[|es| - 1].turn == t then Capture(before, es[|es| - 1]) else before
  }

  /** The first point at or after `p` at which the turn's own capture is final. */
  ghost function FirstFinal(es: seq<Event>, t: string, p: nat): (r: Option<nat>)
    requires p <= |es|
    ensures r.Some? ==> p <= r.value <= |es| && Final(Own(es[..r.value], t).status)
    ensures forall n :: p <= n < (if r.Some? then r.value else |es| + 1) ==> !Final(Own(es[..n], t).status)
    decreases |es| - p
  {
    if Final(Own(es[..p], t).status) then Some(p)
    else if p == |es| then None
    else FirstFinal(es, t, p + 1)
  }

  lemma {:induction false} IngestAllOne(q: Question, es: seq<Event>, e: Event)
    ensures IngestAll(q, es + [e]) == Ingest(IngestAll(q, es), e)
    decreases |es|
  {
    if es == [] {
      assert [] + [e] == [e] && IngestAll(Ingest(q, e), []) == Ingest(q, e);
    } else {
      assert (es + [e])[0] == es[0] && (es + [e])[1..] == es[1..] + [e];
      IngestAllOne(Ingest(q, es[0]), es[1..], e);
    }
  }

  /** Before the turn is named nothing is decided, and each turn's capture is a
      function of its own events. */
  lemma {:induction false} BeforeBinding(es: seq<Event>, t: string)
    requires t != ""
    ensures var q := IngestAll(Asked, es); q.turn == None && q.outcome == None && Of(q, t) == Own(es, t)
    decreases |es|
  {
    if es != [] {
      var n := |es| - 1;
      assert es == es[..n] + [es[n]];
      BeforeBinding(es[..n], t);
      IngestAllOne(Asked, es[..n], es[n]);
      hide Capture, IngestAll, Final, Verdict;
    }
  }

  /** Once the turn is named: undecided while its own capture is not final. */
  ghost predicate Follows(q: Question, es: seq<Event>, t: string, n: nat, first: Option<nat>)
    requires n <= |es|
  {
    && q.turn == Some(t)
    && Of(q, t) == Own(es[..n], t)
    && (if first.Some? && first.value <= n && first.value <= |es| && Final(Own(es[..first.value], t).status)
        then q.outcome == Some(Verdict(Own(es[..first.value], t)))
        else q.outcome == None)
  }

  lemma FollowsStep(q: Question, es: seq<Event>, t: string, p: nat, n: nat)
    requires t != "" && p <= n < |es| && Follows(q, es, t, n, FirstFinal(es, t, p))
    ensures Follows(Ingest(q, es[n]), es, t, n + 1, FirstFinal(es, t, p))
  {
    var e := es[n];
    assert es[..n + 1][..n] == es[..n] && es[..n + 1][n] == e;
    assert Own(es[..n + 1], t) == if e.turn == t then Capture(Own(es[..n], t), e) else Own(es[..n], t);
    assert FirstFinal(es, t, p).Some? && FirstFinal(es, t, p).value == n + 1 ==> Final(Own(es[..n + 1], t).status);
    hide Own, Capture, Verdict;
  }

  lemma {:induction false} AfterBinding(q: Question, es: seq<Event>, t: string, p: nat, n: nat)
    requires t != "" && p <= n <= |es| && Follows(q, es, t, n, FirstFinal(es, t, p))
    ensures Follows(IngestAll(q, es[n..]), es, t, |es|, FirstFinal(es, t, p))
    decreases |es| - n
  {
    if n == |es| {
      assert es[n..] == [];
    } else {
      assert es[n..][0] == es[n] && es[n..][1..] == es[n + 1..];
      FollowsStep(q, es, t, p, n);
      hide Follows, Ingest;
      AfterBinding(Ingest(q, es[n]), es, t, p, n + 1);
    }
  }

  /** The exact result: the verdict on the turn's own events up to the first
      point, not before the binding, at which they are final. Events of other
      turns never matter. */
  lemma OutcomeIs(es: seq<Event>, t: string, p: nat)
    requires t != "" && p <= |es|
    ensures
      match FirstFinal(es, t, p)
      case Some(n) => Outcome(es, t, p) == Some(Verdict(Own(es[..n], t)))
      case None => Outcome(es, t, p) == None
  {
    BeforeBinding(es[..p], t);
    var q := Bind(IngestAll(Asked, es[..p]), t).value;
    assert Of(q, t) == Own(es[..p], t);
    assert Follows(q, es, t, p, FirstFinal(es, t, p)) by { hide Own, IngestAll, Verdict; }
    AfterBinding(q, es, t, p, p);
    hide Own, Verdict, Final, IngestAll;
  }

  // ------------------------------------------- independence of the binding

  ghost predicate FinalAt(es: seq<Event>, t: string, n: int) {
    0 <= n <= |es| && Final(Own(es[..n], t).status)
  }

  /** The turn's own events either never make it final, or make it final with one
      verdict whenever it is final, and at the end it is. */
  ghost predicate OneVerdict(es: seq<Event>, t: string) {
    || (forall n :: !FinalAt(es, t, n))
    || (FinalAt(es, t, |es|) && forall n :: FinalAt(es, t, n) ==> Verdict(Own(es[..n], t)) == Verdict(Own(es[..|es|], t)))
  }

  ghost predicate SameOutcomes(es: seq<Event>, t: string) {
    forall p, q :: 0 <= p <= |es| && 0 <= q <= |es| ==> Outcome(es, t, p) == Outcome(es, t, q)
  }

  /** Bound when the turn is final, the question has that verdict at once. */
  lemma BoundWhenFinal(es: seq<Event>, t: string, n: nat)
    requires t != "" && n <= |es|
    ensures Outcome(es, t, n).Some? && n == |es| ==> FinalAt(es, t, n)
    ensures FinalAt(es, t, n) ==> Outcome(es, t, n) == Some(Verdict(Own(es[..n], t)))
  {
    OutcomeIs(es, t, n);
    hide Outcome, Own, Final, Verdict;
  }

  /** The answer is the same whenever the turn is named, if and only if the turn's
      own events have one verdict. */
  lemma BindingTimeMattersExactlyWhen(es: seq<Event>, t: string)
    requires t != ""
    ensures SameOutcomes(es, t) <==> OneVerdict(es, t)
  {
    if SameOutcomes(es, t) {
      forall n | FinalAt(es, t, n)
        ensures FinalAt(es, t, |es|) && Verdict(Own(es[..n], t)) == Verdict(Own(es[..|es|], t))
      {
        BoundWhenFinal(es, t, n);
        BoundWhenFinal(es, t, |es|);
        assert Outcome(es, t, n) == Outcome(es, t, |es|);
        hide Outcome, Own, Final, Verdict;
      }
    }
    if OneVerdict(es, t) {
      forall p | 0 <= p <= |es|
        ensures Outcome(es, t, p) == Outcome(es, t, |es|)
      {
        OutcomeIs(es, t, p);
        OutcomeIs(es, t, |es|);
        var first := FirstFinal(es, t, p);
        assert first.Some? ==> FinalAt(es, t, first.value);
        assert first == None ==> !FinalAt(es, t, |es|);
        hide Outcome, Own, Final, Verdict;
      }
    }
    hide Outcome, Own, Final, Verdict;
  }

  predicate Ends(e: Event, t: string) {
    e.TurnCompleted? && e.turn == t && Final(Some(Or(e.status, "completed")))
  }

  /** Exactly one final completion of the turn, and it is the turn's last event. */
  ghost predicate EndsOnce(es: seq<Event>, t: string, m: nat) {
    && m < |es| && Ends(es[m], t)
    && (forall i :: 0 <= i < m ==> !Ends(es[i], t))
    && (forall i :: m < i < |es| ==> es[i].turn != t)
  }

  lemma {:induction false} RecordKeepsStatus(c: Captured, items: seq<Item>)
    ensures RecordItems(c, items).status == c.status
    decreases |items|
  {
    if items != [] { RecordKeepsStatus(RecordItem(c, items[0]), items[1..]); }
  }

  lemma {:induction false} NotFinalYet(es: seq<Event>, t: string)
    requires forall i :: 0 <= i < |es| ==> !Ends(es[i], t)
    ensures !Final(Own(es, t).status)
    decreases |es|
  {
    if es != [] {
      var n := |es| - 1;
      var e := es[n];
      NotFinalYet(es[..n], t);
      if e.ItemCompleted? { RecordKeepsStatus(Own(es[..n], t), [e.item]); }
    }
  }

  lemma {:induction false} NothingMore(es: seq<Event>, t: string, m: nat)
    requires m <= |es| && forall i :: m <= i < |es| ==> es[i].turn != t
    ensures Own(es, t) == Own(es[..m], t)
    decreases |es|
  {
    if m == |es| {
      assert es[..m] == es;
    } else {
      var n := |es| - 1;
      NothingMore(es[..n], t, m);
      assert es[..n][..m] == es[..m];
    }
  }

  lemma EndsOnceHasOneVerdict(es: seq<Event>, t: string, m: nat)
    requires EndsOnce(es, t, m)
    ensures OneVerdict(es, t) && FinalAt(es, t, |es|)
  {
    forall n | 0 <= n <= |es|
      ensures if n <= m then !FinalAt(es, t, n) else Own(es[..n], t) == Own(es[..|es|], t)
    {
      assert es[..|es|] == es;
      if n <= m {
        NotFinalYet(es[..n], t);
      } else {
        assert es[..n][..m + 1] == es[..m + 1];
        NothingMore(es[..n], t, m + 1);
        NothingMore(es, t, m + 1);
      }
    }
    assert FinalAt(es, t, m + 1) by {
      assert es[..m + 1][..m] == es[..m];
      hide RecordItems;
    }
    hide Own, Final;
  }

  /** A turn that is completed once, by its last event, answers alike whenever it
      is named. */
  lemma AnswerIgnoresBindingTime(es: seq<Event>, t: string, m: nat, p: nat)
    requires t != "" && EndsOnce(es, t, m) && p <= |es|
    ensures Final(Own(es, t).status)
    ensures Outcome(es, t, p) == Some(Verdict(Own(es, t)))
  {
    EndsOnceHasOneVerdict(es, t, m);
    BindingTimeMattersExactlyWhen(es, t);
    BoundWhenFinal(es, t, |es|);
    assert es[..|es|] == es;
    hide Own, Outcome, Verdict;
  }

  function OnlyOf(es: seq<Event>, t: string): seq<Event> {
    if es == [] then [] else OnlyOf(es[..|es| - 1], t) + (if es[|es| - 1].turn == t then [es[|es| - 1]] else [])
  }

  /** Whatever is interleaved from other turns, the capture is the same. */
  lemma {:induction false} OtherTurnsDoNotMatter(es: seq<Event>, t: string)
    ensures Own(es, t) == Own(OnlyOf(es, t), t)
    decreases |es|
  {
    if es != [] {
      var n := |es| - 1;
      OtherTurnsDoNotMatter(es[..n], t);
      var only := OnlyOf(es, t);
      if es[n].turn == t {
        assert only == OnlyOf(es[..n], t) + [es[n]];
        assert only[..|only| - 1] == OnlyOf(es[..n], t) && only[|only| - 1] == es[n];
      } else {
        assert only == OnlyOf(es[..n], t);
      }
    }
  }

  // A message after the completion is heard only by a late binding.
  const EARLY := Item(true, "a", None, "early")
  const LATE := Item(true, "b", None, "late")
  const STRAGGLER: seq<Event> := [TurnCompleted("t", [EARLY], "completed", None), ItemCompleted("t", LATE)]

  const AFTER_ONE := Captured([Message("a", None, "early")], Some("completed"), None)
  const AFTER_TWO := Captured([Message("a", None, "early"), Message("b", None, "late")], Some("completed"), None)

  lemma OwnAfterOne()
    ensures Own(STRAGGLER[..1], "t") == AFTER_ONE
  {
    StripFound("early");
    var c := Captured([Message("a", None, "early")], None, None);
    assert RecordItem(NO_CAPTURE, EARLY) == c;
    assert [EARLY][1..] == [] && RecordItems(NO_CAPTURE, [EARLY]) == c;
    hide RecordItem, RecordItems, Strip;
    assert STRAGGLER[..1][..0] == [];
    assert Own(STRAGGLER[..1][..0], "t") == NO_CAPTURE;
  }

  lemma OwnAfterTwo()
    ensures Own(STRAGGLER, "t") == AFTER_TWO
  {
    OwnAfterOne();
    StripFound("late");
    assert AFTER_ONE.messages[1..] == [];
    assert Put(AFTER_ONE.messages, Message("b", None, "late")) == AFTER_TWO.messages;
    assert RecordItem(AFTER_ONE, LATE) == AFTER_TWO;
    assert [LATE][1..] == [] && RecordItems(AFTER_ONE, [LATE]) == AFTER_TWO;
    hide RecordItem, RecordItems, Strip, Put;
    assert STRAGGLER[..|STRAGGLER| - 1] == STRAGGLER[..1];
  }

  lemma StragglersTellBindingsApart()
    ensures Outcome(STRAGGLER, "t", 1) == Some(Ok("early"))
    ensures Outcome(STRAGGLER, "t", 2) == Some(Ok("late"))
    ensures !OneVerdict(STRAGGLER, "t")
  {
    OwnAfterOne();
    OwnAfterTwo();
    hide Own, Outcome;
    assert STRAGGLER[..2] == STRAGGLER;
    OutcomeIs(STRAGGLER, "t", 1);
    OutcomeIs(STRAGGLER, "t", 2);
    assert LastIn(AFTER_ONE.messages, Some("final_answer")) == None;
    assert LastIn(AFTER_TWO.messages, Some("final_answer")) == None;
    BindingTimeMattersExactlyWhen(STRAGGLER, "t");
    hide OneVerdict;
  }

  // -------------------------------------------------------- as an object

  class IsolatedQuestion {
    var turn: Option<string>
    var turns: map<string, Captured>
    var outcome: Option<Result<string, Failure>>

    ghost function View(): Question
      reads this
    {
      Question(turn, turns, outcome)
    }

    constructor ()
      ensures View() == Asked
    {
      turn, turns, outcome := None, map[], None;
    }

    method FinishWhenReady()
      modifies this`outcome
      ensures View() == FinishIfReady(old(View()))
    {
      if turn == None || turn.value == "" || outcome.Some? { return; }
      if turn.value !in turns || !Final(turns[turn.value].status) { return; }
      outcome := Some(Verdict(turns[turn.value]));
    }

    /** `bind_turn`; a second, different turn is an error. */
    method BindTurn(t: string) returns (ok: bool)
      modifies this`turn, this`outcome
      ensures ok <==> Bind(old(View()), t).Some?
      ensures ok <==> old(turn) == None || old(turn) == Some("") || old(turn) == Some(t)
      ensures turn == if ok then Some(t) else old(turn)
      ensures View() == if ok then Bind(old(View()), t).value else old(View())
    {
      if turn.Some? && turn.value != "" && turn.value != t { return false; }
      turn := Some(t);
      FinishWhenReady();
      return true;
    }

    method RecordAll(c: Captured, items: seq<Item>) returns (r: Captured)
      ensures r == RecordItems(c, items)
    {
      r := c;
      for i := 0 to |items|
        invariant RecordItems(c, items) == RecordItems(r, items[i..])
      {
        var item := items[i];
        assert items[i..][0] == item && items[i..][1..] == items[i + 1..];
        var text := Strip(item.text);
        if item.agentMessage && text != "" {
          var id := if item.id != "" then item.id else Numbered(|r.messages|);
          r := r.(messages := Put(r.messages, Message(id, item.phase, text)));
        }
      }
    }

    method IngestEvent(e: Event)
      modifies this`turns, this`outcome
      ensures View() == Ingest(old(View()), e)
    {
      if e.turn == "" { return; }
      var capture := if e.turn in turns then turns[e.turn] else NO_CAPTURE;
      if e.ItemCompleted? {
        capture := RecordAll(capture, [e.item]);
      } else if e.ErrorReported? && !e.willRetry {
        if e.message.Some? { capture := capture.(error := Some(Or(e.message.value, GENERIC))); }
      } else if e.TurnCompleted? {
        capture := RecordAll(capture, e.items);
        capture := capture.(status := Some(Or(e.status, "completed")));
        if e.error.Some? { capture := capture.(error := Some(Or(e.error.value, GENERIC))); }
      }
      turns := turns[e.turn := capture];
      FinishWhenReady();
    }
  }
}
