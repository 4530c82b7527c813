/** What the side question answers, told by the items and errors of its turn. */
module SideAnswer {
  import opened Wrappers
  import opened Text
  import opened SideQuestion

  // ------------------------------------------------------ what was reported

  /** The items of one turn, in the order of their arrival. */
  ghost function ItemsOf(es: seq<Event>, t: string): seq<Item> {
    if es == [] then []
    else
      var e := es[|es| - 1];
      ItemsOf(es[..|es| - 1], t)
      + if e.turn != t then [] else match e
        case ItemCompleted(_, item) => [item]
        case TurnCompleted(_, items, _, _) => items
        case _ => []
  }

  ghost function Ids(h: seq<Message>): set<string> { set m | m in h :: m.id }

  /** The agent messages among the items that are not blank; one without an id is
      numbered by the ids before it. */
  ghost function Heard(items: seq<Item>): seq<Message> {
    if items == [] then []
    else
      var before := Heard(items[..|items| - 1]);
      var item := items[|items| - 1];
      if !item.agentMessage || Strip(item.text) == "" then before
      else before + [Message(if item.id != "" then item.id else "message-" + Digits(|Ids(before)|), item.phase, Strip(item.text))]
  }

  /** Nothing later has the same id: a message counts as it was last heard. */
  ghost predicate Current(h: seq<Message>, k: int) {
    0 <= k < |h| && forall l :: k < l < |h| ==> h[l].id != h[k].id
  }

  /** Where an id was first heard; a message keeps that place. */
  ghost function First(h: seq<Message>, id: string): nat {
    if h == [] then 0 else if h[0].id == id then 0 else 1 + First(h[1..], id)
  }

  /** The text of the last message in this phase, if there is one. */
  ghost predicate LastWord(h: seq<Message>, phase: Option<string>, r: Option<string>) {
    match r
    case None => forall k :: Current(h, k) ==> h[k].phase != phase
    case Some(text) =>
      exists k :: Current(h, k) && h[k].phase == phase && h[k].text == text
                  && forall j :: Current(h, j) && h[j].phase == phase ==> First(h, h[j].id) <= First(h, h[k].id)
  }

  // ---------------------------------------------------- messages as a table

  ghost predicate Sound(ms: seq<Message>, h: seq<Message>) {
    forall m :: m in ms ==> exists k :: Current(h, k) && h[k] == m
  }

  ghost predicate Complete(ms: seq<Message>, h: seq<Message>) { forall k :: Current(h, k) ==> h[k] in ms }

  ghost predicate InOrder(ms: seq<Message>, h: seq<Message>) {
    forall i, j :: 0 <= i < j < |ms| ==> First(h, ms[i].id) < First(h, ms[j].id)
  }

  /** The table holds every id once, as last heard, in the order first heard. */
  ghost predicate Table(ms: seq<Message>, h: seq<Message>) {
    Sound(ms, h) && Complete(ms, h) && InOrder(ms, h) && |ms| == |Ids(h)|
  }

  lemma {:induction false} FirstAppended(h: seq<Message>, m: Message, id: string)
    ensures id in Ids(h) ==> First(h + [m], id) == First(h, id) && First(h, id) < |h|
    ensures id !in Ids(h) ==> First(h + [m], id) == if m.id == id then |h| else |h| + 1
    decreases |h|
  {
    if h == [] {
      assert [m][1..] == [];
    } else {
      assert (h + [m])[0] == h[0] && (h + [m])[1..] == h[1..] + [m];
      FirstAppended(h[1..], m, id);
      assert id in Ids(h) <==> id == h[0].id || id in Ids(h[1..]);
    }
  }

  lemma CurrentAppended(h: seq<Message>, m: Message, k: int)
    ensures Current(h + [m], k) <==> k == |h| || (Current(h, k) && h[k].id != m.id)
  {
    if Current(h + [m], k) && k != |h| {
      assert (h + [m])[|h|] == m;
      forall l | k < l < |h| ensures h[l].id != h[k].id { assert (h + [m])[l] == h[l]; }
    }
  }

  /** Every id heard has a message that counts. */
  lemma {:induction false} IdHasCurrent(h: seq<Message>, id: string) returns (k: nat)
    requires id in Ids(h)
    ensures Current(h, k) && h[k].id == id
    decreases |h|
  {
    var n := |h| - 1;
    if h[n].id == id {
      k := n;
    } else {
      assert h == h[..n] + [h[n]];
      k := IdHasCurrent(h[..n], id);
      CurrentAppended(h[..n], h[n], k);
    }
  }

  /** The messages of a table have different ids. */
  lemma TableIds(ms: seq<Message>, h: seq<Message>)
    requires Table(ms, h)
    ensures Ids(ms) == Ids(h)
    ensures forall i, j :: 0 <= i < j < |ms| ==> ms[i].id != ms[j].id
  {
    forall id | id in Ids(h) ensures id in Ids(ms) {
      var k := IdHasCurrent(h, id);
      assert h[k] in ms;
    }
    hide First, Current;
  }

  lemma {:induction false} PutIs(ms: seq<Message>, m: Message)
    requires forall i, j :: 0 <= i < j < |ms| ==> ms[i].id != ms[j].id
    ensures m.id !in Ids(ms) ==> Put(ms, m) == ms + [m]
    ensures forall i :: 0 <= i < |ms| && ms[i].id == m.id ==> Put(ms, m) == ms[i := m]
    decreases |ms|
  {
    if ms != [] {
      PutIs(ms[1..], m);
      if ms[0].id == m.id {
        assert [m] + ms[1..] == ms[0 := m];
      } else {
        forall i | 0 <= i < |ms| && ms[i].id == m.id
          ensures Put(ms, m) == ms[i := m]
        {
          assert ms[1..][i - 1] == ms[i];
          assert [ms[0]] + ms[1..][i - 1 := m] == ms[i := m];
        }
        assert m.id !in Ids(ms) ==> m.id !in Ids(ms[1..]);
      }
    }
  }

  lemma IdsAppended(h: seq<Message>, m: Message)
    ensures Ids(h + [m]) == Ids(h) + {m.id}
    ensures |Ids(h + [m])| == |Ids(h)| + if m.id in Ids(h) then 0 else 1
  {
    assert Ids(h + [m]) == Ids(h) + {m.id};
    if m.id in Ids(h) { assert Ids(h) + {m.id} == Ids(h); }
    hide Ids;
  }

  /** What one more message does to the ones that count. */
  lemma NowCurrent(h: seq<Message>, m: Message)
    ensures forall k :: Current(h + [m], k) <==> k == |h| || (Current(h, k) && h[k].id != m.id)
    ensures forall k :: Current(h, k) ==> 0 <= k < |h| && (h + [m])[k] == h[k]
    ensures (h + [m])[|h|] == m
  {
    forall k ensures Current(h + [m], k) <==> k == |h| || (Current(h, k) && h[k].id != m.id) { CurrentAppended(h, m, k); }
  }

  /** Entries other than those of its id stay sound. */
  lemma SoundAfter(ms: seq<Message>, ns: seq<Message>, h: seq<Message>, m: Message)
    requires Sound(ms, h) && forall n :: n in ns ==> n == m || (n in ms && n.id != m.id)
    ensures Sound(ns, h + [m])
  {
    NowCurrent(h, m);
    hide Current;
    forall n | n in ns
      ensures exists k :: Current(h + [m], k) && (h + [m])[k] == n
    {
      if n == m {
        assert Current(h + [m], |h|);
      } else {
        var k :| Current(h, k) && h[k] == n;
        assert Current(h + [m], k);
      }
    }
  }

  lemma CompleteAfter(ms: seq<Message>, ns: seq<Message>, h: seq<Message>, m: Message)
    requires Complete(ms, h) && m in ns && forall n :: n in ms && n.id != m.id ==> n in ns
    ensures Complete(ns, h + [m])
  {
    NowCurrent(h, m);
    hide Current;
  }

  lemma OrderAfter(ms: seq<Message>, ns: seq<Message>, h: seq<Message>, m: Message)
    requires InOrder(ms, h) && Ids(ms) == Ids(h) && |ms| <= |ns| && (forall i :: 0 <= i < |ms| ==> ns[i].id == ms[i].id)
    requires |ns| == |ms| || (m.id !in Ids(h) && |ns| == |ms| + 1 && ns[|ms|].id == m.id)
    ensures InOrder(ns, h + [m])
  {
    forall i | 0 <= i < |ms|
      ensures First(h + [m], ns[i].id) == First(h, ms[i].id) && First(h, ms[i].id) < |h|
    {
      assert ms[i].id in Ids(ms);
      FirstAppended(h, m, ms[i].id);
    }
    FirstAppended(h, m, m.id);
    hide First, Ids;
  }

  /** A new id goes to the end of the table. */
  lemma TableGrows(ms: seq<Message>, h: seq<Message>, m: Message)
    requires Table(ms, h) && m.id !in Ids(h)
    ensures Table(ms + [m], h + [m])
  {
    TableIds(ms, h);
    IdsAppended(h, m);
    assert forall n :: n in ms ==> n.id in Ids(ms);
    hide Sound, Complete, InOrder, Ids;
    SoundAfter(ms, ms + [m], h, m);
    CompleteAfter(ms, ms + [m], h, m);
    OrderAfter(ms, ms + [m], h, m);
  }

  /** A known id is replaced where it is. */
  lemma TableChanges(ms: seq<Message>, h: seq<Message>, m: Message, i: nat)
    requires Table(ms, h) && i < |ms| && ms[i].id == m.id
    ensures Table(ms[i := m], h + [m])
  {
    var ns := ms[i := m];
    TableIds(ms, h);
    IdsAppended(h, m);
    assert m.id in Ids(h) by { assert ms[i] in ms; }
    hide Sound, Complete, InOrder, Ids;
    forall n | n in ns
      ensures n == m || (n in ms && n.id != m.id)
    {
      var x :| 0 <= x < |ns| && ns[x] == n;
    }
    forall n | n in ms && n.id != m.id
      ensures n in ns
    {
      var x :| 0 <= x < |ms| && ms[x] == n;
      assert ns[x] == n;
    }
    assert ns[i] == m;
    SoundAfter(ms, ns, h, m);
    CompleteAfter(ms, ns, h, m);
    OrderAfter(ms, ns, h, m);
  }

  lemma PutKeepsTable(ms: seq<Message>, h: seq<Message>, m: Message)
    requires Table(ms, h)
    ensures Table(Put(ms, m), h + [m])
  {
    TableIds(ms, h);
    PutIs(ms, m);
    hide Table;
    if m.id in Ids(h) {
      var n :| n in ms && n.id == m.id;
      var i :| 0 <= i < |ms| && ms[i] == n;
      TableChanges(ms, h, m, i);
    } else {
      TableGrows(ms, h, m);
    }
    hide Put;
  }

  // ------------------------------------------------------- a turn's capture

  lemma RecordedIs(c: Captured, items: seq<Item>, item: Item)
    requires Table(c.messages, Heard(items))
    ensures Table(RecordItem(c, item).messages, Heard(items + [item]))
  {
    assert (items + [item])[..|items|] == items;
    hide Table, Strip, Put;
    if item.agentMessage && Strip(item.text) != "" {
      var m := Message(if item.id != "" then item.id else "message-" + Digits(|Ids(Heard(items))|), item.phase, Strip(item.text));
      PutKeepsTable(c.messages, Heard(items), m);
      TableSize(c.messages, Heard(items));
    }
  }

  lemma TableSize(ms: seq<Message>, h: seq<Message>)
    requires Table(ms, h)
    ensures |ms| == |Ids(h)|
  {
  }

  lemma {:induction false} AllRecorded(c: Captured, before: seq<Item>, items: seq<Item>)
    requires Table(c.messages, Heard(before))
    ensures Table(RecordItems(c, items).messages, Heard(before + items))
    decreases |items|
  {
    if items == [] {
      assert before + items == before;
    } else {
      assert before + items == (before + [items[0]]) + items[1..];
      RecordedIs(c, before, items[0]);
      hide Table, RecordItem, Heard;
      AllRecorded(RecordItem(c, items[0]), before + [items[0]], items[1..]);
    }
  }

  /** The messages captured of a turn are the table of what was heard of it. */
  lemma {:induction false} CapturedMessages(es: seq<Event>, t: string)
    ensures Table(Own(es, t).messages, Heard(ItemsOf(es, t)))
    decreases |es|
  {
    if es != [] {
      var n := |es| - 1;
      var e := es[n];
      CapturedMessages(es[..n], t);
      hide Table, RecordItems, Heard;
      var before := ItemsOf(es[..n], t);
      assert before + [] == before;
      if e.turn == t {
        if e.ItemCompleted? { AllRecorded(Own(es[..n], t), before, [e.item]); }
        if e.TurnCompleted? { AllRecorded(Own(es[..n], t), before, e.items); }
      }
    } else {
      assert Own(es, t).messages == [] && Heard([]) == [] && Ids([]) == {};
    }
  }

  // ----------------------------------------------------------- the last word

  lemma LastInTable(ms: seq<Message>, h: seq<Message>, phase: Option<string>)
    requires Table(ms, h)
    ensures LastWord(h, phase, LastIn(ms, phase))
  {
    var r := LastIn(ms, phase);
    assert forall k :: Current(h, k) ==> 0 <= k < |h|;
    hide First, Current;
    if r.Some? {
      var i :| 0 <= i < |ms| && ms[i].phase == phase && ms[i].text == r.value && forall j :: i < j < |ms| ==> ms[j].phase != phase;
      hide LastIn;
      assert ms[i] in ms;
      var k :| Current(h, k) && h[k] == ms[i];
      forall j | Current(h, j) && h[j].phase == phase
        ensures First(h, h[j].id) <= First(h, h[k].id)
      {
        var x :| 0 <= x < |ms| && ms[x] == h[j];
      }
    } else {
      forall k | Current(h, k)
        ensures h[k].phase != phase
      {
        var x :| 0 <= x < |ms| && ms[x] == h[k];
      }
      hide LastIn;
    }
  }

  lemma {:induction false} FirstTells(h: seq<Message>, a: string, b: string)
    requires a in Ids(h) && b in Ids(h) && First(h, a) == First(h, b)
    ensures a == b
    decreases |h|
  {
    if h[0].id != a && h[0].id != b { FirstTells(h[1..], a, b); }
  }

  /** There is one last word at most. */
  lemma LastWordIsOne(h: seq<Message>, phase: Option<string>, a: Option<string>, b: Option<string>)
    requires LastWord(h, phase, a) && LastWord(h, phase, b)
    ensures a == b
  {
    if a.Some? && b.Some? {
      var k :| Current(h, k) && h[k].phase == phase && h[k].text == a.value
               && forall j :: Current(h, j) && h[j].phase == phase ==> First(h, h[j].id) <= First(h, h[k].id);
      var l :| Current(h, l) && h[l].phase == phase && h[l].text == b.value
               && forall j :: Current(h, j) && h[j].phase == phase ==> First(h, h[j].id) <= First(h, h[l].id);
      FirstTells(h, h[k].id, h[l].id);
    }
    hide First;
  }

  // ------------------------------------------------------- status and errors

  predicate Completes(e: Event, t: string) { e.TurnCompleted? && e.turn == t }

  /** An error report that is not going to be retried, or a completion with one. */
  predicate Complains(e: Event, t: string) {
    e.turn == t && ((e.ErrorReported? && !e.willRetry && e.message.Some?) || (e.TurnCompleted? && e.error.Some?))
  }

  function Complaint(e: Event): string
    requires e.ErrorReported? || e.TurnCompleted?
  {
    var text := if e.ErrorReported? then e.message else e.error;
    if text.Some? && text.value != "" then text.value else "Codex side question failed"
  }

  /** The last complaint of the turn. */
  ghost predicate LastComplaint(es: seq<Event>, t: string, i: int) {
    0 <= i < |es| && Complains(es[i], t) && forall j :: i < j < |es| ==> !Complains(es[j], t)
  }

  ghost predicate LastError(es: seq<Event>, t: string, r: Option<string>) {
    match r
    case None => forall i :: 0 <= i < |es| ==> !Complains(es[i], t)
    case Some(text) => exists i :: LastComplaint(es, t, i) && Complaint(es[i]) == text
  }

  ghost predicate LastCompletion(es: seq<Event>, t: string, i: int) {
    0 <= i < |es| && Completes(es[i], t) && forall j :: i < j < |es| ==> !Completes(es[j], t)
  }

  function StatusOf(e: Event): string
    requires e.TurnCompleted?
  {
    if e.status == "" then "completed" else e.status
  }

  /** The status its last completion gave the turn; none counts as completed. */
  ghost predicate LastStatus(es: seq<Event>, t: string, status: string) {
    exists i :: LastCompletion(es, t, i) && StatusOf(es[i]) == status
  }

  lemma {:induction false} RecordKeepsError(c: Captured, items: seq<Item>)
    ensures RecordItems(c, items).error == c.error
    decreases |items|
  {
    if items != [] { RecordKeepsError(RecordItem(c, items[0]), items[1..]); }
  }

  lemma OneMoreComplaint(es: seq<Event>, t: string, i: int)
    requires es != []
    ensures LastComplaint(es, t, i) <==>
              if Complains(es[|es| - 1], t) then i == |es| - 1 else LastComplaint(es[..|es| - 1], t, i)
  {
    assert forall j :: 0 <= j < |es| - 1 ==> es[..|es| - 1][j] == es[j];
    hide Complains;
  }

  lemma ErrorOneMore(es: seq<Event>, t: string, before: Option<string>)
    requires es != [] && LastError(es[..|es| - 1], t, before)
    ensures LastError(es, t, if Complains(es[|es| - 1], t) then Some(Complaint(es[|es| - 1])) else before)
  {
    var n := |es| - 1;
    forall i ensures LastComplaint(es, t, i) <==> if Complains(es[n], t) then i == n else LastComplaint(es[..n], t, i) {
      OneMoreComplaint(es, t, i);
    }
    assert forall j :: 0 <= j < n ==> es[..n][j] == es[j];
    assert forall i :: LastComplaint(es[..n], t, i) ==> 0 <= i < n;
    if Complains(es[n], t) {
      assert LastComplaint(es, t, n);
    } else if before.Some? {
      var i :| LastComplaint(es[..n], t, i) && Complaint(es[..n][i]) == before.value;
      assert LastComplaint(es, t, i);
    }
    hide LastComplaint;
  }

  lemma {:induction false} CapturedError(es: seq<Event>, t: string)
    ensures LastError(es, t, Own(es, t).error)
    decreases |es|
  {
    if es != [] {
      var n := |es| - 1;
      var e := es[n];
      var c := Own(es[..n], t);
      CapturedError(es[..n], t);
      if e.ItemCompleted? { RecordKeepsError(c, [e.item]); }
      if e.TurnCompleted? { RecordKeepsError(c, e.items); }
      ErrorOneMore(es, t, c.error);
      hide RecordItems, LastError;
    }
  }

  lemma OneMoreCompletion(es: seq<Event>, t: string, i: int)
    requires es != []
    ensures LastCompletion(es, t, i) <==>
              if Completes(es[|es| - 1], t) then i == |es| - 1 else LastCompletion(es[..|es| - 1], t, i)
  {
    assert forall j :: 0 <= j < |es| - 1 ==> es[..|es| - 1][j] == es[j];
    hide Completes;
  }

  lemma StatusOneMore(es: seq<Event>, t: string, x: string)
    requires es != []
    ensures
      var e := es[|es| - 1];
      LastStatus(es, t, x) <==> if Completes(e, t) then StatusOf(e) == x else LastStatus(es[..|es| - 1], t, x)
  {
    var n := |es| - 1;
    forall i ensures LastCompletion(es, t, i) <==> if Completes(es[n], t) then i == n else LastCompletion(es[..n], t, i) {
      OneMoreCompletion(es, t, i);
    }
    assert forall i :: LastCompletion(es[..n], t, i) ==> 0 <= i < n && es[..n][i] == es[i];
    assert forall i :: LastCompletion(es, t, i) ==> 0 <= i <= n;
    if Completes(es[n], t) { assert LastCompletion(es, t, n); }
    hide LastCompletion;
  }

  lemma {:induction false} CapturedStatus(es: seq<Event>, t: string)
    ensures forall x :: Own(es, t).status == Some(x) <==> LastStatus(es, t, x)
    decreases |es|
  {
    if es != [] {
      var n := |es| - 1;
      var e := es[n];
      var c := Own(es[..n], t);
      CapturedStatus(es[..n], t);
      if e.ItemCompleted? { RecordKeepsStatus(c, [e.item]); }
      if e.TurnCompleted? { RecordKeepsStatus(c, e.items); }
      hide RecordItems, LastStatus;
      forall x ensures Own(es, t).status == Some(x) <==> LastStatus(es, t, x) { StatusOneMore(es, t, x); }
    }
  }

  // --------------------------------------------------------------- the answer

  /** Its last completion says how the turn ended. */
  ghost predicate Over(es: seq<Event>, t: string) {
    LastStatus(es, t, "completed") || LastStatus(es, t, "failed") || LastStatus(es, t, "interrupted")
  }

  /** What a turn that is over answers: the last final answer, or else the last
      message without a phase; the last error; or that it was interrupted. */
  ghost predicate Answers(es: seq<Event>, t: string, r: Result<string, Failure>) {
    && (LastStatus(es, t, "completed") ==>
          exists final, plain ::
            && LastWord(Heard(ItemsOf(es, t)), Some("final_answer"), final) && LastWord(Heard(ItemsOf(es, t)), None, plain)
            && r == (if final.Some? then Ok(final.value) else if plain.Some? then Ok(plain.value) else Err(NoFinalMessage)))
    && (LastStatus(es, t, "failed") ==>
          exists error ::
            LastError(es, t, error) && r == Err(Failed(if error.Some? then error.value else "Codex side question failed")))
    && (LastStatus(es, t, "interrupted") ==> r == Err(Interrupted))
  }

  lemma FinalIsOver(es: seq<Event>, t: string)
    ensures Final(Own(es, t).status) <==> Over(es, t)
  {
    CapturedStatus(es, t);
    hide Own, LastStatus;
  }

  lemma VerdictIs(es: seq<Event>, t: string, c: Captured, r: Result<string, Failure>)
    requires forall x :: c.status == Some(x) <==> LastStatus(es, t, x)
    requires LastError(es, t, c.error) && c.error != Some("") && Final(c.status) && r == Verdict(c)
    requires LastWord(Heard(ItemsOf(es, t)), Some("final_answer"), LastIn(c.messages, Some("final_answer")))
    requires LastWord(Heard(ItemsOf(es, t)), None, LastIn(c.messages, None))
    ensures Answers(es, t, r)
  {
    hide LastStatus, LastError, LastWord, LastIn, Heard, ItemsOf;
    assert LastStatus(es, t, "completed") ==> c.status == Some("completed");
  }

  lemma VerdictAnswers(es: seq<Event>, t: string)
    requires Final(Own(es, t).status)
    ensures Answers(es, t, Verdict(Own(es, t)))
  {
    var c := Own(es, t);
    var h := Heard(ItemsOf(es, t));
    hide *;
    CapturedStatus(es, t);
    CapturedError(es, t);
    CapturedMessages(es, t);
    LastInTable(c.messages, h, Some("final_answer"));
    LastInTable(c.messages, h, None);
    ErrorSaysSomething(es, t, c.error);
    VerdictIs(es, t, c, Verdict(c));
  }

  lemma ErrorSaysSomething(es: seq<Event>, t: string, r: Option<string>)
    requires LastError(es, t, r)
    ensures r != Some("")
  {
  }

  /** Whenever the turn is named: the question is answered if and only if from then
      on its events are over at some point, and by what they answer at the first
      such point. */
  lemma AnswerIs(es: seq<Event>, t: string, p: nat)
    requires t != "" && p <= |es|
    ensures Outcome(es, t, p) == None <==> forall n :: p <= n <= |es| ==> !Over(es[..n], t)
    ensures Outcome(es, t, p).Some? ==>
              exists n :: p <= n <= |es| && Over(es[..n], t) && Answers(es[..n], t, Outcome(es, t, p).value)
                          && forall k :: p <= k < n ==> !Over(es[..k], t)
  {
    OutcomeIs(es, t, p);
    forall n | p <= n <= |es| ensures Final(Own(es[..n], t).status) <==> Over(es[..n], t) { FinalIsOver(es[..n], t); }
    var first := FirstFinal(es, t, p);
    hide FirstFinal, Outcome, Own, Final, Verdict, Over, Answers;
    if first.Some? {
      VerdictAnswers(es[..first.value], t);
      assert Over(es[..first.value], t);
    }
  }

  /** A turn completed once, by its last event, answers this whenever it is named. */
  lemma AnswerOfCompletedTurn(es: seq<Event>, t: string, m: nat, p: nat)
    requires t != "" && EndsOnce(es, t, m) && p <= |es|
    ensures Over(es, t) && Outcome(es, t, p).Some? && Answers(es, t, Outcome(es, t, p).value)
  {
    AnswerIgnoresBindingTime(es, t, m, p);
    FinalIsOver(es, t);
    VerdictAnswers(es, t);
    hide Outcome, Own, Final, Verdict, Over, Answers, EndsOnce;
  }
}
