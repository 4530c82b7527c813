/** The agent tasks of a thread as a table: merging agent reports, keeping the
    newest fifty, and following what the child threads say. */
module TaskTable {
  import opened Wrappers

  datatype Status =
    | Pending | PendingInit | Active | Running | InProgress
    | Completed | Shutdown | Failed | Errored | Interrupted | NotFound
    | Unknown(name: string)

  datatype Task = Task(
    id: string, title: string, status: Status, agentThread: Option<string>, path: string, nickname: string, role: string,
    model: string, effort: string, message: string, startedAt: int, finishedAt: int, updatedAt: int)

  datatype ChildStatus = ChildActive | ChildIdle | ChildNotLoaded | ChildSystemError | ChildOther

  /** What the store knows of a child thread. */
  datatype Child = Child(
    status: ChildStatus, model: string, effort: string, path: string, nickname: string, role: string,
    createdAt: int, updatedAt: int)

  type Store = map<string, Child>

  const LIMIT: nat := 50

  predicate IsActive(s: Status) { s.Pending? || s.PendingInit? || s.Active? || s.Running? || s.InProgress? }
  predicate IsDone(s: Status) { s.Completed? || s.Shutdown? }
  predicate IsFailed(s: Status) { s.Failed? || s.Errored? || s.Interrupted? || s.NotFound? }
  predicate IsTerminal(s: Status) { IsDone(s) || IsFailed(s) }
  predicate IsKnown(s: Status) { !s.Unknown? }

  /** `_task_status`: an agent's own word for its state. */
  function TaskStatus(raw: Status): Status {
    match raw
    case Completed => Completed
    case Shutdown => Shutdown
    case Interrupted => Interrupted
    case NotFound => NotFound
    case Errored => Failed
    case Running => InProgress
    case _ => Pending
  }

  /** `a or b` on strings and on times. */
  function Or(a: string, b: string): string { if a != "" then a else b }
  function OrTime(a: int, b: int): int { if a != 0 then a else b }
  function MaxTime(a: int, b: int): int { if a < b then b else a }

  function ChildId(t: Task): string { if t.agentThread.Some? && t.agentThread.value != "" then t.agentThread.value else t.id }

  // -------------------------------------------------------------- ordering

  /** Strings compare code point by code point. */
  predicate Less(a: string, b: string) {
    if b == "" then false
    else if a == "" then true
    else if a[0] == b[0] then Less(a[1..], b[1..])
    else a[0] < b[0]
  }

  lemma {:induction false} LessIrreflexive(a: string)
    ensures !Less(a, a)
  {
    if a != "" { LessIrreflexive(a[1..]); }
  }

  lemma {:induction false} LessTotal(a: string, b: string)
    ensures a != b ==> Less(a, b) || Less(b, a)
    ensures !(Less(a, b) && Less(b, a)) && !Less(a, a)
    decreases |a| + |b|
  {
    if a != "" && b != "" {
      LessTotal(a[1..], b[1..]);
      assert a[0] == b[0] && a[1..] == b[1..] ==> a == b by {
        assert a == [a[0]] + a[1..] && b == [b[0]] + b[1..];
      }
    }
    LessIrreflexive(a);
  }

  lemma {:induction false} LessTrans(a: string, b: string, c: string)
    requires Less(a, b) && Less(b, c)
    ensures Less(a, c)
  {
    if a != "" && a[0] == b[0] && b[0] == c[0] { LessTrans(a[1..], b[1..], c[1..]); }
  }

  /** The sort key is (updated, id). */
  predicate Older(a: Task, b: Task) {
    a.updatedAt < b.updatedAt || (a.updatedAt == b.updatedAt && Less(a.id, b.id))
  }

  ghost predicate UniqueIds(ts: seq<Task>) { forall i, j :: 0 <= i < j < |ts| ==> ts[i].id != ts[j].id }

  ghost predicate Sorted(ts: seq<Task>) { forall i, j :: 0 <= i < j < |ts| ==> Older(ts[i], ts[j]) }

  function Insert(ts: seq<Task>, t: Task): seq<Task> {
    if ts == [] then [t]
    else if Older(t, ts[0]) then [t] + ts
    else [ts[0]] + Insert(ts[1..], t)
  }

  function Sort(ts: seq<Task>): seq<Task> {
    if ts == [] then [] else Insert(Sort(ts[..|ts| - 1]), ts[|ts| - 1])
  }

  lemma {:induction false} InsertFound(ts: seq<Task>, t: Task)
    ensures multiset(Insert(ts, t)) == multiset(ts) + multiset{t}
    ensures |Insert(ts, t)| == |ts| + 1
    decreases |ts|
  {
    if ts != [] {
      assert ts == [ts[0]] + ts[1..];
      InsertFound(ts[1..], t);
    }
  }

  lemma InsertElements(ts: seq<Task>, t: Task)
    ensures forall x :: x in Insert(ts, t) <==> x == t || x in ts
  {
    InsertFound(ts, t);
    assert forall x :: x in Insert(ts, t) <==> x in multiset(Insert(ts, t));
  }

  lemma {:induction false} InsertSorts(ts: seq<Task>, t: Task)
    requires Sorted(ts) && forall x :: x in ts ==> x.id != t.id
    ensures Sorted(Insert(ts, t))
    decreases |ts|
  {
    if ts != [] {
      var rest := Insert(ts[1..], t);
      if Older(t, ts[0]) {
        forall j | 0 <= j < |ts| ensures Older(t, ts[j]) {
          if j > 0 { OlderTrans(t, ts[0], ts[j]); }
        }
      } else {
        InsertSorts(ts[1..], t);
        InsertElements(ts[1..], t);
        forall j | 0 <= j < |rest| ensures Older(ts[0], rest[j]) {
          assert rest[j] in rest;
          LessTotal(t.id, ts[0].id);
        }
      }
    }
  }

  lemma OlderTrans(a: Task, b: Task, c: Task)
    requires Older(a, b) && Older(b, c)
    ensures Older(a, c)
  {
    if a.updatedAt == b.updatedAt == c.updatedAt { LessTrans(a.id, b.id, c.id); }
  }

  lemma {:induction false} SortFound(ts: seq<Task>)
    requires UniqueIds(ts)
    ensures Sorted(Sort(ts)) && multiset(Sort(ts)) == multiset(ts) && |Sort(ts)| == |ts|
    decreases |ts|
  {
    if ts != [] {
      var n := |ts| - 1;
      assert ts == ts[..n] + [ts[n]];
      SortFound(ts[..n]);
      InsertFound(Sort(ts[..n]), ts[n]);
      forall x | x in Sort(ts[..n]) ensures x.id != ts[n].id {
        assert x in multiset(ts[..n]);
      }
      InsertSorts(Sort(ts[..n]), ts[n]);
    }
  }

  // ---------------------------------------------------------- newest fifty

  /** `sorted(...)[-50:]`. */
  function Newest(ts: seq<Task>): seq<Task> {
    var sorted := Sort(ts);
    if |sorted| > LIMIT then sorted[|sorted| - LIMIT..] else sorted
  }

  /** All of them from the table; whatever was left out is older than all kept. */
  ghost predicate FromNewest(ts: seq<Task>, r: seq<Task>) {
    && (forall t :: t in r ==> t in ts)
    && (forall t, k :: t in ts && t !in r && k in r ==> Older(t, k))
  }

  /** The end of a sorted table holds its newest tasks. */
  lemma SuffixIsNewest(sorted: seq<Task>, n: nat)
    requires Sorted(sorted) && UniqueIds(sorted) && n <= |sorted|
    ensures Sorted(sorted[n..]) && UniqueIds(sorted[n..]) && FromNewest(sorted, sorted[n..])
  {
    var r := sorted[n..];
    forall i | n <= i < |sorted|
      ensures sorted[i] in r
    {
      assert r[i - n] == sorted[i];
    }
    forall t, k | t in sorted && t !in r && k in r
      ensures Older(t, k)
    {
      var i :| 0 <= i < |sorted| && sorted[i] == t;
      var j :| 0 <= j < |r| && r[j] == k;
    }
  }

  ghost predicate SameElements(a: seq<Task>, b: seq<Task>) { forall t :: t in a <==> t in b }

  lemma SortElements(ts: seq<Task>)
    requires UniqueIds(ts)
    ensures Sorted(Sort(ts)) && UniqueIds(Sort(ts)) && |Sort(ts)| == |ts| && SameElements(Sort(ts), ts)
  {
    SortFound(ts);
    SortedIsUnique(Sort(ts));
    assert forall t :: t in Sort(ts) <==> t in multiset(Sort(ts));
    assert forall t :: t in ts <==> t in multiset(ts);
  }

  lemma FromSame(a: seq<Task>, b: seq<Task>, r: seq<Task>)
    requires FromNewest(a, r) && SameElements(a, b)
    ensures FromNewest(b, r)
  {
    hide Older;
  }

  /** Fifty at most, in order, and no task left out is newer than one kept. */
  lemma NewestKeepsTheNewest(ts: seq<Task>)
    requires UniqueIds(ts)
    ensures |Newest(ts)| == if |ts| < 50 then |ts| else 50
    ensures Sorted(Newest(ts)) && UniqueIds(Newest(ts)) && FromNewest(ts, Newest(ts))
  {
    var sorted := Sort(ts);
    var n := if |sorted| > LIMIT then |sorted| - LIMIT else 0;
    SortElements(ts);
    assert Newest(ts) == sorted[n..] by { assert n == 0 ==> sorted[0..] == sorted; }
    hide *;
    SuffixIsNewest(sorted, n);
    FromSame(sorted, ts, sorted[n..]);
  }

  lemma SortedIsUnique(ts: seq<Task>)
    requires Sorted(ts) && exists us :: UniqueIds(us) && multiset(us) == multiset(ts)
    ensures UniqueIds(ts)
  {
    forall i, j | 0 <= i < j < |ts|
      ensures ts[i].id != ts[j].id
    {
      var us :| UniqueIds(us) && multiset(us) == multiset(ts);
      assert ts[i] in multiset(us) && ts[j] in multiset(us);
      assert Older(ts[i], ts[j]);
      LessTotal(ts[i].id, ts[j].id);
      var x :| 0 <= x < |us| && us[x] == ts[i];
      var y :| 0 <= y < |us| && us[y] == ts[j];
      LessIrreflexive(ts[i].id);
      assert x != y;
    }
  }
}
