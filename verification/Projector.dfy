/** How events change a thread's agent tasks, their counters and its goal. */
module Projector {
  import opened Wrappers
  import opened TaskTable
  import G = Goal

  /** One agent's entry in a collaboration call; `None` when it is not an object. */
  datatype Report = Report(agent: string, value: Option<(Status, string)>)

  datatype Call = Call(prompt: string, spawns: bool, receivers: set<string>, model: string, effort: string, historical: bool)

  datatype Kind = KindInterrupted | KindStarted | KindInteracted | KindOther

  datatype Activity = Activity(agent: string, path: string, kind: Kind, historical: bool)

  // --------------------------------------------------------------- merging

  function Find(ts: seq<Task>, id: string): (r: Option<Task>)
    ensures r.Some? ==> r.value in ts && r.value.id == id
    ensures r == None ==> forall t :: t in ts ==> t.id != id
  {
    if ts == [] then None else if ts[0].id == id then Some(ts[0]) else Find(ts[1..], id)
  }

  /** `dict[id] = task`. */
  function Put(ts: seq<Task>, t: Task): seq<Task> {
    if ts == [] then [t]
    else if ts[0].id == t.id then [t] + ts[1..]
    else [ts[0]] + Put(ts[1..], t)
  }

  function Short(id: string): string { if |id| > 8 then id[..8] else id }

  function Was(current: Option<Task>, default: Task): Task { if current.Some? then current.value else default }

  const NOBODY := Task("", "", Pending, None, "", "", "", "", "", "", 0, 0, 0)

  predicate Ended(s: Status) { s.Completed? || s.Failed? || s.Interrupted? || s.Shutdown? || s.NotFound? }
  predicate Begun(s: Status) { s.Pending? || s.InProgress? }

  /** A report from history does not reopen a task that ended. */
  function ReportedStatus(current: Option<Task>, raw: Status, historical: bool): Status {
    var s := TaskStatus(raw);
    if historical && current.Some? && IsTerminal(current.value.status) && IsActive(s) then current.value.status else s
  }

  function Merged(current: Option<Task>, r: Report, call: Call, child: Option<Child>, now: int): (t: Task)
    requires r.value.Some?
    ensures t.id == r.agent && t.updatedAt == now
    ensures current.Some? && IsKnown(current.value.status) ==> IsKnown(t.status)
    ensures call.historical && current.Some? && IsTerminal(current.value.status) ==> IsTerminal(t.status)
    ensures Ended(t.status) && now != 0 ==> t.finishedAt != 0
  {
    var was := Was(current, NOBODY);
    var (raw, message) := r.value.value;
    var s := ReportedStatus(current, raw, call.historical);
    var spawned := call.spawns && r.agent in call.receivers;
    Task(
      r.agent,
      if call.prompt != "" && (call.spawns || current == None) then call.prompt
      else if current.Some? then was.title else "Agent " + Short(r.agent),
      s,
      Some(r.agent),
      Or(if child.Some? then child.value.path else "", was.path),
      Or(if child.Some? then child.value.nickname else "", was.nickname),
      Or(if child.Some? then child.value.role else "", was.role),
      Or(if child.Some? then child.value.model else "", Or(if spawned then call.model else "", was.model)),
      Or(if child.Some? then child.value.effort else "", Or(if spawned then call.effort else "", was.effort)),
      Or(message, was.message),
      if was.startedAt == 0 && Begun(s) then now else was.startedAt,
      if Ended(s) then OrTime(was.finishedAt, now) else if Begun(s) then 0 else was.finishedAt,
      now)
  }

  function MergeReport(ts: seq<Task>, r: Report, call: Call, store: Store, now: int): seq<Task> {
    if r.value == None then ts else Put(ts, Merged(Find(ts, r.agent), r, call, Lookup(store, r.agent), now))
  }

  function MergeAll(ts: seq<Task>, rs: seq<Report>, call: Call, store: Store, now: int): seq<Task>
    decreases |rs|
  {
    if rs == [] then ts else MergeAll(MergeReport(ts, rs[0], call, store, now), rs[1..], call, store, now)
  }

  function ActivityStatus(current: Option<Task>, a: Activity): Status {
    match a.kind
    case KindInterrupted => Interrupted
    case KindOther => if current.Some? then current.value.status else Pending
    case _ => if a.historical && current.Some? && IsTerminal(current.value.status) then current.value.status else InProgress
  }

  function ActedTask(current: Option<Task>, a: Activity, now: int): Task {
    var was := Was(current, NOBODY);
    var s := ActivityStatus(current, a);
    was.(id := a.agent,
         title := if current.Some? then was.title else "Agent " + Or(a.path, Short(a.agent)),
         status := s,
         agentThread := Some(a.agent),
         path := Or(a.path, was.path),
         startedAt := OrTime(was.startedAt, now),
         finishedAt := if IsTerminal(s) then OrTime(was.finishedAt, now) else 0,
         updatedAt := now)
  }

  // ------------------------------------------------- following the children

  /** What the state of a child thread says about its task. */
  function Projected(s: ChildStatus): Option<Status> {
    match s
    case ChildActive => Some(InProgress)
    case ChildIdle => Some(Completed)
    case ChildNotLoaded => Some(Shutdown)
    case ChildSystemError => Some(Failed)
    case ChildOther => None
  }

  /** An active child that has not moved since its task ended is old news. */
  predicate OldNews(t: Task, c: Child) {
    c.status.ChildActive? && IsTerminal(t.status) && t.finishedAt != 0 && c.updatedAt != 0 && c.updatedAt <= t.finishedAt
  }

  function ReconciledStatus(t: Task, p: Status): Status {
    if IsDone(p) && (t.status.Completed? || t.status.Failed? || t.status.Interrupted? || t.status.NotFound?) then t.status else p
  }

  /** `_reconcile_task_from_child`. A child reopens a task that ended only by
      moving on after it ended, and a task that failed or was interrupted is not
      called done because its thread went idle. */
  function Reconcile(t: Task, c: Child, now: int): (r: Task)
    ensures r.id == t.id && ChildId(r) == ChildId(t) && (IsKnown(t.status) ==> IsKnown(r.status))
    ensures IsTerminal(t.status) ==>
              (IsActive(r.status) <==> c.status.ChildActive? && !(t.finishedAt != 0 && c.updatedAt != 0 && c.updatedAt <= t.finishedAt))
    ensures t.status.Failed? || t.status.Interrupted? || t.status.NotFound? ==> !IsDone(r.status)
    ensures IsActive(r.status) ==> c.status.ChildActive? || (r == t && c.status.ChildOther?)
  {
    if Projected(c.status) == None || OldNews(t, c) then t
    else
      var s := ReconciledStatus(t, Projected(c.status).value);
      var t1 := t.(model := Or(c.model, t.model),
                   effort := Or(c.effort, t.effort),
                   startedAt := if c.createdAt != 0 && (t.startedAt == 0 || c.createdAt < t.startedAt) then c.createdAt else t.startedAt,
                   status := s,
                   finishedAt := if IsActive(s) then 0 else OrTime(OrTime(t.finishedAt, c.updatedAt), now));
      if t1 == t then t else t1.(updatedAt := MaxTime(t.updatedAt, OrTime(c.updatedAt, now)))
  }

  function ReconcileStored(t: Task, store: Store, now: int): Task {
    var c := Lookup(store, ChildId(t));
    if c.Some? then Reconcile(t, c.value, now) else t
  }

  function ShutDown(t: Task, now: int): Task {
    t.(status := Shutdown, finishedAt := OrTime(t.finishedAt, now), updatedAt := MaxTime(t.updatedAt, now))
  }

  /** One turn of `_finalize_active_tasks`. What is still active afterwards has a
      stored child thread that is active. */
  function FinalizeTask(t: Task, store: Store, now: int): (f: Task)
    ensures f.id == t.id && ChildId(f) == ChildId(t) && (IsKnown(t.status) ==> IsKnown(f.status))
    ensures IsActive(f.status) ==> IsActive(t.status) && ChildId(t) in store && store[ChildId(t)].status.ChildActive?
    ensures !IsActive(t.status) ==> f == t
    ensures IsActive(t.status) && !IsActive(f.status) && now != 0 ==> f.finishedAt != 0
  {
    if !IsActive(t.status) then t
    else
      var c := Lookup(store, ChildId(t));
      if c == None then ShutDown(t, now)
      else
        var t1 := Reconcile(t, c.value, now);
        if c.value.status.ChildActive? || !IsActive(t1.status) then t1 else ShutDown(t1, now)
  }

  /** One turn of `_sync_parent_agent_metadata`. */
  function SyncTask(t: Task, c: Child, now: int): Task {
    Reconcile(t.(path := Or(c.path, t.path), nickname := Or(c.nickname, t.nickname), role := Or(c.role, t.role),
                 model := Or(c.model, t.model), effort := Or(c.effort, t.effort)), c, now)
  }

  predicate Concerns(t: Task, child: string) { t.agentThread == Some(child) || t.id == child }

  // ------------------------------------------------------------- invariant

  datatype Group = ActiveGroup | DoneGroup | FailedGroup

  predicate In(s: Status, g: Group) {
    match g
    case ActiveGroup => IsActive(s)
    case DoneGroup => IsDone(s)
    case FailedGroup => IsFailed(s)
  }

  function Tally(ts: seq<Task>, g: Group): nat {
    if ts == [] then 0 else Tally(ts[..|ts| - 1], g) + (if In(ts[|ts| - 1].status, g) then 1 else 0)
  }

  ghost predicate AllKnown(ts: seq<Task>) { forall t :: t in ts ==> IsKnown(t.status) }

  ghost predicate TableOk(ts: seq<Task>) { UniqueIds(ts) && |ts| <= LIMIT && AllKnown(ts) }

  /** Every task is active, done or failed, and only one of them. */
  lemma {:induction false} TalliesPartition(ts: seq<Task>)
    requires AllKnown(ts)
    ensures Tally(ts, ActiveGroup) + Tally(ts, DoneGroup) + Tally(ts, FailedGroup) == |ts|
    decreases |ts|
  {
    if ts != [] {
      assert ts[|ts| - 1] in ts;
      TalliesPartition(ts[..|ts| - 1]);
    }
  }

  lemma UniqueTail(ts: seq<Task>)
    requires UniqueIds(ts) && ts != []
    ensures UniqueIds(ts[1..]) && forall x :: x in ts[1..] ==> x.id != ts[0].id
    ensures forall x :: x in ts <==> x == ts[0] || x in ts[1..]
  {
    assert ts == [ts[0]] + ts[1..];
  }

  lemma UniqueCons(t: Task, ts: seq<Task>)
    requires UniqueIds(ts) && forall x :: x in ts ==> x.id != t.id
    ensures UniqueIds([t] + ts) && forall x :: x in [t] + ts <==> x == t || x in ts
  {
  }

  lemma {:induction false} PutFound(ts: seq<Task>, t: Task)
    requires UniqueIds(ts)
    ensures UniqueIds(Put(ts, t))
    ensures forall x :: x in Put(ts, t) <==> x == t || (x in ts && x.id != t.id)
    decreases |ts|
  {
    if ts != [] {
      var rest := ts[1..];
      UniqueTail(ts);
      PutFound(rest, t);
      hide UniqueIds;
      if ts[0].id == t.id { UniqueCons(t, rest); } else { UniqueCons(ts[0], Put(rest, t)); }
    }
  }

  lemma MergeReportKeeps(ts: seq<Task>, r: Report, call: Call, store: Store, now: int)
    requires UniqueIds(ts) && AllKnown(ts)
    ensures UniqueIds(MergeReport(ts, r, call, store, now)) && AllKnown(MergeReport(ts, r, call, store, now))
  {
    if r.value.Some? {
      PutFound(ts, Merged(Find(ts, r.agent), r, call, Lookup(store, r.agent), now));
      hide UniqueIds;
    }
  }

  lemma {:induction false} MergeAllKeeps(ts: seq<Task>, rs: seq<Report>, call: Call, store: Store, now: int)
    requires UniqueIds(ts) && AllKnown(ts)
    ensures UniqueIds(MergeAll(ts, rs, call, store, now)) && AllKnown(MergeAll(ts, rs, call, store, now))
    decreases |rs|
  {
    if rs != [] {
      MergeReportKeeps(ts, rs[0], call, store, now);
      hide UniqueIds, AllKnown, MergeReport;
      MergeAllKeeps(MergeReport(ts, rs[0], call, store, now), rs[1..], call, store, now);
    }
  }

  /** Any set of tasks with distinct ids gives a table once cut to the newest. */
  lemma NewestIsTable(ts: seq<Task>)
    requires UniqueIds(ts) && AllKnown(ts)
    ensures TableOk(Newest(ts))
  {
    NewestKeepsTheNewest(ts);
    assert forall t :: t in Newest(ts) ==> t in ts by { hide Older, UniqueIds, Sorted, Newest; }
    hide Newest, UniqueIds, Sorted;
  }

  /** Changing tasks one by one, ids kept, keeps the table. */
  lemma SameIdsKeep(a: seq<Task>, b: seq<Task>)
    requires TableOk(a) && |b| == |a| && forall k :: 0 <= k < |a| ==> b[k].id == a[k].id && IsKnown(b[k].status)
    ensures TableOk(b)
  {
  }

  // -------------------------------------------------------------- promises

  /** Reconciling twice with the same child and clock is reconciling once. */
  lemma ReconcileIsIdempotent(t: Task, c: Child, now: int)
    requires now > 0 && t.updatedAt >= 0 && c.updatedAt >= 0
    ensures Reconcile(Reconcile(t, c, now), c, now) == Reconcile(t, c, now)
  {
  }

  // -------------------------------------------------------- as an object

  ghost predicate FinalizedTo(a: seq<Task>, b: seq<Task>, store: Store, now: int, n: nat) {
    && |b| == |a| && n <= |a|
    && forall k :: 0 <= k < |a| ==> b[k] == if k < n then FinalizeTask(a[k], store, now) else a[k]
  }

  ghost predicate ReconciledTo(a: seq<Task>, b: seq<Task>, store: Store, now: int, n: nat) {
    && |b| == |a| && n <= |a|
    && forall k :: 0 <= k < |a| ==> b[k] == if k < n then ReconcileStored(a[k], store, now) else a[k]
  }

  /** What is still active has a stored child thread that is active. */
  ghost predicate OnlyLive(ts: seq<Task>, store: Store) {
    forall t :: t in ts && IsActive(t.status) ==> ChildId(t) in store && store[ChildId(t)].status.ChildActive?
  }

  /** The first task that concerns this child, if any, follows it. */
  ghost predicate SyncedTo(a: seq<Task>, b: seq<Task>, child: string, c: Child, now: int) {
    if exists k :: 0 <= k < |a| && Concerns(a[k], child) then
      exists k :: 0 <= k < |a| && Concerns(a[k], child) && (forall i :: 0 <= i < k ==> !Concerns(a[i], child))
                  && b == a[k := SyncTask(a[k], c, now)]
    else b == a
  }

  lemma FinalizedTable(a: seq<Task>, b: seq<Task>, store: Store, now: int)
    requires TableOk(a) && FinalizedTo(a, b, store, now, |a|)
    ensures TableOk(b) && OnlyLive(b, store)
  {
    hide FinalizeTask;
    SameIdsKeep(a, b);
  }

  lemma ReconciledTable(a: seq<Task>, b: seq<Task>, store: Store, now: int)
    requires TableOk(a) && ReconciledTo(a, b, store, now, |a|)
    ensures TableOk(b)
  {
    hide Reconcile;
    SameIdsKeep(a, b);
  }

  class ThreadState {
    var tasks: seq<Task>
    var agentsActive: nat
    var agentsCompleted: nat
    var agentsFailed: nat
    var goal: Option<G.Goal>

    ghost predicate Counted()
      reads this
    {
      && agentsActive == Tally(tasks, ActiveGroup)
      && agentsCompleted == Tally(tasks, DoneGroup)
      && agentsFailed == Tally(tasks, FailedGroup)
    }

    ghost predicate Valid()
      reads this
    {
      TableOk(tasks) && Counted()
    }

    constructor ()
      ensures Valid() && tasks == [] && goal == None
    {
      tasks, agentsActive, agentsCompleted, agentsFailed, goal := [], 0, 0, 0, None;
    }

    method Count(g: Group) returns (n: nat)
      ensures n == Tally(tasks, g)
    {
      n := 0;
      for i := 0 to |tasks|
        invariant n == Tally(tasks[..i], g)
      {
        assert tasks[..i + 1][..i] == tasks[..i];
        if In(tasks[i].status, g) { n := n + 1; }
      }
      assert tasks[..|tasks|] == tasks;
    }

    /** `_refresh_agent_counts`. */
    method RefreshAgentCounts()
      requires AllKnown(tasks)
      modifies this`agentsActive, this`agentsCompleted, this`agentsFailed
      ensures Counted() && agentsActive + agentsCompleted + agentsFailed == |tasks|
    {
      agentsActive := Count(ActiveGroup);
      agentsCompleted := Count(DoneGroup);
      agentsFailed := Count(FailedGroup);
      TalliesPartition(tasks);
    }

    /** A `collabAgentToolCall` item. */
    method CollabAgentCall(reports: seq<Report>, call: Call, store: Store, now: int)
      requires Valid()
      modifies this`tasks, this`agentsActive, this`agentsCompleted, this`agentsFailed
      ensures Valid() && tasks == Newest(MergeAll(old(tasks), reports, call, store, now))
      ensures agentsActive + agentsCompleted + agentsFailed == |tasks|
    {
      var table := tasks;
      hide Merged, Newest;
      for i := 0 to |reports|
        invariant MergeAll(tasks, reports, call, store, now) == MergeAll(table, reports[i..], call, store, now)
      {
        var r := reports[i];
        assert reports[i..][0] == r && reports[i..][1..] == reports[i + 1..];
        if r.value.Some? {
          table := Put(table, Merged(Find(table, r.agent), r, call, Lookup(store, r.agent), now));
        }
      }
      MergeAllKeeps(tasks, reports, call, store, now);
      NewestIsTable(table);
      tasks := Newest(table);
      hide *;
      RefreshFrom();
    }

    method RefreshFrom()
      requires TableOk(tasks)
      modifies this`agentsActive, this`agentsCompleted, this`agentsFailed
      ensures Valid() && agentsActive + agentsCompleted + agentsFailed == |tasks|
    {
      RefreshAgentCounts();
    }

    /** A `subAgentActivity` item. */
    method SubAgentActivity(a: Activity, now: int)
      requires Valid()
      modifies this`tasks, this`agentsActive, this`agentsCompleted, this`agentsFailed
      ensures Valid()
      ensures tasks == if a.agent == "" then old(tasks) else Newest(Put(old(tasks), ActedTask(Find(old(tasks), a.agent), a, now)))
      ensures agentsActive + agentsCompleted + agentsFailed == |tasks|
    {
      TalliesPartition(tasks);
      if a.agent == "" { return; }
      var acted := ActedTask(Find(tasks, a.agent), a, now);
      assert IsKnown(acted.status);
      PutFound(tasks, acted);
      NewestIsTable(Put(tasks, acted));
      tasks := Newest(Put(tasks, acted));
      hide *;
      RefreshFrom();
    }

    /** `_reconcile_tasks_from_children`. */
    method ReconcileTasksFromChildren(store: Store, now: int) returns (changed: bool)
      requires Valid()
      modifies this`tasks, this`agentsActive, this`agentsCompleted, this`agentsFailed
      ensures Valid() && ReconciledTo(old(tasks), tasks, store, now, |tasks|)
      ensures changed <==> tasks != old(tasks)
    {
      changed := false;
      ghost var before := tasks;
      hide Reconcile;
      for i := 0 to |tasks|
        modifies this`tasks
        invariant ReconciledTo(before, tasks, store, now, i)
        invariant changed <==> exists k :: 0 <= k < i && tasks[k] != before[k]
        invariant !changed ==> tasks == before
      {
        var t := ReconcileStored(tasks[i], store, now);
        if t != tasks[i] {
          changed := true;
          tasks := tasks[i := t];
        }
      }
      ReconciledTable(before, tasks, store, now);
      if changed { RefreshFrom(); } else { assert tasks == before; }
    }

    /** `_finalize_active_tasks`. */
    method FinalizeActiveTasks(store: Store, now: int)
      requires Valid()
      modifies this`tasks, this`agentsActive, this`agentsCompleted, this`agentsFailed
      ensures Valid() && FinalizedTo(old(tasks), tasks, store, now, |tasks|) && OnlyLive(tasks, store)
    {
      ghost var before := tasks;
      for i := 0 to |tasks|
        invariant FinalizedTo(before, tasks, store, now, i)
      {
        var t := tasks[i];
        if IsActive(t.status) {
          var child := Lookup(store, ChildId(t));
          if child.Some? { t := Reconcile(t, child.value, now); }
          if child == None || (!child.value.status.ChildActive? && IsActive(t.status)) { t := ShutDown(t, now); }
          tasks := tasks[i := t];
        }
      }
      FinalizedTable(before, tasks, store, now);
      hide *;
      RefreshFrom();
    }

    /** The parent's side of `_sync_parent_agent_metadata`. */
    method SyncAgentMetadata(child: string, c: Child, now: int) returns (changed: bool)
      requires Valid()
      modifies this`tasks, this`agentsActive, this`agentsCompleted, this`agentsFailed
      ensures Valid() && SyncedTo(old(tasks), tasks, child, c, now) && (changed <==> tasks != old(tasks))
    {
      changed := false;
      ghost var before := tasks;
      hide Reconcile;
      for i := 0 to |tasks|
        invariant tasks == before && !changed && forall k :: 0 <= k < i ==> !Concerns(tasks[k], child)
      {
        if Concerns(tasks[i], child) {
          var t := SyncTask(tasks[i], c, now);
          changed := t != tasks[i];
          tasks := tasks[i := t];
          SameIdsKeep(before, tasks);
          if changed { RefreshFrom(); } else { assert tasks == before; }
          return;
        }
      }
    }

    /** `apply_goal`. */
    method ApplyGoal(incoming: Option<G.Goal>, store: Store, now: int)
      requires Valid()
      modifies this
      ensures Valid() && goal == G.Apply(old(goal), incoming)
      ensures incoming.Some? && !G.Stale(old(goal), incoming.value) && G.Complete(incoming.value) ==> OnlyLive(tasks, store)
    {
      if incoming.Some? && G.Stale(goal, incoming.value) { return; }
      goal := incoming;
      if goal.Some? && G.Complete(goal.value) { FinalizeActiveTasks(store, now); }
    }

    /** A `thread/goal/updated` notification: what must be saved, and what shows. */
    method ApplyGoalNotification(incoming: G.Goal, store: Store, now: int) returns (persisted: bool, visible: bool)
      requires Valid()
      modifies this
      ensures Valid() && goal == G.Apply(old(goal), Some(incoming))
      ensures !G.Stale(old(goal), incoming) && G.Complete(incoming) ==> OnlyLive(tasks, store)
      ensures visible ==> persisted
      ensures !persisted ==> goal == old(goal) || old(goal) == None
      ensures !visible && !G.Stale(old(goal), incoming) ==>
                Statuses(tasks) == Statuses(old(tasks)) && VisibleKey(old(goal)) == VisibleKey(goal)
    {
      persisted, visible := false, false;
      if G.Stale(goal, incoming) { return; }
      var shown, current, statuses := VisibleKey(goal), if goal.Some? then goal.value else NO_GOAL, Statuses(tasks);
      goal := Some(incoming);
      if G.Complete(incoming) { FinalizeActiveTasks(store, now); }
      var moved := statuses != Statuses(tasks);
      persisted := current != incoming || moved;
      visible := shown != VisibleKey(goal) || moved;
    }
  }

  const NO_GOAL := G.Goal("", "", 0)

  function VisibleKey(goal: Option<G.Goal>): (string, string) {
    if goal.Some? then (goal.value.status, goal.value.objective) else ("", "")
  }

  function Statuses(ts: seq<Task>): seq<(string, Status)> { seq(|ts|, k requires 0 <= k < |ts| => (ts[k].id, ts[k].status)) }
}
