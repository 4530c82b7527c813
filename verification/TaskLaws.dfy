/** What decides the state of an agent task: the words of a report, the kind of an
    activity, the state of the child thread. */
module TaskLaws {
  import opened Wrappers
  import opened TaskTable
  import opened Projector

  // ------------------------------------------------------- one agent's report

  /** The five words an agent ends with. */
  predicate EndWord(raw: Status) { raw.Completed? || raw.Shutdown? || raw.Interrupted? || raw.NotFound? || raw.Errored? }

  /** History says less than is known: the task has ended, the report has no end. */
  predicate OutdatedReport(current: Option<Task>, raw: Status, historical: bool) {
    && historical && !EndWord(raw) && current.Some?
    && (IsDone(current.value.status) || IsFailed(current.value.status))
  }

  /** A report puts the task into the group its word names: done, failed, at work,
      or waiting for anything else, unknown words included; only history that knows
      less than the table leaves the state as it is. */
  lemma ReportDecidesState(current: Option<Task>, r: Report, call: Call, child: Option<Child>, now: int)
    requires r.value.Some?
    ensures
      var raw := r.value.value.0;
      var t := Merged(current, r, call, child, now);
      if OutdatedReport(current, raw, call.historical) then t.status == current.value.status
      else
        && (IsDone(t.status) <==> raw.Completed? || raw.Shutdown?)
        && (IsFailed(t.status) <==> raw.Interrupted? || raw.NotFound? || raw.Errored?)
        && (EndWord(raw) ==> t.status == if raw.Errored? then Failed else raw)
        && (t.status.InProgress? <==> raw.Running?) && (t.status.Pending? <==> !EndWord(raw) && !raw.Running?)
  {
  }

  /** A task begins when it is first seen waiting or at work and keeps that time;
      it ends when it is first seen ended, and reopening takes its end back. */
  lemma ReportKeepsTimes(current: Option<Task>, r: Report, call: Call, child: Option<Child>, now: int)
    requires r.value.Some?
    ensures
      var t := Merged(current, r, call, child, now);
      var (start, end) := if current.Some? then (current.value.startedAt, current.value.finishedAt) else (0, 0);
      && t.startedAt == (if start != 0 then start else if IsActive(t.status) then now else 0)
      && (IsActive(t.status) && !OutdatedReport(current, r.value.value.0, call.historical) ==> t.finishedAt == 0)
      && (IsTerminal(t.status) && !t.status.Errored? ==> t.finishedAt == if end != 0 then end else now)
  {
  }

  /** Names and texts: what the child thread knows comes first, then what a spawn
      said of its receivers, then what was known before; a prompt titles a task that
      is new or spawned. */
  lemma ReportKeepsNames(current: Option<Task>, r: Report, call: Call, child: Option<Child>, now: int)
    requires r.value.Some?
    ensures
      var t := Merged(current, r, call, child, now);
      && (child.Some? && child.value.model != "" ==> t.model == child.value.model)
      && ((child == None || child.value.model == "") && call.spawns && r.agent in call.receivers && call.model != "" ==>
            t.model == call.model)
      && ((child == None || child.value.model == "") && !(call.spawns && r.agent in call.receivers) && current.Some? ==>
            t.model == current.value.model)
      && (child.Some? && child.value.nickname != "" ==> t.nickname == child.value.nickname)
      && (child == None && current.Some?
        ==> t.nickname == current.value.nickname && t.role == current.value.role && t.path == current.value.path)
      && (r.value.value.1 != "" ==> t.message == r.value.value.1)
      && (r.value.value.1 == "" && current.Some? ==> t.message == current.value.message)
      && (call.prompt != "" && (current == None || call.spawns) ==> t.title == call.prompt)
      && (current.Some? && (call.prompt == "" || !call.spawns) ==> t.title == current.value.title)
  {
  }

  // -------------------------------------------------------- a call's reports

  lemma {:induction false} FindIn(ts: seq<Task>, t: Task)
    requires UniqueIds(ts) && t in ts
    ensures Find(ts, t.id) == Some(t)
    decreases |ts|
  {
    if ts[0] == t {
    } else {
      UniqueTail(ts);
      FindIn(ts[1..], t);
    }
  }

  /** Storing a task changes what is found under its id and nothing else. */
  lemma FindPut(ts: seq<Task>, t: Task, id: string)
    requires UniqueIds(ts)
    ensures Find(Put(ts, t), id) == if id == t.id then Some(t) else Find(ts, id)
  {
    PutFound(ts, t);
    hide UniqueIds, Put;
    var us := Put(ts, t);
    if id == t.id {
      FindIn(us, t);
    } else if Find(ts, id).Some? {
      FindIn(us, Find(ts, id).value);
    }
    hide Find;
  }

  /** The entries of a call name each agent once. */
  ghost predicate OneEach(rs: seq<Report>) { forall i, j :: 0 <= i < j < |rs| ==> rs[i].agent != rs[j].agent }

  lemma {:induction false} OthersUntouched(ts: seq<Task>, rs: seq<Report>, call: Call, store: Store, now: int, id: string)
    requires UniqueIds(ts) && AllKnown(ts) && forall i :: 0 <= i < |rs| ==> rs[i].agent != id
    ensures Find(MergeAll(ts, rs, call, store, now), id) == Find(ts, id)
    decreases |rs|
  {
    if rs != [] {
      MergeReportKeeps(ts, rs[0], call, store, now);
      if rs[0].value.Some? {
        FindPut(ts, Merged(Find(ts, rs[0].agent), rs[0], call, Lookup(store, rs[0].agent), now), id);
      }
      hide UniqueIds, AllKnown, Merged, Find, Put;
      OthersUntouched(MergeReport(ts, rs[0], call, store, now), rs[1..], call, store, now, id);
    }
  }

  /** A call leaves each reported agent with its merged task, made from what was
      known before the call, and every other task as it was. */
  lemma {:induction false} CallMergesEachAgent(ts: seq<Task>, rs: seq<Report>, call: Call, store: Store, now: int, k: nat)
    requires UniqueIds(ts) && AllKnown(ts) && OneEach(rs) && k < |rs|
    ensures
      var id := rs[k].agent;
      Find(MergeAll(ts, rs, call, store, now), id) ==
        if rs[k].value == None then Find(ts, id) else Some(Merged(Find(ts, id), rs[k], call, Lookup(store, id), now))
    decreases |rs|
  {
    var r := rs[0];
    var m := MergeReport(ts, r, call, store, now);
    MergeReportKeeps(ts, r, call, store, now);
    if r.value.Some? { FindPut(ts, Merged(Find(ts, r.agent), r, call, Lookup(store, r.agent), now), rs[k].agent); }
    hide UniqueIds, AllKnown, Merged, Find, Put;
    if k == 0 {
      OthersUntouched(m, rs[1..], call, store, now, r.agent);
    } else {
      assert OneEach(rs[1..]) && rs[1..][k - 1] == rs[k];
      CallMergesEachAgent(m, rs[1..], call, store, now, k - 1);
    }
  }

  // ------------------------------------------------------------ one activity

  /** An interruption ends the task; a start or an exchange puts it to work, unless
      history tells it of a task that has ended; anything else leaves its state. */
  lemma ActivityDecidesState(current: Option<Task>, a: Activity, now: int)
    ensures
      var t := ActedTask(current, a, now);
      var ended := current.Some? && IsTerminal(current.value.status);
      && t.id == a.agent && t.agentThread == Some(a.agent) && t.updatedAt == now
      && (a.kind.KindInterrupted? ==> t.status.Interrupted?)
      && (a.kind.KindStarted? || a.kind.KindInteracted? ==>
            if a.historical && ended then t.status == current.value.status else t.status.InProgress?)
      && (a.kind.KindOther? ==> t.status == if current.Some? then current.value.status else Pending)
      && (t.finishedAt != 0 ==> IsTerminal(t.status))
      && (current.Some? && current.value.startedAt != 0 ==> t.startedAt == current.value.startedAt)
      && (IsTerminal(t.status) && current.Some? && current.value.finishedAt != 0 ==> t.finishedAt == current.value.finishedAt)
  {
  }

  // --------------------------------------------------------- the child thread

  /** An active child puts its task to work, one in error fails it, an idle or
      unloaded one is done unless the task had ended in another way; a child of any
      other state, or an active one that has not moved since the end, changes
      nothing. */
  lemma ChildDecidesState(t: Task, c: Child, now: int)
    ensures
      var r := Reconcile(t, c, now);
      var stale := c.status.ChildActive? && IsTerminal(t.status)
        && t.finishedAt != 0 && c.updatedAt != 0 && c.updatedAt <= t.finishedAt;
      var settled := t.status.Completed? || t.status.Failed? || t.status.Interrupted? || t.status.NotFound?;
      if c.status.ChildOther? || stale then r == t
      else
        && (c.status.ChildActive? ==> r.status.InProgress? && r.finishedAt == 0)
        && (c.status.ChildSystemError? ==> r.status.Failed?)
        && (c.status.ChildIdle? ==> r.status == if settled then t.status else Completed)
        && (c.status.ChildNotLoaded? ==> r.status == if settled then t.status else Shutdown)
        && (!c.status.ChildActive? && t.finishedAt != 0 ==> r.finishedAt == t.finishedAt)
        && (c.createdAt != 0 && t.startedAt != 0 ==> r.startedAt <= t.startedAt && r.startedAt <= c.createdAt)
        && (c.model != "" ==> r.model == c.model) && (c.model == "" ==> r.model == t.model)
  {
  }

  /** Finalizing: an active task goes on only with an active child; otherwise it ends
      as its child says, or is shut down without one. */
  lemma FinalizingEndsWhatHasNoLiveChild(t: Task, store: Store, now: int)
    requires IsActive(t.status)
    ensures
      var f := FinalizeTask(t, store, now);
      var c := Lookup(store, ChildId(t));
      && (c == None ==> f.status.Shutdown?)
      && (c.Some? && c.value.status.ChildActive? ==> f.status.InProgress?)
      && (c.Some? && c.value.status.ChildIdle? ==> f.status.Completed?)
      && (c.Some? && c.value.status.ChildSystemError? ==> f.status.Failed?)
      && (c.Some? && (c.value.status.ChildNotLoaded? || c.value.status.ChildOther?) ==> f.status.Shutdown?)
  {
  }

  /** Following a child also takes over what it knows of itself. */
  lemma SyncingTakesTheChildsNames(t: Task, c: Child, now: int)
    ensures
      var r := SyncTask(t, c, now);
      && r.path == (if c.path != "" then c.path else t.path) && r.nickname == (if c.nickname != "" then c.nickname else t.nickname)
      && r.role == (if c.role != "" then c.role else t.role) && r.model == (if c.model != "" then c.model else t.model)
      && r.effort == (if c.effort != "" then c.effort else t.effort) && r.status == Reconcile(t, c, now).status
  {
  }
}
