/** The goal of a session as a timestamped register: updates may arrive in any
    order, and "complete" wins among updates of the same time. */
module Goal {
  import opened Wrappers

  /** A missing time counts as 0. */
  datatype Goal = Goal(status: string, objective: string, updatedAt: int)

  predicate Complete(g: Goal) { g.status == "complete" }

  /** `_goal_update_is_stale`. */
  predicate Stale(current: Option<Goal>, incoming: Goal) {
    current.Some?
    && var now, then_ := current.value.updatedAt, incoming.updatedAt;
    || (now != 0 && then_ != 0 && then_ < now)
    || (now != 0 && then_ == now && Complete(current.value) && !Complete(incoming))
  }

  /** `None` clears the goal. */
  function Apply(current: Option<Goal>, incoming: Option<Goal>): Option<Goal> {
    if incoming.Some? && Stale(current, incoming.value) then current else incoming
  }

  function ApplyAll(current: Option<Goal>, updates: seq<Option<Goal>>): Option<Goal> {
    if updates == [] then current
    else Apply(ApplyAll(current, updates[..|updates| - 1]), updates[|updates| - 1])
  }

  /** An update that replaces whatever is there: a cleared goal or one without a time. */
  predicate Resets(u: Option<Goal>) { u == None || u.value.updatedAt == 0 }

  /** The updates after the last one that resets, and what that one left. */
  function Since(updates: seq<Option<Goal>>): seq<Option<Goal>> {
    if updates == [] || Resets(updates[|updates| - 1]) then []
    else Since(updates[..|updates| - 1]) + [updates[|updates| - 1]]
  }

  function Base(current: Option<Goal>, updates: seq<Option<Goal>>): Option<Goal> {
    if updates == [] then current
    else if Resets(updates[|updates| - 1]) then updates[|updates| - 1]
    else Base(current, updates[..|updates| - 1])
  }

  predicate Timed(us: seq<Option<Goal>>) { forall i :: 0 <= i < |us| ==> !Resets(us[i]) }

  ghost predicate Latest(us: seq<Option<Goal>>, t: int)
    requires Timed(us)
  {
    && (exists i :: 0 <= i < |us| && us[i].value.updatedAt == t)
    && (forall i :: 0 <= i < |us| ==> us[i].value.updatedAt <= t)
  }

  ghost predicate CompletedAt(us: seq<Option<Goal>>, t: int)
    requires Timed(us)
  {
    exists i :: 0 <= i < |us| && us[i].value.updatedAt == t && Complete(us[i].value)
  }

  /** The register holds the latest time of these updates, complete exactly when
      some update of that time is. */
  ghost predicate Holds(g: Option<Goal>, us: seq<Option<Goal>>)
    requires Timed(us)
  {
    g.Some? && Latest(us, g.value.updatedAt) && (Complete(g.value) <==> CompletedAt(us, g.value.updatedAt))
  }

  lemma SinceTimed(updates: seq<Option<Goal>>)
    ensures Timed(Since(updates))
  {
  }

  lemma ApplyHolds(g: Option<Goal>, us: seq<Option<Goal>>, u: Option<Goal>)
    requires Timed(us) && !Resets(u)
    requires if us == [] then g == None || g.value.updatedAt == 0 else Holds(g, us)
    ensures Timed(us + [u]) && Holds(Apply(g, u), us + [u])
  {
    var vs := us + [u];
    assert vs[|us|] == u && forall i :: 0 <= i < |us| ==> vs[i] == us[i];
    var r := Apply(g, u);
    if us != [] {
      var t := g.value.updatedAt;
      var i :| 0 <= i < |us| && us[i].value.updatedAt == t;
      assert vs[i].value.updatedAt == t;
      if CompletedAt(us, t) {
        var k :| 0 <= k < |us| && us[k].value.updatedAt == t && Complete(us[k].value);
        assert vs[k].value.updatedAt == t && Complete(vs[k].value);
      }
    }
  }

  /** Folding any updates: everything up to the last reset is forgotten, and of
      what follows the latest time remains, complete iff some update of that time
      is. */
  lemma {:induction false} RegisterHoldsLatest(current: Option<Goal>, updates: seq<Option<Goal>>)
    requires current == None || current.value.updatedAt == 0
    ensures Timed(Since(updates))
    ensures
      if Since(updates) == [] then ApplyAll(current, updates) == Base(current, updates)
      else Holds(ApplyAll(current, updates), Since(updates))
    ensures Base(current, updates) == None || Base(current, updates).value.updatedAt == 0
    decreases |updates|
  {
    SinceTimed(updates);
    if updates != [] {
      var n := |updates| - 1;
      RegisterHoldsLatest(current, updates[..n]);
      if !Resets(updates[n]) {
        ApplyHolds(ApplyAll(current, updates[..n]), Since(updates[..n]), updates[n]);
      }
    }
  }

  /** The update that remains: one of the latest time, complete if any of that time
      is, and the last such one to arrive. */
  ghost predicate Remains(us: seq<Option<Goal>>, i: int)
    requires Timed(us)
  {
    && 0 <= i < |us| && Latest(us, us[i].value.updatedAt)
    && (CompletedAt(us, us[i].value.updatedAt) ==> Complete(us[i].value))
    && forall j :: i < j < |us| && us[j].value.updatedAt == us[i].value.updatedAt ==>
         CompletedAt(us, us[i].value.updatedAt) && !Complete(us[j].value)
  }

  lemma RemainsAfter(us: seq<Option<Goal>>, u: Option<Goal>, i: nat) returns (k: nat)
    requires Timed(us) && !Resets(u) && Remains(us, i)
    ensures Timed(us + [u]) && Remains(us + [u], k) && (us + [u])[k] == Apply(us[i], u)
  {
    var vs := us + [u];
    var t := us[i].value.updatedAt;
    assert vs[|us|] == u && forall x :: 0 <= x < |us| ==> vs[x] == us[x];
    k := if Stale(us[i], u.value) then i else |us|;
    ApplyHolds(us[i], us, u);
    assert CompletedAt(us, t) ==> CompletedAt(vs, t) by {
      if CompletedAt(us, t) {
        var x :| 0 <= x < |us| && us[x].value.updatedAt == t && Complete(us[x].value);
        assert vs[x].value.updatedAt == t;
      }
    }
  }

  /** Folding any updates leaves, as a whole, one of those after the last reset: of
      two equally late and equally complete ones the second. */
  lemma {:induction false} LastOfTheLatestRemains(current: Option<Goal>, updates: seq<Option<Goal>>)
    requires current == None || current.value.updatedAt == 0
    ensures Timed(Since(updates))
    ensures Since(updates) != [] ==>
              exists i :: Remains(Since(updates), i) && ApplyAll(current, updates) == Since(updates)[i]
    decreases |updates|
  {
    SinceTimed(updates);
    RegisterHoldsLatest(current, updates);
    if updates != [] && !Resets(updates[|updates| - 1]) {
      var n := |updates| - 1;
      var us, u := Since(updates[..n]), updates[n];
      LastOfTheLatestRemains(current, updates[..n]);
      if us == [] {
        assert Since(updates) == [u];
        RegisterHoldsLatest(current, updates[..n]);
        assert ApplyAll(current, updates) == u;
        assert Remains([u], 0);
      } else {
        var i :| Remains(us, i) && ApplyAll(current, updates[..n]) == us[i];
        var k := RemainsAfter(us, u, i);
      }
    }
  }

  lemma {:induction false} AllTimed(updates: seq<Option<Goal>>)
    requires Timed(updates)
    ensures Since(updates) == updates
    decreases |updates|
  {
    if updates != [] {
      AllTimed(updates[..|updates| - 1]);
    }
  }

  /** Updates that all carry a time end alike whatever order they arrive in. */
  lemma ArrivalOrderDoesNotMatter(a: seq<Option<Goal>>, b: seq<Option<Goal>>)
    requires Timed(a) && Timed(b) && a != [] && multiset(a) == multiset(b)
    ensures
      var x, y := ApplyAll(None, a), ApplyAll(None, b);
      x.Some? && y.Some? && x.value.updatedAt == y.value.updatedAt && (Complete(x.value) <==> Complete(y.value))
  {
    AllTimed(a);
    AllTimed(b);
    RegisterHoldsLatest(None, a);
    RegisterHoldsLatest(None, b);
    assert forall u :: u in a <==> u in multiset(a);
    assert forall u :: u in b <==> u in multiset(b);
    assert forall u :: u in a <==> u in b;
    assert b != [];
    var x, y := ApplyAll(None, a).value, ApplyAll(None, b).value;
    assert Latest(b, x.updatedAt) by { SameLatest(a, b, x.updatedAt); }
    SameCompleted(a, b, x.updatedAt);
  }

  lemma SameLatest(a: seq<Option<Goal>>, b: seq<Option<Goal>>, t: int)
    requires Timed(a) && Timed(b) && (forall u :: u in a <==> u in b) && Latest(a, t)
    ensures Latest(b, t)
  {
    var i :| 0 <= i < |a| && a[i].value.updatedAt == t;
    assert a[i] in b;
    forall k | 0 <= k < |b|
      ensures b[k].value.updatedAt <= t
    {
      assert b[k] in a;
    }
  }

  lemma SameCompleted(a: seq<Option<Goal>>, b: seq<Option<Goal>>, t: int)
    requires Timed(a) && Timed(b) && (forall u :: u in a <==> u in b)
    ensures CompletedAt(a, t) <==> CompletedAt(b, t)
  {
    if CompletedAt(a, t) {
      var i :| 0 <= i < |a| && a[i].value.updatedAt == t && Complete(a[i].value);
      assert a[i] in b;
    }
    if CompletedAt(b, t) {
      var i :| 0 <= i < |b| && b[i].value.updatedAt == t && Complete(b[i].value);
      assert b[i] in a;
    }
  }
}
