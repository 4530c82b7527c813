/** Which threads the bridge follows: the roots and whatever their tasks lead
    to, computed with a worklist and kept until the roots change. */
module Interest {
  import opened Wrappers

  datatype Task = Task(agentThread: string, taskId: string)

  type Graph = map<string, seq<Task>>

  function ChildOf(t: Task): string { if t.agentThread != "" then t.agentThread else t.taskId }

  /** `y` is a child link of a stored thread `x`. */
  ghost predicate Links(g: Graph, x: string, y: string) {
    && x in g && y != ""
    && exists i :: 0 <= i < |g[x]| && (if g[x][i].agentThread != "" then g[x][i].agentThread else g[x][i].taskId) == y
  }

  ghost predicate Path(g: Graph, p: seq<string>) {
    p != [] && forall i :: 0 <= i < |p| - 1 ==> Links(g, p[i], p[i + 1])
  }

  ghost predicate Reaches(g: Graph, roots: set<string>, x: string) {
    exists p :: Path(g, p) && p[0] in roots && p[|p| - 1] == x
  }

  ghost predicate Closed(g: Graph, s: set<string>) {
    forall x, y :: x in s && Links(g, x, y) ==> y in s
  }

  lemma RootReaches(g: Graph, roots: set<string>, x: string)
    requires x in roots
    ensures Reaches(g, roots, x)
  {
    assert Path(g, [x]);
  }

  lemma LinkReaches(g: Graph, roots: set<string>, x: string, y: string)
    requires Reaches(g, roots, x) && Links(g, x, y)
    ensures Reaches(g, roots, y)
  {
    var p :| Path(g, p) && p[0] in roots && p[|p| - 1] == x;
    assert Path(g, p + [y]);
  }

  lemma {:induction false} ClosedHoldsPath(g: Graph, s: set<string>, p: seq<string>, n: nat)
    requires Closed(g, s) && Path(g, p) && p[0] in s && n < |p|
    ensures p[n] in s
  {
    if n > 0 {
      ClosedHoldsPath(g, s, p, n - 1);
      assert Links(g, p[n - 1], p[n]);
    }
  }

  /** A closed set that holds the roots holds whatever they reach. */
  lemma ClosedHoldsReachable(g: Graph, roots: set<string>, s: set<string>)
    requires Closed(g, s) && roots <= s
    ensures forall x :: Reaches(g, roots, x) ==> x in s
  {
    forall x | Reaches(g, roots, x)
      ensures x in s
    {
      var p :| Path(g, p) && p[0] in roots && p[|p| - 1] == x;
      ClosedHoldsPath(g, s, p, |p| - 1);
    }
  }

  /** Everything the worklist can ever meet. */
  function Universe(g: Graph, roots: set<string>): set<string> {
    roots + set x, i | x in g && 0 <= i < |g[x]| :: ChildOf(g[x][i])
  }

  ghost predicate Exactly(g: Graph, roots: set<string>, s: set<string>) {
    forall x :: x in s <==> Reaches(g, roots, x)
  }

  /** Links already followed stay inside the managed set. */
  ghost predicate Followed(g: Graph, managed: set<string>, pending: seq<string>) {
    forall x, y :: x in managed && x !in pending && Links(g, x, y) ==> y in managed
  }

  ghost predicate Sound(g: Graph, roots: set<string>, managed: set<string>, pending: seq<string>) {
    && roots <= managed <= Universe(g, roots)
    && (forall x :: x in managed ==> Reaches(g, roots, x))
    && (forall x :: x in pending ==> x in managed)
  }

  ghost predicate Lists(q: seq<string>, s: set<string>) { forall x :: x in q <==> x in s }

  method ListOf(s: set<string>) returns (q: seq<string>)
    ensures Lists(q, s)
  {
    q := [];
    var rest := s;
    while rest != {}
      invariant rest <= s && forall x :: x in q <==> x in s - rest
    {
      var x :| x in rest;
      q := q + [x];
      rest := rest - {x};
    }
  }

  lemma AddChild(g: Graph, roots: set<string>, parent: string, i: nat, managed: set<string>, pending: seq<string>)
    requires parent in g && parent in managed && i < |g[parent]| && ChildOf(g[parent][i]) != ""
    requires Sound(g, roots, managed, pending) && Followed(g, managed, pending + [parent])
    ensures
      var child := ChildOf(g[parent][i]);
      Sound(g, roots, managed + {child}, pending + [child]) && Followed(g, managed + {child}, pending + [child] + [parent])
  {
    var child := ChildOf(g[parent][i]);
    assert Links(g, parent, child);
    LinkReaches(g, roots, parent, child);
    hide Links, Reaches;
  }

  lemma ParentFollowed(g: Graph, parent: string, managed: set<string>, pending: seq<string>)
    requires parent in g ==> forall k :: 0 <= k < |g[parent]| && ChildOf(g[parent][k]) != "" ==> ChildOf(g[parent][k]) in managed
    requires Followed(g, managed, pending + [parent])
    ensures Followed(g, managed, pending)
  {
  }

  /** Follow the child links of one parent. */
  method Expand(g: Graph, ghost roots: set<string>, parent: string, managed: set<string>, pending: seq<string>)
    returns (managed': set<string>, pending': seq<string>)
    requires parent in g && parent in managed
    requires Sound(g, roots, managed, pending) && Followed(g, managed, pending + [parent])
    ensures Sound(g, roots, managed', pending') && Followed(g, managed', pending')
    ensures managed <= managed' && (managed' == managed ==> pending' == pending)
  {
    hide Sound, Followed;
    managed', pending' := managed, pending;
    var tasks := g[parent];
    for i := 0 to |tasks|
      invariant Sound(g, roots, managed', pending') && managed <= managed' && (managed' == managed ==> pending' == pending)
      invariant Followed(g, managed', pending' + [parent])
      invariant forall k :: 0 <= k < i && ChildOf(tasks[k]) != "" ==> ChildOf(tasks[k]) in managed'
    {
      var child := ChildOf(tasks[i]);
      if child == "" || child in managed' { continue; }
      AddChild(g, roots, parent, i, managed', pending');
      managed', pending' := managed' + {child}, pending' + [child];
    }
    ParentFollowed(g, parent, managed', pending');
  }

  class ManagedThreads {
    var cache: set<string>
    var snapshot: Option<set<string>>
    var provisional: set<string>
    ghost var seen: Graph               // the stored threads when the cache was filled

    /** A cached set is exact for the roots and threads it was computed from. */
    ghost predicate Valid()
      reads this
    {
      snapshot.Some? ==> Exactly(seen, snapshot.value, cache)
    }

    constructor ()
      ensures Valid() && snapshot == None && provisional == {}
    {
      cache, snapshot, provisional, seen := {}, None, {}, map[];
    }

    method Invalidate()
      modifies this`snapshot
      ensures Valid() && snapshot == None
    {
      snapshot := None;
    }

    /** `_managed_thread_ids`. */
    method ManagedThreadIds(roots: set<string>, states: Graph) returns (managed: set<string>)
      requires Valid()
      modifies this`cache, this`snapshot, this`seen
      ensures Valid() && snapshot == Some(roots)
      ensures old(snapshot) != Some(roots) ==> seen == states
      ensures old(snapshot) == Some(roots) ==> seen == old(seen) && cache == old(cache)
      ensures forall x :: x in managed <==> Reaches(seen, roots, x) || x in provisional
    {
      if snapshot != Some(roots) {
        cache := Reachable(states, roots);
        snapshot := Some(roots);
        seen := states;
      }
      managed := cache + provisional;
    }
  }

  lemma Begins(g: Graph, roots: set<string>, pending: seq<string>)
    requires Lists(pending, roots)
    ensures Sound(g, roots, roots, pending) && Followed(g, roots, pending)
  {
    forall x | x in roots
      ensures Reaches(g, roots, x)
    {
      RootReaches(g, roots, x);
    }
    hide Reaches;
  }

  lemma Ends(g: Graph, roots: set<string>, managed: set<string>)
    requires Sound(g, roots, managed, []) && Followed(g, managed, [])
    ensures Exactly(g, roots, managed)
  {
    assert Closed(g, managed);
    ClosedHoldsReachable(g, roots, managed);
  }

  lemma Popped(g: Graph, roots: set<string>, managed: set<string>, rest: seq<string>, parent: string)
    requires Sound(g, roots, managed, rest + [parent])
    ensures Sound(g, roots, managed, rest) && parent in managed
  {
    hide Universe;
    assert (rest + [parent])[|rest|] == parent;
    assert forall x :: x in rest ==> x in rest + [parent];
  }

  lemma Shrinks<T>(u: set<T>, a: set<T>, b: set<T>)
    requires a <= b <= u && a != b
    ensures |u - b| < |u - a|
  {
    assert b == a + (b - a);
    var x :| x in b - a;
    assert u - b <= u - a - {x};
    Smaller(u - b, u - a - {x});
  }

  lemma Grows(g: Graph, roots: set<string>, a: set<string>, b: set<string>, pending: seq<string>)
    requires Sound(g, roots, b, pending) && a <= b && a != b
    ensures |Universe(g, roots) - b| < |Universe(g, roots) - a|
  {
    var u := Universe(g, roots);
    assert b <= u by { hide Universe, Reaches; }
    hide *;
    Shrinks(u, a, b);
  }

  /** The worklist, on any graph: cyclic, or with links to unknown threads. */
  method Reachable(g: Graph, roots: set<string>) returns (managed: set<string>)
    ensures Exactly(g, roots, managed)
  {
    hide *;
    managed := roots;
    var pending := ListOf(roots);
    Begins(g, roots, pending);
    while pending != []
      invariant Sound(g, roots, managed, pending) && Followed(g, managed, pending)
      decreases |Universe(g, roots) - managed|, |pending|
    {
      var parent := pending[|pending| - 1];
      assert pending == pending[..|pending| - 1] + [parent];
      ghost var before := managed;
      pending := pending[..|pending| - 1];
      Popped(g, roots, managed, pending, parent);
      if parent in g {
        managed, pending := Expand(g, roots, parent, managed, pending);
        if before != managed { Grows(g, roots, before, managed, pending); }
      } else {
        ParentFollowed(g, parent, managed, pending);
      }
    }
    Ends(g, roots, managed);
  }

  lemma Smaller<T>(a: set<T>, b: set<T>)
    requires a <= b
    ensures |a| <= |b|
  {
    assert b == a + (b - a);
  }
}
