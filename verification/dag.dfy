/** internal/domain/dag.go: cycle detection by a three-colour depth-first search. */
module Dag {
  import opened Domain

  /** A finite dependency graph; ids outside the map have no dependencies. */
  type Graph = map<TaskId, seq<TaskId>>

  ghost predicate Edge(g: Graph, a: TaskId, b: TaskId) {
    a in g && b in g[a]
  }

  ghost predicate IsPath(g: Graph, p: seq<TaskId>) {
    |p| > 0 && forall i :: 0 < i < |p| ==> Edge(g, p[i - 1], p[i])
  }

  ghost predicate Reaches(g: Graph, a: TaskId, b: TaskId) {
    exists p :: IsPath(g, p) && p[0] == a && p[|p| - 1] == b
  }

  ghost predicate OnCycle(g: Graph, x: TaskId) {
    exists p :: IsPath(g, p) && |p| > 1 && p[0] == x && p[|p| - 1] == x
  }

  ghost predicate CycleReachable(g: Graph, start: TaskId) {
    exists x :: Reaches(g, start, x) && OnCycle(g, x)
  }

  lemma ExtendPath(g: Graph, p: seq<TaskId>, b: TaskId)
    requires IsPath(g, p) && Edge(g, p[|p| - 1], b)
    ensures IsPath(g, p + [b])
  {
  }

  /** A list in which every dependency of an element stands strictly earlier. */
  ghost predicate Topological(g: Graph, order: seq<TaskId>) {
    forall k, d :: 0 <= k < |order| && Edge(g, order[k], d) ==> d in order[..k]
  }

  /** Along a path that starts inside a topological list, positions strictly decrease. */
  lemma {:induction false} PathDescends(g: Graph, order: seq<TaskId>, p: seq<TaskId>, k: nat)
    requires Topological(g, order) && IsPath(g, p)
    requires k < |order| && order[k] == p[0]
    ensures p[|p| - 1] in order[..k + 1]
    ensures |p| > 1 ==> p[|p| - 1] in order[..k]
    decreases |p|
  {
    if |p| > 1 {
      var q := p[1..];
      assert Edge(g, p[0], p[1]);
      var j :| 0 <= j < k && order[j] == p[1];
      assert IsPath(g, q) by {
        forall i | 0 < i < |q| ensures Edge(g, q[i - 1], q[i]) {
          assert Edge(g, p[i], p[i + 1]);
        }
      }
      PathDescends(g, order, q, j);
      assert q[|q| - 1] == p[|p| - 1];
      assert forall x :: x in order[..j + 1] ==> x in order[..k];
    }
  }

  /** A topological list closed over its first positions contains no node of a cycle. */
  lemma TopologicalMeansAcyclic(g: Graph, order: seq<TaskId>, x: TaskId)
    requires Topological(g, order) && x in order
    ensures !OnCycle(g, x)
  {
    if OnCycle(g, x) {
      var p :| IsPath(g, p) && |p| > 1 && p[0] == x && p[|p| - 1] == x;
      var k := First(order, x);
      PathDescends(g, order, p, k);
    }
  }

  function First(s: seq<TaskId>, x: TaskId): (k: nat)
    requires x in s
    ensures k < |s| && s[k] == x && x !in s[..k]
  {
    if s[0] == x then 0 else
      assert x in s[1..];
      var k := 1 + First(s[1..], x);
      assert s[..k] == [s[0]] + s[1..][..k - 1];
      k
  }

  /** Everything reachable from a member of a topological list is in the list. */
  lemma ReachableIsListed(g: Graph, order: seq<TaskId>, a: TaskId, b: TaskId)
    requires Topological(g, order) && a in order && Reaches(g, a, b)
    ensures b in order
  {
    var p :| IsPath(g, p) && p[0] == a && p[|p| - 1] == b;
    PathDescends(g, order, p, First(order, a));
  }

  predicate Distinct<T(==)>(s: seq<T>) {
    forall i, j :: 0 <= i < j < |s| ==> s[i] != s[j]
  }

  /** Uncoloured ids are white. */
  datatype Colour = Gray | Black

  ghost function Nodes(g: Graph, start: TaskId): set<TaskId> {
    {start} + g.Keys + (set k, d | k in g && d in g[k] :: d)
  }

  predicate Keeps(was: map<TaskId, Colour>, now: map<TaskId, Colour>) {
    forall x :: x in was ==> x in now && now[x] == was[x]
  }

  class Search {
    const g: Graph
    const start: TaskId
    var colour: map<TaskId, Colour>
    ghost var finished: seq<TaskId>  // black ids in the order they turned black
    ghost var expanded: seq<TaskId>  // ids whose dependency list was asked for, in order

    /** The gray ids are the recursion stack, a path from the start; the black ids form a
        topological list; every coloured id is reachable and was expanded exactly once. */
    ghost predicate Valid(stack: seq<TaskId>)
      reads this
    {
      Shape(stack, {})
    }

    /** The same while some coloured ids have not been asked for their dependencies yet. */
    ghost predicate Shape(stack: seq<TaskId>, unasked: set<TaskId>)
      reads this
    {
      && (stack == [] || (IsPath(g, stack) && stack[0] == start))
      && (forall x :: x in colour && colour[x].Gray? <==> x in stack)
      && (forall x :: x in colour && colour[x].Black? <==> x in finished)
      && Topological(g, finished)
      && colour.Keys <= Nodes(g, start)
      && Distinct(expanded)
      && (forall x :: x in expanded <==> x in colour && x !in unasked)
      && (forall x :: x in colour ==> Reaches(g, start, x))
    }

    constructor (g: Graph, start: TaskId)
      ensures Valid([]) && this.g == g && this.start == start && colour == map[]
    {
      this.g := g;
      this.start := start;
      colour := map[];
      finished := [];
      expanded := [];
    }

    /** However far the search got: no id was expanded twice, and only reachable ones were. */
    ghost predicate ExpandedOnce()
      reads this
    {
      Distinct(expanded) && forall x :: x in expanded ==> Reaches(g, start, x)
    }

    /** The recursive closure of the source.  It fails on an id of a cycle; otherwise the id
        and everything it depends on turn black and the stack is as before. */
    method Visit(id: TaskId, ghost stack: seq<TaskId>) returns (err: Option<TaskId>)
      requires Valid(stack)
      requires if stack == [] then id == start else Edge(g, stack[|stack| - 1], id)
      modifies this
      ensures err.None? ==> Valid(stack) && id in finished
      ensures err.None? ==> Keeps(old(colour), colour)
      ensures err.Some? ==> OnCycle(g, err.value) && Reaches(g, start, err.value)
      ensures ExpandedOnce()
      decreases Nodes(g, start) - colour.Keys, 0
    {
      if id in colour && colour[id].Gray? {
        StackCloses(g, stack, id);
        return Some(id);
      }
      if id in colour {
        return None;
      }
      Enter(id, stack);
      var deps := GetDeps(id, stack + [id]);
      err := VisitAll(id, deps, stack + [id]);
      if err.None? {
        Finish(id, stack);
      }
    }

    /** getDeps(id), recorded. */
    method GetDeps(id: TaskId, ghost path: seq<TaskId>) returns (deps: seq<TaskId>)
      requires Shape(path, {id}) && id in colour
      modifies this`expanded
      ensures Valid(path) && expanded == old(expanded) + [id]
      ensures id in g ==> deps == g[id]
      ensures id !in g ==> deps == []
    {
      deps := if id in g then g[id] else [];
      expanded := expanded + [id];
    }

    /** The loop over the dependencies of id, with id on top of the stack. */
    method VisitAll(id: TaskId, deps: seq<TaskId>, ghost path: seq<TaskId>) returns (err: Option<TaskId>)
      requires Valid(path) && path != [] && path[|path| - 1] == id
      requires if id in g then deps == g[id] else deps == []
      modifies this
      ensures err.None? ==> Valid(path) && forall d :: Edge(g, id, d) ==> d in finished
      ensures err.None? ==> Keeps(old(colour), colour)
      ensures err.Some? ==> OnCycle(g, err.value) && Reaches(g, start, err.value)
      ensures ExpandedOnce()
      decreases Nodes(g, start) - colour.Keys, 1
    {
      for i := 0 to |deps|
        invariant Valid(path)
        invariant Keeps(old(colour), colour)
        invariant forall j :: 0 <= j < i ==> deps[j] in finished
      {
        ghost var mid, done := colour, finished;
        err := Visit(deps[i], path);
        if err.Some? {
          return;
        }
        BlackStays(mid, colour, done);
      }
      return None;
    }

    /** color[id] = gray */
    method Enter(id: TaskId, ghost stack: seq<TaskId>)
      requires Valid(stack) && id !in colour
      requires if stack == [] then id == start else Edge(g, stack[|stack| - 1], id)
      modifies this
      ensures Shape(stack + [id], {id}) && colour == old(colour)[id := Gray] && finished == old(finished)
      ensures id in Nodes(g, start)
    {
      EnterReachable(g, start, stack, id);
      assert forall x :: x in stack + [id] <==> x in stack || x == id;
      colour := colour[id := Gray];
    }

    lemma BlackStays(was: map<TaskId, Colour>, now: map<TaskId, Colour>, done: seq<TaskId>)
      requires Keeps(was, now) && now == colour
      requires forall x :: x in done ==> x in was && was[x].Black?
      requires forall x :: x in colour && colour[x].Black? <==> x in finished
      ensures forall x :: x in done ==> x in finished
    {
    }

    /** color[id] = black */
    method Finish(id: TaskId, ghost stack: seq<TaskId>)
      requires Valid(stack + [id]) && id !in stack && id !in finished
      requires stack == [] || (IsPath(g, stack) && stack[0] == start)
      requires forall d :: Edge(g, id, d) ==> d in finished
      modifies this
      ensures Valid(stack) && id in finished && colour == old(colour)[id := Black]
    {
      assert forall x :: x in stack + [id] <==> x in stack || x == id;
      assert id in stack + [id];
      colour := colour[id := Black];
      ghost var was := finished;
      finished := finished + [id];
      forall k, d | 0 <= k < |finished| && Edge(g, finished[k], d) ensures d in finished[..k] {
        if k < |was| {
          assert was[k] == finished[k];
          assert finished[..k] == was[..k];
        } else {
          assert finished[..k] == was;
        }
      }
    }
  }

  lemma StackCloses(g: Graph, stack: seq<TaskId>, id: TaskId)
    requires stack != [] && IsPath(g, stack) && Edge(g, stack[|stack| - 1], id) && id in stack
    ensures OnCycle(g, id)
    ensures Reaches(g, stack[0], id)
  {
    var k := First(stack, id);
    var p := stack[k..] + [id];
    assert IsPath(g, stack[k..]);
    ExtendPath(g, stack[k..], id);
    assert p[0] == id && p[|p| - 1] == id;
    assert IsPath(g, stack[..k + 1]);
  }

  lemma EnterReachable(g: Graph, start: TaskId, stack: seq<TaskId>, id: TaskId)
    requires stack == [] || (IsPath(g, stack) && stack[0] == start)
    requires if stack == [] then id == start else Edge(g, stack[|stack| - 1], id)
    ensures IsPath(g, stack + [id]) && (stack + [id])[0] == start
    ensures Reaches(g, start, id)
    ensures id in Nodes(g, start)
  {
    var p := stack + [id];
    if stack != [] {
      ExtendPath(g, stack, id);
    }
    assert p[|p| - 1] == id;
  }

  /** CheckCycle succeeds exactly when no cycle is reachable from the start, and otherwise
      names an id that lies on one. */
  method CheckCycle(start: TaskId, g: Graph) returns (err: Option<TaskId>)
    ensures err.None? <==> !CycleReachable(g, start)
    ensures err.Some? ==> OnCycle(g, err.value) && Reaches(g, start, err.value)
  {
    var search := new Search(g, start);
    err := RunSearch(search);
  }

  /** The whole search: no id is expanded twice, whatever the outcome, and on success the black
      ids are exactly the reachable ones, each expanded. */
  method RunSearch(search: Search) returns (err: Option<TaskId>)
    requires search.Valid([]) && search.colour == map[]
    modifies search
    ensures err.None? <==> !CycleReachable(search.g, search.start)
    ensures err.Some? ==> OnCycle(search.g, err.value) && Reaches(search.g, search.start, err.value)
    ensures err.None? ==> forall x :: Reaches(search.g, search.start, x) <==> x in search.colour
    ensures err.None? ==> forall x :: x in search.colour ==> search.colour[x].Black?
    ensures search.ExpandedOnce()
    ensures err.None? ==> forall x :: x in search.expanded <==> x in search.colour
  {
    err := search.Visit(search.start, []);
    if err.None? {
      forall x | Reaches(search.g, search.start, x) ensures x in search.finished && !OnCycle(search.g, x) {
        ReachableIsListed(search.g, search.finished, search.start, x);
        TopologicalMeansAcyclic(search.g, search.finished, x);
      }
    }
  }
}
