/**
 Kahn's algorithm with a last-in first-out worklist. It returns an order exactly when the graph has no cycle; the
 order is a permutation of the nodes with every edge pointing forward, parallel edges included.
 */
module TopologicalSort {
  import opened Options
  import opened Sequences

  datatype Edge<T> = Edge(source: T, target: T)

  ghost predicate WellFormed<T>(nodes: seq<T>, edges: seq<Edge<T>>) {
    && Distinct(nodes)
    && forall e :: e in edges ==> e.source in nodes && e.target in nodes && e.source != e.target
  }

  /** A closed walk of at least one edge. */
  ghost predicate Cycle<T>(edges: seq<Edge<T>>, walk: seq<T>) {
    && |walk| >= 2 && walk[0] == walk[|walk| - 1]
    && forall i :: 0 <= i < |walk| - 1 ==> Edge(walk[i], walk[i + 1]) in edges
  }

  ghost predicate Acyclic<T(!new)>(edges: seq<Edge<T>>) {
    forall walk :: !Cycle(edges, walk)
  }

  /** The sources of all edges into a node of the order stand before it. */
  ghost predicate Forward<T(!new)>(edges: seq<Edge<T>>, order: seq<T>) {
    forall e, i :: e in edges && 0 <= i < |order| && order[i] == e.target ==> e.source in order[..i]
  }

  ghost predicate IsTopologicalOrder<T(!new)>(nodes: seq<T>, edges: seq<Edge<T>>, order: seq<T>) {
    Distinct(order) && (forall n :: n in order <==> n in nodes) && Forward(edges, order)
  }

  // ----- counting edges -----

  function Targets<T(==)>(edges: seq<Edge<T>>, node: T): seq<T> {
    if edges == [] then []
    else Targets(edges[..|edges| - 1], node)
         + if edges[|edges| - 1].source == node then [edges[|edges| - 1].target] else []
  }

  /** Edges into `node` whose source is not done yet. */
  ghost function Pending<T>(edges: seq<Edge<T>>, done: set<T>, node: T): nat {
    if edges == [] then 0
    else Pending(edges[..|edges| - 1], done, node)
         + if edges[|edges| - 1].target == node && edges[|edges| - 1].source !in done then 1 else 0
  }

  /** Finishing a node releases exactly its outgoing edges. */
  lemma {:induction false} PendingSplit<T>(edges: seq<Edge<T>>, done: set<T>, node: T, n: T)
    requires node !in done
    ensures Pending(edges, done, n) == Pending(edges, done + {node}, n) + Count(Targets(edges, node), n)
  {
    if edges != [] {
      var rest, last := edges[..|edges| - 1], edges[|edges| - 1];
      PendingSplit(rest, done, node, n);
      var tail := if last.source == node then [last.target] else [];
      CountConcat(Targets(rest, node), tail, n);
      assert Count(tail, n) == if last.source == node && last.target == n then 1 else 0 by {
        if last.source == node { assert tail[..0] == []; }
      }
    }
  }

  lemma {:induction false} PendingPositive<T>(edges: seq<Edge<T>>, done: set<T>, node: T)
    ensures Pending(edges, done, node) > 0 <==> exists e :: e in edges && e.target == node && e.source !in done
  {
    if edges != [] {
      var rest := edges[..|edges| - 1];
      PendingPositive(rest, done, node);
      assert edges == rest + [edges[|edges| - 1]];
    }
  }

  lemma {:induction false} TargetsAreEdges<T>(edges: seq<Edge<T>>, node: T, n: T)
    ensures n in Targets(edges, node) <==> Edge(node, n) in edges
  {
    if edges != [] {
      var rest, last := edges[..|edges| - 1], edges[|edges| - 1];
      TargetsAreEdges(rest, node, n);
      assert edges == rest + [last];
      assert last == Edge(last.source, last.target);
    }
  }

  // ----- orders and cycles -----

  /** Along a closed walk a forward order would have to climb for ever. */
  lemma {:induction false} WalkClimbs<T(!new)>(edges: seq<Edge<T>>, order: seq<T>, walk: seq<T>, i: nat)
    returns (j: nat)
    requires Distinct(order) && Forward(edges, order) && Cycle(edges, walk) && 1 <= i < |walk|
    requires forall e :: e in edges ==> e.target in order
    ensures j < |order| && order[j] == walk[i] && walk[0] in order[..j]
  {
    var e := Edge(walk[i - 1], walk[i]);
    assert e in edges;
    j :| 0 <= j < |order| && order[j] == e.target;
    assert e.source in order[..j];
    if i > 1 {
      var j' := WalkClimbs(edges, order, walk, i - 1);
      assert order[..j'] == order[..j][..j'];
    }
  }

  lemma {:induction false} ForwardIsAcyclic<T(!new)>(edges: seq<Edge<T>>, order: seq<T>)
    requires Distinct(order) && Forward(edges, order) && forall e :: e in edges ==> e.target in order
    ensures Acyclic(edges)
  {
    forall walk
      ensures !Cycle(edges, walk)
    {
      if Cycle(edges, walk) {
        var j := WalkClimbs(edges, order, walk, |walk| - 1);
      }
    }
  }

  ghost predicate HasSourceIn<T(!new)>(edges: seq<Edge<T>>, left: set<T>, n: T) {
    exists e :: e in edges && e.target == n && e.source in left
  }

  ghost predicate Path<T>(edges: seq<Edge<T>>, path: seq<T>) {
    path != [] && forall i :: 0 <= i < |path| - 1 ==> Edge(path[i], path[i + 1]) in edges
  }

  lemma {:induction false} PathGrows<T>(edges: seq<Edge<T>>, e: Edge<T>, path: seq<T>)
    requires Path(edges, path) && e in edges && e.target == path[0]
    ensures Path(edges, [e.source] + path)
  {
    var longer := [e.source] + path;
    forall i | 0 <= i < |longer| - 1
      ensures Edge(longer[i], longer[i + 1]) in edges
    {
      if i == 0 {
        assert e == Edge(longer[0], longer[1]);
      } else {
        assert Edge(path[i - 1], path[i]) in edges;
      }
    }
  }

  lemma {:induction false} PathCloses<T>(edges: seq<Edge<T>>, path: seq<T>, k: nat)
    requires Path(edges, path) && 0 < k < |path| && path[k] == path[0]
    ensures Cycle(edges, path[..k + 1])
  {
  }

  lemma {:induction false} SourceInside<T(!new)>(edges: seq<Edge<T>>, left: set<T>, path: seq<T>) returns (e: Edge<T>)
    requires path != [] && Elements(path) <= left && forall n :: n in left ==> HasSourceIn(edges, left, n)
    ensures e in edges && e.target == path[0] && e.source in left
  {
    assert path[0] in Elements(path);
    e :| e in edges && e.target == path[0] && e.source in left;
  }

  lemma {:induction false} PathStaysInside<T>(left: set<T>, n: T, path: seq<T>)
    requires Distinct(path) && Elements(path) <= left && n in left && n !in path
    ensures Distinct([n] + path) && Elements([n] + path) <= left && |path| < |left|
  {
    var longer := [n] + path;
    assert Elements(longer) == Elements(path) + {n};
    DistinctSize(longer);
    assert left == Elements(longer) + (left - Elements(longer));
  }

  /** If every node left over has a left-over predecessor, walking backwards closes a cycle. */
  lemma {:induction false} WalkBack<T(!new)>(edges: seq<Edge<T>>, left: set<T>, path: seq<T>) returns (walk: seq<T>)
    requires forall n :: n in left ==> HasSourceIn(edges, left, n)
    requires path != [] && Distinct(path) && Path(edges, path) && Elements(path) <= left
    ensures Cycle(edges, walk)
    decreases |left| - |path|
  {
    hide Cycle, Path;
    var e := SourceInside(edges, left, path);
    var longer := [e.source] + path;
    PathGrows(edges, e, path);
    if k :| 0 <= k < |path| && path[k] == e.source {
      PathCloses(edges, longer, k + 1);
      walk := longer[..k + 2];
    } else {
      PathStaysInside(left, e.source, path);
      walk := WalkBack(edges, left, longer);
    }
  }

  // ----- the algorithm -----

  /** State of the worklist: `order` is done, and exactly the nodes without pending edges are done or queued. */
  ghost predicate KahnState<T(!new)>(nodes: seq<T>, edges: seq<Edge<T>>, inDegree: map<T, int>, order: seq<T>,
                                     queue: seq<T>)
  {
    && Worklist(nodes, inDegree, order, queue)
    && Forward(edges, order)
    && forall n :: n in nodes ==> inDegree[n] == Pending(edges, Elements(order), n)
  }

  ghost predicate Worklist<T(!new)>(nodes: seq<T>, inDegree: map<T, int>, order: seq<T>, queue: seq<T>) {
    && inDegree.Keys == Elements(nodes)
    && Distinct(order) && Distinct(queue) && (forall n :: n in order ==> n !in queue)
    && forall n :: n in order || n in queue <==> n in nodes && inDegree[n] == 0
  }

  method Sort<T(==,!new)>(nodes: seq<T>, edges: seq<Edge<T>>) returns (result: Option<seq<T>>)
    requires WellFormed(nodes, edges)
    ensures result.Some? <==> Acyclic(edges)
    ensures result.Some? ==> IsTopologicalOrder(nodes, edges, result.value)
  {
    var adjacent, inDegree := BuildGraph(nodes, edges);
    var order: seq<T>, queue: seq<T> := [], [];
    for i := 0 to |nodes|
      invariant Distinct(queue) && forall n :: n in queue <==> n in nodes[..i] && inDegree[n] == 0
    {
      assert nodes[..i + 1] == nodes[..i] + [nodes[i]];
      if inDegree[nodes[i]] == 0 {
        queue := queue + [nodes[i]];
      }
    }
    assert nodes[..|nodes|] == nodes;
    assert Elements(order) == {};
    while queue != []
      invariant KahnState(nodes, edges, inDegree, order, queue)
      decreases |nodes| - |order|
    {
      order, inDegree, queue := Relax(nodes, edges, adjacent, inDegree, order, queue);
      SubsetSize(order, nodes);
    }
    SubsetSize(order, nodes);
    if |order| != |nodes| {
      StuckHasCycle(nodes, edges, inDegree, order);
      return None;
    }
    ForwardIsAcyclic(edges, order);
    return Some(order);
  }

  lemma {:induction false} StuckHasCycle<T(!new)>(nodes: seq<T>, edges: seq<Edge<T>>, inDegree: map<T, int>,
                                           order: seq<T>)
    requires WellFormed(nodes, edges) && KahnState(nodes, edges, inDegree, order, []) && |order| < |nodes|
    ensures !Acyclic(edges)
  {
    var left := Elements(nodes) - Elements(order);
    if forall n :: n in nodes ==> n in order {
      SubsetSize(nodes, order);
    }
    var n0 :| n0 in nodes && n0 !in order;
    forall n | n in left
      ensures HasSourceIn(edges, left, n)
    {
      PendingPositive(edges, Elements(order), n);
    }
    assert Elements([n0]) <= left;
    var walk := WalkBack(edges, left, [n0]);
  }

  method BuildGraph<T(==,!new)>(nodes: seq<T>, edges: seq<Edge<T>>)
    returns (adjacent: map<T, seq<T>>, inDegree: map<T, int>)
    requires WellFormed(nodes, edges)
    ensures GraphOf(nodes, edges, adjacent, inDegree)
  {
    adjacent, inDegree := map[], map[];
    for i := 0 to |nodes|
      invariant adjacent.Keys == inDegree.Keys == Elements(nodes[..i])
      invariant forall n :: n in nodes[..i] ==> adjacent[n] == [] && inDegree[n] == 0
    {
      assert nodes[..i + 1] == nodes[..i] + [nodes[i]];
      adjacent, inDegree := adjacent[nodes[i] := []], inDegree[nodes[i] := 0];
    }
    assert nodes[..|nodes|] == nodes;
    for k := 0 to |edges|
      invariant GraphOf(nodes, edges[..k], adjacent, inDegree)
    {
      var e := edges[k];
      EdgeAdded(nodes, edges, adjacent, inDegree, k);
      adjacent := adjacent[e.source := adjacent[e.source] + [e.target]];
      inDegree := inDegree[e.target := inDegree[e.target] + 1];
    }
    assert edges[..|edges|] == edges;
  }

  ghost predicate GraphOf<T>(nodes: seq<T>, edges: seq<Edge<T>>, adjacent: map<T, seq<T>>, inDegree: map<T, int>) {
    && adjacent.Keys == inDegree.Keys == Elements(nodes)
    && forall n :: n in adjacent ==> adjacent[n] == Targets(edges, n) && inDegree[n] == Pending(edges, {}, n)
  }

  lemma {:induction false} EdgeAdded<T>(nodes: seq<T>, edges: seq<Edge<T>>, adjacent: map<T, seq<T>>, inDegree: map<T,
                                        int>, k: nat)
    requires k < |edges| && edges[k].source in nodes && edges[k].target in nodes
    requires GraphOf(nodes, edges[..k], adjacent, inDegree)
    ensures var e := edges[k];
            GraphOf(nodes, edges[..k + 1], adjacent[e.source := adjacent[e.source] + [e.target]],
                    inDegree[e.target := inDegree[e.target] + 1])
  {
    assert edges[..k + 1][..k] == edges[..k];
  }

  /** One turn of the worklist: pop a node, append it to the order, release its neighbours. */
  method Relax<T(==,!new)>(nodes: seq<T>, edges: seq<Edge<T>>, adjacent: map<T, seq<T>>, inDegree: map<T, int>,
                           order: seq<T>, queue: seq<T>)
    returns (order': seq<T>, inDegree': map<T, int>, queue': seq<T>)
    requires WellFormed(nodes, edges) && queue != [] && KahnState(nodes, edges, inDegree, order, queue)
    requires adjacent.Keys == Elements(nodes) && forall n :: n in adjacent ==> adjacent[n] == Targets(edges, n)
    ensures KahnState(nodes, edges, inDegree', order', queue') && |order'| == |order| + 1
  {
    var current := queue[|queue| - 1];
    queue' := queue[..|queue| - 1];
    order' := order + [current];
    NodePopped(nodes, edges, inDegree, order, queue);
    var neighbours := adjacent[current];
    forall n | n in neighbours
      ensures n in nodes
    {
      TargetsAreEdges(edges, current, n);
    }
    inDegree', queue' := Release(nodes, edges, inDegree, order', queue', neighbours);
  }

  /** Releases the neighbours of a finished node; those without pending edges left join the worklist. */
  method Release<T(==,!new)>(nodes: seq<T>, edges: seq<Edge<T>>, inDegree: map<T, int>, order: seq<T>, queue: seq<T>,
                             neighbours: seq<T>)
    returns (inDegree': map<T, int>, queue': seq<T>)
    requires Worklist(nodes, inDegree, order, queue) && Releasing(nodes, edges, Elements(order), inDegree, neighbours)
    requires forall n :: n in neighbours ==> n in nodes
    ensures Worklist(nodes, inDegree', order, queue') && Releasing(nodes, edges, Elements(order), inDegree', [])
  {
    inDegree', queue' := inDegree, queue;
    ghost var done := Elements(order);
    assert neighbours[0..] == neighbours;
    for k := 0 to |neighbours|
      invariant Worklist(nodes, inDegree', order, queue')
      invariant Releasing(nodes, edges, done, inDegree', neighbours[k..])
    {
      var neighbour := neighbours[k];
      ReleaseOne(nodes, edges, done, inDegree', order, queue', neighbours, k);
      inDegree' := inDegree'[neighbour := inDegree'[neighbour] - 1];
      if inDegree'[neighbour] == 0 {
        queue' := queue' + [neighbour];
      }
    }
    assert neighbours[|neighbours|..] == [];
  }

  lemma {:induction false} NodePopped<T(!new)>(nodes: seq<T>, edges: seq<Edge<T>>, inDegree: map<T, int>,
                                        order: seq<T>, queue: seq<T>)
    requires WellFormed(nodes, edges) && queue != [] && KahnState(nodes, edges, inDegree, order, queue)
    ensures var current, order', queue' := queue[|queue| - 1], order + [queue[|queue| - 1]], queue[..|queue| - 1];
            && current in nodes
            && Worklist(nodes, inDegree, order', queue') && Forward(edges, order')
            && Releasing(nodes, edges, Elements(order'), inDegree, Targets(edges, current))
  {
    var current, queue' := queue[|queue| - 1], queue[..|queue| - 1];
    assert queue == queue' + [current];
    assert current in queue;
    AppendIsForward(edges, order, current);
    assert Elements(order + [current]) == Elements(order) + {current};
    forall n | n in nodes
      ensures inDegree[n] == Pending(edges, Elements(order + [current]), n) + Count(Targets(edges, current), n)
    {
      PendingSplit(edges, Elements(order), current, n);
    }
  }

  ghost predicate Releasing<T(!new)>(nodes: seq<T>, edges: seq<Edge<T>>, done: set<T>, inDegree: map<T, int>,
                                     rest: seq<T>)
  {
    && inDegree.Keys == Elements(nodes)
    && forall n :: n in nodes ==> inDegree[n] == Pending(edges, done, n) + Count(rest, n)
  }

  lemma {:induction false} ReleaseOne<T(!new)>(nodes: seq<T>, edges: seq<Edge<T>>, done: set<T>, inDegree: map<T, int>,
                                        order: seq<T>, queue: seq<T>, neighbours: seq<T>, k: nat)
    requires k < |neighbours| && neighbours[k] in nodes
    requires Worklist(nodes, inDegree, order, queue) && Releasing(nodes, edges, done, inDegree, neighbours[k..])
    ensures var x := neighbours[k];
            && var inDegree' := inDegree[x := inDegree[x] - 1];
            && Worklist(nodes, inDegree', order, if inDegree'[x] == 0 then queue + [x] else queue)
            && Releasing(nodes, edges, done, inDegree', neighbours[k + 1..])
  {
    var x := neighbours[k];
    CountRest(neighbours, k);
    assert inDegree[x] > 0;
    assert x !in order && x !in queue;
  }

  lemma {:induction false} AppendIsForward<T(!new)>(edges: seq<Edge<T>>, order: seq<T>, node: T)
    requires Forward(edges, order) && Pending(edges, Elements(order), node) == 0
    ensures Forward(edges, order + [node])
  {
    PendingPositive(edges, Elements(order), node);
    forall e, i | e in edges && 0 <= i < |order + [node]| && (order + [node])[i] == e.target
      ensures e.source in (order + [node])[..i]
    {
      assert (order + [node])[..i] == order[..i];
      if i == |order| {
        assert order[..i] == order;
      }
    }
  }
}
