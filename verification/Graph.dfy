/** The audio graph: modules, connections between their ports, and the cached execution order. */
module Graph {
  import opened Options
  import opened Sequences
  import opened Ports
  import opened TopologicalSort

  /** A module is its identity and the ports it owns. */
  datatype Module = Module(id: nat, inputs: seq<InputPort>, outputs: seq<OutputPort>)

  datatype Connection = Connection(source: OutputPort, target: InputPort)

  /** Owner of an output port; the search goes on after a match, so the last owner counts. */
  function SourceModule(modules: seq<Module>, port: OutputPort): (m: Option<Module>)
    ensures m.Some? ==> m.value in modules && port in m.value.outputs
    ensures m.None? ==> forall n :: n in modules ==> port !in n.outputs
  {
    if modules == [] then None
    else
      assert modules == modules[..|modules| - 1] + [modules[|modules| - 1]];
      if port in modules[|modules| - 1].outputs then Some(modules[|modules| - 1])
      else SourceModule(modules[..|modules| - 1], port)
  }

  function TargetModule(modules: seq<Module>, port: InputPort): (m: Option<Module>)
    ensures m.Some? ==> m.value in modules && port in m.value.inputs
    ensures m.None? ==> forall n :: n in modules ==> port !in n.inputs
  {
    if modules == [] then None
    else
      assert modules == modules[..|modules| - 1] + [modules[|modules| - 1]];
      if port in modules[|modules| - 1].inputs then Some(modules[|modules| - 1])
      else TargetModule(modules[..|modules| - 1], port)
  }

  /** The edges between distinct modules, one per connection. */
  function GraphEdges(modules: seq<Module>, connections: seq<Connection>): (edges: seq<Edge<Module>>)
    ensures forall e :: e in edges ==> e.source in modules && e.target in modules && e.source != e.target
  {
    if connections == [] then []
    else
      var c := connections[|connections| - 1];
      var source, target := SourceModule(modules, c.source), TargetModule(modules, c.target);
      GraphEdges(modules, connections[..|connections| - 1])
      + if source.Some? && target.Some? && source != target then [Edge(source.value, target.value)] else []
  }

  /** Every connection makes one edge of its own, between the owners of its ports, unless one is missing or both are
      the same. */
  lemma {:induction false} EdgeOfConnection(modules: seq<Module>, c: Connection)
    ensures var source, target := SourceModule(modules, c.source), TargetModule(modules, c.target);
            GraphEdges(modules, [c])
            == if source.Some? && target.Some? && source != target then [Edge(source.value, target.value)] else []
  {
    assert [c][..0] == [];
  }

  lemma {:induction false} EdgesConcat(modules: seq<Module>, a: seq<Connection>, b: seq<Connection>)
    ensures GraphEdges(modules, a + b) == GraphEdges(modules, a) + GraphEdges(modules, b)
    decreases |b|
  {
    hide SourceModule, TargetModule;
    if b == [] {
      assert a + b == a;
    } else {
      assert (a + b)[..|a + b| - 1] == a + b[..|b| - 1];
      EdgesConcat(modules, a, b[..|b| - 1]);
    }
  }

  lemma {:induction false} ConnectionIsEdge(modules: seq<Module>, connections: seq<Connection>, c: Connection)
    requires c in connections
    requires SourceModule(modules, c.source).Some? && TargetModule(modules, c.target).Some?
    requires SourceModule(modules, c.source) != TargetModule(modules, c.target)
    ensures Edge(SourceModule(modules, c.source).value, TargetModule(modules, c.target).value)
            in GraphEdges(modules, connections)
  {
    var rest, last := connections[..|connections| - 1], connections[|connections| - 1];
    assert connections == rest + [last];
    if c != last {
      ConnectionIsEdge(modules, rest, c);
    }
  }

  /** Every edge comes from a connection between its modules. */
  lemma {:induction false} EdgeIsConnection(modules: seq<Module>, connections: seq<Connection>, e: Edge<Module>)
    returns (c: Connection)
    requires e in GraphEdges(modules, connections)
    ensures c in connections
    ensures SourceModule(modules, c.source) == Some(e.source) && TargetModule(modules, c.target) == Some(e.target)
  {
    var rest, last := connections[..|connections| - 1], connections[|connections| - 1];
    assert connections == rest + [last];
    if e in GraphEdges(modules, rest) {
      c := EdgeIsConnection(modules, rest, e);
    } else {
      c := last;
    }
  }

  /** No port belongs to two modules. */
  ghost predicate UniqueOwners(modules: seq<Module>) {
    && (forall m, n, p :: m in modules && n in modules && p in m.outputs && p in n.outputs ==> m == n)
    && (forall m, n, p :: m in modules && n in modules && p in m.inputs && p in n.inputs ==> m == n)
  }

  ghost predicate Owned(modules: seq<Module>, c: Connection) {
    SourceModule(modules, c.source).Some? && TargetModule(modules, c.target).Some?
  }

  ghost predicate Touches(m: Module, c: Connection) {
    c.source in m.outputs || c.target in m.inputs
  }

  function Detached(connections: seq<Connection>, m: Module): seq<Connection> {
    if connections == [] then []
    else
      var c := connections[|connections| - 1];
      Detached(connections[..|connections| - 1], m)
      + if c.source in m.outputs || c.target in m.inputs then [] else [c]
  }

  lemma {:induction false} DetachedMembers(connections: seq<Connection>, m: Module, c: Connection)
    ensures c in Detached(connections, m) <==> c in connections && !Touches(m, c)
  {
    if connections != [] {
      assert connections == connections[..|connections| - 1] + [connections[|connections| - 1]];
      DetachedMembers(connections[..|connections| - 1], m, c);
    }
  }

  /** Connections that do not touch the module stay in their order. */
  lemma {:induction false} DetachedConcat(a: seq<Connection>, b: seq<Connection>, m: Module)
    ensures Detached(a + b, m) == Detached(a, m) + Detached(b, m)
    decreases |b|
  {
    if b == [] {
      assert a + b == a;
    } else {
      assert (a + b)[..|a + b| - 1] == a + b[..|b| - 1];
      DetachedConcat(a, b[..|b| - 1], m);
    }
  }

  /** Connections that do not touch the module stay as often as they were, the others go. */
  lemma {:induction false} DetachedCounts(connections: seq<Connection>, m: Module, c: Connection)
    ensures Count(Detached(connections, m), c) == if Touches(m, c) then 0 else Count(connections, c)
  {
    if connections != [] {
      var rest, last := connections[..|connections| - 1], connections[|connections| - 1];
      DetachedCounts(rest, m, c);
      CountConcat(Detached(rest, m), if Touches(m, last) then [] else [last], c);
      assert [last][..0] == [];
    }
  }

  /** The cached order is a topological order, or empty if there is none. */
  ghost predicate OrderCached(modules: seq<Module>, edges: seq<Edge<Module>>, order: seq<Module>) {
    if Acyclic(edges) then IsTopologicalOrder(modules, edges, order) else order == []
  }

  /** The cached order is empty exactly when the graph is cyclic or has no modules. */
  lemma {:induction false} OrderEmptyIff(modules: seq<Module>, edges: seq<Edge<Module>>, order: seq<Module>)
    requires OrderCached(modules, edges, order)
    ensures order == [] <==> !Acyclic(edges) || modules == []
  {
    assert modules != [] ==> modules[0] in modules;
    assert order != [] ==> order[0] in order;
  }

  /** Every recorded connection has both endpoints in the graph. */
  ghost predicate EndpointsOwned(modules: seq<Module>, connections: seq<Connection>) {
    forall c :: c in connections ==> Owned(modules, c)
  }

  /** Every link between ports of the graph is a recorded connection. */
  ghost predicate Recorded(modules: seq<Module>, connections: seq<Connection>, links: LinkTable) {
    forall o, i :: i in LinksOf(links, o) && Owned(modules, Connection(o, i)) ==> Connection(o, i) in connections
  }

  ghost predicate Unlinked(links: LinkTable, m: Module) {
    && (forall o :: o in m.outputs ==> LinksOf(links, o) == [])
    && (forall o, i :: i in LinksOf(links, o) ==> i !in m.inputs)
  }

  lemma {:induction false} AdditionKeeps(modules: seq<Module>, connections: seq<Connection>, links: LinkTable,
                                         m: Module)
    ensures EndpointsOwned(modules, connections) ==> EndpointsOwned(modules + [m], connections)
    ensures Recorded(modules, connections, links) && Unlinked(links, m) ==> Recorded(modules + [m], connections, links)
  {
    forall c
      ensures Owned(modules, c) ==> Owned(modules + [m], c)
      ensures Owned(modules + [m], c) && !Touches(m, c) ==> Owned(modules, c)
    {
      assert (modules + [m])[..|modules|] == modules;
      assert forall n :: n in modules ==> n in modules + [m];
    }
  }

  /** A module not in the graph yet keeps the links recorded exactly if no link joins one of its ports to the graph. */
  lemma {:induction false} AdditionKeepsRecordedIff(modules: seq<Module>, connections: seq<Connection>,
                                                    links: LinkTable, m: Module)
    requires EndpointsOwned(modules, connections) && Recorded(modules, connections, links)
    requires m !in modules && UniqueOwners(modules + [m])
    ensures Recorded(modules + [m], connections, links)
       <==> forall o, i :: i in LinksOf(links, o) && Owned(modules + [m], Connection(o, i)) ==>
              !Touches(m, Connection(o, i))
  {
    forall c
      ensures Owned(modules + [m], c) && !Touches(m, c) ==> Owned(modules, c)
      ensures c in connections ==> !Touches(m, c)
    {
      assert (modules + [m])[..|modules|] == modules;
      assert m in modules + [m] && forall n :: n in modules ==> n in modules + [m];
    }
  }

  lemma {:induction false} RemovalKeepsEndpoints(modules: seq<Module>, connections: seq<Connection>, k: nat)
    requires k < |modules| && EndpointsOwned(modules, connections)
    ensures EndpointsOwned(Dropped(modules, k), Detached(connections, modules[k]))
  {
    forall c | c in Detached(connections, modules[k])
      ensures Owned(Dropped(modules, k), c)
    {
      DetachedMembers(connections, modules[k], c);
      var s, t := SourceModule(modules, c.source).value, TargetModule(modules, c.target).value;
      assert s in Dropped(modules, k) && t in Dropped(modules, k);
    }
  }

  lemma {:induction false} OwnedByLess(modules: seq<Module>, k: nat, c: Connection)
    requires k < |modules| && Distinct(modules) && UniqueOwners(modules) && Owned(Dropped(modules, k), c)
    ensures Owned(modules, c) && !Touches(modules[k], c)
  {
    var rest := Dropped(modules, k);
    var s, t := SourceModule(rest, c.source).value, TargetModule(rest, c.target).value;
    assert s in modules && t in modules && s != modules[k] && t != modules[k];
  }

  lemma {:induction false} RemovalKeepsRecorded(modules: seq<Module>, connections: seq<Connection>, links: LinkTable,
                                                k: nat)
    requires k < |modules| && Distinct(modules) && UniqueOwners(modules) && Recorded(modules, connections, links)
    ensures Recorded(Dropped(modules, k), Detached(connections, modules[k]), links)
  {
    forall o, i | i in LinksOf(links, o) && Owned(Dropped(modules, k), Connection(o, i))
      ensures Connection(o, i) in Detached(connections, modules[k])
    {
      OwnedByLess(modules, k, Connection(o, i));
      DetachedMembers(connections, modules[k], Connection(o, i));
    }
  }

  lemma {:induction false} DisconnectKeepsRecorded(modules: seq<Module>, connections: seq<Connection>,
                                                   links: LinkTable, k: nat)
    requires k < |connections| && Recorded(modules, connections, links)
    ensures var c := connections[k];
            Recorded(modules, Dropped(connections, k),
                     links[c.source := Without(LinksOf(links, c.source), c.target)])
  {
    var gone := connections[k];
    var links' := links[gone.source := Without(LinksOf(links, gone.source), gone.target)];
    forall o, i | i in LinksOf(links', o) && Owned(modules, Connection(o, i))
      ensures Connection(o, i) in Dropped(connections, k)
    {
      WithoutMembers(LinksOf(links, gone.source), gone.target, i);
      assert i in LinksOf(links, o) && Connection(o, i) != gone;
    }
  }

  class AudioGraph {
    var modules: seq<Module>
    var connections: seq<Connection>
    var executionOrder: seq<Module>
    const ports: PortNetwork

    ghost function Edges(): seq<Edge<Module>>
      reads this
    {
      GraphEdges(modules, connections)
    }

    ghost predicate Valid()
      reads this
    {
      Distinct(modules) && OrderCached(modules, Edges(), executionOrder)
    }

    ghost predicate Closed()
      reads this
    {
      EndpointsOwned(modules, connections)
    }

    ghost predicate LinksRecorded()
      reads this, ports
    {
      Recorded(modules, connections, ports.links)
    }

    constructor ()
      ensures Valid() && Closed() && LinksRecorded() && modules == [] && connections == []
      ensures fresh(ports) && ports.links == map[] && ports.boxes == map[]
    {
      modules, connections, executionOrder := [], [], [];
      ports := new PortNetwork();
      new;
      assert IsTopologicalOrder([], GraphEdges([], []), []);
    }

    method UpdateExecutionOrder()
      requires Distinct(modules)
      modifies `executionOrder
      ensures Valid()
    {
      var edges := CollectEdges();
      var order := Sort(modules, edges);
      executionOrder := if order.Some? then order.value else [];
    }

    method CollectEdges() returns (edges: seq<Edge<Module>>)
      ensures edges == Edges()
    {
      edges := [];
      for k := 0 to |connections|
        invariant edges == GraphEdges(modules, connections[..k])
      {
        var c := connections[k];
        var source: Option<Module>, target: Option<Module> := None, None;
        for i := 0 to |modules|
          invariant source == SourceModule(modules[..i], c.source)
          invariant target == TargetModule(modules[..i], c.target)
        {
          assert modules[..i + 1][..i] == modules[..i];
          if c.source in modules[i].outputs {
            source := Some(modules[i]);
          }
          if c.target in modules[i].inputs {
            target := Some(modules[i]);
          }
        }
        assert modules[..|modules|] == modules;
        assert connections[..k + 1][..k] == connections[..k];
        if source.Some? && target.Some? && source != target {
          edges := edges + [Edge(source.value, target.value)];
        }
      }
      assert connections[..|connections|] == connections;
    }

    method AddModule(m: Module)
      requires Valid()
      modifies this
      ensures Valid() && connections == old(connections)
      ensures modules == if m in old(modules) then old(modules) else old(modules) + [m]
      ensures old(Closed()) ==> Closed()
      ensures old(LinksRecorded()) && Unlinked(ports.links, m) ==> LinksRecorded()
    {
      if m !in modules {
        AdditionKeeps(modules, connections, ports.links, m);
        modules := modules + [m];
        UpdateExecutionOrder();
      }
    }

    method IndexOf(m: Module) returns (k: nat)
      ensures k <= |modules| && m !in modules[..k]
      ensures if m in modules then k < |modules| && modules[k] == m else k == |modules|
    {
      k := 0;
      while k < |modules| && modules[k] != m
        invariant k <= |modules| && m !in modules[..k]
      {
        k := k + 1;
      }
      assert k == |modules| ==> modules[..k] == modules;
    }

    method ConnectionsWithout(m: Module) returns (kept: seq<Connection>)
      ensures kept == Detached(connections, m)
    {
      kept := [];
      for i := 0 to |connections|
        invariant kept == Detached(connections[..i], m)
      {
        assert connections[..i + 1][..i] == connections[..i];
        if !(connections[i].source in m.outputs || connections[i].target in m.inputs) {
          kept := kept + [connections[i]];
        }
      }
      assert connections[..|connections|] == connections;
    }

    /** Fails, changing nothing, if the module is not in the graph. */
    method RemoveModule(m: Module) returns (ok: bool)
      requires Valid()
      modifies this
      ensures Valid() && ok == (m in old(modules))
      ensures !ok ==> unchanged(this)
      ensures ok ==> m !in modules && modules == RemoveFirst(old(modules), m)
      ensures ok ==> connections == Detached(old(connections), m)
      ensures old(Closed()) ==> Closed()
      ensures old(LinksRecorded()) && old(UniqueOwners(modules)) ==> LinksRecorded()
    {
      hide RemoveFirst, Detached, GraphEdges, OrderCached, Recorded, EndpointsOwned;
      var k := IndexOf(m);
      if k == |modules| {
        return false;
      }
      var kept := ConnectionsWithout(m);
      if Closed() {
        RemovalKeepsEndpoints(modules, connections, k);
      }
      if LinksRecorded() && UniqueOwners(modules) {
        RemovalKeepsRecorded(modules, connections, ports.links, k);
      }
      assert modules[k] !in Dropped(modules, k);
      RemoveFirstIsDropped(modules, m, k);
      connections := kept;
      modules := Dropped(modules, k);
      UpdateExecutionOrder();
      return true;
    }

    /** Records the connection and links the ports. */
    method Connect(source: OutputPort, target: InputPort)
      requires Valid()
      modifies this, ports`links
      ensures Valid() && modules == old(modules)
      ensures connections == old(connections) + [Connection(source, target)]
      ensures ports.links == old(ports.links)[source := old(ports.Links(source)) + [target]]
      ensures old(Closed()) && Owned(modules, Connection(source, target)) ==> Closed()
      ensures old(LinksRecorded()) ==> LinksRecorded()
    {
      connections := connections + [Connection(source, target)];
      ports.Connect(source, target);
      UpdateExecutionOrder();
    }

    /** Removes one recorded connection, and all links, between the two ports; fails if none is recorded. */
    method Disconnect(source: OutputPort, target: InputPort) returns (ok: bool)
      requires Valid()
      modifies this, ports`links
      ensures Valid() && modules == old(modules)
      ensures ok == (Connection(source, target) in old(connections))
      ensures !ok ==> unchanged(this) && unchanged(ports)
      ensures ok ==> connections == RemoveFirst(old(connections), Connection(source, target))
      ensures ok ==> ports.links == old(ports.links)[source := Without(old(ports.Links(source)), target)]
      ensures old(Closed()) ==> Closed()
      ensures old(LinksRecorded()) ==> LinksRecorded()
    {
      var c := Connection(source, target);
      var k := 0;
      while k < |connections| && connections[k] != c
        invariant k <= |connections| && c !in connections[..k]
      {
        k := k + 1;
      }
      if k == |connections| {
        assert connections[..k] == connections;
        return false;
      }
      if LinksRecorded() {
        DisconnectKeepsRecorded(modules, connections, ports.links, k);
      }
      RemoveFirstIsDropped(connections, c, k);
      connections := Dropped(connections, k);
      ports.Disconnect(source, target);
      UpdateExecutionOrder();
      return true;
    }
  }

  // ----- runs of graph commands -----

  /** Commands as the engine issues them: connections are looked up among the modules of the graph. */
  datatype Command =
    | Add(added: Module)
    | Remove(removed: Module)
    | CreateConnection(source: OutputPort, target: InputPort)
    | RemoveConnection(source: OutputPort, target: InputPort)

  datatype Wiring = Wiring(modules: seq<Module>, connections: seq<Connection>, links: LinkTable)

  ghost function Obeyed(w: Wiring, command: Command): Wiring {
    match command
    case Add(m) => if m in w.modules then w else w.(modules := w.modules + [m])
    case Remove(m) =>
      if m in w.modules
      then w.(modules := RemoveFirst(w.modules, m), connections := Detached(w.connections, m)) else w
    case CreateConnection(source, target) =>
      var c := Connection(source, target);
      if Owned(w.modules, c)
      then w.(connections := w.connections + [c], links := w.links[source := LinksOf(w.links, source) + [target]])
      else w
    case RemoveConnection(source, target) =>
      var c := Connection(source, target);
      if Owned(w.modules, c) && c in w.connections
      then w.(connections := RemoveFirst(w.connections, c),
              links := w.links[source := Without(LinksOf(w.links, source), target)])
      else w
  }

  ghost function AllObeyed(w: Wiring, commands: seq<Command>): Wiring
    decreases |commands|
  {
    if commands == [] then w else Obeyed(AllObeyed(w, commands[..|commands| - 1]), commands[|commands| - 1])
  }

  ghost function WiringOf(g: AudioGraph): Wiring
    reads g, g.ports
  {
    Wiring(g.modules, g.connections, g.ports.links)
  }

  /** Over every run of commands both endpoints of every connection stay in the graph and the cached order is right. */
  method Run(g: AudioGraph, commands: seq<Command>)
    requires g.Valid() && g.Closed()
    modifies g, g.ports
    ensures g.Valid() && g.Closed()
    ensures WiringOf(g) == AllObeyed(old(WiringOf(g)), commands)
  {
    for i := 0 to |commands|
      invariant g.Valid() && g.Closed()
      invariant WiringOf(g) == AllObeyed(old(WiringOf(g)), commands[..i])
    {
      assert commands[..i + 1][..i] == commands[..i];
      Execute(g, commands[i]);
    }
    assert commands[..|commands|] == commands;
  }

  method Execute(g: AudioGraph, command: Command)
    requires g.Valid() && g.Closed()
    modifies g, g.ports
    ensures g.Valid() && g.Closed()
    ensures WiringOf(g) == Obeyed(old(WiringOf(g)), command)
  {
    hide EndpointsOwned, Recorded, OrderCached, GraphEdges, Unlinked, Distinct, Detached, UniqueOwners, RemoveFirst;
    match command {
      case Add(m) => g.AddModule(m);
      case Remove(m) =>
        var ok := g.RemoveModule(m);
      case CreateConnection(source, target) =>
        if SourceModule(g.modules, source).Some? && TargetModule(g.modules, target).Some? {
          g.Connect(source, target);
        }
      case RemoveConnection(source, target) =>
        if SourceModule(g.modules, source).Some? && TargetModule(g.modules, target).Some? {
          var ok := g.Disconnect(source, target);
        }
    }
  }

  // ----- when every link is a recorded connection -----

  function Added(commands: seq<Command>): seq<Module> {
    if commands == [] then []
    else Added(commands[..|commands| - 1])
         + if commands[|commands| - 1].Add? then [commands[|commands| - 1].added] else []
  }

  /** The modules added later are new, own their ports alone, and are not linked yet. */
  ghost predicate FreshAdditions(modules: seq<Module>, links: LinkTable, added: seq<Module>) {
    && Distinct(modules) && Distinct(added)
    && UniqueOwners(modules + added)
    && forall m :: m in added ==> m !in modules && Unlinked(links, m)
  }

  ghost predicate Healthy(w: Wiring, added: seq<Module>) {
    && EndpointsOwned(w.modules, w.connections) && Recorded(w.modules, w.connections, w.links)
    && FreshAdditions(w.modules, w.links, added)
  }

  /** Over every run that adds only fresh modules, links between ports of the graph are recorded connections. */
  lemma {:induction false} FreshRunsRecordLinks(w: Wiring, commands: seq<Command>, later: seq<Module>)
    requires Healthy(w, Added(commands) + later)
    ensures Healthy(AllObeyed(w, commands), later)
    decreases |commands|
  {
    hide Healthy, Obeyed;
    if commands == [] {
      assert [] + later == later;
    } else {
      var before, command := commands[..|commands| - 1], commands[|commands| - 1];
      var now := if command.Add? then [command.added] else [];
      assert Added(commands) + later == Added(before) + (now + later);
      FreshRunsRecordLinks(w, before, now + later);
      ObeyedKeepsHealthy(AllObeyed(w, before), command, later);
    }
  }

  lemma {:induction false} ObeyedKeepsHealthy(w: Wiring, command: Command, later: seq<Module>)
    requires Healthy(w, (if command.Add? then [command.added] else []) + later)
    ensures Healthy(Obeyed(w, command), later)
  {
    hide FreshAdditions, UniqueOwners, EndpointsOwned, Recorded, Unlinked, Distinct, Detached, RemoveFirst;
    assert [] + later == later;
    OwnersOfFresh(w.modules, w.links, (if command.Add? then [command.added] else []) + later);
    match command {
      case Add(m) =>
        FirstIsFresh(w.modules, w.links, m, later);
        AdditionKeeps(w.modules, w.connections, w.links, m);
      case Remove(m) =>
        if m in w.modules {
          var k := FirstIndex(w.modules, m);
          RemoveFirstIsDropped(w.modules, m, k);
          RemovalKeepsEndpoints(w.modules, w.connections, k);
          RemovalKeepsRecorded(w.modules, w.connections, w.links, k);
          FewerModulesStayFresh(w.modules, w.links, later, k);
        }
      case CreateConnection(source, target) =>
        if Owned(w.modules, Connection(source, target)) {
          NewLinkStaysFresh(w.modules, w.links, later, source, target);
          NewLinkIsRecorded(w, source, target);
        }
      case RemoveConnection(source, target) =>
        var c := Connection(source, target);
        if Owned(w.modules, c) && c in w.connections {
          var k := FirstIndex(w.connections, c);
          RemoveFirstIsDropped(w.connections, c, k);
          FewerLinksStayFresh(w.modules, w.links, later, source, target);
          DisconnectKeepsRecorded(w.modules, w.connections, w.links, k);
          FewerConnectionsStayOwned(w.modules, w.connections, k);
        }
    }
  }

  lemma {:induction false} NewLinkIsRecorded(w: Wiring, source: OutputPort, target: InputPort)
    requires EndpointsOwned(w.modules, w.connections) && Recorded(w.modules, w.connections, w.links)
    requires Owned(w.modules, Connection(source, target))
    ensures var w' := Obeyed(w, CreateConnection(source, target));
            EndpointsOwned(w'.modules, w'.connections) && Recorded(w'.modules, w'.connections, w'.links)
  {
  }

  lemma {:induction false} FewerConnectionsStayOwned(modules: seq<Module>, connections: seq<Connection>, k: nat)
    requires k < |connections| && EndpointsOwned(modules, connections)
    ensures EndpointsOwned(modules, Dropped(connections, k))
  {
  }

  /** Freshness is needed: a removed module keeps its links, so adding it again brings back one that is not recorded. */
  lemma {:induction false} ReaddedModuleKeepsLinks(a: Module, b: Module, o: OutputPort, i: InputPort)
    requires a != b && o in a.outputs && i in b.inputs && o !in b.outputs
    ensures var w := Wiring([a, b], [Connection(o, i)], map[o := [i]]);
            var w' := AllObeyed(w, [Remove(b), Add(b)]);
            w'.modules == w.modules && w'.links == w.links && w'.connections == []
            && !Recorded(w'.modules, w'.connections, w'.links)
  {
    var c, links := Connection(o, i), map[o := [i]];
    assert Detached([], b) == [] && [c][..0] == [] && Detached([c], b) == [];
    assert RemoveFirst([a, b], b) == [a] + RemoveFirst([b], b) == [a];
    assert b in [a, b] && a in [a, b];
    var w, commands := Wiring([a, b], [c], links), [Remove(b), Add(b)];
    assert commands[..1][..0] == [];
    assert AllObeyed(w, commands[..1]) == Obeyed(AllObeyed(w, []), Remove(b)) == Wiring([a], [], links);
    assert AllObeyed(w, commands) == Obeyed(Wiring([a], [], links), Add(b)) == Wiring([a, b], [], links);
    assert i in LinksOf(links, o) && Owned([a, b], c);
  }

  lemma {:induction false} OwnersOfFresh(modules: seq<Module>, links: LinkTable, added: seq<Module>)
    requires FreshAdditions(modules, links, added)
    ensures UniqueOwners(modules) && Distinct(modules)
  {
    assert forall m :: m in modules ==> m in modules + added;
  }

  lemma {:induction false} FirstIsFresh(modules: seq<Module>, links: LinkTable, m: Module, rest: seq<Module>)
    requires FreshAdditions(modules, links, [m] + rest)
    ensures m !in modules && Unlinked(links, m) && FreshAdditions(modules + [m], links, rest)
  {
    assert ([m] + rest)[0] == m && forall i :: 0 <= i < |rest| ==> ([m] + rest)[i + 1] == rest[i];
    assert modules + ([m] + rest) == modules + [m] + rest;
  }

  lemma {:induction false} FewerModulesStayFresh(modules: seq<Module>, links: LinkTable, added: seq<Module>, k: nat)
    requires FreshAdditions(modules, links, added) && k < |modules|
    ensures FreshAdditions(Dropped(modules, k), links, added)
  {
    assert forall m :: m in Dropped(modules, k) ==> m in modules;
  }

  lemma {:induction false} NewLinkStaysFresh(modules: seq<Module>, links: LinkTable, added: seq<Module>,
                                             source: OutputPort, target: InputPort)
    requires FreshAdditions(modules, links, added) && Owned(modules, Connection(source, target))
    ensures FreshAdditions(modules, links[source := LinksOf(links, source) + [target]], added)
  {
    var s, t := SourceModule(modules, source).value, TargetModule(modules, target).value;
    assert s in modules + added && t in modules + added;
    var links' := links[source := LinksOf(links, source) + [target]];
    forall m | m in added
      ensures Unlinked(links', m)
    {
      assert m in modules + added && Unlinked(links, m);
      forall o, i | i in LinksOf(links', o)
        ensures i !in m.inputs
      {
        assert i in LinksOf(links, o) || (o == source && i == target);
      }
    }
  }

  lemma {:induction false} FewerLinksStayFresh(modules: seq<Module>, links: LinkTable, added: seq<Module>,
                                               source: OutputPort, target: InputPort)
    requires FreshAdditions(modules, links, added)
    ensures FreshAdditions(modules, links[source := Without(LinksOf(links, source), target)], added)
  {
    var links' := links[source := Without(LinksOf(links, source), target)];
    forall m | m in added
      ensures Unlinked(links', m)
    {
      assert Unlinked(links, m);
      forall o, i | i in LinksOf(links', o)
        ensures i !in m.inputs
      {
        WithoutMembers(LinksOf(links, source), target, i);
        assert i in LinksOf(links, o);
      }
    }
  }
}
