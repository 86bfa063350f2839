/**
 One pass over the graph: every module of the execution order takes its turn once. A module drains some of its
 own inputs and sends signals on its own outputs; which, is left to the module.
 */
module GraphPass {
  import opened Sequences
  import opened Options
  import opened Ports
  import opened TopologicalSort
  import opened Graph

  datatype Emission = Emission(port: OutputPort, signal: Signal)

  /** What a module does on its turn: what its inputs hold afterwards, and what it sends. */
  datatype Turn = Turn(boxes: Inboxes, sends: seq<Emission>)

  type Behaviour = (Module, Inboxes) -> Turn

  /** Modules touch no inputs but their own, and send on no outputs but their own. */
  ghost predicate WellBehaved(act: Behaviour) {
    && (forall m: Module, boxes, p :: p !in m.inputs ==> Inbox(act(m, boxes).boxes, p) == Inbox(boxes, p))
    && (forall m: Module, boxes, e :: e in act(m, boxes).sends ==> e.port in m.outputs)
  }

  /** The input holds only signals of its type; a send delivers no others. */
  ghost predicate Typed(box: seq<Signal>, port: InputPort) {
    forall i :: 0 <= i < |box| ==> box[i].Type() == port.signalType
  }

  /** The module empties this input on every turn and sends itself nothing on it. */
  ghost predicate Drains(act: Behaviour, links: LinkTable, m: Module, port: InputPort) {
    forall boxes | Typed(Inbox(boxes, port), port) ::
      && Inbox(act(m, boxes).boxes, port) == []
      && forall e :: e in act(m, boxes).sends ==>
           port !in LinksOf(links, e.port) || e.signal.Type() != port.signalType
  }

  function SendAll(boxes: Inboxes, links: LinkTable, sends: seq<Emission>): Inboxes {
    if sends == [] then boxes
    else
      var last := sends[|sends| - 1];
      Delivered(SendAll(boxes, links, sends[..|sends| - 1]), LinksOf(links, last.port), last.signal)
  }

  lemma {:induction false} OneSend(boxes: Inboxes, links: LinkTable, e: Emission)
    ensures SendAll(boxes, links, [e]) == Delivered(boxes, LinksOf(links, e.port), e.signal)
  {
    assert [e][..0] == [];
  }

  function Pass(order: seq<Module>, act: Behaviour, links: LinkTable, boxes: Inboxes): Inboxes {
    if order == [] then boxes
    else
      var before := Pass(order[..|order| - 1], act, links, boxes);
      var turn := act(order[|order| - 1], before);
      SendAll(turn.boxes, links, turn.sends)
  }

  // ----- what arrives at one input during a pass -----

  function Arrivals(links: LinkTable, sends: seq<Emission>, port: InputPort): seq<Signal> {
    if sends == [] then []
    else
      var last := sends[|sends| - 1];
      Arrivals(links, sends[..|sends| - 1], port) + Copies(LinksOf(links, last.port), port, last.signal)
  }

  function PassArrivals(order: seq<Module>, act: Behaviour, links: LinkTable, boxes: Inboxes, port: InputPort)
    : seq<Signal>
  {
    if order == [] then []
    else
      var before := order[..|order| - 1];
      PassArrivals(before, act, links, boxes, port)
      + Arrivals(links, act(order[|order| - 1], Pass(before, act, links, boxes)).sends, port)
  }

  lemma {:induction false} SendAllInbox(boxes: Inboxes, links: LinkTable, sends: seq<Emission>, port: InputPort)
    ensures Inbox(SendAll(boxes, links, sends), port) == Inbox(boxes, port) + Arrivals(links, sends, port)
  {
    if sends != [] {
      var last := sends[|sends| - 1];
      var before := SendAll(boxes, links, sends[..|sends| - 1]);
      SendAllInbox(boxes, links, sends[..|sends| - 1], port);
      DeliveredInbox(before, LinksOf(links, last.port), last.signal, port);
    }
  }

  lemma {:induction false} NoArrivals(links: LinkTable, sends: seq<Emission>, port: InputPort)
    requires forall e :: e in sends ==> port !in LinksOf(links, e.port) || e.signal.Type() != port.signalType
    ensures Arrivals(links, sends, port) == []
  {
    if sends != [] {
      var last := sends[|sends| - 1];
      NoArrivals(links, sends[..|sends| - 1], port);
      NoCopies(LinksOf(links, last.port), port, last.signal);
    }
  }

  lemma {:induction false} ArrivalsAreTyped(links: LinkTable, sends: seq<Emission>, port: InputPort)
    ensures Typed(Arrivals(links, sends, port), port)
  {
    if sends != [] {
      var last := sends[|sends| - 1];
      ArrivalsAreTyped(links, sends[..|sends| - 1], port);
      CopiesAreTyped(LinksOf(links, last.port), port, last.signal);
    }
  }

  lemma {:induction false} CopiesAreTyped(targets: seq<InputPort>, port: InputPort, signal: Signal)
    ensures Typed(Copies(targets, port, signal), port)
  {
    if targets != [] { CopiesAreTyped(targets[..|targets| - 1], port, signal); }
  }

  lemma {:induction false} PassArrivalsAreTyped(order: seq<Module>, act: Behaviour, links: LinkTable, boxes: Inboxes,
                                                port: InputPort)
    ensures Typed(PassArrivals(order, act, links, boxes, port), port)
  {
    if order != [] {
      var before := order[..|order| - 1];
      PassArrivalsAreTyped(before, act, links, boxes, port);
      ArrivalsAreTyped(links, act(order[|order| - 1], Pass(before, act, links, boxes)).sends, port);
    }
  }

  /** A graph in which `port` belongs to `d` alone and every link into it is a recorded connection. */
  ghost predicate Wired(modules: seq<Module>, connections: seq<Connection>, links: LinkTable, order: seq<Module>,
                        d: Module, port: InputPort)
  {
    && UniqueOwners(modules) && Recorded(modules, connections, links)
    && IsTopologicalOrder(modules, GraphEdges(modules, connections), order)
    && d in modules && port in d.inputs
  }

  /** A module linked to the port stands before its owner. */
  lemma {:induction false} LinkedStandsBefore(modules: seq<Module>, connections: seq<Connection>, links: LinkTable,
                                              order: seq<Module>, d: Module, port: InputPort, k: nat, m: Module,
                                              o: OutputPort)
    requires Wired(modules, connections, links, order, d, port)
    requires k < |order| && order[k] == d && m in order && m != d && o in m.outputs && port in LinksOf(links, o)
    ensures m in order[..k]
  {
    var c := Connection(o, port);
    assert m in modules;
    assert SourceModule(modules, o) == Some(m) && TargetModule(modules, port) == Some(d);
    assert Owned(modules, c);
    ConnectionIsEdge(modules, connections, c);
    var e := Edge(m, d);
    assert e in GraphEdges(modules, connections) && order[k] == e.target;
  }

  lemma {:induction false} LaterSendsMiss(modules: seq<Module>, connections: seq<Connection>, links: LinkTable,
                                          order: seq<Module>, act: Behaviour, boxes: Inboxes, d: Module,
                                          port: InputPort, k: nat, j: nat)
    requires WellBehaved(act) && Wired(modules, connections, links, order, d, port)
    requires k < j < |order| && order[k] == d
    ensures Arrivals(links, act(order[j], boxes).sends, port) == []
  {
    var m := order[j];
    forall e | e in act(m, boxes).sends && port in LinksOf(links, e.port)
      ensures false
    {
      assert e.port in m.outputs;
      LinkedStandsBefore(modules, connections, links, order, d, port, k, m, e.port);
    }
    NoArrivals(links, act(m, boxes).sends, port);
  }

  /** One turn, seen from the port: another module's turn only adds what it sends. */
  lemma {:induction false} PassStep(modules: seq<Module>, order: seq<Module>, act: Behaviour, links: LinkTable,
                                    boxes: Inboxes, d: Module, port: InputPort, i: nat)
    requires WellBehaved(act) && UniqueOwners(modules) && d in modules && port in d.inputs
    requires 0 < i <= |order| && order[i - 1] in modules
    ensures var m, before := order[i - 1], Pass(order[..i - 1], act, links, boxes);
            var sent := Arrivals(links, act(m, before).sends, port);
            && Inbox(Pass(order[..i], act, links, boxes), port) == Inbox(act(m, before).boxes, port) + sent
            && (m != d ==> Inbox(act(m, before).boxes, port) == Inbox(before, port))
            && PassArrivals(order[..i], act, links, boxes, port)
               == PassArrivals(order[..i - 1], act, links, boxes, port) + sent
  {
    assert order[..i][..i - 1] == order[..i - 1];
    var m, before := order[i - 1], Pass(order[..i - 1], act, links, boxes);
    SendAllInbox(act(m, before).boxes, links, act(m, before).sends, port);
  }

  lemma {:induction false} BeforeTheFirst(act: Behaviour, links: LinkTable, boxes: Inboxes, port: InputPort)
    ensures Pass([], act, links, boxes) == boxes && PassArrivals([], act, links, boxes, port) == []
  {
  }

  /** Before its turn the input only gathers what arrives. */
  lemma {:induction false} GathersUpTo(modules: seq<Module>, order: seq<Module>, act: Behaviour, links: LinkTable,
                                       boxes: Inboxes, d: Module, port: InputPort, k: nat, i: nat)
    requires WellBehaved(act) && UniqueOwners(modules) && d in modules && port in d.inputs
    requires Distinct(order) && k < |order| && order[k] == d && forall m :: m in order ==> m in modules
    requires i <= k
    ensures Inbox(Pass(order[..i], act, links, boxes), port)
         == Inbox(boxes, port) + PassArrivals(order[..i], act, links, boxes, port)
  {
    hide WellBehaved, UniqueOwners, Inbox, Pass, PassArrivals, Arrivals;
    if i == 0 {
      BeforeTheFirst(act, links, boxes, port);
    } else {
      assert order[i - 1] in order;
      GathersUpTo(modules, order, act, links, boxes, d, port, k, i - 1);
      PassStep(modules, order, act, links, boxes, d, port, i);
    }
  }

  lemma {:induction false} OwnTurn(act: Behaviour, links: LinkTable, boxes: Inboxes, d: Module, port: InputPort)
    requires Drains(act, links, d, port) && Typed(Inbox(boxes, port), port)
    ensures Inbox(act(d, boxes).boxes, port) == [] && Arrivals(links, act(d, boxes).sends, port) == []
  {
    NoArrivals(links, act(d, boxes).sends, port);
  }

  /** After its turn nothing arrives any more. */
  lemma {:induction false} EmptyAfter(modules: seq<Module>, connections: seq<Connection>, order: seq<Module>,
                                      act: Behaviour, links: LinkTable, boxes: Inboxes, d: Module, port: InputPort,
                                      k: nat, i: nat)
    requires WellBehaved(act) && Wired(modules, connections, links, order, d, port) && Drains(act, links, d, port)
    requires k < i <= |order| && order[k] == d && Typed(Inbox(Pass(order[..k], act, links, boxes), port), port)
    ensures Inbox(Pass(order[..i], act, links, boxes), port) == []
    ensures PassArrivals(order[..i], act, links, boxes, port) == PassArrivals(order[..k], act, links, boxes, port)
  {
    hide WellBehaved, UniqueOwners, Recorded, GraphEdges, Forward, Pass, PassArrivals, Arrivals, Inbox, Typed, Drains;
    var before := Pass(order[..i - 1], act, links, boxes);
    assert order[i - 1] in order;
    PassStep(modules, order, act, links, boxes, d, port, i);
    if i - 1 > k {
      EmptyAfter(modules, connections, order, act, links, boxes, d, port, k, i - 1);
      LaterSendsMiss(modules, connections, links, order, act, before, d, port, k, i - 1);
    } else {
      OwnTurn(act, links, before, d, port);
    }
  }

  /**
   One pass over an acyclic graph: on its turn a draining module finds everything the input held before the pass and
   everything sent to it during the whole pass, and the input is empty when the pass ends.
   */
  lemma {:induction false} PassDrainsInput(modules: seq<Module>, connections: seq<Connection>, order: seq<Module>,
                                           act: Behaviour, links: LinkTable, boxes: Inboxes, d: Module,
                                           port: InputPort) returns (k: nat)
    requires WellBehaved(act) && Wired(modules, connections, links, order, d, port) && Drains(act, links, d, port)
    requires Typed(Inbox(boxes, port), port)
    ensures k < |order| && order[k] == d
    ensures Inbox(Pass(order[..k], act, links, boxes), port)
         == Inbox(boxes, port) + PassArrivals(order, act, links, boxes, port)
    ensures Inbox(Pass(order, act, links, boxes), port) == []
  {
    assert d in order;
    k :| 0 <= k < |order| && order[k] == d;
    GathersUpTo(modules, order, act, links, boxes, d, port, k, k);
    PassArrivalsAreTyped(order[..k], act, links, boxes, port);
    EmptyAfter(modules, connections, order, act, links, boxes, d, port, k, |order|);
    assert order[..|order|] == order;
  }
}
