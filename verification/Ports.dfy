/**
 Ports of modules. A port is its identity and its signal type; the network holds what the port objects store: the
 signals an input port has received and not handed out yet, and the input ports an output port is linked to.
 */
module Ports {
  import opened Events
  import opened Options
  import opened Sequences

  datatype SignalType = AudioType | ControlType | EventType

  datatype Signal = AudioSignal(samples: seq<real>) | ControlSignal(values: seq<real>) | EventSignal(event: Event) {
    function Type(): SignalType {
      match this
      case AudioSignal(_) => AudioType
      case ControlSignal(_) => ControlType
      case EventSignal(_) => EventType
    }
  }

  datatype InputPort = InputPort(id: nat, signalType: SignalType)
  datatype OutputPort = OutputPort(id: nat, signalType: SignalType)

  type Inboxes = map<InputPort, seq<Signal>>

  function Inbox(boxes: Inboxes, port: InputPort): seq<Signal> {
    if port in boxes then boxes[port] else []
  }

  type LinkTable = map<OutputPort, seq<InputPort>>

  function LinksOf(links: LinkTable, port: OutputPort): seq<InputPort> {
    if port in links then links[port] else []
  }

  /** Type-filtered fan-out: every linked input of the signal's type stores it, once per link. */
  function Delivered(boxes: Inboxes, targets: seq<InputPort>, signal: Signal): Inboxes {
    if targets == [] then boxes
    else
      var before, last := Delivered(boxes, targets[..|targets| - 1], signal), targets[|targets| - 1];
      if last.signalType == signal.Type() then before[last := Inbox(before, last) + [signal]] else before
  }

  // ----- draining an input port: last in, first out -----

  /** The events a drain sees: from the back, up to the first signal that is no event. */
  function DrainView(box: seq<Signal>): seq<Event> {
    if box == [] || !box[|box| - 1].EventSignal? then []
    else [box[|box| - 1].event] + DrainView(box[..|box| - 1])
  }

  /** What is left: a signal that is no event is popped, and ends the drain. */
  function DrainRest(box: seq<Signal>): seq<Signal> {
    if box == [] then []
    else if !box[|box| - 1].EventSignal? then box[..|box| - 1]
    else DrainRest(box[..|box| - 1])
  }

  function Drained(boxes: Inboxes, port: InputPort): Inboxes {
    if Inbox(boxes, port) == [] then boxes else boxes[port := DrainRest(Inbox(boxes, port))]
  }

  ghost predicate OnlyEvents(box: seq<Signal>) {
    forall i :: 0 <= i < |box| ==> box[i].EventSignal?
  }

  function EventsOf(box: seq<Signal>): (events: seq<Event>)
    requires OnlyEvents(box)
    ensures |events| == |box|
  {
    seq(|box|, i requires 0 <= i < |box| => box[i].event)
  }

  /** The drain sees the events of the port in reverse, and leaves nothing. */
  lemma {:induction false} DrainReverses(box: seq<Signal>)
    requires OnlyEvents(box)
    ensures DrainView(box) == Reverse(EventsOf(box)) && DrainRest(box) == []
  {
    if box != [] {
      DrainReverses(box[..|box| - 1]);
    }
  }

  /** One signal handed out by a drain that has seen the events `seen` and has k signals of the port before it. */
  lemma {:induction false} DrainNext(box: seq<Signal>, k: nat, seen: seq<Event>)
    requires 0 < k <= |box| && box[k - 1].EventSignal?
    ensures seen + DrainView(box[..k]) == seen + [box[k - 1].event] + DrainView(box[..k - 1])
    ensures DrainRest(box[..k]) == DrainRest(box[..k - 1])
  {
    assert box[..k][..k - 1] == box[..k - 1];
  }

  lemma {:induction false} DrainEnds(box: seq<Signal>, k: nat, seen: seq<Event>)
    requires k <= |box| && (k > 0 ==> !box[k - 1].EventSignal?)
    ensures seen + DrainView(box[..k]) == seen
    ensures DrainRest(box[..k]) == if k > 0 then box[..k - 1] else []
  {
  }

  class PortNetwork {
    var boxes: Inboxes
    var links: LinkTable
    var lastSignal: map<OutputPort, Signal>

    constructor ()
      ensures boxes == map[] && links == map[] && lastSignal == map[]
    {
      boxes, links, lastSignal := map[], map[], map[];
    }

    function Links(port: OutputPort): seq<InputPort>
      reads `links
    {
      LinksOf(links, port)
    }

    method Receive(port: InputPort, signal: Signal)
      modifies `boxes
      ensures boxes == old(boxes)[port := Inbox(old(boxes), port) + [signal]]
    {
      boxes := boxes[port := Inbox(boxes, port) + [signal]];
    }

    /** Hands out the signal received last. */
    method Get(port: InputPort) returns (signal: Option<Signal>)
      modifies `boxes
      ensures var box := Inbox(old(boxes), port);
              if box == [] then signal == None && boxes == old(boxes)
              else signal == Some(box[|box| - 1]) && boxes == old(boxes)[port := box[..|box| - 1]]
    {
      var box := Inbox(boxes, port);
      if box == [] {
        return None;
      }
      signal := Some(box[|box| - 1]);
      boxes := boxes[port := box[..|box| - 1]];
    }

    method Connect(output: OutputPort, input: InputPort)
      modifies `links
      ensures links == old(links)[output := old(Links(output)) + [input]]
    {
      links := links[output := Links(output) + [input]];
    }

    /** Drops every link between the two ports. */
    method Disconnect(output: OutputPort, input: InputPort)
      modifies `links
      ensures links == old(links)[output := Without(old(Links(output)), input)]
    {
      var before := Links(output);
      var kept: seq<InputPort> := [];
      for i := 0 to |before|
        invariant kept == Without(before[..i], input)
      {
        assert before[..i + 1][..i] == before[..i];
        if before[i] != input {
          kept := kept + [before[i]];
        }
      }
      assert before[..|before|] == before;
      links := links[output := kept];
    }

    method Send(output: OutputPort, signal: Signal)
      modifies `boxes, `lastSignal
      ensures boxes == Delivered(old(boxes), Links(output), signal)
      ensures lastSignal == old(lastSignal)[output := signal]
    {
      lastSignal := lastSignal[output := signal];
      var targets := Links(output);
      for i := 0 to |targets|
        invariant boxes == Delivered(old(boxes), targets[..i], signal)
        invariant lastSignal == old(lastSignal)[output := signal]
      {
        assert targets[..i + 1][..i] == targets[..i];
        if targets[i].signalType != signal.Type() {
          continue;
        }
        Receive(targets[i], signal);
      }
      assert targets[..|targets|] == targets;
    }
  }

  // ----- what a send means for one input port -----

  /** How often `port` is linked, if it takes signals of this type. */
  function Copies(targets: seq<InputPort>, port: InputPort, signal: Signal): seq<Signal> {
    if targets == [] then []
    else Copies(targets[..|targets| - 1], port, signal)
         + if targets[|targets| - 1] == port && port.signalType == signal.Type() then [signal] else []
  }

  lemma {:induction false} DeliveredInbox(boxes: Inboxes, targets: seq<InputPort>, signal: Signal, port: InputPort)
    ensures Inbox(Delivered(boxes, targets, signal), port) == Inbox(boxes, port) + Copies(targets, port, signal)
  {
    if targets != [] {
      DeliveredInbox(boxes, targets[..|targets| - 1], signal, port);
    }
  }

  lemma {:induction false} NoCopies(targets: seq<InputPort>, port: InputPort, signal: Signal)
    requires port !in targets || port.signalType != signal.Type()
    ensures Copies(targets, port, signal) == []
  {
    if targets != [] {
      assert targets == targets[..|targets| - 1] + [targets[|targets| - 1]];
      NoCopies(targets[..|targets| - 1], port, signal);
    }
  }
}
