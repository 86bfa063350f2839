/**
 The modules of the drum machine at work: sequencers, samplers and audio outputs take their turns over the graph. The
 machine is a value that carries every playhead and every voice from turn to turn.
 */
module DrumMachine {
  import opened Sequences
  import opened Numbers
  import opened Events
  import opened Timeline
  import opened Playhead
  import opened Schedule
  import opened PolyRhythm
  import opened Ports
  import opened Graph
  import opened GraphPass
  import opened Sampler
  import opened VoicePool
  import opened DrumPath

  type SoundTimeline = t: seq<Point> | InCycles(t) witness []

  type PlayheadPhase = x: real | x < 1.0

  type SampleRate = r: nat | r > 0 witness 44100

  /** What a module of the graph is, with its state between turns. */
  datatype Part =
    | SequencerPart(output: OutputPort, timeline: SoundTimeline, tracks: seq<Track>, phase: PlayheadPhase, bpm: real,
                    beatsPerCycle: nat)
    | SamplerPart(input: InputPort, output: OutputPort, voices: seq<Voice>, samples: SampleMap)
    | OutputPart(input: InputPort)

  datatype Context = Context(sampleRate: SampleRate, bufferSize: nat)

  function Increment(p: Part, ctx: Context): real
    requires p.SequencerPart?
  {
    PhaseIncrement(p.bpm, p.beatsPerCycle, ctx.sampleRate as real)
  }

  /** The events a sequencer emits on its turn. */
  function Emitted(p: Part, ctx: Context): seq<Event>
    requires p.SequencerPart?
  {
    if p.timeline == [] || p.tracks == [] then []
    else BufferEvents(p.timeline, p.tracks, p.phase, Increment(p, ctx), ctx.bufferSize)
  }

  function Popped(boxes: Inboxes, port: InputPort): Inboxes {
    var box := Inbox(boxes, port);
    if box == [] then boxes else boxes[port := box[..|box| - 1]]
  }

  /** The voices of a sampler once it has handled the events of its input. */
  function Struck(p: Part, boxes: Inboxes): seq<Voice>
    requires p.SamplerPart?
  {
    AllHandled(p.voices, p.samples, DrainView(Inbox(boxes, p.input)))
  }

  function Mix(p: Part, boxes: Inboxes, ctx: Context): seq<real>
    requires p.SamplerPart?
  {
    Normalized(Mixed(Struck(p, boxes), ctx.bufferSize))
  }

  function PartTurn(p: Part, boxes: Inboxes, ctx: Context): Turn {
    match p
    case SequencerPart(output, _, _, _, _, _) => Turn(boxes, AsSends(Emitted(p, ctx), output))
    case SamplerPart(input, output, _, _) =>
      Turn(Drained(boxes, input), [Emission(output, AudioSignal(Mix(p, boxes, ctx)))])
    case OutputPart(input) => Turn(Popped(boxes, input), [])
  }

  function PartAfter(p: Part, boxes: Inboxes, ctx: Context): Part {
    match p
    case SequencerPart(_, timeline, tracks, phase, _, _) =>
      if timeline == [] || tracks == [] then p
      else p.(phase := NextPhase(phase, Span(Increment(p, ctx), ctx.bufferSize)))
    case SamplerPart(_, _, _, _) => p.(voices := AllAdvanced(Struck(p, boxes), ctx.bufferSize))
    case OutputPart(_) => p
  }

  /** A sampler's voices after a buffer in which it handles the events. */
  function VoicesPlayed(p: Part, events: seq<Event>, ctx: Context): (r: seq<Voice>)
    requires p.SamplerPart?
    ensures |r| == |p.voices|
  {
    AllAdvanced(AllHandled(p.voices, p.samples, events), ctx.bufferSize)
  }

  datatype Machine = Machine(boxes: Inboxes, parts: map<Module, Part>)

  function TurnTaken(m: Machine, who: Module, links: LinkTable, ctx: Context): Machine {
    if who !in m.parts then m
    else
      var turn := PartTurn(m.parts[who], m.boxes, ctx);
      Machine(SendAll(turn.boxes, links, turn.sends), m.parts[who := PartAfter(m.parts[who], m.boxes, ctx)])
  }

  function PassTaken(m: Machine, order: seq<Module>, links: LinkTable, ctx: Context): Machine {
    if order == [] then m else TurnTaken(PassTaken(m, order[..|order| - 1], links, ctx), order[|order| - 1], links, ctx)
  }

  // ----- no note is dropped, over every run -----

  /** The signal types the source gives the ports of its modules. */
  predicate PortsFit(p: Part) {
    match p
    case SequencerPart(output, _, _, _, _, _) => output.signalType == EventType
    case SamplerPart(input, output, _, _) => input.signalType == EventType && output.signalType == AudioType
    case OutputPart(input) => input.signalType == AudioType
  }

  ghost predicate AllPortsFit(parts: map<Module, Part>) {
    forall w :: w in parts ==> PortsFit(parts[w])
  }

  /** Between turns the sampler's input holds whole hits, and no note occupies more of its voices than it may. */
  ghost predicate Sound(m: Machine, d: Module, caps: Caps) {
    && AllPortsFit(m.parts) && d in m.parts && m.parts[d].SamplerPart?
    && AtMost(m.parts[d].voices, m.parts[d].samples, caps)
    && var box := Inbox(m.boxes, m.parts[d].input);
    && OnlyEvents(box) && MadeOfHits(EventsOf(box), caps)
  }

  /** No sequencer is linked to the port more often than the notes of its tracks may occupy voices. */
  ghost predicate LinksFit(parts: map<Module, Part>, links: LinkTable, port: InputPort, caps: Caps) {
    forall w :: w in parts && parts[w].SequencerPart? ==>
      TracksAllowed(parts[w].tracks, Count(LinksOf(links, parts[w].output), port), caps)
  }

  /** No output is linked to the port more than `c` times. */
  ghost predicate LinkedAtMost(links: LinkTable, port: InputPort, c: nat) {
    forall o :: Count(LinksOf(links, o), port) <= c
  }

  lemma {:induction false} LinkedAtMostFits(parts: map<Module, Part>, links: LinkTable, port: InputPort, c: nat)
    requires LinkedAtMost(links, port, c)
    ensures LinksFit(parts, links, port, Uniform(c))
  {
  }

  /** Note-ons that find no free voice when it is the sampler's turn. */
  function TurnDrops(m: Machine, who: Module, d: Module): nat {
    if who != d || d !in m.parts || !m.parts[d].SamplerPart? then 0
    else Drops(m.parts[d].voices, m.parts[d].samples, DrainView(Inbox(m.boxes, m.parts[d].input)))
  }

  function PassDrops(m: Machine, order: seq<Module>, links: LinkTable, ctx: Context, d: Module): nat {
    if order == [] then 0
    else
      var before := order[..|order| - 1];
      PassDrops(m, before, links, ctx, d) + TurnDrops(PassTaken(m, before, links, ctx), order[|order| - 1], d)
  }

  lemma {:induction false} SequencerTurnKeepsSound(m: Machine, who: Module, links: LinkTable, ctx: Context, d: Module,
                                                   caps: Caps)
    requires Sound(m, d, caps) && who in m.parts && m.parts[who].SequencerPart?
    requires LinksFit(m.parts, links, m.parts[d].input, caps)
    ensures Sound(TurnTaken(m, who, links, ctx), d, caps)
  {
    hide AtMost, MadeOfHits, Arrivals, SendAll, AsSends, BufferEvents, Copied, PhaseIncrement, TracksAllowed, Allowed;
    var p, port := m.parts[who], m.parts[d].input;
    var events, k := Emitted(p, ctx), Count(LinksOf(links, p.output), port);
    EmittedArePairs(p, ctx);
    EmittedIsAllowed(p, ctx, k, caps);
    LinkArrivals(links, events, p.output, port);
    CopiedPairsAreHits(events, k, caps);
    SendAllInbox(m.boxes, links, AsSends(events, p.output), port);
    var box := Inbox(m.boxes, port);
    var arrived := Arrivals(links, AsSends(events, p.output), port);
    assert EventsOf(box + arrived) == EventsOf(box) + EventsOf(arrived);
    HitsConcat(EventsOf(box), EventsOf(arrived), caps);
  }

  lemma {:induction false} EmittedIsAllowed(p: Part, ctx: Context, c: nat, caps: Caps)
    requires p.SequencerPart? && TracksAllowed(p.tracks, c, caps)
    ensures Allowed(Emitted(p, ctx), c, caps)
  {
    hide BufferEvents, PhaseIncrement;
    BufferIsAllowed(p.timeline, p.tracks, p.phase, Increment(p, ctx), ctx.bufferSize, c, caps);
  }

  lemma {:induction false} EmittedArePairs(p: Part, ctx: Context)
    requires p.SequencerPart?
    ensures OnOffPairs(Emitted(p, ctx))
  {
    hide PhaseIncrement, BufferEvents;
    BufferEventsArePairs(p.timeline, p.tracks, p.phase, Increment(p, ctx), ctx.bufferSize);
  }

  /** Audio never reaches an event input. */
  lemma {:induction false} AudioMisses(boxes: Inboxes, links: LinkTable, output: OutputPort, samples: seq<real>,
                                       port: InputPort)
    requires port.signalType == EventType
    ensures Inbox(SendAll(boxes, links, [Emission(output, AudioSignal(samples))]), port) == Inbox(boxes, port)
  {
    var sends := [Emission(output, AudioSignal(samples))];
    SendAllInbox(boxes, links, sends, port);
    NoArrivals(links, sends, port);
  }

  lemma {:induction false} SamplerTurnKeepsSound(m: Machine, links: LinkTable, ctx: Context, d: Module, caps: Caps)
    requires Sound(m, d, caps)
    ensures Sound(TurnTaken(m, d, links, ctx), d, caps)
    ensures Need(m.parts[d].samples, caps) <= |m.parts[d].voices| ==> TurnDrops(m, d, d) == 0
    ensures Inbox(TurnTaken(m, d, links, ctx).boxes, m.parts[d].input) == []
  {
    hide AtMost, AllHandled, SendAll, Drops, DrainView, DrainRest, Normalized, Mixed, AllAdvanced;
    var p := m.parts[d];
    var box := Inbox(m.boxes, p.input);
    DrainReverses(box);
    HitsKeepAtMost(p.voices, p.samples, EventsOf(box), caps);
    AdvanceKeepsAtMost(Struck(p, m.boxes), p.samples, ctx.bufferSize, caps);
    AudioMisses(Drained(m.boxes, p.input), links, p.output, Mix(p, m.boxes, ctx), p.input);
  }

  /** A turn of another sampler or of an audio output. */
  lemma {:induction false} OtherTurnKeepsSound(m: Machine, who: Module, links: LinkTable, ctx: Context, d: Module,
                                               caps: Caps)
    requires Sound(m, d, caps) && who in m.parts && who != d && !m.parts[who].SequencerPart?
    ensures Sound(TurnTaken(m, who, links, ctx), d, caps)
  {
    hide AtMost, AllHandled, DrainView, DrainRest, Normalized, Mixed, AllAdvanced;
    var p, port := m.parts[who], m.parts[d].input;
    if p.SamplerPart? {
      DrainReverses(Inbox(m.boxes, port));
      AudioMisses(Drained(m.boxes, p.input), links, p.output, Mix(p, m.boxes, ctx), port);
    }
  }

  lemma {:induction false} TurnKeepsSound(m: Machine, who: Module, links: LinkTable, ctx: Context, d: Module,
                                          caps: Caps)
    requires Sound(m, d, caps) && LinksFit(m.parts, links, m.parts[d].input, caps)
    ensures Sound(TurnTaken(m, who, links, ctx), d, caps)
    ensures Need(m.parts[d].samples, caps) <= |m.parts[d].voices| ==> TurnDrops(m, who, d) == 0
  {
    hide Sound, LinksFit, PartTurn, SendAll, Drops;
    if who in m.parts {
      if who == d {
        SamplerTurnKeepsSound(m, links, ctx, d, caps);
      } else if m.parts[who].SequencerPart? {
        SequencerTurnKeepsSound(m, who, links, ctx, d, caps);
      } else {
        OtherTurnKeepsSound(m, who, links, ctx, d, caps);
      }
    }
  }

  lemma {:induction false} TurnKeepsPool(m: Machine, who: Module, links: LinkTable, ctx: Context, d: Module)
    requires d in m.parts && m.parts[d].SamplerPart?
    ensures var m' := TurnTaken(m, who, links, ctx);
            && d in m'.parts && m'.parts[d].SamplerPart?
            && m'.parts[d].input == m.parts[d].input && m'.parts[d].samples == m.parts[d].samples
            && |m'.parts[d].voices| == |m.parts[d].voices|
  {
    hide SendAll, AllHandled, AllAdvanced, Normalized, Mixed;
  }

  /** A turn changes neither links nor tracks. */
  lemma {:induction false} TurnKeepsFit(m: Machine, who: Module, links: LinkTable, ctx: Context, port: InputPort,
                                        caps: Caps)
    requires LinksFit(m.parts, links, port, caps)
    ensures LinksFit(TurnTaken(m, who, links, ctx).parts, links, port, caps)
  {
    hide TracksAllowed, SendAll, AllHandled, AllAdvanced, Normalized, Mixed;
  }

  /** The sampler has voices for all notes it can play to occupy as many as they may. */
  ghost predicate Enough(m: Machine, d: Module, caps: Caps) {
    d in m.parts && m.parts[d].SamplerPart? && Need(m.parts[d].samples, caps) <= |m.parts[d].voices|
  }

  lemma {:induction false} PassKeepsSound(m: Machine, order: seq<Module>, links: LinkTable, ctx: Context, d: Module,
                                          caps: Caps)
    requires Sound(m, d, caps) && LinksFit(m.parts, links, m.parts[d].input, caps)
    ensures Sound(PassTaken(m, order, links, ctx), d, caps)
    ensures PassTaken(m, order, links, ctx).parts[d].input == m.parts[d].input
    ensures LinksFit(PassTaken(m, order, links, ctx).parts, links, m.parts[d].input, caps)
    ensures Enough(m, d, caps) ==>
              Enough(PassTaken(m, order, links, ctx), d, caps) && PassDrops(m, order, links, ctx, d) == 0
    decreases |order|
  {
    hide AllPortsFit, AtMost, OnlyEvents, MadeOfHits, LinksFit, TurnTaken, TurnDrops, Need;
    if order != [] {
      var before, who := PassTaken(m, order[..|order| - 1], links, ctx), order[|order| - 1];
      PassKeepsSound(m, order[..|order| - 1], links, ctx, d, caps);
      TurnKeepsSound(before, who, links, ctx, d, caps);
      TurnKeepsPool(before, who, links, ctx, d);
      TurnKeepsFit(before, who, links, ctx, m.parts[d].input, caps);
    }
  }

  // ----- runs -----

  /** A pass over any order of modules and any links, or a change between passes: new shapes, tracks or tempo of a
      sequencer, or a module that joins. */
  datatype Step =
    | TakePass(order: seq<Module>, links: LinkTable, ctx: Context)
    | Retune(who: Module, timeline: SoundTimeline, tracks: seq<Track>, bpm: real, beatsPerCycle: nat)
    | Join(who: Module, part: Part)

  function StepTaken(m: Machine, step: Step): Machine {
    match step
    case TakePass(order, links, ctx) => PassTaken(m, order, links, ctx)
    case Retune(who, timeline, tracks, bpm, beatsPerCycle) =>
      if who in m.parts && m.parts[who].SequencerPart?
      then m.(parts := m.parts[who := m.parts[who].(timeline := timeline, tracks := tracks, bpm := bpm,
                                                    beatsPerCycle := beatsPerCycle)])
      else m
    case Join(who, part) => if who in m.parts then m else m.(parts := m.parts[who := part])
  }

  function RunTaken(m: Machine, steps: seq<Step>): Machine {
    if steps == [] then m else StepTaken(RunTaken(m, steps[..|steps| - 1]), steps[|steps| - 1])
  }

  function StepDrops(m: Machine, step: Step, d: Module): nat {
    if step.TakePass? then PassDrops(m, step.order, step.links, step.ctx, d) else 0
  }

  function NotesDropped(m: Machine, steps: seq<Step>, d: Module): nat {
    if steps == [] then 0
    else NotesDropped(m, steps[..|steps| - 1], d)
         + StepDrops(RunTaken(m, steps[..|steps| - 1]), steps[|steps| - 1], d)
  }

  /** At a pass the links fit the tracks as they then are. */
  ghost predicate Fair(m: Machine, step: Step, port: InputPort, caps: Caps) {
    && (step.TakePass? ==> LinksFit(m.parts, step.links, port, caps))
    && (step.Join? ==> PortsFit(step.part))
  }

  lemma {:induction false} StepKeepsSound(m: Machine, step: Step, d: Module, caps: Caps)
    requires Sound(m, d, caps) && Enough(m, d, caps) && Fair(m, step, m.parts[d].input, caps)
    ensures Sound(StepTaken(m, step), d, caps) && Enough(StepTaken(m, step), d, caps)
    ensures StepTaken(m, step).parts[d].input == m.parts[d].input && StepDrops(m, step, d) == 0
  {
    hide AtMost, OnlyEvents, MadeOfHits, LinksFit, PassTaken, PassDrops, Need;
    if step.TakePass? {
      PassKeepsSound(m, step.order, step.links, step.ctx, d, caps);
    }
  }

  /**
   Over every run of passes and changes in which no sequencer is linked to the sampler more often than its notes may
   occupy voices, no note is dropped, if there are voices for all notes to occupy as many as they may. The order of
   turns and the graph do not matter.
   */
  lemma {:induction false} NoNoteIsDropped(m: Machine, steps: seq<Step>, d: Module, caps: Caps)
    requires Sound(m, d, caps) && Enough(m, d, caps)
    requires forall i :: 0 <= i < |steps| ==> Fair(RunTaken(m, steps[..i]), steps[i], m.parts[d].input, caps)
    ensures NotesDropped(m, steps, d) == 0
    ensures Sound(RunTaken(m, steps), d, caps) && Enough(RunTaken(m, steps), d, caps)
    ensures RunTaken(m, steps).parts[d].input == m.parts[d].input
    decreases |steps|
  {
    hide AllPortsFit, AtMost, OnlyEvents, MadeOfHits, Enough, Fair, StepTaken, StepDrops;
    if steps != [] {
      var n := |steps| - 1;
      assert forall i :: 0 <= i < n ==> steps[..n][..i] == steps[..i];
      NoNoteIsDropped(m, steps[..n], d, caps);
      StepKeepsSound(RunTaken(m, steps[..n]), steps[n], d, caps);
    }
  }

  // ----- one pass over an acyclic graph -----

  /** The parts' behaviour during one pass, in which no module has more than one turn. */
  ghost function TurnsOf(parts: map<Module, Part>, ctx: Context): Behaviour {
    (who, boxes) => if who in parts then PartTurn(parts[who], boxes, ctx) else Turn(boxes, [])
  }

  /** Modules own the ports their parts use. */
  ghost predicate PortsOwned(parts: map<Module, Part>) {
    forall w :: w in parts ==>
      match parts[w]
      case SequencerPart(output, _, _, _, _, _) => output in w.outputs
      case SamplerPart(input, output, _, _) => input in w.inputs && output in w.outputs
      case OutputPart(input) => input in w.inputs
  }

  lemma {:induction false} MachineIsWellBehaved(parts: map<Module, Part>, ctx: Context)
    requires PortsOwned(parts)
    ensures WellBehaved(TurnsOf(parts, ctx))
  {
    hide AllHandled, DrainView, DrainRest, Normalized, Mixed, BufferEvents, PhaseIncrement;
  }

  lemma {:induction false} SamplerDrains(parts: map<Module, Part>, ctx: Context, links: LinkTable, d: Module)
    requires AllPortsFit(parts) && d in parts && parts[d].SamplerPart?
    ensures Drains(TurnsOf(parts, ctx), links, d, parts[d].input)
  {
    hide AllHandled, DrainView, DrainRest, Normalized, Mixed, BufferEvents, PhaseIncrement;
    var port := parts[d].input;
    forall boxes | Typed(Inbox(boxes, port), port)
      ensures Inbox(TurnsOf(parts, ctx)(d, boxes).boxes, port) == []
    {
      TypedIsEvents(Inbox(boxes, port), port);
      DrainReverses(Inbox(boxes, port));
    }
  }

  lemma {:induction false} TypedIsEvents(box: seq<Signal>, port: InputPort)
    requires port.signalType == EventType
    ensures Typed(box, port) <==> OnlyEvents(box)
  {
  }

  /** Turn by turn, the machine does what its behaviour at the start of the pass says. */
  lemma {:induction false} PassOfParts(m: Machine, order: seq<Module>, links: LinkTable, ctx: Context)
    requires Distinct(order)
    ensures PassTaken(m, order, links, ctx).boxes == Pass(order, TurnsOf(m.parts, ctx), links, m.boxes)
    ensures PassTaken(m, order, links, ctx).parts.Keys == m.parts.Keys
    ensures forall w :: w in m.parts && w !in order ==> PassTaken(m, order, links, ctx).parts[w] == m.parts[w]
    decreases |order|
  {
    hide PartTurn, PartAfter, SendAll;
    if order != [] {
      var before, who := order[..|order| - 1], order[|order| - 1];
      PassOfParts(m, before, links, ctx);
      assert order == before + [who];
      assert who !in before;
      var b := PassTaken(m, before, links, ctx);
      if who !in m.parts {
        assert SendAll(b.boxes, links, []) == b.boxes by { NothingSent(b.boxes, links); }
      }
    }
  }

  lemma {:induction false} NothingSent(boxes: Inboxes, links: LinkTable)
    ensures SendAll(boxes, links, []) == boxes
  {
  }

  lemma {:induction false} PartAfterItsTurn(m: Machine, order: seq<Module>, links: LinkTable, ctx: Context, k: nat)
    requires Distinct(order) && k < |order| && order[k] in m.parts
    ensures PassTaken(m, order, links, ctx).parts.Keys == m.parts.Keys
    ensures PassTaken(m, order, links, ctx).parts[order[k]]
         == PartAfter(m.parts[order[k]], Pass(order[..k], TurnsOf(m.parts, ctx), links, m.boxes), ctx)
    decreases |order|
  {
    hide PartTurn, PartAfter, SendAll, Pass, TurnsOf;
    var before, last := order[..|order| - 1], order[|order| - 1];
    PassOfParts(m, order, links, ctx);
    PassOfParts(m, before, links, ctx);
    if k < |order| - 1 {
      PartAfterItsTurn(m, before, links, ctx, k);
      assert before[..k] == order[..k] && last != order[k];
    } else {
      assert order[..k] == before && order[k] !in before;
    }
  }

  /** What the sequencers send to an event input in one pass: every buffer's events, in the order of turns, each event
      once per link. */
  ghost function SentEvents(parts: map<Module, Part>, order: seq<Module>, links: LinkTable, ctx: Context,
                            port: InputPort): seq<Event>
  {
    if order == [] then []
    else
      var who := order[|order| - 1];
      SentEvents(parts, order[..|order| - 1], links, ctx, port)
      + if who in parts && parts[who].SequencerPart?
        then Copied(Emitted(parts[who], ctx), Count(LinksOf(links, parts[who].output), port)) else []
  }

  lemma {:induction false} PassArrivalsAreSent(parts: map<Module, Part>, order: seq<Module>, links: LinkTable,
                                               ctx: Context, boxes: Inboxes, port: InputPort)
    requires AllPortsFit(parts) && port.signalType == EventType
    ensures var arrived := PassArrivals(order, TurnsOf(parts, ctx), links, boxes, port);
            OnlyEvents(arrived) && EventsOf(arrived) == SentEvents(parts, order, links, ctx, port)
    decreases |order|
  {
    hide Arrivals, AsSends, Emitted, Copied, Pass;
    if order != [] {
      var before, who := order[..|order| - 1], order[|order| - 1];
      var act := TurnsOf(parts, ctx);
      PassArrivalsAreSent(parts, before, links, ctx, boxes, port);
      TurnArrivals(parts, who, links, ctx, Pass(before, act, links, boxes), port);
      var a := PassArrivals(before, act, links, boxes, port);
      var b := Arrivals(links, act(who, Pass(before, act, links, boxes)).sends, port);
      assert EventsOf(a + b) == EventsOf(a) + EventsOf(b);
    }
  }

  lemma {:induction false} TurnArrivals(parts: map<Module, Part>, who: Module, links: LinkTable, ctx: Context,
                                        boxes: Inboxes, port: InputPort)
    requires AllPortsFit(parts) && port.signalType == EventType
    ensures var arrived := Arrivals(links, TurnsOf(parts, ctx)(who, boxes).sends, port);
            && OnlyEvents(arrived)
            && EventsOf(arrived)
               == if who in parts && parts[who].SequencerPart?
                  then Copied(Emitted(parts[who], ctx), Count(LinksOf(links, parts[who].output), port)) else []
  {
    hide Emitted, Copied, AsSends, AllHandled, DrainView, Normalized, Mixed;
    var sends := TurnsOf(parts, ctx)(who, boxes).sends;
    if who in parts && parts[who].SequencerPart? {
      LinkArrivals(links, Emitted(parts[who], ctx), parts[who].output, port);
    } else {
      NoArrivals(links, sends, port);
    }
  }

  /**
   One pass over an acyclic graph: on its turn the sampler handles, from last to first, the events its input held and
   everything the sequencers send in the whole pass, each event once per link; then its input is empty.
   */
  lemma {:induction false} SamplerHandlesWholePass(m: Machine, modules: seq<Module>, connections: seq<Connection>,
                                                   order: seq<Module>, links: LinkTable, ctx: Context, d: Module)
    requires AllPortsFit(m.parts) && PortsOwned(m.parts) && d in m.parts && m.parts[d].SamplerPart?
    requires Wired(modules, connections, links, order, d, m.parts[d].input)
    requires OnlyEvents(Inbox(m.boxes, m.parts[d].input))
    ensures PassTaken(m, order, links, ctx).parts.Keys == m.parts.Keys
    ensures var p := m.parts[d];
            var events := EventsOf(Inbox(m.boxes, p.input)) + SentEvents(m.parts, order, links, ctx, p.input);
            && Inbox(PassTaken(m, order, links, ctx).boxes, p.input) == []
            && PassTaken(m, order, links, ctx).parts[d]
               == p.(voices := VoicesPlayed(p, Reverse(events), ctx))
  {
    hide WellBehaved, Drains, Wired, AllPortsFit, PortsOwned, Pass, PassArrivals, SentEvents, TurnsOf, AllHandled,
         DrainView, DrainRest, Typed;
    var p, act := m.parts[d], TurnsOf(m.parts, ctx);
    assert p.input.signalType == EventType by { PartFits(m.parts, d); }
    MachineIsWellBehaved(m.parts, ctx);
    SamplerDrains(m.parts, ctx, links, d);
    TypedIsEvents(Inbox(m.boxes, p.input), p.input);
    var k := PassDrainsInput(modules, connections, order, act, links, m.boxes, d, p.input);
    WiredIsDistinct(modules, connections, links, order, d, p.input);
    PassOfParts(m, order, links, ctx);
    PartAfterItsTurn(m, order, links, ctx, k);
    PassArrivalsAreSent(m.parts, order, links, ctx, m.boxes, p.input);
    var held, sent := Inbox(m.boxes, p.input), PassArrivals(order, act, links, m.boxes, p.input);
    assert OnlyEvents(held + sent) && EventsOf(held + sent) == EventsOf(held) + EventsOf(sent);
    DrainReverses(held + sent);
  }

  /** A sound machine whose sampler's input is empty is so again after a pass, and the pass drops nothing. */
  lemma {:induction false} PassIsComplete(m: Machine, modules: seq<Module>, connections: seq<Connection>,
                                          order: seq<Module>, links: LinkTable, ctx: Context, d: Module, caps: Caps)
    requires Sound(m, d, caps) && Enough(m, d, caps) && PortsOwned(m.parts)
    requires LinksFit(m.parts, links, m.parts[d].input, caps)
    requires Wired(modules, connections, links, order, d, m.parts[d].input) && Inbox(m.boxes, m.parts[d].input) == []
    ensures Sound(PassTaken(m, order, links, ctx), d, caps) && PassDrops(m, order, links, ctx, d) == 0
    ensures var p := m.parts[d];
            && Inbox(PassTaken(m, order, links, ctx).boxes, p.input) == []
            && PassTaken(m, order, links, ctx).parts[d]
               == p.(voices := VoicesPlayed(p, Reverse(SentEvents(m.parts, order, links, ctx, p.input)), ctx))
  {
    hide PassTaken, PassDrops, Wired, AllPortsFit, PortsOwned, LinksFit, AtMost, AllHandled, AllAdvanced,
         SentEvents;
    PassKeepsSound(m, order, links, ctx, d, caps);
    SamplerHandlesWholePass(m, modules, connections, order, links, ctx, d);
    var sent := SentEvents(m.parts, order, links, ctx, m.parts[d].input);
    assert EventsOf(Inbox(m.boxes, m.parts[d].input)) + sent == sent;
  }

  lemma {:induction false} PartFits(parts: map<Module, Part>, w: Module)
    requires AllPortsFit(parts) && w in parts
    ensures PortsFit(parts[w])
  {
  }

  lemma {:induction false} WiredIsDistinct(modules: seq<Module>, connections: seq<Connection>, links: LinkTable,
                                           order: seq<Module>, d: Module, port: InputPort)
    requires Wired(modules, connections, links, order, d, port)
    ensures Distinct(order)
  {
  }

  // ----- exactly when a pass of one-track sequencers loses a note -----

  function RingNote(p: Part): UInt8
    requires p.SequencerPart? && |p.tracks| == 1
  {
    Byte(p.tracks[0].noteNumber)
  }

  predicate IsRing(parts: map<Module, Part>, w: Module) {
    w in parts && parts[w].SequencerPart?
  }

  ghost predicate OneTrack(parts: map<Module, Part>, w: Module) {
    IsRing(parts, w) ==> |parts[w].tracks| == 1
  }

  /** Every sequencer of the order has one track, and they play different notes. */
  ghost predicate OneTrackRings(parts: map<Module, Part>, order: seq<Module>) {
    && (forall i :: 0 <= i < |order| ==> OneTrack(parts, order[i]))
    && forall i, j :: 0 <= i < j < |order| && IsRing(parts, order[i]) && IsRing(parts, order[j]) ==>
        RingNote(parts[order[i]]) != RingNote(parts[order[j]])
  }

  /** A sequencer that hits a playable note in this pass counts once per link. */
  ghost function HitLinks(parts: map<Module, Part>, links: LinkTable, ctx: Context, port: InputPort,
                          samples: SampleMap): Module -> nat
  {
    w => if IsRing(parts, w) && |parts[w].tracks| == 1 && Emitted(parts[w], ctx) != []
            && RingNote(parts[w]) in samples
         then Count(LinksOf(links, parts[w].output), port) else 0
  }

  lemma {:induction false} EmittedNotes(p: Part, ctx: Context)
    requires p.SequencerPart? && |p.tracks| == 1
    ensures forall k :: 0 <= k < |Emitted(p, ctx)| ==> Emitted(p, ctx)[k].note == RingNote(p)
  {
    hide BufferEvents, PhaseIncrement, Byte;
    forall k | 0 <= k < |Emitted(p, ctx)|
      ensures Emitted(p, ctx)[k].note == RingNote(p)
    {
      var t := BufferNotes(p.timeline, p.tracks, p.phase, Increment(p, ctx), ctx.bufferSize, k);
    }
  }

  /** One sequencer's share of a pass, from a pool in which its note is silent. */
  lemma {:induction false} RingFills(p: Part, c: nat, ctx: Context, voices: seq<Voice>, samples: SampleMap)
    requires p.SequencerPart? && |p.tracks| == 1 && Playing(voices, RingNote(p)) == 0
    ensures Filled(voices, samples, Reverse(Copied(Emitted(p, ctx), c)), RingNote(p),
                   if Emitted(p, ctx) != [] && RingNote(p) in samples then c else 0)
  {
    hide Playing, InUse, AllHandled, Drops, Copied, Emitted, RingNote;
    var events, note := Emitted(p, ctx), RingNote(p);
    EmittedArePairs(p, ctx);
    EmittedNotes(p, ctx);
    InUseFits(voices);
    if events == [] || c == 0 {
      NothingCopied(c);
      CopiedNever(events);
      NothingHandled(voices, samples);
      assert Reverse(Copied(events, c)) == [];
    } else if note in samples {
      PairsFill(voices, samples, events, c, note);
    } else {
      CopiedNotes(events, c, note);
      MuteChangesNothing(voices, samples, Reverse(Copied(events, c)), note);
    }
  }

  ghost predicate RingsSilent(parts: map<Module, Part>, order: seq<Module>, voices: seq<Voice>)
    requires OneTrackRings(parts, order)
  {
    forall i :: 0 <= i < |order| && IsRing(parts, order[i]) ==>
      Playing(voices, RingNote(parts[order[i]])) == 0
  }

  lemma {:induction false} PassFills(parts: map<Module, Part>, order: seq<Module>, links: LinkTable, ctx: Context,
                                     port: InputPort, voices: seq<Voice>, samples: SampleMap)
    requires OneTrackRings(parts, order) && RingsSilent(parts, order, voices)
    ensures Drops(voices, samples, Reverse(SentEvents(parts, order, links, ctx, port))) == 0 <==>
              InUse(voices) + SumList(order, HitLinks(parts, links, ctx, port, samples)) <= |voices|
    decreases |order|
  {
    hide Playing, InUse, AllHandled, Drops, Copied, Emitted, RingNote;
    InUseFits(voices);
    if order == [] {
      NothingHandled(voices, samples);
      assert Reverse(SentEvents(parts, order, links, ctx, port)) == [];
    } else {
      var before, who := order[..|order| - 1], order[|order| - 1];
      var earlier := SentEvents(parts, before, links, ctx, port);
      if IsRing(parts, who) {
        var c := Count(LinksOf(links, parts[who].output), port);
        var sent := Copied(Emitted(parts[who], ctx), c);
        assert OneTrack(parts, who);
        RingFills(parts[who], c, ctx, voices, samples);
        ReversedConcat(voices, samples, earlier, sent);
        PassFills(parts, before, links, ctx, port, AllHandled(voices, samples, Reverse(sent)), samples);
      } else {
        assert earlier + [] == earlier;
        PassFills(parts, before, links, ctx, port, voices, samples);
      }
    }
  }

  lemma {:induction false} PassDropsWithout(m: Machine, order: seq<Module>, links: LinkTable, ctx: Context, d: Module)
    requires d !in order
    ensures PassDrops(m, order, links, ctx, d) == 0
    decreases |order|
  {
    if order != [] {
      PassDropsWithout(m, order[..|order| - 1], links, ctx, d);
    }
  }

  /** A pass drops notes only on the sampler's turn. */
  lemma {:induction false} PassDropsAtTurn(m: Machine, order: seq<Module>, links: LinkTable, ctx: Context, d: Module,
                                           k: nat)
    requires Distinct(order) && k < |order| && order[k] == d && d in m.parts && m.parts[d].SamplerPart?
    ensures PassDrops(m, order, links, ctx, d)
         == Drops(m.parts[d].voices, m.parts[d].samples,
                  DrainView(Inbox(Pass(order[..k], TurnsOf(m.parts, ctx), links, m.boxes), m.parts[d].input)))
    decreases |order|
  {
    hide Pass, TurnsOf, Drops, DrainView, TurnTaken;
    var before, last := order[..|order| - 1], order[|order| - 1];
    if k < |order| - 1 {
      PassDropsAtTurn(m, before, links, ctx, d, k);
      assert before[..k] == order[..k] && last != d;
    } else {
      assert order[..k] == before && d !in before;
      PassOfParts(m, before, links, ctx);
      PassDropsWithout(m, before, links, ctx, d);
    }
  }

  /** What a pass drops is decided by what the sequencers send in it. */
  lemma {:induction false} PassDropsOfSent(m: Machine, modules: seq<Module>, connections: seq<Connection>,
                                           order: seq<Module>, links: LinkTable, ctx: Context, d: Module)
    requires AllPortsFit(m.parts) && PortsOwned(m.parts) && d in m.parts && m.parts[d].SamplerPart?
    requires Wired(modules, connections, links, order, d, m.parts[d].input) && Inbox(m.boxes, m.parts[d].input) == []
    ensures PassDrops(m, order, links, ctx, d)
         == Drops(m.parts[d].voices, m.parts[d].samples,
                  Reverse(SentEvents(m.parts, order, links, ctx, m.parts[d].input)))
  {
    hide WellBehaved, Drains, Wired, AllPortsFit, PortsOwned, Pass, PassArrivals, SentEvents, TurnsOf, Drops,
         DrainView, DrainRest, Typed, PassDrops;
    var p, act := m.parts[d], TurnsOf(m.parts, ctx);
    assert p.input.signalType == EventType by { PartFits(m.parts, d); }
    MachineIsWellBehaved(m.parts, ctx);
    SamplerDrains(m.parts, ctx, links, d);
    TypedIsEvents(Inbox(m.boxes, p.input), p.input);
    var k := PassDrainsInput(modules, connections, order, act, links, m.boxes, d, p.input);
    WiredIsDistinct(modules, connections, links, order, d, p.input);
    PassDropsAtTurn(m, order, links, ctx, d, k);
    PassArrivalsAreSent(m.parts, order, links, ctx, m.boxes, p.input);
    var sent := PassArrivals(order, act, links, m.boxes, p.input);
    assert Inbox(m.boxes, p.input) + sent == sent;
    DrainReverses(sent);
  }

  /**
   One pass over an acyclic graph of one-track sequencers with different notes, from a silent pool: no note is lost if
   and only if there is a voice for every link of the sequencers that hit a playable note.
   */
  lemma {:induction false} PassLosesNothingIff(m: Machine, modules: seq<Module>, connections: seq<Connection>,
                                               order: seq<Module>, links: LinkTable, ctx: Context, d: Module)
    requires AllPortsFit(m.parts) && PortsOwned(m.parts) && d in m.parts && m.parts[d].SamplerPart?
    requires Wired(modules, connections, links, order, d, m.parts[d].input) && Inbox(m.boxes, m.parts[d].input) == []
    requires OneTrackRings(m.parts, order) && Silent(m.parts[d].voices)
    ensures PassDrops(m, order, links, ctx, d) == 0 <==>
              SumList(order, HitLinks(m.parts, links, ctx, m.parts[d].input, m.parts[d].samples)) <= |m.parts[d].voices|
  {
    hide Wired, AllPortsFit, PortsOwned, SentEvents, Drops, PassDrops, Playing, SumList;
    var p := m.parts[d];
    PassDropsOfSent(m, modules, connections, order, links, ctx, d);
    forall note {
      SilentPlaysNothing(p.voices, note);
    }
    SilentInUse(p.voices);
    PassFills(m.parts, order, links, ctx, p.input, p.voices, p.samples);
  }
}
