/**
 The engine as it is initialised and run: sixteen one-track sequencers linked to one sampler with sixteen voices, GUI
 messages and tempo changes between passes over the graph.
 */
module Engine {
  import opened Options
  import opened Sequences
  import opened Numbers
  import opened Events
  import opened Timeline
  import opened Playhead
  import opened Schedule
  import opened PolyRhythm
  import opened Ports
  import opened TopologicalSort
  import opened Graph
  import opened GraphPass
  import opened Sampler
  import opened VoicePool
  import opened DrumPath
  import opened DrumMachine
  import opened DrumKit
  import EngineMessages

  // ----- the engine object -----

  /** One turn of the main loop: the messages that have arrived, a new tempo for one ring, and the audio context. */
  datatype Tick = Tick(messages: seq<EngineMessages.Message>, tempo: Option<(nat, real)>, ctx: Context)

  /** The engine as a value: the machine, and the rings with their selection. */
  datatype Snapshot = Snapshot(machine: Machine, selection: EngineMessages.EngineState)

  /** After each of the messages every ring has a timeline of its own shapes. */
  ghost predicate RightThroughout(s: EngineMessages.EngineState, messages: seq<EngineMessages.Message>,
                                  timelines: seq<seq<Point>>)
    requires EngineMessages.SelectionValid(s) && |timelines| == |messages|
  {
    forall k :: 0 <= k <= |messages| ==>
      EngineMessages.Right(EngineMessages.AllNext(s, messages[..k], timelines[..k]))
  }

  /** The machine plays the rings' timelines and tracks, and the timelines are those of the rings' shapes. */
  ghost predicate Coherent(s: Snapshot) {
    && EngineMessages.Right(s.selection)
    && forall k :: 0 <= k < |s.selection.rings| ==>
        && RingModule(k) in s.machine.parts && s.machine.parts[RingModule(k)].SequencerPart?
        && s.machine.parts[RingModule(k)].timeline == s.selection.rings[k].timeline
        && s.machine.parts[RingModule(k)].tracks == s.selection.rings[k].tracks
  }

  /** `mid` has the rings' new timelines and tracks and the new tempo; playheads, voices and ports are as before. */
  ghost predicate Retuned(m: Machine, mid: Machine, rings: seq<EngineMessages.Ring>, tempo: Option<(nat, real)>) {
    && mid.boxes == m.boxes && mid.parts.Keys == m.parts.Keys
    && (forall w :: w in m.parts && !m.parts[w].SequencerPart? ==> mid.parts[w] == m.parts[w])
    && forall k :: 0 <= k < |rings| ==>
        && RingModule(k) in m.parts && m.parts[RingModule(k)].SequencerPart? && mid.parts[RingModule(k)].SequencerPart?
        && var p, q := m.parts[RingModule(k)], mid.parts[RingModule(k)];
        && q.timeline == rings[k].timeline && q.tracks == rings[k].tracks
        && q.output == p.output && q.phase == p.phase && q.beatsPerCycle == p.beatsPerCycle
        && q.bpm == if tempo.Some? && tempo.value.0 == k then tempo.value.1 else p.bpm
  }

  /** One turn of the main loop: messages, tempo, and a pass if the engine is playing. */
  ghost predicate TickDone(before: Snapshot, after: Snapshot, tick: Tick, timelines: seq<seq<Point>>, mid: Machine,
                           order: seq<Module>, links: LinkTable)
  {
    && EngineMessages.SelectionValid(before.selection) && |timelines| == |tick.messages|
    && after.selection == EngineMessages.AllNext(before.selection, tick.messages, timelines)
    && RightThroughout(before.selection, tick.messages, timelines)
    && Retuned(before.machine, mid, after.selection.rings, tick.tempo)
    && after.machine == if after.selection.isPlaying then PassTaken(mid, order, links, tick.ctx) else mid
  }

  ghost predicate Ticks(before: Snapshot, after: Snapshot, tick: Tick, order: seq<Module>, links: LinkTable) {
    exists timelines, mid :: TickDone(before, after, tick, timelines, mid, order, links)
  }

  class DrumEngine {
    const graph: AudioGraph
    const loop: EngineMessages.AudioEngine
    const sampler: SamplerModule

    ghost predicate PartsValid()
      reads loop, loop.rings, sampler
    {
      && loop.Valid() && sampler.Valid() && sampler.input == DRUM_INPUT && sampler.output == DRUM_OUTPUT
    }

    ghost function Ids(): set<Module> {
      {DRUM, SPEAKER} + set k | 0 <= k < |loop.rings| :: RingModule(k)
    }

    ghost function PartOf(w: Module): Part
      requires PartsValid() && w in Ids()
      reads loop, loop.rings, sampler
    {
      if w == DRUM then SamplerPart(DRUM_INPUT, DRUM_OUTPUT, sampler.voices, sampler.samples)
      else if w == SPEAKER then OutputPart(SPEAKER_INPUT)
      else
        var r := loop.rings[w.id];
        assert r.Valid();
        SequencerPart(RingOutput(w.id), r.timeline, r.tracks, r.phase, r.bpm, r.beatsPerCycle)
    }

    ghost function Parts(): map<Module, Part>
      requires PartsValid()
      reads loop, loop.rings, sampler
    {
      map w | w in Ids() :: PartOf(w)
    }

    /** The objects as the machine they implement. */
    ghost function View(): Machine
      requires PartsValid()
      reads graph.ports, loop, loop.rings, sampler
    {
      Machine(graph.ports.boxes, Parts())
    }

    /** The graph is acyclic and recorded, and every output is linked to the drum at most once. */
    ghost predicate GraphValid()
      reads graph, graph.ports
    {
      && graph.Valid() && graph.Closed() && graph.LinksRecorded()
      && UniqueOwners(graph.modules) && Acyclic(graph.Edges()) && DRUM in graph.modules
      && LinkedAtMost(graph.ports.links, DRUM_INPUT, 1)
    }

    /** Between passes the drum's input is empty, and no two of its voices play the same note. */
    ghost predicate PoolValid()
      reads graph.ports, sampler
    {
      && Inbox(graph.ports.boxes, DRUM_INPUT) == []
      && AtMost(sampler.voices, sampler.samples, Uniform(1)) && |PlayableNotes(sampler.samples)| <= |sampler.voices|
    }

    ghost predicate Valid()
      reads graph, graph.ports, loop, loop.rings, sampler
    {
      PartsValid() && GraphValid() && PoolValid()
    }

    /** The kit as it is built: rings at start-up, each linked once, and a silent pool with the kit's samples. */
    ghost predicate AtStart(loaded: seq<WavData>)
      requires |loaded| == 16
      reads graph, graph.ports, loop, loop.rings, sampler
    {
      && |loop.rings| == 16 && (forall k :: 0 <= k < 16 ==> RingStarts(loop.rings[k], KIT[k]))
      && IsKit(graph.modules, graph.connections, 16) && KitWired(graph.ports.links, 16)
      && graph.ports.boxes == map[] && sampler.dropped == 0
      && Silent(sampler.voices) && |sampler.voices| == MAX_VOICES && sampler.samples == KitSamples(loaded)
    }

    constructor (loaded: seq<WavData>)
      requires |loaded| == 16
      ensures Valid() && AtStart(loaded)
      ensures fresh(graph) && fresh(graph.ports) && fresh(loop) && fresh(loop.rings) && fresh(sampler)
    {
      hide Acyclic, OrderCached, GraphEdges, EndpointsOwned, Recorded, UniqueOwners, LinkedAtMost, AtMost, KitSamples,
           PlayableNotes, KitStage, IsKit, KitWired, RingStarts;
      var g, rings := NewGraph();
      var s := NewDrum(loaded);
      graph, sampler := g, s;
      loop := new EngineMessages.AudioEngine(rings);
      new;
      KitLinksOnce(graph.ports.links, 16);
    }

    lemma {:induction false} RingStartsUp(loaded: seq<WavData>, k: nat)
      requires |loaded| == 16 && PartsValid() && AtStart(loaded) && k < 16
      ensures RingModule(k) in Parts() && Parts()[RingModule(k)] == PartOf(RingModule(k))
      ensures PlaysOnly(PartOf(RingModule(k)).tracks, RingNumber(k))
      ensures exists i :: StartUpRing(PartOf(RingModule(k)), k, i)
    {
      hide Fires, InCycles, MasksMatch, IsTimeline, IsKit, KitWired, KitSamples, RingNumber,
           EngineMessages.SelectionValid;
      KitNumbers(k);
      assert RingStarts(loop.rings[k], KIT[k]);
      var i := PointAtZero(KIT[k], loop.rings[k].timeline);
      assert StartUpRing(PartOf(RingModule(k)), k, i);
    }

    lemma {:induction false} StartsUp(loaded: seq<WavData>)
      requires |loaded| == 16 && PartsValid() && AtStart(loaded)
      ensures AtRest(View(), loaded) && StartUp(View().parts)
    {
      hide RingStarts, StartUpRing, PlaysOnly, IsKit, KitWired, KitSamples, RingNumber, EngineMessages.SelectionValid;
      forall k | 0 <= k < 16
        ensures RingModule(k) in Parts() && Parts()[RingModule(k)] == PartOf(RingModule(k))
        ensures PlaysOnly(PartOf(RingModule(k)).tracks, RingNumber(k))
        ensures exists i :: StartUpRing(PartOf(RingModule(k)), k, i)
      {
        RingStartsUp(loaded, k);
      }
    }

    /** The sequencer's part of its turn: the events of one buffer. */
    method PlayRing(k: nat, ctx: Context) returns (events: seq<Event>)
      requires PartsValid() && k < |loop.rings|
      modifies loop.rings`phase, loop.rings`firstProc
      ensures PartsValid() && events == Emitted(old(Parts())[RingModule(k)], ctx)
      ensures forall boxes ::
                Parts() == old(Parts())[RingModule(k) := PartAfter(old(Parts())[RingModule(k)], boxes, ctx)]
    {
      hide BufferEvents, PhaseIncrement, NextPhase, IsTimeline, InCycles, MasksMatch;
      ghost var before := Parts();
      events := loop.rings[k].Process(ctx.sampleRate, ctx.bufferSize);
      forall boxes
        ensures Parts() == before[RingModule(k) := PartAfter(before[RingModule(k)], boxes, ctx)]
      {
        forall w | w in Ids()
          ensures PartOf(w) == if w == RingModule(k) then PartAfter(before[w], boxes, ctx) else before[w]
        {
        }
      }
    }

    method SendEvents(output: OutputPort, events: seq<Event>)
      modifies graph.ports`boxes, graph.ports`lastSignal
      ensures graph.ports.boxes == SendAll(old(graph.ports.boxes), graph.ports.links, AsSends(events, output))
    {
      ghost var sends := AsSends(events, output);
      for i := 0 to |events|
        invariant graph.ports.boxes == SendAll(old(graph.ports.boxes), graph.ports.links, sends[..i])
      {
        assert sends[..i + 1][..i] == sends[..i];
        graph.ports.Send(output, EventSignal(events[i]));
      }
      assert sends[..|events|] == sends;
    }

    /** The sampler's turn. */
    method PlayDrum(ctx: Context)
      requires PartsValid()
      modifies graph.ports`boxes, graph.ports`lastSignal, sampler`voices, sampler`dropped
      ensures PartsValid()
      ensures View() == TurnTaken(old(View()), DRUM, graph.ports.links, ctx)
      ensures sampler.dropped == old(sampler.dropped) + TurnDrops(old(View()), DRUM, DRUM)
    {
      hide AllHandled, AllAdvanced, Normalized, Mixed, DrainView, DrainRest, Drops;
      ghost var before := View();
      var mixed := sampler.Process(graph.ports, ctx.bufferSize);
      forall w | w in Ids()
        ensures PartOf(w) == if w == DRUM then PartAfter(before.parts[w], before.boxes, ctx) else before.parts[w]
      {
      }
      OneSend(Drained(before.boxes, DRUM_INPUT), graph.ports.links, Emission(DRUM_OUTPUT, AudioSignal(mixed)));
    }

    /** The audio output takes the buffer received last. */
    method PlaySpeaker(ctx: Context)
      requires PartsValid()
      modifies graph.ports`boxes
      ensures PartsValid()
      ensures View() == TurnTaken(old(View()), SPEAKER, graph.ports.links, ctx)
    {
      var signal := graph.ports.Get(SPEAKER_INPUT);
      NothingSent(graph.ports.boxes, graph.ports.links);
    }

    /** One module's turn. */
    method TakeTurn(w: Module, ctx: Context)
      requires PartsValid()
      modifies graph.ports`boxes, graph.ports`lastSignal, sampler`voices, sampler`dropped
      modifies loop.rings`phase, loop.rings`firstProc
      ensures PartsValid()
      ensures View() == TurnTaken(old(View()), w, graph.ports.links, ctx)
      ensures sampler.dropped == old(sampler.dropped) + TurnDrops(old(View()), w, DRUM)
    {
      hide Emitted, PartAfter, SendAll, Drops, DrainView;
      if w == DRUM {
        PlayDrum(ctx);
      } else if w == SPEAKER {
        PlaySpeaker(ctx);
      } else if w.id < |loop.rings| && w == RingModule(w.id) {
        var events := PlayRing(w.id, ctx);
        SendEvents(RingOutput(w.id), events);
      }
    }

    lemma {:induction false} ViewIsSound()
      requires Valid()
      ensures Sound(View(), DRUM, Uniform(1)) && Enough(View(), DRUM, Uniform(1)) && PortsOwned(View().parts)
    {
      hide AtMost, PlayableNotes, Need;
      assert DRUM in Parts();
      UniformNeed(sampler.samples, 1);
    }

    lemma {:induction false} WholePass(ctx: Context)
      requires Valid()
      ensures var m, order, links := View(), graph.executionOrder, graph.ports.links;
              var m' := PassTaken(m, order, links, ctx);
              && PassDrops(m, order, links, ctx, DRUM) == 0
              && Inbox(m'.boxes, DRUM_INPUT) == [] && DRUM in m'.parts && m'.parts[DRUM].SamplerPart?
              && m'.parts[DRUM].voices
                 == VoicesPlayed(PartOf(DRUM), Reverse(SentEvents(m.parts, order, links, ctx, DRUM_INPUT)), ctx)
              && AtMost(m'.parts[DRUM].voices, sampler.samples, Uniform(1))
    {
      hide AtMost, LinkedAtMost, LinksFit, PlayableNotes, PassTaken, PassDrops, AllHandled, AllAdvanced, SentEvents;
      ViewIsSound();
      assert View().parts[DRUM] == PartOf(DRUM);
      LinkedAtMostFits(View().parts, graph.ports.links, DRUM_INPUT, 1);
      PassIsComplete(View(), graph.modules, graph.connections, graph.executionOrder, graph.ports.links, ctx, DRUM,
                     Uniform(1));
    }

    /** One pass over the graph, over any links: every module takes its turn in the cached order. */
    method TakePass(ctx: Context)
      requires PartsValid()
      modifies graph.ports`boxes, graph.ports`lastSignal, sampler`voices, sampler`dropped
      modifies loop.rings`phase, loop.rings`firstProc
      ensures PartsValid()
      ensures View() == PassTaken(old(View()), graph.executionOrder, graph.ports.links, ctx)
      ensures sampler.dropped
           == old(sampler.dropped) + PassDrops(old(View()), graph.executionOrder, graph.ports.links, ctx, DRUM)
    {
      hide TurnTaken, TurnDrops;
      ghost var before, links := View(), graph.ports.links;
      var order := graph.executionOrder;
      for i := 0 to |order|
        invariant PartsValid()
        invariant View() == PassTaken(before, order[..i], links, ctx)
        invariant sampler.dropped == old(sampler.dropped) + PassDrops(before, order[..i], links, ctx, DRUM)
      {
        assert order[..i + 1][..i] == order[..i];
        TakeTurn(order[i], ctx);
      }
      assert order[..|order|] == order;
    }

    /**
     One pass over the graph, every output linked to the drum at most once. The sampler handles, from last to first,
     everything the sequencers send in this pass, drops no note, and leaves its input empty.
     */
    method Process(ctx: Context)
      requires Valid()
      modifies graph.ports`boxes, graph.ports`lastSignal, sampler`voices, sampler`dropped
      modifies loop.rings`phase, loop.rings`firstProc
      ensures Valid() && sampler.dropped == old(sampler.dropped)
      ensures View() == PassTaken(old(View()), graph.executionOrder, graph.ports.links, ctx)
      ensures var sent := SentEvents(old(View()).parts, graph.executionOrder, graph.ports.links, ctx, DRUM_INPUT);
              sampler.voices == VoicesPlayed(old(PartOf(DRUM)), Reverse(sent), ctx)
    {
      hide AtMost, PassTaken, PassDrops, LinkedAtMost, PlayableNotes, Acyclic, AllHandled, AllAdvanced, SentEvents,
           OrderCached, EndpointsOwned, Recorded, UniqueOwners, GraphEdges;
      WholePass(ctx);
      TakePass(ctx);
      assert View().parts[DRUM] == PartOf(DRUM);
    }

    /** GUI messages reshape rings and toggle or rotate their points; playheads, voices and ports stay as they are. */
    method HandleMessages(messages: seq<EngineMessages.Message>) returns (ghost timelines: seq<seq<Point>>)
      requires Valid()
      modifies loop, loop.rings`shapes, loop.rings`timeline, loop.rings`tracks
      ensures Valid() && |timelines| == |messages|
      ensures loop.View() == EngineMessages.AllNext(old(loop.View()), messages, timelines)
      ensures RightThroughout(old(loop.View()), messages, timelines)
    {
      timelines := loop.Run(messages);
    }

    /** The tempo parameter of one ring; a ring that does not exist is ignored. */
    method SetTempo(k: nat, bpm: real)
      requires Valid()
      modifies loop.rings`bpm
      ensures Valid() && loop.View() == old(loop.View())
      ensures k < |loop.rings| ==> loop.rings[k].bpm == bpm
      ensures forall i :: 0 <= i < |loop.rings| && i != k ==> loop.rings[i].bpm == old(loop.rings[i].bpm)
    {
      if k < |loop.rings| {
        loop.rings[k].bpm := bpm;
      }
    }

    ghost function Now(): Snapshot
      requires PartsValid()
      reads graph.ports, loop, loop.rings, sampler
    {
      Snapshot(View(), loop.View())
    }

    /** What a turn of the main loop does before the pass: messages and tempo. */
    method Prepare(tick: Tick) returns (ghost timelines: seq<seq<Point>>)
      requires Valid()
      modifies loop, loop.rings`shapes, loop.rings`timeline, loop.rings`tracks, loop.rings`bpm
      ensures Valid() && |timelines| == |tick.messages|
      ensures loop.View() == EngineMessages.AllNext(old(loop.View()), tick.messages, timelines)
      ensures RightThroughout(old(loop.View()), tick.messages, timelines)
      ensures Retuned(old(View()), View(), loop.View().rings, tick.tempo)
    {
      hide AtMost, LinkedAtMost, PlayableNotes, Acyclic, OrderCached, EndpointsOwned, Recorded, UniqueOwners,
           GraphEdges, Retuned, EngineMessages.AllNext, EngineMessages.SelectionValid;
      timelines := HandleMessages(tick.messages);
      if tick.tempo.Some? {
        SetTempo(tick.tempo.value.0, tick.tempo.value.1);
      }
      RingsRetuned(tick.tempo);
    }

    twostate lemma {:induction false} RingsRetuned(tempo: Option<(nat, real)>)
      requires old(PartsValid()) && PartsValid() && unchanged(sampler) && unchanged(graph.ports`boxes)
      requires unchanged(loop.rings`phase, loop.rings`beatsPerCycle)
      requires forall k :: 0 <= k < |loop.rings| ==>
                 loop.rings[k].bpm == if tempo.Some? && tempo.value.0 == k then tempo.value.1
                                      else old(loop.rings[k].bpm)
      ensures Retuned(old(View()), View(), loop.View().rings, tempo)
    {
      hide IsTimeline, MasksMatch, EngineMessages.SelectionValid;
    }

    /** A pass moves playheads and leaves rings and selection alone. */
    twostate lemma {:induction false} SameRings()
      requires old(PartsValid()) && PartsValid()
      requires unchanged(loop) && unchanged(loop.rings`shapes, loop.rings`timeline, loop.rings`tracks)
      ensures loop.View() == old(loop.View())
    {
    }

    lemma {:induction false} NowIsCoherent()
      requires PartsValid()
      ensures Coherent(Now())
    {
      hide IsTimeline, InCycles, MasksMatch, EngineMessages.SelectionValid;
      forall k | 0 <= k < |loop.rings|
        ensures RingModule(k) in Parts() && Parts()[RingModule(k)] == PartOf(RingModule(k))
        ensures IsTimeline(loop.rings[k].shapes, EPSILON, loop.rings[k].timeline)
      {
        assert loop.rings[k].Valid();
      }
    }

    /** One turn of the main loop; `mid` is the machine after the messages and before the pass. */
    method TakeTick(tick: Tick) returns (ghost timelines: seq<seq<Point>>, ghost mid: Machine)
      requires Valid()
      modifies loop, loop.rings, graph.ports`boxes, graph.ports`lastSignal, sampler`voices, sampler`dropped
      ensures Valid() && sampler.dropped == old(sampler.dropped)
      ensures sampler.samples == old(sampler.samples) && |sampler.voices| == |old(sampler.voices)|
      ensures |timelines| == |tick.messages|
      ensures TickDone(old(Now()), Now(), tick, timelines, mid, graph.executionOrder, graph.ports.links)
    {
      hide AtMost, LinkedAtMost, PlayableNotes, PassTaken, Acyclic, OrderCached, EndpointsOwned, Recorded, UniqueOwners,
           GraphEdges, SentEvents, VoicesPlayed, EngineMessages.AllNext, EngineMessages.SelectionValid;
      timelines := Prepare(tick);
      mid := View();
      if loop.isPlaying {
        label Prepared:
        Process(tick.ctx);
        SameRings@Prepared();
      }
    }

    /** The main loop: over every run, with any messages and any tempo before each pass, no note is dropped. */
    method Run(ticks: seq<Tick>) returns (ghost trace: seq<Snapshot>)
      requires Valid()
      modifies loop, loop.rings, graph.ports`boxes, graph.ports`lastSignal, sampler`voices, sampler`dropped
      ensures Valid() && sampler.dropped == old(sampler.dropped)
      ensures sampler.samples == old(sampler.samples) && |sampler.voices| == |old(sampler.voices)|
      ensures |trace| == |ticks| + 1 && trace[0] == old(Now()) && trace[|ticks|] == Now()
      ensures forall i :: 0 <= i <= |ticks| ==> Coherent(trace[i])
      ensures forall i :: 0 <= i < |ticks| ==>
                Ticks(trace[i], trace[i + 1], ticks[i], graph.executionOrder, graph.ports.links)
    {
      hide TickDone, Coherent, AtMost, LinkedAtMost, PlayableNotes, Acyclic, OrderCached, EndpointsOwned, Recorded,
           UniqueOwners, GraphEdges;
      NowIsCoherent();
      trace := [Now()];
      for i := 0 to |ticks|
        invariant Valid() && sampler.dropped == old(sampler.dropped)
        invariant sampler.samples == old(sampler.samples) && |sampler.voices| == |old(sampler.voices)|
        invariant |trace| == i + 1 && trace[0] == old(Now()) && trace[i] == Now()
        invariant forall k :: 0 <= k <= i ==> Coherent(trace[k])
        invariant forall k :: 0 <= k < i ==>
                    Ticks(trace[k], trace[k + 1], ticks[k], graph.executionOrder, graph.ports.links)
      {
        ghost var timelines, mid := TakeTick(ticks[i]);
        assert Ticks(trace[i], Now(), ticks[i], graph.executionOrder, graph.ports.links);
        NowIsCoherent();
        trace := trace + [Now()];
      }
    }
  }

  /** From start-up, over every run of the main loop, the drum kit never drops a note. */
  method PlayKit(loaded: seq<WavData>, ticks: seq<Tick>) returns (engine: DrumEngine)
    requires |loaded| == 16
    ensures fresh(engine) && engine.Valid() && engine.sampler.dropped == 0
    ensures engine.sampler.samples == KitSamples(loaded) && |engine.sampler.voices| == MAX_VOICES
  {
    hide KitSamples;
    engine := new DrumEngine(loaded);
    ghost var trace := engine.Run(ticks);
  }

  /** With one ring linked to the drum a second time, the kit loses a note on its first pass. */
  method PlayDoubledKit(loaded: seq<WavData>, k: nat, ctx: Context) returns (engine: DrumEngine)
    requires |loaded| == 16 && k < 16 && ctx.bufferSize > 0
    ensures fresh(engine) && engine.PartsValid() && engine.sampler.dropped > 0
    ensures IsKit(engine.graph.modules, engine.graph.connections, 16)
    ensures forall j :: 0 <= j < 16 ==> RingLinks(engine.graph.ports.links, j) == if j == k then 2 else 1
  {
    hide AtRest, StartUp, PassTaken, PassDrops, IsKit, KitWired, Recorded, EndpointsOwned, GraphEdges, RingLinks,
         LinkedAtMost, AtMost, PlayableNotes, KitSamples, RingStarts, IsTopologicalOrder;
    engine := new DrumEngine(loaded);
    engine.StartsUp(loaded);
    ExtraLink(engine.graph.modules, engine.graph.connections, engine.graph.ports.links, k);
    engine.graph.Connect(RingOutput(k), DRUM_INPUT);
    KitIsAcyclic(engine.graph.modules, engine.graph.connections, 16);
    DoubledLinkLosesNote(engine.View(), engine.graph.modules, engine.graph.connections, engine.graph.executionOrder,
                         engine.graph.ports.links, ctx, loaded, k);
    engine.TakePass(ctx);
  }
}
