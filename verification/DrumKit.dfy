/**
 The drum kit the engine builds: sixteen one-track sequencers and one sampler, their wiring, and exactly which wirings
 lose a note.
 */
module DrumKit {
  import opened Sequences
  import opened Numbers
  import opened Events
  import opened Timeline
  import opened Playhead
  import opened Schedule
  import opened PolyRhythm
  import opened Ports
  import opened TopologicalSort
  import opened Graph
  import opened GraphPass
  import opened Sampler
  import opened VoicePool
  import opened DrumPath
  import opened DrumMachine

  // ----- the kit -----

  datatype Instrument = Instrument(name: string, note: UInt8, velocity: nat, subdivision: UInt32, shapeName: string)

  const KIT: seq<Instrument> := [
    Instrument("Kick1", 48, 100, 4, "Quarter"),
    Instrument("Snare1", 50, 100, 3, "Triplets"),
    Instrument("HiHat1", 52, 80, 4, "Quarter"),
    Instrument("Kick1bis", 54, 100, 4, "Quarter"),
    Instrument("Kick2", 56, 100, 5, "Quintuplets"),
    Instrument("Snare2", 58, 100, 5, "Quintuplets"),
    Instrument("HiHat2", 60, 80, 5, "Quintuplets"),
    Instrument("Kick2bis", 62, 100, 5, "Quintuplets"),
    Instrument("Kick3", 64, 100, 2, "Quintuplets"),
    Instrument("Snare3", 66, 100, 2, "Quintuplets"),
    Instrument("HiHat3", 68, 80, 2, "Quintuplets"),
    Instrument("Kick3bis", 70, 100, 2, "Quintuplets"),
    Instrument("Kick4", 72, 100, 3, "Quintuplets"),
    Instrument("Snare4", 74, 100, 3, "Quintuplets"),
    Instrument("HiHat4", 76, 80, 3, "Quintuplets"),
    Instrument("Kick4bis", 78, 100, 3, "Quintuplets")
  ]

  const MAX_VOICES := 16

  /** The notes 48, 50, 52, ... */
  function KitNotes(count: nat): (notes: set<int>)
    ensures |notes| == count
    ensures forall n :: n in notes ==> 48 <= n < 48 + 2 * count
  {
    if count == 0 then {} else KitNotes(count - 1) + {48 + 2 * (count - 1)}
  }

  /** The sample map: note 48 + 2 k plays the k-th loaded sample. */
  function KitSamples(loaded: seq<WavData>): SampleMap
    requires |loaded| == 16
  {
    map n | n in KitNotes(16) :: loaded[(n - 48) / 2]
  }

  /** The kit has exactly one playable note for each of the sampler's voices. */
  lemma {:induction false} KitFits(loaded: seq<WavData>)
    requires |loaded| == 16
    ensures |PlayableNotes(KitSamples(loaded))| == MAX_VOICES
  {
    hide KitNotes;
    assert PlayableNotes(KitSamples(loaded)) == KitNotes(16);
  }

  // ----- the modules and their ports -----

  const DRUM_INPUT := InputPort(0, EventType)
  const DRUM_OUTPUT := OutputPort(0, AudioType)
  const SPEAKER_INPUT := InputPort(0, AudioType)

  const DRUM := Module(16, [DRUM_INPUT], [DRUM_OUTPUT])
  const SPEAKER := Module(17, [SPEAKER_INPUT], [])

  function RingOutput(k: nat): OutputPort {
    OutputPort(k, EventType)
  }

  function RingModule(k: nat): Module {
    Module(k, [], [RingOutput(k)])
  }

  // ----- the wiring of the kit -----

  function KitModules(count: nat): (r: seq<Module>)
    ensures |r| == count && forall k :: 0 <= k < count ==> r[k] == RingModule(k)
  {
    seq(count, k requires 0 <= k < count => RingModule(k))
  }

  function KitConnections(count: nat): (r: seq<Connection>)
    ensures |r| == count && forall k :: 0 <= k < count ==> r[k] == Connection(RingOutput(k), DRUM_INPUT)
  {
    seq(count, k requires 0 <= k < count => Connection(RingOutput(k), DRUM_INPUT))
  }

  /** Every ring up to `count` is linked once to the drum, and there are no other event links. */
  ghost predicate KitLinked(links: LinkTable, count: nat) {
    forall o :: LinksOf(links, o) == if o.signalType == EventType && o.id < count then [DRUM_INPUT] else []
  }

  /** A ring at start-up: one track with every point active, a point under the playhead, 120 beats per minute. */
  ghost predicate RingStarts(ring: PolyRhythmModule, def: Instrument)
    reads ring
  {
    && ring.Valid() && ring.shapes == [Shape(def.subdivision, 0.0, def.shapeName, 0)]
    && |ring.tracks| == 1 && ring.tracks[0].noteNumber == def.note && ring.tracks[0].velocity == def.velocity
    && (forall i :: 0 <= i < |ring.timeline| ==> Fires(ring.tracks[0], i))
    && ring.phase == 0.0 && ring.bpm == 120.0 && ring.beatsPerCycle == 4
  }

  method NewRing(def: Instrument) returns (ring: PolyRhythmModule)
    ensures fresh(ring) && ring.Valid() && RingStarts(ring, def)
  {
    hide IsTimeline, InCycles, MasksMatch, ResizeAll, Fires;
    ring := new PolyRhythmModule();
    ring.AddShape(Shape(def.subdivision, 0.0, def.shapeName, 0));
    var track := Track(def.note, def.velocity, seq(|ring.timeline|, _ => true), def.name);
    FullMask(track, |ring.timeline|);
    ring.SetTracks([track]);
  }

  lemma {:induction false} FullMask(track: Track, n: nat)
    requires track.activePoints == seq(n, _ => true)
    ensures ResizeAll([track], n) == [track] && forall i :: 0 <= i < n ==> Fires(track, i)
  {
    assert Resize(track.activePoints, n) == track.activePoints;
    assert track.(activePoints := track.activePoints) == track;
  }

  /** The graph while rings are being added. */
  ghost predicate KitStage(graph: AudioGraph, count: nat)
    reads graph, graph.ports
  {
    && graph.Valid() && graph.Closed() && graph.LinksRecorded()
    && graph.modules == [DRUM, SPEAKER] + KitModules(count)
    && graph.connections == KitConnections(count)
    && KitLinked(graph.ports.links, count)
  }

  method AddRing(graph: AudioGraph, k: nat)
    requires KitStage(graph, k)
    modifies graph, graph.ports`links
    ensures KitStage(graph, k + 1)
  {
    hide OrderCached, GraphEdges, EndpointsOwned, Recorded, Distinct, KitModules, KitConnections, KitLinked, Unlinked,
         Owned;
    RingIsNew(graph.ports.links, k);
    KitGrows(k);
    graph.AddModule(RingModule(k));
    RingIsOwned(graph.modules, k);
    graph.Connect(RingOutput(k), DRUM_INPUT);
  }

  lemma {:induction false} KitGrows(k: nat)
    ensures RingModule(k) !in [DRUM, SPEAKER] + KitModules(k)
    ensures [DRUM, SPEAKER] + KitModules(k + 1) == [DRUM, SPEAKER] + KitModules(k) + [RingModule(k)]
    ensures KitConnections(k + 1) == KitConnections(k) + [Connection(RingOutput(k), DRUM_INPUT)]
  {
  }

  lemma {:induction false} RingIsNew(links: LinkTable, k: nat)
    requires KitLinked(links, k)
    ensures Unlinked(links, RingModule(k))
    ensures KitLinked(links[RingOutput(k) := LinksOf(links, RingOutput(k)) + [DRUM_INPUT]], k + 1)
  {
  }

  lemma {:induction false} RingIsOwned(modules: seq<Module>, k: nat)
    requires modules == [DRUM, SPEAKER] + KitModules(k + 1)
    ensures Owned(modules, Connection(RingOutput(k), DRUM_INPUT))
  {
    assert modules[k + 2] == RingModule(k) && modules[0] == DRUM;
  }

  method StartKit(graph: AudioGraph)
    requires graph.Valid() && graph.Closed() && graph.LinksRecorded()
    requires graph.modules == [] && graph.connections == [] && graph.ports.links == map[]
    modifies graph
    ensures KitStage(graph, 0)
  {
    hide OrderCached, GraphEdges, EndpointsOwned, Recorded, Distinct;
    assert Unlinked(graph.ports.links, DRUM) && Unlinked(graph.ports.links, SPEAKER);
    graph.AddModule(DRUM);
    graph.AddModule(SPEAKER);
  }

  method WireKit(graph: AudioGraph, defs: seq<Instrument>) returns (rings: seq<PolyRhythmModule>)
    requires graph.Valid() && graph.Closed() && graph.LinksRecorded()
    requires graph.modules == [] && graph.connections == [] && graph.ports.links == map[]
    modifies graph, graph.ports`links
    ensures |rings| == |defs| && Distinct(rings) && forall r :: r in rings ==> fresh(r) && r.Valid()
    ensures forall k :: 0 <= k < |defs| ==> RingStarts(rings[k], defs[k])
    ensures KitStage(graph, |defs|)
  {
    hide KitStage, RingStarts;
    StartKit(graph);
    rings := [];
    for i := 0 to |defs|
      invariant |rings| == i && Distinct(rings) && forall r :: r in rings ==> fresh(r) && r.Valid()
      invariant forall k :: 0 <= k < i ==> RingStarts(rings[k], defs[k])
      invariant KitStage(graph, i)
    {
      var ring := NewRing(defs[i]);
      rings := rings + [ring];
      AddRing(graph, i);
    }
  }

  /** The rings feed the drum, and the drum feeds the speaker, over any number of connections each. */
  ghost predicate IsKit(modules: seq<Module>, connections: seq<Connection>, count: nat) {
    && modules == [DRUM, SPEAKER] + KitModules(count)
    && forall c :: c in connections ==>
        c == Connection(DRUM_OUTPUT, SPEAKER_INPUT)
        || (c.source.id < count && c == Connection(RingOutput(c.source.id), DRUM_INPUT))
  }

  lemma {:induction false} KitOwners(modules: seq<Module>, connections: seq<Connection>, count: nat)
    requires IsKit(modules, connections, count)
    ensures UniqueOwners(modules)
    ensures forall m :: m in modules ==> m == DRUM || m == SPEAKER || (m.id < count && m == RingModule(m.id))
  {
  }

  lemma {:induction false} KitEdge(modules: seq<Module>, connections: seq<Connection>, count: nat, e: Edge<Module>)
    requires IsKit(modules, connections, count) && e in GraphEdges(modules, connections)
    ensures (e.source.id < count && e.source == RingModule(e.source.id) && e.target == DRUM)
         || (e.source == DRUM && e.target == SPEAKER)
  {
    KitOwners(modules, connections, count);
    var c := EdgeIsConnection(modules, connections, e);
  }

  lemma {:induction false} KitIsAcyclic(modules: seq<Module>, connections: seq<Connection>, count: nat)
    requires IsKit(modules, connections, count)
    ensures Acyclic(GraphEdges(modules, connections))
  {
    hide IsKit, GraphEdges;
    var edges, order := GraphEdges(modules, connections), KitModules(count) + [DRUM, SPEAKER];
    forall e | e in edges
      ensures e.target in order
      ensures forall i :: 0 <= i < |order| && order[i] == e.target ==> e.source in order[..i]
    {
      KitEdge(modules, connections, count, e);
      assert order[count] == DRUM && order[count + 1] == SPEAKER;
      forall i | 0 <= i < |order| && order[i] == e.target
        ensures e.source in order[..i]
      {
        if e.target == DRUM {
          assert order[..i][e.source.id] == e.source;
        } else {
          assert order[..i][count] == e.source;
        }
      }
    }
    ForwardIsAcyclic(edges, order);
  }

  method FinishKit(graph: AudioGraph)
    requires KitStage(graph, |KIT|)
    modifies graph, graph.ports`links
    ensures graph.Valid() && graph.Closed() && graph.LinksRecorded()
    ensures UniqueOwners(graph.modules) && Acyclic(graph.Edges()) && DRUM in graph.modules
    ensures IsKit(graph.modules, graph.connections, |KIT|) && KitWired(graph.ports.links, |KIT|)
  {
    hide OrderCached, GraphEdges, EndpointsOwned, Recorded, Distinct, KitModules, KitConnections, UniqueOwners, Acyclic;
    assert DRUM in graph.modules && SPEAKER in graph.modules;
    assert Owned(graph.modules, Connection(DRUM_OUTPUT, SPEAKER_INPUT));
    graph.Connect(DRUM_OUTPUT, SPEAKER_INPUT);
    KitOwners(graph.modules, graph.connections, |KIT|);
    KitIsAcyclic(graph.modules, graph.connections, |KIT|);
  }

  /** The links of the finished kit: every ring once to the drum, the drum once to the speaker. */
  ghost predicate KitWired(links: LinkTable, count: nat) {
    forall o :: LinksOf(links, o) == if o == DRUM_OUTPUT then [SPEAKER_INPUT]
                                     else if o.signalType == EventType && o.id < count then [DRUM_INPUT] else []
  }

  lemma {:induction false} KitLinksOnce(links: LinkTable, count: nat)
    requires KitWired(links, count)
    ensures LinkedAtMost(links, DRUM_INPUT, 1)
  {
    assert [DRUM_INPUT][..0] == [] && [SPEAKER_INPUT][..0] == [];
  }

  /** A sampler with a silent pool and the kit's samples. */
  method NewDrum(loaded: seq<WavData>) returns (sampler: SamplerModule)
    requires |loaded| == 16
    ensures fresh(sampler) && sampler.Valid() && sampler.input == DRUM_INPUT && sampler.output == DRUM_OUTPUT
    ensures sampler.samples == KitSamples(loaded) && |sampler.voices| == MAX_VOICES && sampler.dropped == 0
    ensures Silent(sampler.voices)
    ensures AtMost(sampler.voices, sampler.samples, Uniform(1)) && |PlayableNotes(sampler.samples)| <= |sampler.voices|
  {
    hide AtMost, KitSamples, PlayableNotes;
    sampler := new SamplerModule(0, 0, MAX_VOICES);
    sampler.SetSamples(KitSamples(loaded));
    KitFits(loaded);
    SilentIsAtMost(sampler.voices, sampler.samples, Uniform(1));
  }

  method NewGraph() returns (graph: AudioGraph, rings: seq<PolyRhythmModule>)
    ensures fresh(graph) && fresh(graph.ports) && graph.ports.boxes == map[]
    ensures graph.Valid() && graph.Closed() && graph.LinksRecorded()
    ensures UniqueOwners(graph.modules) && Acyclic(graph.Edges()) && DRUM in graph.modules
    ensures IsKit(graph.modules, graph.connections, |KIT|) && KitWired(graph.ports.links, |KIT|)
    ensures |rings| == |KIT| && Distinct(rings) && fresh(rings) && forall r :: r in rings ==> r.Valid()
    ensures forall k :: 0 <= k < |KIT| ==> RingStarts(rings[k], KIT[k])
  {
    hide KitStage, Acyclic, OrderCached, GraphEdges, EndpointsOwned, Recorded, UniqueOwners, IsKit, KitWired;
    graph := new AudioGraph();
    rings := WireKit(graph, KIT);
    assert forall i :: 0 <= i < |rings| ==> rings[i] in rings;
    FinishKit(graph);
  }

  /** One more link of a ring's output to the drum. */
  lemma {:induction false} ExtraLink(modules: seq<Module>, connections: seq<Connection>, links: LinkTable, k: nat)
    requires IsKit(modules, connections, 16) && KitWired(links, 16) && k < 16
    ensures IsKit(modules, connections + [Connection(RingOutput(k), DRUM_INPUT)], 16)
    ensures var more := links[RingOutput(k) := LinksOf(links, RingOutput(k)) + [DRUM_INPUT]];
            forall j :: 0 <= j < 16 ==> RingLinks(more, j) == if j == k then 2 else 1
  {
    hide KitModules;
    var more := links[RingOutput(k) := LinksOf(links, RingOutput(k)) + [DRUM_INPUT]];
    assert [DRUM_INPUT][..0] == [];
    assert Count([DRUM_INPUT], DRUM_INPUT) == 1;
    assert [DRUM_INPUT, DRUM_INPUT] == [DRUM_INPUT] + [DRUM_INPUT];
    CountConcat([DRUM_INPUT], [DRUM_INPUT], DRUM_INPUT);
    forall j | 0 <= j < 16
      ensures LinksOf(more, RingOutput(j)) == if j == k then [DRUM_INPUT, DRUM_INPUT] else [DRUM_INPUT]
    {
    }
  }

  // ----- exactly which wirings of the kit lose a note -----

  function RingNumber(k: nat): int {
    48 + 2 * k
  }

  ghost function RingLinks(links: LinkTable, k: nat): nat {
    Count(LinksOf(links, RingOutput(k)), DRUM_INPUT)
  }

  /** The links of all rings to the drum. */
  ghost function LinkSum(links: LinkTable, count: nat): nat {
    if count == 0 then 0 else LinkSum(links, count - 1) + RingLinks(links, count - 1)
  }

  /** The sequencers of the machine are rings of the kit, and play their ring's note. */
  ghost predicate KitRings(parts: map<Module, Part>) {
    forall w :: IsRing(parts, w) ==>
      && w.id < 16 && w == RingModule(w.id) && parts[w].output == RingOutput(w.id)
      && PlaysOnly(parts[w].tracks, RingNumber(w.id))
  }

  ghost predicate PlaysOnly(tracks: seq<Track>, note: int) {
    forall t :: 0 <= t < |tracks| ==> tracks[t].noteNumber == note
  }

  /** Each note may occupy a voice per link of its ring. */
  ghost function KitCaps(links: LinkTable): Caps {
    note => if 48 <= note < 80 then RingLinks(links, (note - 48) / 2) else 0
  }

  lemma {:induction false} KitLinksFit(parts: map<Module, Part>, links: LinkTable)
    requires KitRings(parts)
    ensures LinksFit(parts, links, DRUM_INPUT, KitCaps(links))
  {
    hide KitCaps, RingNumber;
    forall w | IsRing(parts, w)
      ensures TracksAllowed(parts[w].tracks, RingLinks(links, w.id), KitCaps(links))
    {
      CapOfRing(links, w.id);
      RingNumberIsByte(w.id);
    }
  }

  lemma {:induction false} RingNumberIsByte(k: nat)
    requires k < 16
    ensures Byte(RingNumber(k)) == RingNumber(k)
  {
  }

  lemma {:induction false} KitNotesShrink(count: nat)
    requires count > 0
    ensures RingNumber(count - 1) in KitNotes(count)
    ensures KitNotes(count) - {RingNumber(count - 1)} == KitNotes(count - 1)
  {
    var fewer := KitNotes(count - 1);
    assert RingNumber(count - 1) !in fewer;
    assert KitNotes(count) == fewer + {RingNumber(count - 1)};
  }

  lemma {:induction false} CapOfRing(links: LinkTable, k: nat)
    requires k < 16
    ensures KitCaps(links)(RingNumber(k)) == RingLinks(links, k)
  {
    hide RingLinks;
    assert (RingNumber(k) - 48) / 2 == k;
  }

  lemma {:induction false} CapsOfNotes(links: LinkTable, count: nat)
    requires count <= 16
    ensures SumOver(KitNotes(count), KitCaps(links)) == LinkSum(links, count)
  {
    hide SumOver, RingLinks, RingNumber, KitCaps;
    if count == 0 {
      NoSum(KitCaps(links));
    } else {
      hide KitNotes;
      CapsOfNotes(links, count - 1);
      KitNotesShrink(count);
      CapOfRing(links, count - 1);
      SumSplit(KitNotes(count), KitCaps(links), RingNumber(count - 1));
    }
  }

  lemma {:induction false} NoSum(caps: Caps)
    ensures SumOver({}, caps) == 0
  {
  }

  lemma {:induction false} KitNeed(loaded: seq<WavData>, links: LinkTable)
    requires |loaded| == 16
    ensures Need(KitSamples(loaded), KitCaps(links)) == LinkSum(links, 16)
  {
    hide KitNotes, SumOver;
    assert PlayableNotes(KitSamples(loaded)) == KitNotes(16);
    CapsOfNotes(links, 16);
  }

  /** A step of the main loop on the kit: a pass, or a change that leaves rings their notes. */
  ghost predicate KitStep(step: Step, links: LinkTable) {
    match step
    case TakePass(_, l, _) => l == links
    case Retune(who, _, tracks, _, _) => PlaysOnly(tracks, RingNumber(who.id))
    case Join(_, _) => false
  }

  lemma {:induction false} TurnKeepsRings(m: Machine, who: Module, links: LinkTable, ctx: Context)
    requires KitRings(m.parts)
    ensures KitRings(TurnTaken(m, who, links, ctx).parts)
  {
    hide PlaysOnly, SendAll, AllHandled, AllAdvanced, Normalized, Mixed;
  }

  lemma {:induction false} PassKeepsRings(m: Machine, order: seq<Module>, links: LinkTable, ctx: Context)
    requires KitRings(m.parts)
    ensures KitRings(PassTaken(m, order, links, ctx).parts)
    decreases |order|
  {
    hide KitRings, TurnTaken;
    if order != [] {
      PassKeepsRings(m, order[..|order| - 1], links, ctx);
      TurnKeepsRings(PassTaken(m, order[..|order| - 1], links, ctx), order[|order| - 1], links, ctx);
    }
  }

  lemma {:induction false} RunKeepsRings(m: Machine, steps: seq<Step>, links: LinkTable)
    requires KitRings(m.parts) && forall i :: 0 <= i < |steps| ==> KitStep(steps[i], links)
    ensures KitRings(RunTaken(m, steps).parts)
    decreases |steps|
  {
    hide PassTaken;
    if steps != [] {
      var before, step := RunTaken(m, steps[..|steps| - 1]), steps[|steps| - 1];
      RunKeepsRings(m, steps[..|steps| - 1], links);
      if step.TakePass? {
        PassKeepsRings(before, step.order, step.links, step.ctx);
      }
    }
  }

  /** The kit at rest: its parts, a silent pool, and nothing in the drum's input. */
  ghost predicate AtRest(m: Machine, loaded: seq<WavData>)
    requires |loaded| == 16
  {
    && AllPortsFit(m.parts) && PortsOwned(m.parts) && KitRings(m.parts)
    && DRUM in m.parts && m.parts[DRUM].SamplerPart? && m.parts[DRUM].input == DRUM_INPUT
    && m.parts[DRUM].samples == KitSamples(loaded) && Silent(m.parts[DRUM].voices)
    && Inbox(m.boxes, DRUM_INPUT) == []
  }

  /** With a voice for every link, no run of the kit loses a note, whatever messages and tempo do in between. */
  lemma {:induction false} KitRunLosesNothing(m: Machine, loaded: seq<WavData>, steps: seq<Step>, links: LinkTable)
    requires |loaded| == 16 && AtRest(m, loaded) && LinkSum(links, 16) <= |m.parts[DRUM].voices|
    requires forall i :: 0 <= i < |steps| ==> KitStep(steps[i], links)
    ensures NotesDropped(m, steps, DRUM) == 0
  {
    hide AtMost, KitCaps, LinkSum, KitRings, AllPortsFit, PortsOwned, Need, KitSamples, LinksFit, NotesDropped,
         RunTaken;
    var caps := KitCaps(links);
    KitNeed(loaded, links);
    SilentIsAtMost(m.parts[DRUM].voices, m.parts[DRUM].samples, caps);
    NoHits(caps);
    assert EventsOf(Inbox(m.boxes, DRUM_INPUT)) == [];
    forall i | 0 <= i < |steps|
      ensures Fair(RunTaken(m, steps[..i]), steps[i], DRUM_INPUT, caps)
    {
      RunKeepsRings(m, steps[..i], links);
      KitLinksFit(RunTaken(m, steps[..i]).parts, links);
    }
    NoNoteIsDropped(m, steps, DRUM, caps);
  }

  // ----- the first pass after start-up -----

  /** A ring at start-up: a point of its one track lies under the playhead. */
  ghost predicate StartUpRing(p: Part, k: nat, i: nat) {
    && p.SequencerPart? && p.output == RingOutput(k) && |p.tracks| == 1 && p.tracks[0].noteNumber == RingNumber(k)
    && p.phase == 0.0 && p.bpm > 0.0 && i < |p.timeline| && p.timeline[i].phase == 0.0 && Fires(p.tracks[0], i)
  }

  ghost predicate StartUp(parts: map<Module, Part>) {
    forall k :: 0 <= k < 16 ==> RingModule(k) in parts && exists i :: StartUpRing(parts[RingModule(k)], k, i)
  }

  lemma {:induction false} PointAtZero(def: Instrument, timeline: seq<Point>) returns (i: nat)
    requires def.subdivision > 0 && IsTimeline([Shape(def.subdivision, 0.0, def.shapeName, 0)], EPSILON, timeline)
    ensures i < |timeline| && timeline[i].phase == 0.0
  {
    hide IsTimeline;
    var shapes := [Shape(def.subdivision, 0.0, def.shapeName, 0)];
    TimelineMeaning(shapes, EPSILON, timeline);
    assert Generated(shapes, Point(0.0, 0, 0)) by {
      assert 0 as real / def.subdivision as real + 0.0 == 0.0;
    }
    i :| FusedInto(timeline, EPSILON, 0.0, i);
  }

  lemma {:induction false} KitNumbers(k: nat)
    requires k < 16
    ensures KIT[k].note == RingNumber(k) && KIT[k].subdivision > 0
  {
  }

  lemma {:induction false} PointIsEmitted(timeline: seq<Point>, track: Track, phase: real, inc: real, size: nat, i: nat)
    requires InCycles(timeline) && phase < 1.0 && i < |timeline| && Fires(track, i)
    requires Hit(timeline[i].phase, phase, Span(inc, size))
    ensures BufferEvents(timeline, [track], phase, inc, size) != []
    decreases |timeline|
  {
    if i < |timeline| - 1 {
      PointIsEmitted(timeline[..|timeline| - 1], track, phase, inc, size, i);
    } else {
      assert [track][..0] == [];
    }
  }

  lemma {:induction false} StartUpHits(p: Part, k: nat, i: nat, ctx: Context)
    requires StartUpRing(p, k, i) && ctx.bufferSize > 0
    ensures Emitted(p, ctx) != []
  {
    hide BufferEvents, Fires;
    var inc := Increment(p, ctx);
    PositiveIncrementOf(p.bpm, p.beatsPerCycle, ctx.sampleRate as real);
    PositiveSpan(inc, ctx.bufferSize);
    assert p.tracks == [p.tracks[0]];
    PointIsEmitted(p.timeline, p.tracks[0], p.phase, inc, ctx.bufferSize, i);
  }

  lemma {:induction false} PositiveIncrementOf(bpm: real, beatsPerCycle: nat, sampleRate: real)
    requires bpm > 0.0 && sampleRate > 0.0
    ensures PhaseIncrement(bpm, beatsPerCycle, sampleRate) > 0.0
  {
    var beats := if beatsPerCycle == 0 then 4.0 else beatsPerCycle as real;
    assert 60.0 * beats > 0.0;
    assert 60.0 * beats * sampleRate > 0.0;
  }

  lemma {:induction false} PositiveSpan(inc: real, size: nat)
    requires inc > 0.0 && size > 0
    ensures Span(inc, size) > 0.0
  {
  }

  lemma {:induction false} SumOfModules(f: Module -> nat, links: LinkTable, count: nat)
    requires f(DRUM) == 0 && f(SPEAKER) == 0 && forall k :: 0 <= k < count ==> f(RingModule(k)) == RingLinks(links, k)
    ensures SumList([DRUM, SPEAKER] + KitModules(count), f) == LinkSum(links, count)
  {
    hide RingLinks;
    var modules := [DRUM, SPEAKER] + KitModules(count);
    if count == 0 {
      assert modules == [DRUM, SPEAKER] && modules[..1] == [DRUM] && [DRUM][..0] == [];
      assert SumList([DRUM], f) == f(DRUM);
    } else {
      SumOfModules(f, links, count - 1);
      assert modules[..count + 1] == [DRUM, SPEAKER] + KitModules(count - 1);
    }
  }

  /** At start-up every ring hits, so the kit's first pass counts every link. */
  lemma {:induction false} FirstPassLinks(m: Machine, modules: seq<Module>, edges: seq<Edge<Module>>,
                                          order: seq<Module>, links: LinkTable, ctx: Context, loaded: seq<WavData>)
    requires |loaded| == 16 && AtRest(m, loaded) && StartUp(m.parts) && ctx.bufferSize > 0
    requires modules == [DRUM, SPEAKER] + KitModules(16) && Distinct(modules)
    requires IsTopologicalOrder(modules, edges, order)
    ensures SumList(order, HitLinks(m.parts, links, ctx, DRUM_INPUT, m.parts[DRUM].samples)) == LinkSum(links, 16)
  {
    hide AllPortsFit, PortsOwned, Emitted, Silent, SumList, LinkSum, Forward;
    var f := HitLinks(m.parts, links, ctx, DRUM_INPUT, m.parts[DRUM].samples);
    forall k | 0 <= k < 16
      ensures f(RingModule(k)) == RingLinks(links, k)
    {
      var i :| StartUpRing(m.parts[RingModule(k)], k, i);
      StartUpHits(m.parts[RingModule(k)], k, i, ctx);
      HasSample(loaded, k);
    }
    assert f(DRUM) == 0 && f(SPEAKER) == 0;
    SumOfModules(f, links, 16);
    SameElementsSameSum(modules, order, f);
  }

  lemma {:induction false} HasSample(loaded: seq<WavData>, k: nat)
    requires |loaded| == 16 && k < 16
    ensures RingNumber(k) in KitSamples(loaded) && Byte(RingNumber(k)) == RingNumber(k)
  {
    hide KitNotes;
    IsKitNote(16, k);
  }

  lemma {:induction false} IsKitNote(count: nat, k: nat)
    requires k < count
    ensures RingNumber(k) in KitNotes(count)
  {
    if k < count - 1 {
      IsKitNote(count - 1, k);
    }
  }

  /** Rings of the kit that stand at start-up have one track each, with different notes. */
  lemma {:induction false} StartUpIsOneTrack(m: Machine, order: seq<Module>)
    requires KitRings(m.parts) && StartUp(m.parts) && Distinct(order)
    ensures OneTrackRings(m.parts, order)
  {
    hide Fires;
    forall i | 0 <= i < |order|
      ensures OneTrack(m.parts, order[i])
      ensures IsRing(m.parts, order[i]) ==> RingNote(m.parts[order[i]]) == RingNumber(order[i].id)
    {
      if IsRing(m.parts, order[i]) {
        var j :| StartUpRing(m.parts[RingModule(order[i].id)], order[i].id, j);
        RingNumberIsByte(order[i].id);
      }
    }
  }

  /** The first pass after start-up loses no note if and only if there is a voice for every link of the rings. */
  lemma {:induction false} FirstPassLosesNothingIff(m: Machine, modules: seq<Module>, connections: seq<Connection>,
                                                    order: seq<Module>, links: LinkTable, ctx: Context,
                                                    loaded: seq<WavData>)
    requires |loaded| == 16 && AtRest(m, loaded) && StartUp(m.parts) && ctx.bufferSize > 0
    requires IsKit(modules, connections, 16) && Distinct(modules) && Recorded(modules, connections, links)
    requires IsTopologicalOrder(modules, GraphEdges(modules, connections), order)
    ensures PassDrops(m, order, links, ctx, DRUM) == 0 <==> LinkSum(links, 16) <= |m.parts[DRUM].voices|
  {
    hide AllPortsFit, PortsOwned, KitRings, StartUp, Silent, SumList, LinkSum, PassDrops, GraphEdges, Forward, Recorded,
         HitLinks, KitSamples;
    KitOwners(modules, connections, 16);
    StartUpIsOneTrack(m, order);
    FirstPassLinks(m, modules, GraphEdges(modules, connections), order, links, ctx, loaded);
    assert modules[0] == DRUM;
    PassLosesNothingIff(m, modules, connections, order, links, ctx, DRUM);
  }

  /** From start-up, no run of the kit loses a note if and only if there is a voice for every link of the rings. */
  lemma {:induction false} KitLosesNothingIff(m: Machine, modules: seq<Module>, connections: seq<Connection>,
                                              order: seq<Module>, links: LinkTable, loaded: seq<WavData>)
    requires |loaded| == 16 && AtRest(m, loaded) && StartUp(m.parts)
    requires IsKit(modules, connections, 16) && Distinct(modules) && Recorded(modules, connections, links)
    requires IsTopologicalOrder(modules, GraphEdges(modules, connections), order)
    ensures (forall steps :: (forall i :: 0 <= i < |steps| ==> KitStep(steps[i], links)) ==>
               NotesDropped(m, steps, DRUM) == 0)
       <==> LinkSum(links, 16) <= |m.parts[DRUM].voices|
  {
    hide AllPortsFit, PortsOwned, KitRings, Silent, StartUp, LinkSum, PassDrops, IsKit, Recorded, GraphEdges,
         IsTopologicalOrder;
    if LinkSum(links, 16) <= |m.parts[DRUM].voices| {
      forall steps | forall i :: 0 <= i < |steps| ==> KitStep(steps[i], links)
        ensures NotesDropped(m, steps, DRUM) == 0
      {
        KitRunLosesNothing(m, loaded, steps, links);
      }
    } else {
      var ctx := Context(44100, 512);
      FirstPassLosesNothingIff(m, modules, connections, order, links, ctx, loaded);
      var steps := [TakePass(order, links, ctx)];
      assert steps[..0] == [];
      assert NotesDropped(m, steps, DRUM) == PassDrops(m, order, links, ctx, DRUM);
      assert forall i :: 0 <= i < |steps| ==> KitStep(steps[i], links);
    }
  }

  lemma {:induction false} LinkSumBound(links: LinkTable, count: nat, k: nat)
    requires forall j :: 0 <= j < count ==> RingLinks(links, j) >= 1
    ensures LinkSum(links, count) >= count
    ensures k < count && RingLinks(links, k) >= 2 ==> LinkSum(links, count) > count
  {
    if count > 0 {
      LinkSumBound(links, count - 1, k);
    }
  }

  /** If every ring is linked to the drum and one of them twice, the kit loses a note on its first pass. */
  lemma {:induction false} DoubledLinkLosesNote(m: Machine, modules: seq<Module>, connections: seq<Connection>,
                                                order: seq<Module>, links: LinkTable, ctx: Context,
                                                loaded: seq<WavData>, k: nat)
    requires |loaded| == 16 && AtRest(m, loaded) && StartUp(m.parts) && ctx.bufferSize > 0
    requires IsKit(modules, connections, 16) && Distinct(modules) && Recorded(modules, connections, links)
    requires IsTopologicalOrder(modules, GraphEdges(modules, connections), order)
    requires |m.parts[DRUM].voices| == MAX_VOICES && k < 16 && RingLinks(links, k) >= 2
    requires forall j :: 0 <= j < 16 ==> RingLinks(links, j) >= 1
    ensures PassDrops(m, order, links, ctx, DRUM) > 0
  {
    hide AllPortsFit, PortsOwned, KitRings, Silent, StartUp, PassDrops, IsKit, Recorded, GraphEdges, IsTopologicalOrder,
         RingLinks;
    LinkSumBound(links, 16, k);
    FirstPassLosesNothingIff(m, modules, connections, order, links, ctx, loaded);
  }
}
