# Verified model of the polyrhythm instrument's engine

This project models the engine of a polyrhythmic drum instrument in Dafny and proves what its parts promise:

- **Rhythms.** `Euclid`, `Bjorklund` and `EuclideanRhythm` model the gcd arithmetic and the Euclidean rhythm generator. The group-merging loop runs Euclid's algorithm; its rhythms have the requested hits, are one block repeated gcd times, have a Bresenham closed form and are maximally even. `Rotation` shows that rotating a mask is an action of the integers modulo its length that keeps these properties.
- **Timelines.** `Timeline` merges several shapes into one sorted, de-duplicated timeline and says where each shape's points lie; `TwoShapes` counts the points of two plain shapes exactly.
- **Scheduling.** `Playhead`, `Schedule` and `PolyRhythm` model the phase accumulator, the events of one buffer and the sequencer object; `HitOrder` says which events a buffer has, one by one. Phases are exact reals. The note-on schedule of any run of buffers, each at its own tempo, is a closed form; at constant tempo it does not depend on how the samples are cut into buffers.
- **The graph.** `TopologicalSort` and `Graph` model Kahn's algorithm, the graph's mutators and its cached order; `GraphPass` says what one processing pass delivers to an input; `Ports` models the ports. A port is an identity with a signal type, and one network object holds what the source's port objects store. A module is its identity and the ports it owns; module equality stands for pointer equality.
- **Voices.** `Sampler`, `VoicePool` and `DrumPath` follow the events from the sequencers over their links to the sampler's fixed voice pool; `Polyphony` proves that the pool sounds like unlimited polyphony as long as no note is dropped; `DrumMachine` lets sequencers, samplers and audio outputs take their turns, carrying every playhead and voice along; `DrumKit` wires the sixteen sequencers and says exactly which wirings lose a note; `Engine` builds and runs the kit from the objects and proves that it never drops a note. `Voices` models the synthesizer's voice manager and instrument, and `SynthPath` what the instrument hears from the sequencers over every run.
- **Channels.** `SpscQueue`, `AudioRing` and `Mailbox` model the three concurrent channels as interleaved steps; every list of steps is a run, and a step whose thread is not ready does nothing.
- **Messages.** `EngineMessages` models the message loop with its selection state over the rings; `MessageLaws` states what messages and runs of encoder turns do to shapes, points and selection.
- `Numbers`, `Options`, `Sequences` and `Events` hold shared types.

Objects the source updates in place are classes, and its loops are loops. Their methods are proved against functions on values, and the lemmas are about those functions. The channel classes keep local variables of a call that is in progress (a producer's next head, the rest of a blocking write) as fields, so that each atomic or locked section is one method. Every lemma switches Dafny's automatic induction off, so each proof rests on its body alone.

Where the code and its documentation differ, the model follows the code. The header of the polyrhythm module says that points closer than epsilon merge; the code also merges points exactly epsilon apart, and compares with the last point it kept. The timeline of two plain shapes n and m has n + m - gcd(n, m) points only while lcm(n, m) is below 10^9; `TwoShapes.TwoShapesCount` proves that this condition is exact. Counting every pass of the playhead needs buffers of at most one cycle; `Playhead.HitIsPassIff` proves that this is exact. A sampler can lose notes if sequencers are linked to it more than once, which nothing in the graph prevents: `VoicePool.NoDropsIff` is exact for hits on any notes, `DrumPath.LinksLoseNoNoteIff` for one sequencer with any tracks, and `DrumMachine.PassLosesNothingIff` for a pass of one-track sequencers. The kit has sixteen of these and sixteen voices; `DrumKit.KitLosesNothingIff` proves that it never loses a note if and only if its links add up to at most the voices, so one ring linked twice beside fifteen linked once loses a note on the first pass (`DrumKit.DoubledLinkLosesNote`, `Engine.PlayDoubledKit`). An instrument keeps one active voice per note exactly while its sequencers are linked once (`SynthPath.OneEachIff`). Removing a module leaves its port links in place, so a module that is added again keeps stale links that are no recorded connections; `Graph.AdditionKeepsRecordedIff` gives the exact condition. A note-off frees no voice of an instrument before the buffer ends, so more hits in one buffer than free voices lose notes even if they all hit one note; `Voices.PairsLoseNotesIff` is exact, and `Voices.RoundsLoseNothingIff` is so over whole runs.

## Model

| member | source | states |
|---|---|---|
| Euclid.PolyGcd | source/engine/module/PolyRhythmModule.cpp:49-52 | The loop returns the gcd of its arguments. |
| Euclid.GcdIsGreatest | source/engine/module/PolyRhythmModule.cpp:49-52 | That value divides both arguments, and every common divisor divides it. |
| Euclid.PolyLcm | source/engine/module/PolyRhythmModule.cpp:54-56 | The least common multiple modulo 2^32, and 0 if an argument is 0. |
| Euclid.LcmIsLeast | source/engine/module/PolyRhythmModule.cpp:54-56 | The unwrapped value is a common multiple, and divides every common multiple. |
| Bjorklund.Distribute | source/engine/module/PolyRhythmModule.cpp:63-116 | The loop over groups terminates on all inputs and returns the rhythm of the merging A^a B^b; the group list always has that form with A and B different. |
| Bjorklund.MergeGroups | source/engine/module/PolyRhythmModule.cpp:88-107 | One turn pairs the first groups with the remainder and keeps what is left over of either side. |
| EuclideanRhythm.EuclideanCounts | source/engine/module/PolyRhythmModule.cpp:63-116 | The rhythm has exactly the requested length, and min(hits, steps) hits. |
| EuclideanRhythm.EuclideanStartsWithHit | source/engine/module/PolyRhythmModule.cpp:63-116 | A rhythm with any hits starts with one. |
| EuclideanRhythm.EuclideanPeriod | source/engine/module/PolyRhythmModule.cpp:68-115 | The merging preserves the gcd of the counts: the rhythm is one block of steps/g positions with hits/g hits, repeated g = gcd(hits, steps) times. |
| EuclideanRhythm.MergeBand | source/engine/module/PolyRhythmModule.cpp:74-108 | Merging preserves balance: with hits worth n - k and rests worth -k, every prefix of the result stays in a band of n values. |
| EuclideanRhythm.EuclideanClosedForm | source/engine/module/PolyRhythmModule.cpp:58-63 | Bresenham form: up to a shift, position i is a hit exactly if (shift - k i) mod n is below k. |
| EuclideanRhythm.WindowShare | source/engine/module/PolyRhythmModule.cpp:58-63 | A cyclic window of any length holds its proportional share of the hits, to less than one hit. |
| EuclideanRhythm.EuclideanMaximallyEven | source/engine/module/PolyRhythmModule.cpp:58-63 | Any two cyclic windows of equal length differ by at most one hit. |
| EuclideanRhythm.EuclideanGaps | source/engine/module/PolyRhythmModule.cpp:58-63 | The distance between consecutive hits is n/k rounded down or up. |
| Timeline.BuildTimeline | source/engine/module/PolyRhythmModule.cpp:120-170 | The result is the de-duplication of a phase-sorted permutation of all generated points. |
| Timeline.CollectPoints | source/engine/module/PolyRhythmModule.cpp:126-150 | The generated points, Euclidean masks applied, empty shapes skipped. |
| Timeline.WrapPhaseIsFraction | source/engine/module/PolyRhythmModule.cpp:140-142 | fmod with the correction for negative values is the fractional part, in [0, 1), for offsets of either sign. |
| Timeline.TimelineMeaning | source/engine/module/PolyRhythmModule.cpp:120-170 | For all shapes, offsets and masks: phases in [0, 1), consecutive ones more than epsilon apart, each kept point generated by a shape, each generated point at most epsilon after a kept one. |
| Timeline.TimelineIsPlaced | source/engine/module/PolyRhythmModule.cpp:126-167 | In the shapes' own numbers: a kept point of subdivision j of a shape (n, offset) lies at the x in [0, 1) that differs from j/n + offset by whole cycles, and wherever a drawn subdivision falls a kept point lies at most epsilon before. |
| Timeline.LaterShapeMovesPoints | source/engine/module/PolyRhythmModule.cpp:140-142 | Adding d to a shape's offset moves every one of its points by d, around the cycle. |
| Timeline.ShapePointsCount | source/engine/module/PolyRhythmModule.cpp:126-150 | A shape generates all its subdivisions, or min(hits, subdivisions) of them if it is Euclidean. |
| Timeline.TimelinePhasesAreUnique | source/engine/module/PolyRhythmModule.cpp:152-167 | The phases do not depend on how the unstable sort orders equal phases. |
| TwoShapes.TwoShapesCount | source/engine/module/PolyRhythmModule.cpp:120-170 | Two shapes n and m without offset or mask merge into n + m - gcd(n, m) points if and only if lcm(n, m) < 10^9; never into more. |
| TwoShapes.TwoShapesPhases | source/engine/module/PolyRhythmModule.cpp:126-167 | Below that limit the phases are exactly j/n and i/m. |
| TwoShapes.GridPointsCount | source/engine/module/PolyRhythmModule.cpp:49-51 | On the grid of lcm positions the multiples of the two steps coincide in exactly gcd points. |
| TwoShapes.NeighboursExist | source/engine/module/PolyRhythmModule.cpp:161-163 | Two of the points are neighbours on that grid, so beyond the limit epsilon fuses distinct points. |
| Playhead.NextPhaseIsFraction | source/engine/module/PolyRhythmModule.cpp:249-251 | Advancing drops whole cycles; the phase stays below 1 at every tempo, and at or above 0 exactly if the unwrapped playhead does. |
| Playhead.HitIsPass | source/engine/module/PolyRhythmModule.cpp:259-266 | With a span in [0, 1] a buffer triggers a point exactly as often as the unwrapped playhead passes it. |
| Playhead.HitIsPassIff | source/engine/module/PolyRhythmModule.cpp:259-266 | That holds for all points if and only if the span is at most one cycle. |
| Playhead.HitIsAhead | source/engine/module/PolyRhythmModule.cpp:268-275 | A triggered point lies strictly inside the buffer for spans of any size, so a hit implies a positive increment. |
| Playhead.PassesMeaning | source/engine/module/PolyRhythmModule.cpp:11-18 | The passes of a point are the cycles c with c + p in the interval the playhead covers. |
| Playhead.FiringsArePasses | source/engine/module/PolyRhythmModule.cpp:246-299 | Over every run with arbitrary tempo changes each point fires exactly as often as the playhead passes it. |
| Playhead.PhaseIsFraction | source/engine/module/PolyRhythmModule.cpp:298-299 | Over every run the phase is the fractional part of the unwrapped position and stays in [0, 1). |
| Schedule.SampleOffset | source/engine/module/PolyRhythmModule.cpp:268-275 | The offset is the floor of the distance over the increment, lies in the buffer, and the clamp never applies. |
| Schedule.StrikeSampleOfHit | source/engine/module/PolyRhythmModule.cpp:268-275 | A hit in a buffer that starts at sample s strikes at absolute sample floor((c + p - origin) / increment). |
| Schedule.PointInBuffer | source/engine/module/PolyRhythmModule.cpp:259-295 | One point in one buffer strikes as the closed form says. |
| Schedule.BufferIsClosedForm | source/engine/module/PolyRhythmModule.cpp:259-296 | The note-ons of one buffer are the closed form over its span, as a multiset of (sample, note, velocity). |
| Schedule.RunIsClosedForm | source/engine/module/PolyRhythmModule.cpp:243-302 | The note-ons of any run of buffers of at most one cycle each, with a tempo of its own for each buffer, are the closed form over the clock of that run. |
| Schedule.SteadyRunIsClosedForm | source/engine/module/PolyRhythmModule.cpp:243-302 | At constant tempo that clock is linear: the hit of a point in a cycle strikes at the floor of its distance over the increment, over the whole run. |
| Schedule.CutIndependence | source/engine/module/PolyRhythmModule.cpp:243-302 | Any two ways of cutting the same samples into buffers, per-sample scheduling included, give the same note-on schedule. |
| Schedule.StrikesArePasses | source/engine/module/PolyRhythmModule.cpp:243-302 | A strike is in the closed form exactly as often as there are a track, an active point and a cycle whose pass causes it: nothing else strikes, nothing strikes twice. |
| PolyRhythm.CycleLength | source/engine/module/PolyRhythmModule.cpp:233-241 | The phase increment makes one cycle last the given number of beats; no number of beats means four. |
| PolyRhythm.ResizingKeepsPoints | source/engine/module/PolyRhythmModule.cpp:400-416 | After an edit of the shapes a point is active exactly if it exists and was active; notes, velocities and names stay. |
| PolyRhythm.TogglingFlipsOne | source/engine/module/PolyRhythmModule.cpp:358-363 | A toggle flips one existing point of one track and changes nothing else; two toggles cancel. |
| PolyRhythm.TurningMovesPoints | source/engine/module/PolyRhythmModule.cpp:372-380 | A track turned by an amount has at point i what it had at point i + amount, modulo the count; other tracks stay. |
| PolyRhythm.PolyRhythmModule.constructor | source/engine/module/PolyRhythmModule.cpp:177-183 | A new module stands at phase 0 with 120 BPM and 4 beats per cycle, without shapes and tracks. |
| PolyRhythm.PolyRhythmModule.Process | source/engine/module/PolyRhythmModule.cpp:243-302 | Emits exactly the buffer's events and advances the phase; stands still without points or tracks; never divides by a zero increment. |
| HitOrder.BufferInOrder | source/engine/module/PolyRhythmModule.cpp:259-296 | Event by event: the buffer has one on/off pair per point that is hit and track that has it active, in the order of the timeline and then of the tracks, with the sample, note and velocity of each and the note-off a quarter buffer later. |
| PolyRhythm.PolyRhythmModule.PositiveIncrement | source/engine/module/PolyRhythmModule.cpp:273-275 | The increment is positive wherever the offset is computed. |
| PolyRhythm.PolyRhythmModule.EmitPoint | source/engine/module/PolyRhythmModule.cpp:278-295 | One note-on and one note-off for each track with the point active, in track order. |
| PolyRhythm.PolyRhythmModule.Reset | source/engine/module/PolyRhythmModule.cpp:304-307 | Phase 0 again, all else unchanged. |
| PolyRhythm.PolyRhythmModule.RebuildTimeline | source/engine/module/PolyRhythmModule.cpp:400-420 | A timeline of the current shapes; every mask resized to it, new points inactive. |
| PolyRhythm.PolyRhythmModule.AddShape | source/engine/module/PolyRhythmModule.cpp:314-320 | Appends the shape, rebuilds, keeps every mask as long as the timeline. |
| PolyRhythm.PolyRhythmModule.RemoveShape | source/engine/module/PolyRhythmModule.cpp:322-329 | Removes the shape if the index exists, rebuilds, keeps masks in step; otherwise changes nothing. |
| PolyRhythm.PolyRhythmModule.UpdateShape | source/engine/module/PolyRhythmModule.cpp:331-336 | Replaces the shape if the index exists, rebuilds, keeps masks in step; otherwise changes nothing. |
| PolyRhythm.PolyRhythmModule.SetTracks | source/engine/module/PolyRhythmModule.cpp:347-352 | Takes the tracks with their masks resized to the timeline. |
| PolyRhythm.PolyRhythmModule.TogglePoint | source/engine/module/PolyRhythmModule.cpp:358-363 | Flips one point of one mask, and nothing if an index is out of range. |
| PolyRhythm.PolyRhythmModule.ApplyEuclidean | source/engine/module/PolyRhythmModule.cpp:365-370 | The mask becomes the Euclidean rhythm over the timeline, with min(hits, points) active points. |
| PolyRhythm.PolyRhythmModule.RotateTrack | source/engine/module/PolyRhythmModule.cpp:372-380 | Rotates one mask, for amounts of either sign. |
| Rotation.RotateAt | source/engine/module/PolyRhythmModule.cpp:377-379 | Position i of the rotated mask is position i + amount, modulo the length. |
| Rotation.RotationsCompose | source/engine/module/PolyRhythmModule.cpp:372-380 | Rotations compose by addition. |
| Rotation.RotationInverse | source/engine/module/PolyRhythmModule.cpp:372-380 | Rotating by -a undoes rotating by a. |
| Rotation.RotationPeriod | source/engine/module/PolyRhythmModule.cpp:377-379 | Rotating by a multiple of the length is the identity. |
| Rotation.RotationKeepsHits | source/engine/module/PolyRhythmModule.cpp:372-380 | The number of active points is conserved. |
| Rotation.RotationKeepsEvenness | source/engine/module/PolyRhythmModule.cpp:365-380 | A rotated maximally even mask is maximally even. |
| TopologicalSort.Sort | source/engine/AudioGraph/AudioGraph.cpp:186-263 | Terminates; returns an order if and only if the edges have no cycle, and then a permutation of the nodes with every edge's source before its target, parallel edges included. |
| TopologicalSort.Relax | source/engine/AudioGraph/AudioGraph.cpp:236-255 | One turn of the LIFO worklist keeps: exactly the nodes without pending edges are done or queued, and in-degrees count the edges from nodes not done. |
| TopologicalSort.BuildGraph | source/engine/AudioGraph/AudioGraph.cpp:188-223 | Adjacency lists and in-degrees with multiplicity. |
| TopologicalSort.PendingSplit | source/engine/AudioGraph/AudioGraph.cpp:248-254 | Finishing a node releases exactly its outgoing edges. |
| TopologicalSort.StuckHasCycle | source/engine/AudioGraph/AudioGraph.cpp:257-260 | If the worklist runs dry early, the nodes left over contain a cycle. |
| TopologicalSort.ForwardIsAcyclic | source/engine/AudioGraph/AudioGraph.cpp:262 | A complete forward order rules out cycles. |
| Graph.SourceModule | source/engine/AudioGraph/AudioGraph.cpp:203-213 | The owner of an output port, or none if no module has it. |
| Graph.TargetModule | source/engine/AudioGraph/AudioGraph.cpp:203-217 | The owner of an input port, or none if no module has it. |
| Graph.AudioGraph.CollectEdges | source/engine/AudioGraph/AudioGraph.cpp:198-223 | One edge per connection between distinct modules of the graph; self-loops and foreign ports are ignored. |
| Graph.EdgeOfConnection | source/engine/AudioGraph/AudioGraph.cpp:198-223 | A connection makes an edge between the owners of its ports, unless one is missing or both are the same. |
| Graph.EdgesConcat | source/engine/AudioGraph/AudioGraph.cpp:198-223 | Each connection makes its edge on its own, in the order of the connections. |
| Graph.AudioGraph.UpdateExecutionOrder | source/engine/AudioGraph/AudioGraph.cpp:176-184 | Caches a topological order, or empties the cache if there is a cycle. |
| Graph.OrderEmptyIff | source/engine/AudioGraph/AudioGraph.cpp:176-184 | The cached order is empty exactly if the graph is cyclic or has no modules. |
| Graph.AudioGraph.AddModule | source/engine/AudioGraph/AudioGraph.cpp:72-84 | Appends a module once and keeps the cached order correct. |
| Graph.AudioGraph.RemoveModule | source/engine/AudioGraph/AudioGraph.cpp:86-133 | Removes the module and exactly the connections that touch it; fails without change if it is absent; keeps every endpoint in the graph. |
| Graph.DetachedCounts | source/engine/AudioGraph/AudioGraph.cpp:96-129 | Every connection that does not touch the removed module stays as often as it was recorded, the others go. |
| Graph.AudioGraph.Connect | source/engine/AudioGraph/AudioGraph.cpp:135-150 | Records the connection, links the ports, keeps the cached order correct. |
| Graph.AudioGraph.Disconnect | source/engine/AudioGraph/AudioGraph.cpp:152-174 | Removes one recorded connection and all links between the two ports; fails without change if none is recorded. |
| Graph.RemovalKeepsEndpoints | source/engine/AudioGraph/AudioGraph.cpp:96-129 | After a removal every remaining connection still has both endpoints in the graph. |
| Graph.RemovalKeepsRecorded | source/engine/AudioGraph/AudioGraph.cpp:96-129 | With unique port owners every link between remaining modules stays a recorded connection. |
| Graph.Execute | source/engine/AudioEngine.cpp:686-740 | One command: the wiring after it, with both endpoints of every connection in the graph and the cached order right, also for a module that is already there or comes back. |
| Graph.Run | source/engine/AudioGraph/AudioGraph.cpp:72-184 | Over every run of add, remove, connect and disconnect commands, whatever they add, both endpoints of every connection stay in the graph and the cached order is topological, or empty if there is a cycle; the wiring is the fold of the commands. |
| Graph.FreshRunsRecordLinks | source/engine/AudioGraph/AudioGraph.cpp:72-174 | Over every run that adds only new modules with their own ports, every link between ports of the graph is a recorded connection. |
| Graph.AdditionKeepsRecordedIff | source/engine/AudioGraph/AudioGraph.cpp:72-84 | Adding a module keeps links recorded exactly if no link joins one of its ports to the graph. |
| Graph.ReaddedModuleKeepsLinks | source/engine/AudioGraph/AudioGraph.cpp:96-132 | A module that is removed and added again has its old link back, without a recorded connection. |
| Ports.PortNetwork.Receive | source/engine/port/InputPort.cpp:13-15 | Appends the signal to the port's stack. |
| Ports.PortNetwork.Get | source/engine/port/InputPort.cpp:17-24 | Pops the signal received last, or nothing. |
| Ports.PortNetwork.Connect | source/engine/port/OutputPort.cpp:13-15 | Appends a link. |
| Ports.PortNetwork.Disconnect | source/engine/port/OutputPort.cpp:17-25 | Drops every link to the port. |
| Sequences.WithoutCounts | source/engine/port/OutputPort.cpp:17-25 | The links to other ports stay as often as they were. |
| Ports.PortNetwork.Send | source/engine/port/OutputPort.cpp:27-35 | Delivers to every linked input of the signal's type, and remembers the signal. |
| Ports.DeliveredInbox | source/engine/port/OutputPort.cpp:27-35 | A send appends one copy per link of matching type to an input, and nothing to others. |
| GraphPass.LinkedStandsBefore | source/engine/AudioGraph/AudioGraph.cpp:265-271 | A module linked to an input stands before the input's owner in the order. |
| DrumMachine.SamplerHandlesWholePass | source/engine/AudioGraph/AudioGraph.cpp:265-271 | In one pass over an acyclic graph the sampler handles, from last to first, what its input held and every event the sequencers send in the whole pass, once per link, and nothing else; its input is empty afterwards. |
| Sampler.SamplerModule.constructor | source/engine/module/SamplerModule.cpp:44-70 | A pool of the given number of silent voices, an event input and an audio output. |
| Sampler.SamplerModule.FindFreeVoice | source/engine/module/SamplerModule.cpp:132-139 | The first voice that is not playing, or none if all play. |
| Sampler.SamplerModule.TriggerSample | source/engine/module/SamplerModule.cpp:92-119 | Starts the note's sample on the first free voice; changes nothing without a sample; counts a dropped note exactly if no voice is free. |
| Sampler.SamplerModule.StopSample | source/engine/module/SamplerModule.cpp:121-130 | Stops every voice playing the note, and no other. |
| Sampler.SamplerModule.Drain | source/engine/module/SamplerModule.cpp:187-201 | Handles the port's events from last to first, and counts the notes dropped on the way. |
| Sampler.SamplerModule.MixVoices | source/engine/module/SamplerModule.cpp:141-183 | The normalised sum of the playing voices; each voice advances, or stops when its data runs out. |
| Sampler.SamplerModule.Process | source/engine/module/SamplerModule.cpp:185-206 | Drains, mixes and sends one buffer. |
| Sampler.PlaybackContinues | source/engine/module/SamplerModule.cpp:147-163 | Cutting a buffer in two neither loses nor repeats a sample of a voice. |
| Sampler.VoiceEnds | source/engine/module/SamplerModule.cpp:147-152 | A voice stops as soon as it is asked for a sample beyond its data, and not before. |
| Polyphony.MixAdds | source/engine/module/SamplerModule.cpp:143-163 | The mix is the sum over the voices, so a pool mixes like its parts. |
| Polyphony.MixOfOne | source/engine/module/SamplerModule.cpp:155-159 | A playing voice contributes its data from its position on, times its velocity, and nothing past the end. |
| Polyphony.HitSounds | source/engine/module/SamplerModule.cpp:92-163 | A note-on that finds a free voice adds the note's sample times velocity / 127 to the mix at every later sample, and nothing past its end, however the time after it is cut into buffers. |
| Polyphony.PoolFallsSilent | source/engine/module/SamplerModule.cpp:147-152 | Without new hits all voices are free exactly when more samples have passed than any of them had left. |
| Polyphony.PoolIsUnlimited | source/engine/module/SamplerModule.cpp:92-163 | Over every run from silence that drops no note, the fixed pool mixes at every sample what unlimited polyphony would: the sum of the tones of all hits not released. |
| Polyphony.HitsSoundUnlimited | source/engine/module/SamplerModule.cpp:92-163 | With voices for the caps of all playable notes, every run of hits within the caps sounds like unlimited polyphony. |
| Sampler.NormalizedDoesNotClip | source/engine/module/SamplerModule.cpp:165-177 | The mix is scaled by one common factor and stays within -1 and 1. |
| Sampler.LoudestBecomesOne | source/engine/module/SamplerModule.cpp:165-177 | A mix within -1 and 1 stays as it is; a louder one is scaled so that its loudest sample becomes exactly 1 or -1. |
| Ports.DrainReverses | source/engine/port/InputPort.cpp:17-24 | The drain sees the events of the port in reverse and leaves nothing. |
| Events.ReversedPairs | source/engine/module/PolyRhythmModule.cpp:282-294 | On/off pairs in reverse are off/on pairs. |
| VoicePool.Crowd | source/engine/module/SamplerModule.cpp:132-139 | Counting: voices that all play one of some notes, none of which has more voices than its cap, are at most the sum of the caps. |
| VoicePool.NoteHasRoom | source/engine/module/SamplerModule.cpp:102-107 | Pigeonhole: with as many voices as the caps of the playable notes add up to, a note below its cap finds a free voice. |
| VoicePool.HitsKeepAtMost | source/engine/module/SamplerModule.cpp:185-201 | Hits that arrive at most as often as the cap of their note never let a note exceed its cap and, with voices for all caps, drop nothing. |
| VoicePool.AdvanceKeepsAtMost | source/engine/module/SamplerModule.cpp:147-163 | Mixing keeps that bound. |
| VoicePool.EnoughVoices | source/engine/module/SamplerModule.cpp:92-139 | With voices for the caps of all playable notes, no run of buffers of such hits reaches the branch without a free voice. |
| VoicePool.VolleyDrops | source/engine/module/SamplerModule.cpp:102-107 | With fewer voices, one hit on every playable note, each arriving as often as its cap, drops a note. |
| VoicePool.VolleyFills | source/engine/module/SamplerModule.cpp:92-139 | Hits on different silent notes, each arriving a number of times of its own, drop nothing if and only if the voices in use and these numbers add up to at most the voices. |
| VoicePool.NoDropsIff | source/engine/module/SamplerModule.cpp:92-139 | From a silent pool, no run of hits within the caps drops a note if and only if there are voices for the caps of all playable notes. |
| DrumPath.BufferEventsArePairs | source/engine/module/PolyRhythmModule.cpp:278-295 | Whatever the timeline, tracks and tempo, a buffer's events are adjacent on/off pairs. |
| DrumPath.LinkArrivals | source/engine/port/OutputPort.cpp:27-35 | An event input receives what is sent, in order, each event once per link. |
| DrumPath.BufferArrivesAsHits | source/engine/module/PolyRhythmModule.cpp:278-295 | A sequencer's buffer reaches an event input as hits, each arriving once per link. |
| DrumPath.PairsSurviveIff | source/engine/port/OutputPort.cpp:27-35 | Sent pairs arrive as pairs if and only if there is at most one link. |
| DrumPath.LinksLoseNoNoteIff | source/engine/AudioGraph/AudioGraph.cpp:135-150 | A sequencer linked several times to a sampler at rest loses no note in any buffer if and only if there are as many voices as links times playable notes. |
| DrumMachine.PassOfParts | source/engine/AudioGraph/AudioGraph.cpp:265-271 | Turn by turn, with playheads and voices carried along, a pass does what the parts' behaviour at its start says. |
| DrumMachine.SequencerTurnKeepsSound | source/engine/module/PolyRhythmModule.cpp:243-302 | A sequencer's turn adds whole hits to the sampler's input. |
| DrumMachine.SamplerTurnKeepsSound | source/engine/module/SamplerModule.cpp:185-206 | A sampler's turn empties its input, keeps the bound on its voices and, with enough voices, drops nothing. |
| DrumMachine.NoNoteIsDropped | source/engine/module/SamplerModule.cpp:102-107 | Over every run of passes of sequencers, samplers and audio outputs, whatever the order of turns and with shapes, tracks, tempo and modules changing in between, no note is dropped, if no sequencer is linked to the sampler more often than its notes have voices reserved and the reserved voices add up to at most the pool. |
| DrumMachine.PassLosesNothingIff | source/engine/AudioGraph/AudioGraph.cpp:265-271 | One pass over an acyclic graph of one-track sequencers with different notes, from a silent pool: no note is lost if and only if the links of the sequencers that hit a playable note add up to at most the voices. |
| DrumKit.KitFits | source/engine/AudioEngine.cpp:93-95 | The loaded kit has exactly one playable note for each of the sixteen voices. |
| DrumKit.NewRing | source/engine/AudioEngine.cpp:97-115 | A sequencer at start-up: one shape and one track of the definition, every point active, phase 0, 120 BPM. |
| DrumKit.WireKit | source/engine/AudioEngine.cpp:73-119 | Sixteen sequencers at start-up, each added to the graph and linked once to the sampler, and nothing else linked to it. |
| DrumKit.KitIsAcyclic | source/engine/AudioEngine.cpp:117-137 | The wiring has no cycle, however often its ports are connected, so every pass gives every module a turn. |
| DrumKit.FirstPassLosesNothingIff | source/engine/AudioEngine.cpp:93-137 | At start-up every sequencer hits on the first pass; that pass loses no note if and only if the links of the sixteen sequencers to the sampler, whatever they are, add up to at most its voices. |
| DrumKit.KitRunLosesNothing | source/engine/AudioEngine.cpp:326-649 | If they do, no run of passes and changes of shapes, masks and tempo loses a note. |
| DrumKit.KitLosesNothingIff | source/engine/AudioEngine.cpp:93-137 | From start-up no run loses a note if and only if the links add up to at most the voices. |
| DrumKit.DoubledLinkLosesNote | source/engine/AudioEngine.cpp:117-119 | With sixteen voices, every sequencer linked and one of them linked twice, the first pass loses a note. |
| Engine.DrumEngine.constructor | source/engine/AudioEngine.cpp:36-141 | After initialisation the graph is acyclic and recorded, every sequencer is linked to the sampler exactly once and stands at start-up, the pool is silent and the kit loaded. |
| Engine.DrumEngine.TakeTurn | source/engine/AudioGraph/AudioGraph.cpp:268-270 | A turn of a sequencer, sampler or audio output object is the machine's turn; the drop counter advances by exactly the notes dropped. |
| Engine.DrumEngine.TakePass | source/engine/AudioGraph/AudioGraph.cpp:265-271 | The loop over the cached order is the machine's pass, over any links; the drop counter advances by exactly the notes the pass drops. |
| Engine.DrumEngine.Process | source/engine/AudioGraph/AudioGraph.cpp:265-271 | A pass with every output linked at most once: the sampler handles exactly what was sent in this pass, drops nothing and leaves its input empty. |
| Engine.DrumEngine.HandleMessages | source/engine/AudioEngine.cpp:329-621 | Messages change rings and selection as their fold says, and nothing of playheads, voices and ports; after each of them every ring has a timeline of its own shapes. |
| Engine.DrumEngine.TakeTick | source/engine/AudioEngine.cpp:326-649 | One turn of the main loop: the messages' fold with every ring's timeline right after each message, the new tempo, and, if playing, one whole pass of the rings as they then are. |
| Engine.DrumEngine.Run | source/engine/AudioEngine.cpp:326-649 | Over every run of the main loop, with any messages and tempo changes before each pass, every turn is such a turn, in every state between turns each sequencer plays the timeline of its own shapes and its own tracks, and no note is dropped. |
| Engine.PlayKit | source/engine/AudioEngine.cpp:36-141 | From start-up on, the drum kit never drops a note. |
| Engine.PlayDoubledKit | source/engine/AudioEngine.cpp:36-141 | The same kit with one sequencer connected a second time has dropped a note after its first pass. |
| Voices.Voice.NoteOn | source/engine/core/voice/Voice.cpp:13-17 | The voice becomes active with the note and velocity. |
| Voices.Voice.NoteOff | source/engine/core/voice/Voice.cpp:19-23 | The voice is released if it plays the note. |
| Voices.VoiceManager.constructor | source/engine/core/voice/VoiceManager.cpp:7-13 | A pool of distinct inactive voices, none listed. |
| Voices.VoiceManager.FindFreeVoice | source/engine/core/voice/VoiceManager.cpp:42-49 | The first inactive voice of the pool, or none. |
| Voices.VoiceManager.NoteOn | source/engine/core/voice/VoiceManager.cpp:18-26 | Starts the first inactive voice and lists it once; a full pool drops the note. |
| Voices.VoiceManager.NoteOff | source/engine/core/voice/VoiceManager.cpp:28-34 | Releases every active voice of the note, and no other. |
| Voices.VoiceManager.RemoveInactiveVoices | source/engine/core/voice/VoiceManager.cpp:36-40 | Keeps the listed voices that are in use, in order; the list is then exactly the voices in use. |
| Voices.LivingConcat | source/engine/core/voice/VoiceManager.cpp:36-40 | Each listed voice is kept or dropped by its own state, in the order of the list. |
| Voices.StruckAt | source/engine/core/voice/VoiceManager.cpp:42-49 | A note-on changes exactly the first inactive voice, and nothing if there is none. |
| Voices.NoteOnStartsOne | source/engine/module/Instrument.cpp:74 | A note-on starts the first free voice with the event's note and its velocity in 127ths, and changes no other. |
| Voices.NoteOffReleases | source/engine/module/Instrument.cpp:75-77 | A note-off releases the active voices of its note and changes nothing else. |
| Voices.LostNotesAreExcess | source/engine/core/voice/VoiceManager.cpp:18-49 | In one buffer exactly the note-ons beyond the voices free at its start are lost: note-offs free no voice before the buffer ends. |
| Voices.PairsLoseNotesIff | source/engine/module/Instrument.cpp:53-78 | A paired buffer loses a note if and only if it has more pairs than there are free voices, even if all are of one note. |
| Voices.RetiringFrees | source/engine/module/Instrument.cpp:105-111 | The end of a buffer frees exactly as many voices as are released and deliver; active voices and silent released ones keep their state. |
| Voices.RoundsLoseNothingIff | source/engine/module/Instrument.cpp:53-111 | Over every run in which released voices deliver, no note is lost in any buffer if and only if no buffer has more note-ons than there are voices not held when it starts. |
| Voices.FewNotesAreSafe | source/engine/module/Instrument.cpp:53-111 | Hits on at most N notes, in no buffer more of them than the pool has voices beyond N, are never lost. |
| Voices.SignalOf | source/engine/module/Instrument.cpp:81-112 | The signals to mix are those of the listed voices that deliver, one each, in the order of the list. |
| Voices.Instrument.HandleEvents | source/engine/module/Instrument.cpp:55-78 | The input is drained from last to first; the pool after the events is the fold of note-ons and note-offs, the list is exactly the voices in use, and paired events leave at most one active voice per note. |
| Voices.Instrument.Retire | source/engine/module/Instrument.cpp:81-111 | Exactly the voices that are released and deliver a signal become inactive, every other keeps its state; the signals are collected in the order of the list. |
| Voices.Instrument.Process | source/engine/module/Instrument.cpp:53-111 | One turn: the input is drained and its events applied, then the released voices that deliver a signal are retired; one signal is sent, the mix of what the listed voices deliver, or silence; every voice in use stays listed, none twice. |
| Voices.Instrument.Run | source/engine/module/Instrument.cpp:53-111 | Over every run of buffers of arriving signals the port and the pool are the fold, no voice is listed twice, the list fits the pool, and pairs that arrive over one link leave at most one active voice per note. |
| Voices.PairsKeepOneEach | source/engine/core/voice/VoiceManager.cpp:18-34 | If a note-off of its note directly precedes every note-on, no two active voices have the same note, whatever the pool. |
| SynthPath.TakeTurn | source/engine/module/Instrument.cpp:53-120 | The turn of the instrument object, on the ports and its voices, is the turn of the value the pass theorems are about. |
| SynthPath.SentArePairs | source/engine/module/PolyRhythmModule.cpp:278-295 | Sequencers linked at most once to a port send it on/off pairs in every pass, in any order of turns, with any timelines, tracks and tempi. |
| SynthPath.InstrumentHearsWholePass | source/engine/AudioGraph/AudioGraph.cpp:265-271 | In one pass over an acyclic graph the instrument handles, from last to first, every event the sequencers send in the whole pass, once per link; its input is empty afterwards. |
| SynthPath.RunKeepsOneEach | source/engine/module/Instrument.cpp:53-111 | Over every run of passes in which each sequencer is linked to the instrument at most once, at most one voice of each note is active. |
| SynthPath.RunLosesNothingIff | source/engine/module/Instrument.cpp:53-111 | Over every run of passes in which released voices deliver, the instrument loses no note if and only if the hits sent in each pass are at most the voices that no note holds when it starts. |
| SynthPath.OneEachIff | source/engine/port/OutputPort.cpp:27-35 | Hits arriving over c links keep one active voice per note, for all hits and all states of a pool of v voices, if and only if c is at most 1 or v is. |
| SpscQueue.InvNext | include/common/SPSCQueue.hpp:27-46 | Every atomic step keeps the ring contents equal to the accepted values not handed out yet; a written slot holds the item being enqueued. |
| SpscQueue.Safety | include/common/SPSCQueue.hpp:27-46 | Under every interleaving the values dequeued are a prefix of the values accepted, at most Size - 1 are stored, and no slot is written and read at once. |
| SpscQueue.FailureIsExact | include/common/SPSCQueue.hpp:28-42 | At the acquire load, enqueue fails if and only if Size - 1 values are stored, and dequeue if and only if all accepted values were handed out. |
| SpscQueue.AcceptedAreEntered | include/common/SPSCQueue.hpp:27-34 | The accepted values are exactly the items passed to the enqueues that found room, in order. |
| SpscQueue.SPSCQueue.CheckRoom | include/common/SPSCQueue.hpp:28-30 | The producer's load step, with its exact result. |
| SpscQueue.SPSCQueue.WriteSlot | include/common/SPSCQueue.hpp:31 | The producer's slot write. |
| SpscQueue.SPSCQueue.PublishHead | include/common/SPSCQueue.hpp:32-33 | The producer's release store; the item of the enqueue is accepted. |
| SpscQueue.SPSCQueue.CheckItem | include/common/SPSCQueue.hpp:40-42 | The consumer's load step, with its exact result. |
| SpscQueue.SPSCQueue.ReadSlot | include/common/SPSCQueue.hpp:43 | The consumer's slot read. |
| SpscQueue.SPSCQueue.PublishTail | include/common/SPSCQueue.hpp:44-45 | The consumer's release store; it hands out the oldest accepted value not handed out yet. |
| AudioRing.PutAppends | source/engine/core/backend/RtAudioOutputBackend.cpp:88-98 | The two copies of a chunk append it to the ring's contents, across the wrap. |
| AudioRing.StoreKeepsInv | source/engine/core/backend/RtAudioOutputBackend.cpp:75-107 | An unblocked turn of the write loop moves samples from the write to the ring, as many as fit, and leaves fewer frames to write. |
| AudioRing.FetchKeepsInv | source/engine/core/backend/RtAudioOutputBackend.cpp:122-140 | A callback plays the oldest samples and removes exactly those. |
| AudioRing.UnderrunIsSilent | source/engine/core/backend/RtAudioOutputBackend.cpp:119-121 | An underrun plays silence and consumes nothing. |
| AudioRing.PlaysWhatWasWritten | source/engine/core/backend/RtAudioOutputBackend.cpp:69-144 | Over every run, for every channel count: what the driver heard, then the stored and the pending samples are the whole frames of the buffers passed to write, in order; indices and fill level agree. |
| AudioRing.RunIsAccounted | source/engine/core/backend/RtAudioOutputBackend.cpp:69-144 | Over every run the written samples grow by the whole frames of the buffers passed to the writes that begin, and the played ones by what the callbacks deliver. |
| AudioRing.BlockedWriteIsReleased | source/engine/core/backend/RtAudioOutputBackend.cpp:79-81 | A write blocked on a full ring is released by a callback exactly if that asks for at least one frame and no more than the capacity. |
| AudioRing.RtAudioOutputBackend.constructor | source/engine/core/backend/RtAudioOutputBackend.cpp:23-26 | An empty ring of capacity times channels samples. |
| AudioRing.RtAudioOutputBackend.BeginWrite | source/engine/core/backend/RtAudioOutputBackend.cpp:72-73 | A write covers the whole frames of its buffer: its pending samples are that prefix of the buffer. |
| AudioRing.RtAudioOutputBackend.StoreChunk | source/engine/core/backend/RtAudioOutputBackend.cpp:83-104 | One locked turn of the write loop. |
| AudioRing.RtAudioOutputBackend.AudioCallback | source/engine/core/backend/RtAudioOutputBackend.cpp:110-144 | One locked callback, with the samples it outputs. |
| Mailbox.DecodeEncoded | source/ipc/SharedMemory/SharedMemory.cpp:142-143 | The reader decodes exactly the bytes the sender stored, whatever the slot held before; a zero follows them, and the rest of the slot stays. |
| Mailbox.NextKeepsInv | source/ipc/SharedMemory/SharedMemory.cpp:122-148 | Every step of senders and reader keeps messages conserved and wakeups not lost. |
| Mailbox.MessagesConserved | source/ipc/SharedMemory/SharedMemory.cpp:122-148 | In every reachable state the messages popped, queued and unread are the messages sent, in lock order and byte for byte. |
| Mailbox.SendersAreAccounted | source/ipc/SharedMemory/SharedMemory.cpp:129-147 | Over every run and for every sender: the messages it stores, then the one it waits with, are the one it waited with at the start and then the arguments of its calls with fewer than 1024 bytes, in order; the messages sent are those stored. |
| Mailbox.NotifiedIsAwake | source/ipc/SharedMemory/SharedMemory.cpp:142-145 | A step that stores or takes a message wakes exactly the sleeper that `notify_one` names, and if a thread sleeps on, another has been woken. |
| Mailbox.UnreadCanBeTaken | source/ipc/SharedMemory/SharedMemory.cpp:234-248 | In every reachable state with an unread message the reader has an enabled step that takes it, whoever was notified. |
| Mailbox.WaitingSendersAreServed | source/ipc/SharedMemory/SharedMemory.cpp:138-145 | In every reachable state with a free slot and a waiting sender, some woken sender can store its message. |
| Mailbox.SharedBuffer.Store | source/ipc/SharedMemory/SharedMemory.cpp:142-144 | Stores the message and its terminating zero, and marks the slot full. |
| Mailbox.SharedBuffer.Take | source/ipc/SharedMemory/SharedMemory.cpp:240-247 | Decodes the message, frees the slot and queues the message. |
| Mailbox.MessageQueue.Push | include/ipc/SharedMemory/MessageQueue.hpp:21-24 | Appends the message. |
| Mailbox.MessageQueue.TryPop | include/ipc/SharedMemory/MessageQueue.hpp:27-35 | Removes and returns the oldest message, or nothing. |
| Mailbox.SharedMemory.Send | source/ipc/SharedMemory/SharedMemory.cpp:129-147 | The first locked section of a send: refused exactly from 1024 bytes on, asleep if the slot is full, stored otherwise; the step machine's step. |
| Mailbox.SharedMemory.SenderChecks | source/ipc/SharedMemory/SharedMemory.cpp:140-145 | A woken sender tests the slot again, as the step machine does. |
| Mailbox.SharedMemory.ReaderTests | source/ipc/SharedMemory/SharedMemory.cpp:232-248 | The reader's test on entry, when roused, or when its wait times out, as the step machine does. |
| Mailbox.SharedMemory.TryPop | include/ipc/SharedMemory/MessageQueue.hpp:27-35 | Pops the oldest queued message, as the step machine does. |
| EngineMessages.NextPoint | source/engine/AudioEngine.cpp:421-427 | The selection moves modulo the point count, for deltas of either sign. |
| EngineMessages.TurnsCompose | source/engine/AudioEngine.cpp:417-429 | Encoder turns compose by addition, and a turn back undoes a turn. |
| EngineMessages.TurnsAddUp | source/engine/AudioEngine.cpp:412-429 | In toggle mode any run of encoder messages leaves the selected point at start plus the sum of the turns, modulo the point count, and changes nothing else. |
| MessageLaws.PointsTurnsAddUp | source/engine/AudioEngine.cpp:430-447 | In points mode any run of turns leaves the first shape of the selected ring with the subdivision clicked to, one clamped sum per turn, and keeps its offset, name and mask, all other shapes, all notes and all other rings. |
| MessageLaws.ClicksOneWay | source/engine/AudioEngine.cpp:434-436 | Turns of one direction add up as far as 32, or down to 1; the subdivision stays within 1 to 32. |
| MessageLaws.RotateTurnsAddUp | source/engine/AudioEngine.cpp:448-454 | In rotate mode any run of turns leaves shapes and timelines alone and gives point i of the selected ring's track the state of point i plus the sum of the turns, modulo the count. |
| MessageLaws.AdjustingPoints | source/engine/AudioEngine.cpp:484-508 | The first shape's subdivision becomes the old one plus the amount within 1 to 32; points that exist before and after keep their state, the selected point is clamped, nothing else changes. |
| MessageLaws.RotatingRing | source/engine/AudioEngine.cpp:509-520 | A rotation turns the named or the selected ring's track by the amount and selects it; shapes, timelines, selected points and other rings stay. |
| MessageLaws.TogglingPoint | source/engine/AudioEngine.cpp:522-541 | Flips one point and selects its ring and the point, clamped to the timeline; nothing else changes. |
| MessageLaws.TogglingSelected | source/engine/AudioEngine.cpp:458-482 | Flips the selected point and nothing else; a click does so only in toggle mode. |
| MessageLaws.AddingShape | source/engine/AudioEngine.cpp:543-563 | The new shape stands last, with its subdivision and offset and no mask; the others stay, the ring is rebuilt and selected. |
| MessageLaws.RemovingShape | source/engine/AudioEngine.cpp:565-578 | The shape goes and the later ones move up; without such a shape the ring is only selected. |
| MessageLaws.ModifyingShape | source/engine/AudioEngine.cpp:580-605 | The shape gets its new subdivision and offset and keeps name and mask; without such a shape nothing changes. |
| MessageLaws.SelectingRing | source/engine/AudioEngine.cpp:369-377 | The ring, or the last one, is selected; nothing else changes. |
| MessageLaws.MovingPoint | source/engine/AudioEngine.cpp:394-410 | The selected point moves modulo the point count, in every mode; nothing else changes. |
| MessageLaws.FlagMessages | source/engine/AudioEngine.cpp:333-392 | Play, pause and mode messages set their flag, and a request for the set-up changes nothing. |
| MessageLaws.MessagesKeepInstruments | source/engine/AudioEngine.cpp:329-621 | Over every run of messages all tracks keep their notes, velocities and names. |
| EngineMessages.NextKeepsSelection | source/engine/AudioEngine.cpp:329-621 | Every message keeps the selected ring in range and each ring's point on its timeline, whatever timeline it leaves behind. |
| EngineMessages.AudioEngine.ClampSelectedPoint | source/engine/AudioEngine.cpp:274-292 | Pads a selection that is too short, and clamps one ring's selected point to its timeline. |
| EngineMessages.AudioEngine.SelectRing | source/engine/AudioEngine.cpp:307-321 | Selects an existing ring and clamps its point. |
| EngineMessages.AudioEngine.MoveSelection | source/engine/AudioEngine.cpp:394-410 | Moves the selected ring's point modulo its point count. |
| EngineMessages.AudioEngine.AdjustSubdivision | source/engine/AudioEngine.cpp:430-447 | Changes the first shape's subdivision within 1 to 32, clamps the point, leaves other rings alone. |
| EngineMessages.AudioEngine.RotateMask | source/engine/AudioEngine.cpp:607-620 | Rotates the ring's mask and selects the ring. |
| EngineMessages.AudioEngine.ToggleSelected | source/engine/AudioEngine.cpp:471-482 | Toggles the selected point of the selected ring. |
| EngineMessages.AudioEngine.ToggleAt | source/engine/AudioEngine.cpp:522-541 | Toggles a point of a ring and selects both, the point clamped. |
| EngineMessages.AudioEngine.TurnEncoder | source/engine/AudioEngine.cpp:412-456 | The whole state after a turn: selection, subdivision or mask, by hardware mode. |
| EngineMessages.AudioEngine.EditShapes | source/engine/AudioEngine.cpp:543-605 | The whole state after a shape is added, removed or modified: the ring rebuilt and selected, its point clamped; unchanged for a ring or shape that does not exist. |
| EngineMessages.AudioEngine.Handle | source/engine/AudioEngine.cpp:329-621 | The whole state after any message, with the selection still valid. |
| EngineMessages.AudioEngine.Run | source/engine/AudioEngine.cpp:326-330 | The state after every sequence of messages is their fold, with the selection valid and, after each message, every ring's timeline one of its own shapes. |

## Left out

- IEEE rounding: phases, samples and gains are exact reals; conversion of samples to float is not modelled.
- Memory orders weaker than interleaving: the queue's loads see the latest store; only acquire and release accesses are used.
- Numeric overflow of `int` in the encoder's subdivision sum and in mask sizes: undefined in the source, integers are unbounded here.
- The note-off offset of a hit: a quarter buffer after the note-on, so it depends on the buffer size; schedules are stated for note-ons.
- Order of note-ons across cuts: in a wrapping buffer wrapped points come first, so schedules of runs are multisets of (sample, note, velocity); `HitOrder.BufferInOrder` states the order inside one buffer.
- Voices.Instrument.Process: cloning and processing of a voice's graph are not modelled: which voices deliver a signal, and its samples, are parameters, and so is the mix of these signals (a gain of 0.9 over a square root, then tanh).
- Engine.DrumEngine.Run: commands of the internal queue other than tempo changes are not modelled here; `DrumMachine.NoNoteIsDropped` allows any change of the graph between passes. Loading of sample files and writing to the audio device are left out.
- EngineMessages.AudioEngine.Handle: parsing of message text, outgoing messages, the numbering in shape names and colours are not modelled.
- Mailbox: binary sends, blocking receives, connection loss and stopping the reader thread.
- AudioRing: the device stream and its open flag; a write is entered only while the stream is open.
- SpscQueue: a push through `Producer` ignores a full queue, so only accepted values are followed.
- Graph: cloning of graphs, and lookup of modules by name, which is taken as resolved.
- User interface, hardware input, ALSA, sound file loading, presets, filters, oscillators and envelopes.
