/** The polyrhythm sequencer: shapes, their merged timeline, track masks over it, and the playhead. */
module PolyRhythm {
  import opened Numbers
  import opened Bjorklund
  import opened EuclideanRhythm
  import opened Events
  import opened Timeline
  import opened Playhead
  import opened Schedule
  import opened Rotation

  function PhaseIncrement(bpm: real, beatsPerCycle: nat, sampleRate: real): real
    requires sampleRate > 0.0
  {
    bpm / (60.0 * (if beatsPerCycle == 0 then 4.0 else beatsPerCycle as real) * sampleRate)
  }

  /** One cycle lasts the given number of beats: that many samples advance the playhead by exactly one cycle. */
  lemma {:induction false} CycleLength(bpm: real, beatsPerCycle: nat, sampleRate: real)
    requires sampleRate > 0.0 && bpm > 0.0 && beatsPerCycle > 0
    ensures PhaseIncrement(bpm, beatsPerCycle, sampleRate)
            * (beatsPerCycle as real * 60.0 / bpm * sampleRate) == 1.0
    ensures PhaseIncrement(bpm, 0, sampleRate) == PhaseIncrement(bpm, 4, sampleRate)
  {
    var d := 60.0 * beatsPerCycle as real * sampleRate;
    assert beatsPerCycle as real * 60.0 / bpm * sampleRate == d / bpm;
    assert (bpm / d) * (d / bpm) == 1.0;
  }

  /** `vector::resize` with inactive points. */
  function Resize(mask: seq<bool>, n: nat): (r: seq<bool>)
    ensures |r| == n && forall i :: 0 <= i < n ==> (r[i] <==> i < |mask| && mask[i])
  {
    if n <= |mask| then mask[..n] else mask + seq(n - |mask|, _ => false)
  }

  function ResizeAll(tracks: seq<Track>, n: nat): (r: seq<Track>)
    ensures MasksMatch(r, n)
  {
    seq(|tracks|, i requires 0 <= i < |tracks| => tracks[i].(activePoints := Resize(tracks[i].activePoints, n)))
  }

  predicate MasksMatch(tracks: seq<Track>, n: nat) {
    forall i :: 0 <= i < |tracks| ==> |tracks[i].activePoints| == n
  }

  function WithMask(tracks: seq<Track>, track: nat, mask: Rhythm): seq<Track>
    requires track < |tracks|
  {
    tracks[track := tracks[track].(activePoints := mask)]
  }

  function Toggled(tracks: seq<Track>, track: nat, point: nat): seq<Track> {
    if track < |tracks| && point < |tracks[track].activePoints|
    then WithMask(tracks, track, tracks[track].activePoints[point := !tracks[track].activePoints[point]])
    else tracks
  }

  function Rotated(tracks: seq<Track>, track: nat, amount: int): seq<Track> {
    if track < |tracks| then WithMask(tracks, track, Rotate(tracks[track].activePoints, amount)) else tracks
  }

  // ----- what an edit does to the points of a track -----

  /** All of a track but its points. */
  ghost predicate SameVoice(a: Track, b: Track) {
    a.noteNumber == b.noteNumber && a.velocity == b.velocity && a.name == b.name
  }

  ghost predicate Active(tracks: seq<Track>, t: nat, i: nat) {
    t < |tracks| && i < |tracks[t].activePoints| && tracks[t].activePoints[i]
  }

  /** Points of a longer or shorter timeline keep their state; new ones are inactive. */
  lemma {:induction false} ResizingKeepsPoints(tracks: seq<Track>, n: nat, t: nat, i: nat)
    ensures |ResizeAll(tracks, n)| == |tracks|
    ensures Active(ResizeAll(tracks, n), t, i) <==> i < n && Active(tracks, t, i)
    ensures t < |tracks| ==> SameVoice(ResizeAll(tracks, n)[t], tracks[t])
  {
  }

  /** A toggle flips one existing point of one track, so two toggles cancel. */
  lemma {:induction false} TogglingFlipsOne(tracks: seq<Track>, track: nat, point: nat, t: nat, i: nat)
    ensures |Toggled(tracks, track, point)| == |tracks|
    ensures t < |tracks| ==> SameVoice(Toggled(tracks, track, point)[t], tracks[t])
    ensures t < |tracks| ==> |Toggled(tracks, track, point)[t].activePoints| == |tracks[t].activePoints|
    ensures t < |tracks| && i < |tracks[t].activePoints| ==>
              (Active(Toggled(tracks, track, point), t, i) <==> (Active(tracks, t, i) != (t == track && i == point)))
    ensures Toggled(Toggled(tracks, track, point), track, point) == tracks
  {
    if track < |tracks| && point < |tracks[track].activePoints| {
      var twice := Toggled(Toggled(tracks, track, point), track, point);
      assert twice[track].activePoints == tracks[track].activePoints;
      assert twice[track] == tracks[track];
    }
  }

  /** A track turned by `amount` has at point i what it had at i + amount, around the timeline; other tracks stay. */
  lemma {:induction false} TurningMovesPoints(tracks: seq<Track>, track: nat, amount: int, t: nat, i: nat)
    ensures |Rotated(tracks, track, amount)| == |tracks|
    ensures t < |tracks| ==> SameVoice(Rotated(tracks, track, amount)[t], tracks[t])
    ensures t < |tracks| ==> |Rotated(tracks, track, amount)[t].activePoints| == |tracks[t].activePoints|
    ensures t < |tracks| && i < |tracks[t].activePoints| ==>
              (Active(Rotated(tracks, track, amount), t, i) <==>
               Active(tracks, t, if t == track then (i + amount) % |tracks[t].activePoints| else i))
  {
    hide Rotate;
    if track < |tracks| && i < |tracks[track].activePoints| {
      RotateAt(tracks[track].activePoints, amount, i);
    }
  }

  class PolyRhythmModule {
    var bpm: real
    var beatsPerCycle: UInt32
    var phase: real
    var firstProc: bool
    var shapes: seq<Shape>
    var timeline: seq<Point>
    var tracks: seq<Track>

    ghost predicate Valid()
      reads this
    {
      && phase < 1.0
      && IsTimeline(shapes, EPSILON, timeline)
      && InCycles(timeline)
      && MasksMatch(tracks, |timeline|)
    }

    constructor ()
      ensures Valid() && shapes == [] && tracks == [] && phase == 0.0 && bpm == 120.0 && beatsPerCycle == 4
    {
      bpm, beatsPerCycle, phase, firstProc := 120.0, 4, 0.0, true;
      shapes, timeline, tracks := [], [], [];
      new;
      assert IsTimelineVia([], EPSILON, [], []);
    }

    /** Emits the events of one buffer and advances the playhead; a module without points or tracks stands still. */
    method Process(sampleRate: nat, bufferSize: nat) returns (events: seq<Event>)
      requires Valid() && sampleRate > 0
      modifies `phase, `firstProc
      ensures Valid()
      ensures timeline == [] || tracks == [] ==> events == [] && phase == old(phase)
      ensures timeline != [] && tracks != [] ==>
                var inc := PhaseIncrement(bpm, beatsPerCycle, sampleRate as real);
                && events == BufferEvents(timeline, tracks, old(phase), inc, bufferSize)
                && phase == NextPhase(old(phase), Span(inc, bufferSize))
    {
      hide BufferEvents, PhaseIncrement, IsTimeline;
      events := [];
      if timeline == [] || tracks == [] {
        return;
      }
      var phaseInc := PhaseIncrement(bpm, beatsPerCycle, sampleRate as real);
      var bufferSpan := Span(phaseInc, bufferSize);
      var pStart, pEnd := phase, phase + bufferSpan;
      var wraps := pEnd >= 1.0;
      var pEndMod := if wraps then FMod1(pEnd) else pEnd;
      NothingScanned(tracks, pStart, phaseInc, bufferSize);
      for i := 0 to |timeline|
        invariant events == BufferEvents(timeline[..i], tracks, pStart, phaseInc, bufferSize)
      {
        var p := timeline[i].phase;
        ScanNext(timeline, tracks, pStart, phaseInc, bufferSize, bufferSpan, i);
        var hit := if wraps then p >= pStart || p < pEndMod else p >= pStart && p < pEnd;
        if !hit {
          continue;
        }
        HitIsAhead(p, pStart, bufferSpan);
        PositiveIncrement(p, pStart, phaseInc, bufferSize, bufferSpan);
        var dp := if p >= pStart then p - pStart else 1.0 - pStart + p;
        var offset := Clamp((dp / phaseInc).Floor, bufferSize);
        var point := EmitPoint(i, offset, bufferSize);
        events := events + point;
      }
      assert timeline[..|timeline|] == timeline;
      phase := if wraps then pEndMod else pEnd;
      firstProc := false;
    }

    /** The division by the increment is never reached with an increment of zero or below. */
    static lemma {:induction false} PositiveIncrement(p: real, phase: real, inc: real, size: nat, span: real)
      requires phase < 1.0 && InCycle(p) && Hit(p, phase, span) && span == Span(inc, size)
      ensures inc > 0.0 && Clamp((Ahead(p, phase) / inc).Floor, size) == SampleOffset(p, phase, inc, size)
    {
    }

    static lemma {:induction false} NothingScanned(tracks: seq<Track>, phase: real, inc: real, size: nat)
      requires phase < 1.0
      ensures BufferEvents([], tracks, phase, inc, size) == []
    {
    }

    static lemma {:induction false} ScanNext(timeline: seq<Point>, tracks: seq<Track>, phase: real, inc: real,
                                             size: nat, span: real, i: nat)
      requires InCycles(timeline) && phase < 1.0 && i < |timeline| && span == Span(inc, size)
      ensures var p := timeline[i].phase;
              BufferEvents(timeline[..i + 1], tracks, phase, inc, size)
              == BufferEvents(timeline[..i], tracks, phase, inc, size)
                 + if Hit(p, phase, span)
                   then PointEvents(tracks, i, SampleOffset(p, phase, inc, size), size) else []
    {
      assert timeline[..i + 1][..i] == timeline[..i];
    }

    method EmitPoint(i: nat, offset: nat, bufferSize: nat) returns (events: seq<Event>)
      ensures events == PointEvents(tracks, i, offset, bufferSize)
    {
      events := [];
      for t := 0 to |tracks|
        invariant events == PointEvents(tracks[..t], i, offset, bufferSize)
      {
        var track := tracks[t];
        assert tracks[..t + 1][..t] == tracks[..t];
        if i >= |track.activePoints| || !track.activePoints[i] {
          continue;
        }
        events := events + [Event(NoteOn, offset, Byte(track.noteNumber), Byte(track.velocity))];
        events := events + [Event(NoteOff, offset + bufferSize / 4, Byte(track.noteNumber), 0)];
      }
      assert tracks[..|tracks|] == tracks;
    }

    method Reset()
      requires Valid()
      modifies `phase, `firstProc
      ensures Valid() && phase == 0.0 && firstProc
    {
      phase, firstProc := 0.0, true;
    }

    // ----- shapes -----

    method RebuildTimeline()
      modifies `timeline, `tracks
      ensures IsTimeline(shapes, EPSILON, timeline) && InCycles(timeline)
      ensures tracks == ResizeAll(old(tracks), |timeline|)
    {
      timeline := BuildTimeline(shapes, EPSILON);
      TimelineMeaning(shapes, EPSILON, timeline);
      tracks := ResizeAll(tracks, |timeline|);
    }

    method AddShape(shape: Shape)
      requires Valid()
      modifies `shapes, `timeline, `tracks
      ensures Valid() && shapes == old(shapes) + [shape]
      ensures tracks == ResizeAll(old(tracks), |timeline|)
    {
      shapes := shapes + [shape];
      RebuildTimeline();
    }

    method RemoveShape(index: nat)
      requires Valid()
      modifies `shapes, `timeline, `tracks
      ensures Valid()
      ensures index < |old(shapes)| ==>
                && shapes == old(shapes)[..index] + old(shapes)[index + 1..]
                && tracks == ResizeAll(old(tracks), |timeline|)
      ensures index >= |old(shapes)| ==> unchanged(this)
    {
      if index < |shapes| {
        shapes := shapes[..index] + shapes[index + 1..];
        RebuildTimeline();
      }
    }

    method UpdateShape(index: nat, shape: Shape)
      requires Valid()
      modifies `shapes, `timeline, `tracks
      ensures Valid()
      ensures index < |old(shapes)| ==>
                shapes == old(shapes)[index := shape] && tracks == ResizeAll(old(tracks), |timeline|)
      ensures index >= |old(shapes)| ==> unchanged(this)
    {
      if index < |shapes| {
        shapes := shapes[index := shape];
        RebuildTimeline();
      }
    }

    // ----- tracks -----

    method SetTracks(newTracks: seq<Track>)
      requires Valid()
      modifies `tracks
      ensures Valid() && tracks == ResizeAll(newTracks, |timeline|)
    {
      tracks := newTracks;
      for t := 0 to |tracks|
        invariant |tracks| == |newTracks|
        invariant forall i :: 0 <= i < |tracks| ==>
                    tracks[i] == if i < t then ResizeAll(newTracks, |timeline|)[i] else newTracks[i]
      {
        tracks := tracks[t := tracks[t].(activePoints := Resize(tracks[t].activePoints, |timeline|))];
      }
      assert tracks == ResizeAll(newTracks, |timeline|);
    }

    method TogglePoint(track: nat, point: nat)
      requires Valid()
      modifies `tracks
      ensures Valid()
      ensures tracks == Toggled(old(tracks), track, point)
    {
      if track < |tracks| && point < |tracks[track].activePoints| {
        var mask := tracks[track].activePoints;
        tracks := tracks[track := tracks[track].(activePoints := mask[point := !mask[point]])];
      }
    }

    method ApplyEuclidean(track: nat, hits: UInt32)
      requires Valid()
      modifies `tracks
      ensures Valid()
      ensures tracks == if track < |old(tracks)| && timeline != []
                        then WithMask(old(tracks), track, Euclidean(hits, |timeline|)) else old(tracks)
      ensures track < |tracks| && timeline != [] ==>
                Hits(tracks[track].activePoints) == Min(hits, |timeline|)
    {
      EuclideanCounts(hits, |timeline|);
      if track >= |tracks| || timeline == [] {
        return;
      }
      var pattern := Bjorklund.Distribute(hits, |timeline|);
      tracks := tracks[track := tracks[track].(activePoints := pattern)];
    }

    method RotateTrack(track: nat, amount: int)
      requires Valid()
      modifies `tracks
      ensures Valid()
      ensures tracks == Rotated(old(tracks), track, amount)
    {
      if track >= |tracks| {
        return;
      }
      var mask := tracks[track].activePoints;
      if mask == [] {
        return;
      }
      var n := |mask|;
      var shift := CRem(CRem(amount, n) + n, n);
      ShiftIsModulo(amount, n);
      tracks := tracks[track := tracks[track].(activePoints := mask[shift..] + mask[..shift])];
    }
  }
}
