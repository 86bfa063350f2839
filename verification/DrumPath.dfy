/** From the sequencers over their links to the sampler: what arrives, and which wirings can lose a note. */
module DrumPath {
  import opened Sequences
  import opened Numbers
  import opened Events
  import opened Timeline
  import opened Playhead
  import opened Schedule
  import opened Ports
  import opened GraphPass
  import opened Sampler
  import opened VoicePool

  // ----- sequencers emit on/off pairs -----

  lemma {:induction false} PairsConcat(a: seq<Event>, b: seq<Event>)
    requires OnOffPairs(a) && OnOffPairs(b)
    ensures OnOffPairs(a + b)
  {
    var s, n := a + b, |a| / 2;
    forall k | 0 <= k < |s| / 2
      ensures s[2 * k].kind == NoteOn && s[2 * k + 1].kind == NoteOff && s[2 * k].note == s[2 * k + 1].note
    {
      if k < n {
        assert s[2 * k] == a[2 * k] && s[2 * k + 1] == a[2 * k + 1];
      } else {
        assert s[2 * k] == b[2 * (k - n)] && s[2 * k + 1] == b[2 * (k - n) + 1];
      }
    }
  }

  lemma {:induction false} PointEventsArePairs(tracks: seq<Track>, i: nat, offset: nat, size: nat)
    ensures OnOffPairs(PointEvents(tracks, i, offset, size))
  {
    if tracks != [] {
      var last := tracks[|tracks| - 1];
      PointEventsArePairs(tracks[..|tracks| - 1], i, offset, size);
      PairsConcat(PointEvents(tracks[..|tracks| - 1], i, offset, size),
                  if Fires(last, i) then HitEvents(last, offset, size) else []);
    }
  }

  /** Whatever the timeline, tracks and tempo, a buffer of the polyrhythm sequencer is made of on/off pairs. */
  lemma {:induction false} BufferEventsArePairs(timeline: seq<Point>, tracks: seq<Track>, phase: real, inc: real,
                                                size: nat)
    requires InCycles(timeline) && phase < 1.0
    ensures OnOffPairs(BufferEvents(timeline, tracks, phase, inc, size))
    decreases |timeline|
  {
    if timeline != [] {
      var i := |timeline| - 1;
      var p := timeline[i].phase;
      var before := BufferEvents(timeline[..i], tracks, phase, inc, size);
      BufferEventsArePairs(timeline[..i], tracks, phase, inc, size);
      if Hit(p, phase, Span(inc, size)) {
        var offset := SampleOffset(p, phase, inc, size);
        PointEventsArePairs(tracks, i, offset, size);
        PairsConcat(before, PointEvents(tracks, i, offset, size));
      } else {
        assert before + [] == before;
      }
    }
  }

  // ----- each link carries a copy -----

  function AsSends(events: seq<Event>, port: OutputPort): seq<Emission> {
    seq(|events|, i requires 0 <= i < |events| => Emission(port, EventSignal(events[i])))
  }

  /** Every event `c` times in a row. */
  function Copied(events: seq<Event>, c: nat): seq<Event> {
    if events == [] then [] else Copied(events[..|events| - 1], c) + Repeated(events[|events| - 1], c)
  }

  lemma {:induction false} CopiesByCount(targets: seq<InputPort>, port: InputPort, signal: Signal)
    requires port.signalType == signal.Type()
    ensures |Copies(targets, port, signal)| == Count(targets, port)
    ensures forall i :: 0 <= i < |Copies(targets, port, signal)| ==> Copies(targets, port, signal)[i] == signal
  {
    if targets != [] {
      CopiesByCount(targets[..|targets| - 1], port, signal);
    }
  }

  /** An event input receives what is sent, in order, each event once per link. */
  lemma {:induction false} LinkArrivals(links: LinkTable, events: seq<Event>, output: OutputPort, port: InputPort)
    requires port.signalType == EventType
    ensures var arrived := Arrivals(links, AsSends(events, output), port);
            OnlyEvents(arrived) && EventsOf(arrived) == Copied(events, Count(LinksOf(links, output), port))
  {
    if events != [] {
      var n := |events| - 1;
      LinkArrivals(links, events[..n], output, port);
      CopiesByCount(LinksOf(links, output), port, EventSignal(events[n]));
      assert AsSends(events, output)[..n] == AsSends(events[..n], output);
    }
  }

  /** No note of the events may occupy fewer than `c` voices. */
  ghost predicate Allowed(events: seq<Event>, c: nat, caps: Caps) {
    forall i :: 0 <= i < |events| ==> c <= caps(events[i].note)
  }

  /** On/off pairs that arrive `c` times are hits that arrive `c` times. */
  lemma {:induction false} CopiedPairsAreHits(events: seq<Event>, c: nat, caps: Caps)
    requires OnOffPairs(events) && Allowed(events, c, caps)
    ensures MadeOfHits(Copied(events, c), caps)
    decreases |events|
  {
    hide MadeOfHits;
    if c == 0 {
      CopiedNever(events);
      NoHits(caps);
    } else if events == [] {
      NoHits(caps);
    } else {
      var before, hit := events[..|events| - 2], LastHit(events, c);
      LastPairIsHit(events, c);
      CopiedPairsAreHits(before, c, caps);
      OneHit(hit, c, caps);
      HitsConcat(Copied(before, c), hit, caps);
    }
  }

  lemma {:induction false} NoHits(caps: Caps)
    ensures MadeOfHits([], caps)
  {
  }

  /** The last pair of a stream, every event `c` times. */
  function LastHit(events: seq<Event>, c: nat): seq<Event>
    requires |events| >= 2
  {
    Repeated(events[|events| - 2], c) + Repeated(events[|events| - 1], c)
  }

  lemma {:induction false} LastPairIsHit(events: seq<Event>, c: nat)
    requires OnOffPairs(events) && events != [] && c > 0
    ensures IsHit(LastHit(events, c), c) && LastHit(events, c)[0].note == events[|events| - 2].note
    ensures Copied(events, c) == Copied(events[..|events| - 2], c) + LastHit(events, c)
    ensures OnOffPairs(events[..|events| - 2])
  {
    var n := |events| - 2;
    assert events[n] == events[2 * (n / 2)] && events[n + 1] == events[2 * (n / 2) + 1];
    assert events[..n + 1][..n] == events[..n];
    assert Copied(events, c) == Copied(events[..n], c) + Repeated(events[n], c) + Repeated(events[n + 1], c);
  }

  /** Pairs of one note that arrive `c` times make it occupy `c` voices, however many it occupied before. */
  lemma {:induction false} PairsFill(voices: seq<Voice>, samples: SampleMap, events: seq<Event>, c: nat, note: UInt8)
    requires OnOffPairs(events) && events != [] && c > 0 && note in samples
    requires forall i :: 0 <= i < |events| ==> events[i].note == note
    ensures Filled(voices, samples, Reverse(Copied(events, c)), note, c - Playing(voices, note))
    decreases |events|
  {
    hide Playing, InUse, AllHandled, Drops, Copied, IsHit, LastHit;
    var before, hit := events[..|events| - 2], LastHit(events, c);
    LastPairIsHit(events, c);
    HitFills(voices, samples, hit, c);
    ReversedConcat(voices, samples, Copied(before, c), hit);
    var v := AllHandled(voices, samples, Reverse(hit));
    InUseFits(v);
    if before == [] {
      NothingHandled(v, samples);
      NothingCopied(c);
      assert Reverse(Copied(before, c)) == [];
    } else {
      PairsFill(v, samples, before, c, note);
    }
  }

  lemma {:induction false} CopiedNotes(events: seq<Event>, c: nat, note: UInt8)
    requires forall i :: 0 <= i < |events| ==> events[i].note == note
    ensures forall i :: 0 <= i < |Copied(events, c)| ==> Copied(events, c)[i].note == note
  {
    if events != [] {
      CopiedNotes(events[..|events| - 1], c, note);
    }
  }

  lemma {:induction false} NothingCopied(c: nat)
    ensures Copied([], c) == []
  {
  }

  lemma {:induction false} CopiedNever(events: seq<Event>)
    ensures Copied(events, 0) == []
  {
    if events != [] {
      CopiedNever(events[..|events| - 1]);
    }
  }

  ghost predicate NoteOf(tracks: seq<Track>, note: int, t: nat) {
    t < |tracks| && Byte(tracks[t].noteNumber) == note
  }

  lemma {:induction false} PointNotes(tracks: seq<Track>, i: nat, offset: nat, size: nat, k: nat) returns (t: nat)
    requires k < |PointEvents(tracks, i, offset, size)|
    ensures NoteOf(tracks, PointEvents(tracks, i, offset, size)[k].note, t)
  {
    hide Byte;
    var n := |tracks| - 1;
    if k < |PointEvents(tracks[..n], i, offset, size)| {
      t := PointNotes(tracks[..n], i, offset, size, k);
    } else {
      t := n;
    }
  }

  /** A sequencer plays no notes but those of its tracks. */
  lemma {:induction false} BufferNotes(timeline: seq<Point>, tracks: seq<Track>, phase: real, inc: real, size: nat,
                                       k: nat) returns (t: nat)
    requires InCycles(timeline) && phase < 1.0 && k < |BufferEvents(timeline, tracks, phase, inc, size)|
    ensures NoteOf(tracks, BufferEvents(timeline, tracks, phase, inc, size)[k].note, t)
    decreases |timeline|
  {
    hide NoteOf, PointEvents;
    var i := |timeline| - 1;
    var before := BufferEvents(timeline[..i], tracks, phase, inc, size);
    if k < |before| {
      t := BufferNotes(timeline[..i], tracks, phase, inc, size, k);
    } else {
      var offset := SampleOffset(timeline[i].phase, phase, inc, size);
      t := PointNotes(tracks, i, offset, size, k - |before|);
    }
  }

  /** No note of the tracks may occupy fewer than `c` voices. */
  ghost predicate TracksAllowed(tracks: seq<Track>, c: nat, caps: Caps) {
    forall t :: 0 <= t < |tracks| ==> c <= caps(Byte(tracks[t].noteNumber))
  }

  lemma {:induction false} BufferIsAllowed(timeline: seq<Point>, tracks: seq<Track>, phase: real, inc: real,
                                           size: nat, c: nat, caps: Caps)
    requires InCycles(timeline) && phase < 1.0 && TracksAllowed(tracks, c, caps)
    ensures Allowed(BufferEvents(timeline, tracks, phase, inc, size), c, caps)
  {
    hide BufferEvents, Byte;
    var events := BufferEvents(timeline, tracks, phase, inc, size);
    forall k | 0 <= k < |events|
      ensures c <= caps(events[k].note)
    {
      var t := BufferNotes(timeline, tracks, phase, inc, size, k);
    }
  }

  /** A sequencer's buffer reaches an event input as hits, each arriving once per link. */
  lemma {:induction false} BufferArrivesAsHits(links: LinkTable, output: OutputPort, port: InputPort,
                                               timeline: seq<Point>, tracks: seq<Track>, phase: real, inc: real,
                                               size: nat, caps: Caps)
    requires port.signalType == EventType && InCycles(timeline) && phase < 1.0
    requires TracksAllowed(tracks, Count(LinksOf(links, output), port), caps)
    ensures var arrived := Arrivals(links, AsSends(BufferEvents(timeline, tracks, phase, inc, size), output), port);
            OnlyEvents(arrived) && MadeOfHits(EventsOf(arrived), caps)
  {
    hide BufferEvents, Arrivals, AsSends, OnOffPairs, MadeOfHits, Allowed, TracksAllowed;
    var events, c := BufferEvents(timeline, tracks, phase, inc, size), Count(LinksOf(links, output), port);
    BufferEventsArePairs(timeline, tracks, phase, inc, size);
    BufferIsAllowed(timeline, tracks, phase, inc, size, c, caps);
    LinkArrivals(links, events, output, port);
    CopiedPairsAreHits(events, c, caps);
  }

  // ----- which wirings keep the pairs, and which can lose a note -----

  lemma {:induction false} CopiedStart(events: seq<Event>, c: nat)
    requires events != []
    ensures |Copied(events, c)| >= c && forall i :: 0 <= i < c ==> Copied(events, c)[i] == events[0]
  {
    if |events| > 1 {
      CopiedStart(events[..|events| - 1], c);
    }
  }

  lemma {:induction false} CopiedOnce(events: seq<Event>)
    ensures Copied(events, 1) == events
  {
    if events != [] {
      CopiedOnce(events[..|events| - 1]);
    }
  }

  /** Whatever pairs are sent, they arrive as pairs if and only if there is at most one link. */
  lemma {:induction false} PairsSurviveIff(links: LinkTable, events: seq<Event>, output: OutputPort, port: InputPort)
    requires port.signalType == EventType && OnOffPairs(events) && events != []
    ensures var arrived := Arrivals(links, AsSends(events, output), port);
            && OnlyEvents(arrived)
            && (OnOffPairs(EventsOf(arrived)) <==> Count(LinksOf(links, output), port) <= 1)
  {
    hide Arrivals, AsSends;
    var c := Count(LinksOf(links, output), port);
    LinkArrivals(links, events, output, port);
    if c == 0 {
      CopiedNever(events);
    } else if c == 1 {
      CopiedOnce(events);
    } else {
      CopiedStart(events, c);
      assert events[2 * 0].kind == NoteOn;
      var arrived := Copied(events, c);
      assert arrived[2 * 0 + 1].kind == NoteOn;
    }
  }

  // ----- a sequencer that plays all of the notes at once -----

  function TrackOf(note: UInt8): Track {
    Track(note, 100, [true], "")
  }

  function TracksOf(notes: seq<UInt8>): (r: seq<Track>)
    ensures |r| == |notes|
  {
    seq(|notes|, i requires 0 <= i < |notes| => TrackOf(notes[i]))
  }

  lemma {:induction false} VolleyIsSent(notes: seq<UInt8>, c: nat)
    ensures Copied(PointEvents(TracksOf(notes), 0, 0, 1), c) == Volley(notes, Uniform(c))
  {
    if notes != [] {
      var n := |notes| - 1;
      VolleyIsSent(notes[..n], c);
      assert TracksOf(notes)[..n] == TracksOf(notes[..n]);
      var before := PointEvents(TracksOf(notes[..n]), 0, 0, 1);
      CopiedHit(before, notes[n], c);
    }
  }

  lemma {:induction false} CopiedHit(before: seq<Event>, note: UInt8, c: nat)
    ensures Copied(before + HitEvents(TrackOf(note), 0, 1), c) == Copied(before, c) + FullHit(note, c)
  {
    var on, off := Event(NoteOn, 0, note, 100), Event(NoteOff, 0, note, 0);
    var all := before + HitEvents(TrackOf(note), 0, 1);
    assert Byte(note) == note;
    assert all == before + [on] + [off];
    assert all[..|all| - 1] == before + [on] && (before + [on])[..|before|] == before;
    assert Copied(all, c) == Copied(before, c) + Repeated(on, c) + Repeated(off, c);
    assert FullHit(note, c) == Repeated(on, c) + Repeated(off, c);
  }

  /** One sample that covers a whole cycle, with a single point at phase 0. */
  lemma {:induction false} OneSampleBuffer(tracks: seq<Track>)
    ensures InCycles([Point(0.0, 0, 0)])
    ensures BufferEvents([Point(0.0, 0, 0)], tracks, 0.0, 1.0, 1) == PointEvents(tracks, 0, 0, 1)
  {
    var timeline := [Point(0.0, 0, 0)];
    assert timeline[..0] == [];
    assert Span(1.0, 1) == 1.0 && Hit(0.0, 0.0, 1.0);
    assert SampleOffset(0.0, 0.0, 1.0, 1) == 0;
  }

  ghost function BufferDrops(links: LinkTable, output: OutputPort, port: InputPort, voices: seq<Voice>,
                             samples: SampleMap, timeline: seq<Point>, tracks: seq<Track>, phase: real, inc: real,
                             size: nat): nat
    requires InCycles(timeline) && phase < 1.0
  {
    Drops(voices, samples,
          DrainView(Arrivals(links, AsSends(BufferEvents(timeline, tracks, phase, inc, size), output), port)))
  }

  lemma {:induction false} BufferDropsNothing(links: LinkTable, output: OutputPort, port: InputPort,
                                              voices: seq<Voice>, samples: SampleMap, timeline: seq<Point>,
                                              tracks: seq<Track>, phase: real, inc: real, size: nat)
    requires port.signalType == EventType && Silent(voices) && InCycles(timeline) && phase < 1.0
    requires Count(LinksOf(links, output), port) * |PlayableNotes(samples)| <= |voices|
    ensures BufferDrops(links, output, port, voices, samples, timeline, tracks, phase, inc, size) == 0
  {
    hide BufferEvents, AsSends, MadeOfHits, Arrivals, Playing;
    var c := Count(LinksOf(links, output), port);
    var arrived := Arrivals(links, AsSends(BufferEvents(timeline, tracks, phase, inc, size), output), port);
    BufferArrivesAsHits(links, output, port, timeline, tracks, phase, inc, size, Uniform(c));
    DrainReverses(arrived);
    SilentIsAtMost(voices, samples, Uniform(c));
    UniformNeed(samples, c);
    HitsKeepAtMost(voices, samples, EventsOf(arrived), Uniform(c));
  }

  /** A sequencer linked several times to a sampler at rest can lose a note in one buffer if and only if there are
      fewer voices than links times playable notes. */
  lemma {:induction false} LinksLoseNoNoteIff(links: LinkTable, output: OutputPort, port: InputPort,
                                              voices: seq<Voice>, samples: SampleMap)
    requires port.signalType == EventType && Silent(voices)
    ensures (forall timeline, tracks, phase, inc, size :: InCycles(timeline) && phase < 1.0 ==>
               BufferDrops(links, output, port, voices, samples, timeline, tracks, phase, inc, size) == 0)
       <==> Count(LinksOf(links, output), port) * |PlayableNotes(samples)| <= |voices|
  {
    hide BufferDrops, InCycles;
    var c := Count(LinksOf(links, output), port);
    if c * |PlayableNotes(samples)| <= |voices| {
      forall timeline, tracks, phase, inc, size | InCycles(timeline) && phase < 1.0
        ensures BufferDrops(links, output, port, voices, samples, timeline, tracks, phase, inc, size) == 0
      {
        BufferDropsNothing(links, output, port, voices, samples, timeline, tracks, phase, inc, size);
      }
    } else {
      UniformNeed(samples, c);
      var notes := VolleyDrops(voices, samples, Uniform(c));
      OneSampleBuffer(TracksOf(notes));
      VolleyBufferDrops(links, output, port, voices, samples, notes);
    }
  }

  lemma {:induction false} VolleyBufferDrops(links: LinkTable, output: OutputPort, port: InputPort, voices: seq<Voice>,
                                             samples: SampleMap, notes: seq<UInt8>)
    requires port.signalType == EventType
    ensures InCycles([Point(0.0, 0, 0)])
    ensures BufferDrops(links, output, port, voices, samples, [Point(0.0, 0, 0)], TracksOf(notes), 0.0, 1.0, 1)
         == Drops(voices, samples, Reverse(Volley(notes, Uniform(Count(LinksOf(links, output), port)))))
  {
    hide BufferEvents, AsSends, Arrivals, Drops, PointEvents;
    var events := PointEvents(TracksOf(notes), 0, 0, 1);
    OneSampleBuffer(TracksOf(notes));
    LinkArrivals(links, events, output, port);
    VolleyIsSent(notes, Count(LinksOf(links, output), port));
    DrainReverses(Arrivals(links, AsSends(events, output), port));
  }
}
