/**
 Why the voice pool is never exhausted. A hit reaches the sampler as note-ons followed by as many note-offs, once per
 link from its sequencer. Drained last in, first out, the note-offs come first, so a note is silent when it starts
 again and no note ever occupies more voices than its sequencer has links.
 */
module VoicePool {
  import opened Sequences
  import opened Numbers
  import opened Events
  import opened Ports
  import opened Sampler

  /** Notes an event can name and the sampler can play. */
  predicate Playable(samples: SampleMap, note: int) {
    note in samples && 0 <= note < 256
  }

  ghost function PlayableNotes(samples: SampleMap): set<int> {
    set note | note in samples && Playable(samples, note)
  }

  // ----- how many voices play a note -----

  ghost function Playing(voices: seq<Voice>, note: int): nat
    decreases |voices|
  {
    if voices == [] then 0
    else
      var last := voices[|voices| - 1];
      Playing(voices[..|voices| - 1], note) + if last.isPlaying && last.note == note then 1 else 0
  }

  ghost predicate Silent(voices: seq<Voice>) {
    forall i :: 0 <= i < |voices| ==> !voices[i].isPlaying
  }

  /** How many voices each note may occupy. */
  type Caps = int -> nat

  function Uniform(c: nat): Caps {
    note => c
  }

  /** The voices needed for every playable note to occupy as many as it may. */
  ghost function Need(samples: SampleMap, caps: Caps): nat {
    SumOver(PlayableNotes(samples), caps)
  }

  lemma {:induction false} UniformNeed(samples: SampleMap, c: nat)
    ensures Need(samples, Uniform(c)) == c * |PlayableNotes(samples)|
  {
    SumOfEqual(PlayableNotes(samples), Uniform(c), c);
  }

  /** No note occupies more voices than it may, and every playing note has a sample. */
  ghost predicate AtMost(voices: seq<Voice>, samples: SampleMap, caps: Caps) {
    && (forall note :: Playing(voices, note) <= caps(note))
    && forall i :: 0 <= i < |voices| && voices[i].isPlaying ==> Playable(samples, voices[i].note)
  }

  lemma {:induction false} SilentPlaysNothing(voices: seq<Voice>, note: int)
    requires Silent(voices)
    ensures Playing(voices, note) == 0
    decreases |voices|
  {
    if voices != [] {
      SilentPlaysNothing(voices[..|voices| - 1], note);
    }
  }

  lemma {:induction false} SilentIsAtMost(voices: seq<Voice>, samples: SampleMap, caps: Caps)
    requires Silent(voices)
    ensures AtMost(voices, samples, caps)
  {
    forall note {
      SilentPlaysNothing(voices, note);
    }
  }

  lemma {:induction false} UpdatedPlaying(voices: seq<Voice>, k: nat, v: Voice, note: int)
    requires k < |voices| && !voices[k].isPlaying
    ensures Playing(voices[k := v], note) == Playing(voices, note) + if v.isPlaying && v.note == note then 1 else 0
    decreases |voices|
  {
    var n := |voices| - 1;
    if k < n {
      assert voices[k := v][..n] == voices[..n][k := v];
      UpdatedPlaying(voices[..n], k, v, note);
    } else {
      assert voices[k := v][..n] == voices[..n];
    }
  }

  lemma {:induction false} StoppedPlaying(voices: seq<Voice>, note: int, m: int)
    ensures Playing(Stopped(voices, note), m) == if m == note then 0 else Playing(voices, m)
    decreases |voices|
  {
    if voices != [] {
      var n := |voices| - 1;
      assert Stopped(voices, note)[..n] == Stopped(voices[..n], note);
      StoppedPlaying(voices[..n], note, m);
    }
  }

  lemma {:induction false} AdvancedPlaying(voices: seq<Voice>, size: nat, m: int)
    ensures Playing(AllAdvanced(voices, size), m) <= Playing(voices, m)
    decreases |voices|
  {
    if voices != [] {
      var n := |voices| - 1;
      assert AllAdvanced(voices, size)[..n] == AllAdvanced(voices[..n], size);
      AdvancedPlaying(voices[..n], size, m);
    }
  }

  // ----- the pigeonhole argument -----

  /** The voices that do not play the note. */
  ghost function Others(voices: seq<Voice>, note: int): seq<Voice>
    decreases |voices|
  {
    if voices == [] then []
    else
      var last := voices[|voices| - 1];
      Others(voices[..|voices| - 1], note) + if last.isPlaying && last.note == note then [] else [last]
  }

  lemma {:induction false} OthersPlaying(voices: seq<Voice>, note: int)
    ensures |voices| == Playing(voices, note) + |Others(voices, note)|
    ensures forall v :: v in Others(voices, note) ==> v in voices && !(v.isPlaying && v.note == note)
    decreases |voices|
  {
    if voices != [] {
      OthersPlaying(voices[..|voices| - 1], note);
      assert voices == voices[..|voices| - 1] + [voices[|voices| - 1]];
    }
  }

  lemma {:induction false} OthersPlay(voices: seq<Voice>, note: int, m: int)
    ensures Playing(Others(voices, note), m) <= Playing(voices, m)
    decreases |voices|
  {
    if voices != [] {
      var before, last := voices[..|voices| - 1], voices[|voices| - 1];
      OthersPlay(before, note, m);
      if last.isPlaying && last.note == note {
        assert Others(voices, note) == Others(before, note);
      } else {
        assert Others(voices, note)[..|Others(before, note)|] == Others(before, note);
      }
    }
  }

  /** Voices that all play one of the notes, none of which has more than it may, are at most the sum of the caps. */
  lemma {:induction false} Crowd(voices: seq<Voice>, notes: set<int>, caps: Caps)
    requires forall v :: v in voices ==> v.isPlaying && v.note in notes
    requires forall note :: Playing(voices, note) <= caps(note)
    ensures |voices| <= SumOver(notes, caps)
    decreases |notes|
  {
    hide Playing, Others, SumOver;
    if voices != [] {
      var n := voices[0].note;
      assert voices[0] in voices;
      OthersPlaying(voices, n);
      forall m
        ensures Playing(Others(voices, n), m) <= caps(m)
      {
        OthersPlay(voices, n, m);
      }
      Crowd(Others(voices, n), notes - {n}, caps);
      SumSplit(notes, caps, n);
    }
  }

  /** A playable note that occupies fewer voices than it may finds a free one, if there are voices for all caps. */
  lemma {:induction false} NoteHasRoom(voices: seq<Voice>, samples: SampleMap, note: int, caps: Caps)
    requires AtMost(voices, samples, caps) && Playing(voices, note) < caps(note) && Playable(samples, note)
    requires Need(samples, caps) <= |voices|
    ensures FreeVoice(voices).Some?
  {
    hide Playing, Others, SumOver;
    if FreeVoice(voices).None? {
      var notes := PlayableNotes(samples);
      OthersPlaying(voices, note);
      forall m
        ensures Playing(Others(voices, note), m) <= caps(m)
      {
        OthersPlay(voices, note, m);
      }
      Crowd(Others(voices, note), notes - {note}, caps);
      SumSplit(notes, caps, note);
    }
  }

  // ----- hits -----

  /** One hit that arrives `t` times: its note-ons, then its note-offs. */
  ghost predicate IsHit(events: seq<Event>, t: nat) {
    && t > 0 && |events| == 2 * t
    && forall i :: 0 <= i < 2 * t ==>
        events[i].kind == (if i < t then NoteOn else NoteOff) && events[i].note == events[0].note
  }

  /** A stream of hits, each of which arrives at most as often as its note may. */
  ghost predicate MadeOfHits(events: seq<Event>, caps: Caps)
    decreases |events|, 1
  {
    events == [] || exists t :: EndsInHit(events, t, caps)
  }

  ghost predicate EndsInHit(events: seq<Event>, t: nat, caps: Caps)
    decreases |events|, 0
  {
    && 0 < 2 * t <= |events| && t <= caps(events[|events| - 1].note)
    && IsHit(events[|events| - 2 * t..], t) && MadeOfHits(events[..|events| - 2 * t], caps)
  }

  lemma {:induction false} HitsConcat(a: seq<Event>, b: seq<Event>, caps: Caps)
    requires MadeOfHits(a, caps) && MadeOfHits(b, caps)
    ensures MadeOfHits(a + b, caps)
    decreases |b|
  {
    if b == [] {
      assert a + b == a;
    } else {
      var t: nat :| EndsInHit(b, t, caps);
      HitsConcat(a, b[..|b| - 2 * t], caps);
      assert (a + b)[|a + b| - 2 * t..] == b[|b| - 2 * t..];
      assert (a + b)[..|a + b| - 2 * t] == a + b[..|b| - 2 * t];
      assert EndsInHit(a + b, t, caps);
    }
  }

  lemma {:induction false} OneHit(hit: seq<Event>, t: nat, caps: Caps)
    requires IsHit(hit, t) && t <= caps(hit[0].note)
    ensures MadeOfHits(hit, caps)
  {
    assert hit[..|hit| - 2 * t] == [] && hit[|hit| - 2 * t..] == hit;
    assert MadeOfHits([], caps) && EndsInHit(hit, t, caps);
  }

  // ----- handling a stream piece by piece -----

  lemma {:induction false} HandledConcat(voices: seq<Voice>, samples: SampleMap, a: seq<Event>, b: seq<Event>)
    ensures AllHandled(voices, samples, a + b) == AllHandled(AllHandled(voices, samples, a), samples, b)
    ensures Drops(voices, samples, a + b)
         == Drops(voices, samples, a) + Drops(AllHandled(voices, samples, a), samples, b)
    decreases |b|
  {
    hide Handled, TriggerOutcome;
    if b == [] {
      assert a + b == a;
    } else {
      assert (a + b)[..|a + b| - 1] == a + b[..|b| - 1];
      HandledConcat(voices, samples, a, b[..|b| - 1]);
    }
  }

  /** The drain reads a stream from the back: the last hit is handled first. */
  lemma {:induction false} ReversedConcat(voices: seq<Voice>, samples: SampleMap, a: seq<Event>, b: seq<Event>)
    ensures AllHandled(voices, samples, Reverse(a + b))
         == AllHandled(AllHandled(voices, samples, Reverse(b)), samples, Reverse(a))
    ensures Drops(voices, samples, Reverse(a + b))
         == Drops(voices, samples, Reverse(b)) + Drops(AllHandled(voices, samples, Reverse(b)), samples, Reverse(a))
  {
    hide AllHandled, Drops;
    assert Reverse(a + b) == Reverse(b) + Reverse(a);
    HandledConcat(voices, samples, Reverse(b), Reverse(a));
  }

  ghost predicate AllOf(events: seq<Event>, kind: EventKind, note: UInt8) {
    forall i :: 0 <= i < |events| ==> events[i].kind == kind && events[i].note == note
  }

  lemma {:induction false} StopsHandled(voices: seq<Voice>, samples: SampleMap, events: seq<Event>, note: UInt8)
    requires AllOf(events, NoteOff, note) && events != []
    ensures AllHandled(voices, samples, events) == Stopped(voices, note) && Drops(voices, samples, events) == 0
    decreases |events|
  {
    var before := events[..|events| - 1];
    if before != [] {
      StopsHandled(voices, samples, before, note);
      assert Stopped(Stopped(voices, note), note) == Stopped(voices, note);
    }
  }

  lemma {:induction false} TriggeredPlaying(voices: seq<Voice>, samples: SampleMap, note: int, velocity: real, m: int)
    ensures var started := TriggerOutcome(voices, samples, note).Started?;
            Playing(Triggered(voices, samples, note, velocity), m)
            == Playing(voices, m) + if started && m == note then 1 else 0
  {
    hide Playing;
    var outcome := TriggerOutcome(voices, samples, note);
    if outcome.Started? {
      UpdatedPlaying(voices, outcome.index,
                     Voice(samples[note].samples, 0, note, velocity, true, samples[note].sampleRate), m);
    }
  }

  /** Starting a note keeps the bound as long as the note occupies fewer voices than it may. */
  lemma {:induction false} TriggerKeepsAtMost(voices: seq<Voice>, samples: SampleMap, note: UInt8, velocity: real,
                                              caps: Caps)
    requires AtMost(voices, samples, caps) && Playing(voices, note) < caps(note)
    ensures AtMost(Triggered(voices, samples, note, velocity), samples, caps)
    ensures Playing(Triggered(voices, samples, note, velocity), note) <= Playing(voices, note) + 1
    ensures Need(samples, caps) <= |voices| ==> TriggerOutcome(voices, samples, note) != NoFreeVoice
  {
    hide Playing;
    forall m {
      TriggeredPlaying(voices, samples, note, velocity, m);
    }
    if Need(samples, caps) <= |voices| && note in samples {
      NoteHasRoom(voices, samples, note, caps);
    }
  }

  lemma {:induction false} StartsHandled(voices: seq<Voice>, samples: SampleMap, events: seq<Event>, note: UInt8,
                                         caps: Caps)
    requires AllOf(events, NoteOn, note) && AtMost(voices, samples, caps)
    requires Playing(voices, note) + |events| <= caps(note)
    ensures AtMost(AllHandled(voices, samples, events), samples, caps)
    ensures Playing(AllHandled(voices, samples, events), note) <= Playing(voices, note) + |events|
    ensures Need(samples, caps) <= |voices| ==> Drops(voices, samples, events) == 0
    decreases |events|
  {
    hide AtMost, Playing, Triggered, TriggerOutcome;
    if events != [] {
      var before, e := events[..|events| - 1], events[|events| - 1];
      StartsHandled(voices, samples, before, note, caps);
      TriggerKeepsAtMost(AllHandled(voices, samples, before), samples, note, e.velocity as real / 127.0, caps);
    }
  }

  lemma {:induction false} StopKeepsAtMost(voices: seq<Voice>, samples: SampleMap, note: int, caps: Caps)
    requires AtMost(voices, samples, caps)
    ensures AtMost(Stopped(voices, note), samples, caps) && Playing(Stopped(voices, note), note) == 0
  {
    forall m {
      StoppedPlaying(voices, note, m);
    }
  }

  /** A hit, however often it arrives, first stops its note and then starts it. */
  lemma {:induction false} HitKeepsAtMost(voices: seq<Voice>, samples: SampleMap, hit: seq<Event>, t: nat, caps: Caps)
    requires AtMost(voices, samples, caps) && IsHit(hit, t) && t <= caps(hit[0].note)
    ensures AtMost(AllHandled(voices, samples, Reverse(hit)), samples, caps)
    ensures Need(samples, caps) <= |voices| ==> Drops(voices, samples, Reverse(hit)) == 0
  {
    hide AtMost, Playing, Stopped;
    var note, r := hit[0].note, Reverse(hit);
    var offs, ons := r[..t], r[t..];
    assert r == offs + ons;
    StopsHandled(voices, samples, offs, note);
    StopKeepsAtMost(voices, samples, note, caps);
    StartsHandled(Stopped(voices, note), samples, ons, note, caps);
    HandledConcat(voices, samples, offs, ons);
  }

  /** A stream of hits keeps the bound, and with voices for all caps it drops nothing. */
  lemma {:induction false} HitsKeepAtMost(voices: seq<Voice>, samples: SampleMap, events: seq<Event>, caps: Caps)
    requires AtMost(voices, samples, caps) && MadeOfHits(events, caps)
    ensures AtMost(AllHandled(voices, samples, Reverse(events)), samples, caps)
    ensures Need(samples, caps) <= |voices| ==> Drops(voices, samples, Reverse(events)) == 0
    decreases |events|
  {
    hide AtMost;
    if events == [] {
      assert Reverse(events) == [];
    } else {
      var t: nat :| EndsInHit(events, t, caps);
      var before, hit := events[..|events| - 2 * t], events[|events| - 2 * t..];
      assert events == before + hit && hit[2 * t - 1] == events[|events| - 1];
      HitKeepsAtMost(voices, samples, hit, t, caps);
      HitsKeepAtMost(AllHandled(voices, samples, Reverse(hit)), samples, before, caps);
      ReversedConcat(voices, samples, before, hit);
    }
  }

  lemma {:induction false} AdvanceKeepsAtMost(voices: seq<Voice>, samples: SampleMap, size: nat, caps: Caps)
    requires AtMost(voices, samples, caps)
    ensures AtMost(AllAdvanced(voices, size), samples, caps)
  {
    forall m {
      AdvancedPlaying(voices, size, m);
    }
  }

  // ----- runs -----

  /** One buffer of a run: the events that arrived, in order, and the buffer size. */
  datatype Buffer = Buffer(arrived: seq<Event>, size: nat)

  function VoicesAfter(voices: seq<Voice>, samples: SampleMap, b: Buffer): (r: seq<Voice>)
    ensures |r| == |voices|
  {
    AllAdvanced(AllHandled(voices, samples, Reverse(b.arrived)), b.size)
  }

  function RunDrops(voices: seq<Voice>, samples: SampleMap, run: seq<Buffer>): nat
    decreases |run|
  {
    if run == [] then 0
    else Drops(voices, samples, Reverse(run[0].arrived))
         + RunDrops(VoicesAfter(voices, samples, run[0]), samples, run[1..])
  }

  ghost predicate HitRun(run: seq<Buffer>, caps: Caps) {
    forall b :: 0 <= b < |run| ==> MadeOfHits(run[b].arrived, caps)
  }

  lemma {:induction false} EnoughVoices(voices: seq<Voice>, samples: SampleMap, run: seq<Buffer>, caps: Caps)
    requires AtMost(voices, samples, caps) && HitRun(run, caps) && Need(samples, caps) <= |voices|
    ensures RunDrops(voices, samples, run) == 0
    decreases |run|
  {
    hide AtMost;
    if run != [] {
      var struck := AllHandled(voices, samples, Reverse(run[0].arrived));
      HitsKeepAtMost(voices, samples, run[0].arrived, caps);
      AdvanceKeepsAtMost(struck, samples, run[0].size, caps);
      EnoughVoices(VoicesAfter(voices, samples, run[0]), samples, run[1..], caps);
    }
  }

  // ----- hits on every note fill the pool, or one is dropped -----

  ghost function InUse(voices: seq<Voice>): nat
    decreases |voices|
  {
    if voices == [] then 0
    else InUse(voices[..|voices| - 1]) + if voices[|voices| - 1].isPlaying then 1 else 0
  }

  lemma {:induction false} InUseFits(voices: seq<Voice>)
    ensures InUse(voices) <= |voices|
    decreases |voices|
  {
    if voices != [] {
      InUseFits(voices[..|voices| - 1]);
    }
  }

  lemma {:induction false} SilentInUse(voices: seq<Voice>)
    requires Silent(voices)
    ensures InUse(voices) == 0
    decreases |voices|
  {
    if voices != [] {
      SilentInUse(voices[..|voices| - 1]);
    }
  }

  lemma {:induction false} UpdatedInUse(voices: seq<Voice>, k: nat, v: Voice)
    requires k < |voices| && !voices[k].isPlaying && v.isPlaying
    ensures InUse(voices[k := v]) == InUse(voices) + 1
    decreases |voices|
  {
    var n := |voices| - 1;
    if k < n {
      assert voices[k := v][..n] == voices[..n][k := v];
      UpdatedInUse(voices[..n], k, v);
    } else {
      assert voices[k := v][..n] == voices[..n];
    }
  }

  lemma {:induction false} FullIsInUse(voices: seq<Voice>)
    ensures FreeVoice(voices).None? <==> InUse(voices) == |voices|
    decreases |voices|
  {
    InUseFits(voices);
    if voices != [] {
      var n := |voices| - 1;
      InUseFits(voices[..n]);
      FullIsInUse(voices[..n]);
    }
  }

  lemma {:induction false} StoppedInUse(voices: seq<Voice>, note: int)
    ensures InUse(Stopped(voices, note)) == InUse(voices) - Playing(voices, note)
    decreases |voices|
  {
    if voices != [] {
      var n := |voices| - 1;
      assert Stopped(voices, note)[..n] == Stopped(voices[..n], note);
      StoppedInUse(voices[..n], note);
    }
  }

  lemma {:induction false} TriggeredInUse(voices: seq<Voice>, samples: SampleMap, note: int, velocity: real)
    requires note in samples
    ensures TriggerOutcome(voices, samples, note) == NoFreeVoice <==> InUse(voices) == |voices|
    ensures InUse(Triggered(voices, samples, note, velocity))
         == if InUse(voices) == |voices| then InUse(voices) else InUse(voices) + 1
  {
    hide InUse;
    FullIsInUse(voices);
    var outcome := TriggerOutcome(voices, samples, note);
    if outcome.Started? {
      UpdatedInUse(voices, outcome.index,
                   Voice(samples[note].samples, 0, note, velocity, true, samples[note].sampleRate));
    }
  }

  /** What handling some events has led to: nothing is dropped exactly if `more` voices are free, and then they play
      the note. */
  ghost predicate Filled(voices: seq<Voice>, samples: SampleMap, events: seq<Event>, note: int, more: int) {
    var after := AllHandled(voices, samples, events);
    && (Drops(voices, samples, events) == 0 <==> InUse(voices) + more <= |voices|)
    && (Drops(voices, samples, events) == 0 ==>
          InUse(after) == InUse(voices) + more && Playing(after, note) == Playing(voices, note) + more)
    && forall m :: m != note ==> Playing(after, m) == Playing(voices, m)
  }

  /** Note-ons of a note with a sample take a voice each. */
  lemma {:induction false} StartsFill(voices: seq<Voice>, samples: SampleMap, events: seq<Event>, note: UInt8)
    requires AllOf(events, NoteOn, note) && note in samples
    ensures Filled(voices, samples, events, note, |events|)
    decreases |events|
  {
    hide Playing, InUse, Triggered, TriggerOutcome;
    InUseFits(voices);
    if events != [] {
      var before, e := events[..|events| - 1], events[|events| - 1];
      StartsFill(voices, samples, before, note);
      var v, velocity := AllHandled(voices, samples, before), e.velocity as real / 127.0;
      TriggeredInUse(v, samples, note, velocity);
      forall m
        ensures Playing(Triggered(v, samples, note, velocity), m)
             == Playing(v, m) + if TriggerOutcome(v, samples, note).Started? && m == note then 1 else 0
      {
        TriggeredPlaying(v, samples, note, velocity, m);
      }
      StartedOrFull(v, samples, note);
    }
  }

  lemma {:induction false} StartedOrFull(voices: seq<Voice>, samples: SampleMap, note: int)
    requires note in samples
    ensures TriggerOutcome(voices, samples, note).Started? <==> TriggerOutcome(voices, samples, note) != NoFreeVoice
  {
  }

  /** A hit that arrives `t` times makes its note occupy `t` voices, however many it occupied before. */
  lemma {:induction false} HitFills(voices: seq<Voice>, samples: SampleMap, hit: seq<Event>, t: nat)
    requires IsHit(hit, t) && hit[0].note in samples
    ensures Filled(voices, samples, Reverse(hit), hit[0].note, t - Playing(voices, hit[0].note))
  {
    hide Playing, InUse, Stopped, AllHandled, Drops;
    var note, r := hit[0].note, Reverse(hit);
    var offs, ons := r[..t], r[t..];
    assert r == offs + ons;
    StopsHandled(voices, samples, offs, note);
    StoppedInUse(voices, note);
    forall m
      ensures Playing(Stopped(voices, note), m) == if m == note then 0 else Playing(voices, m)
    {
      StoppedPlaying(voices, note, m);
    }
    StartsFill(Stopped(voices, note), samples, ons, note);
    HandledConcat(voices, samples, offs, ons);
  }

  lemma {:induction false} StoppingSilence(voices: seq<Voice>, note: int)
    requires Playing(voices, note) == 0
    ensures Stopped(voices, note) == voices
    decreases |voices|
  {
    if voices != [] {
      var n := |voices| - 1;
      StoppingSilence(voices[..n], note);
      assert Stopped(voices, note) == Stopped(voices[..n], note) + [voices[n]];
    }
  }

  /** Events of a note without a sample that no voice plays change nothing. */
  lemma {:induction false} MuteChangesNothing(voices: seq<Voice>, samples: SampleMap, events: seq<Event>, note: UInt8)
    requires note !in samples && Playing(voices, note) == 0
    requires forall i :: 0 <= i < |events| ==> events[i].note == note
    ensures AllHandled(voices, samples, events) == voices && Drops(voices, samples, events) == 0
    decreases |events|
  {
    hide Playing, Stopped;
    if events != [] {
      MuteChangesNothing(voices, samples, events[..|events| - 1], note);
      StoppingSilence(voices, note);
    }
  }

  /** One hit on each of the notes, each arriving as often as its note may. */
  function Volley(notes: seq<UInt8>, caps: Caps): seq<Event> {
    if notes == [] then []
    else
      var last := notes[|notes| - 1];
      Volley(notes[..|notes| - 1], caps) + FullHit(last, caps(last))
  }

  function FullHit(note: UInt8, t: nat): seq<Event> {
    Repeated(Event(NoteOn, 0, note, 100), t) + Repeated(Event(NoteOff, 0, note, 0), t)
  }

  lemma {:induction false} VolleyIsHits(notes: seq<UInt8>, caps: Caps)
    ensures MadeOfHits(Volley(notes, caps), caps)
  {
    if notes != [] {
      var n := notes[|notes| - 1];
      var before, hit := Volley(notes[..|notes| - 1], caps), FullHit(n, caps(n));
      VolleyIsHits(notes[..|notes| - 1], caps);
      if caps(n) > 0 {
        OneHit(hit, caps(n), caps);
      }
      HitsConcat(before, hit, caps);
    }
  }

  lemma {:induction false} NothingHandled(voices: seq<Voice>, samples: SampleMap)
    ensures AllHandled(voices, samples, []) == voices && Drops(voices, samples, []) == 0
  {
  }

  lemma {:induction false} FullHitFills(voices: seq<Voice>, samples: SampleMap, note: UInt8, t: nat)
    requires note in samples && Playing(voices, note) == 0
    ensures Filled(voices, samples, Reverse(FullHit(note, t)), note, t)
  {
    hide Playing, InUse, AllHandled, Drops;
    InUseFits(voices);
    if t == 0 {
      NothingHandled(voices, samples);
      assert Reverse(FullHit(note, t)) == [];
    } else {
      HitFills(voices, samples, FullHit(note, t), t);
    }
  }

  lemma {:induction false} VolleyFills(voices: seq<Voice>, samples: SampleMap, notes: seq<UInt8>, caps: Caps)
    requires Distinct(notes) && forall n :: n in notes ==> n in samples && Playing(voices, n) == 0
    ensures Drops(voices, samples, Reverse(Volley(notes, caps))) == 0 <==>
              InUse(voices) + SumList(notes, n => caps(n)) <= |voices|
    decreases |notes|
  {
    hide Playing, InUse, FullHit, AllHandled, Drops;
    InUseFits(voices);
    if notes == [] {
      NothingHandled(voices, samples);
      assert Reverse(Volley(notes, caps)) == [];
    } else {
      var n := |notes| - 1;
      var hit := FullHit(notes[n], caps(notes[n]));
      FullHitFills(voices, samples, notes[n], caps(notes[n]));
      VolleyFills(AllHandled(voices, samples, Reverse(hit)), samples, notes[..n], caps);
      ReversedConcat(voices, samples, Volley(notes[..n], caps), hit);
    }
  }

  lemma {:induction false} ListOf(notes: set<int>, caps: Caps) returns (list: seq<UInt8>)
    requires forall n :: n in notes ==> 0 <= n < 256
    ensures Distinct(list) && |list| == |notes| && forall n :: n in list ==> n in notes
    ensures SumList(list, n => caps(n)) == SumOver(notes, caps)
    decreases |notes|
  {
    list := [];
    if notes != {} {
      var n := Member(notes);
      var rest := ListOf(notes - {n}, caps);
      SumSplit(notes, caps, n);
      list := rest + [n];
      assert list[..|rest|] == rest;
    }
  }

  /** Without voices for all caps, one volley on all notes drops one. */
  lemma {:induction false} VolleyDrops(voices: seq<Voice>, samples: SampleMap, caps: Caps) returns (notes: seq<UInt8>)
    requires Silent(voices) && Need(samples, caps) > |voices|
    ensures Distinct(notes) && Drops(voices, samples, Reverse(Volley(notes, caps))) > 0
  {
    hide Playing, InUse, SumOver, SumList;
    notes := ListOf(PlayableNotes(samples), caps);
    forall n | n in notes
      ensures Playing(voices, n) == 0
    {
      SilentPlaysNothing(voices, n);
    }
    VolleyFills(voices, samples, notes, caps);
  }

  /** From a silent pool, no run of hits that arrive at most as often as their notes may drops a note if and only if
      there are voices for all caps. */
  lemma {:induction false} NoDropsIff(voices: seq<Voice>, samples: SampleMap, caps: Caps)
    requires Silent(voices)
    ensures (forall run :: HitRun(run, caps) ==> RunDrops(voices, samples, run) == 0)
       <==> Need(samples, caps) <= |voices|
  {
    if Need(samples, caps) <= |voices| {
      forall run | HitRun(run, caps)
        ensures RunDrops(voices, samples, run) == 0
      {
        SilentIsAtMost(voices, samples, caps);
        EnoughVoices(voices, samples, run, caps);
      }
    } else {
      var notes := VolleyDrops(voices, samples, caps);
      var run := [Buffer(Volley(notes, caps), 0)];
      VolleyIsHits(notes, caps);
      assert HitRun(run, caps) && RunDrops(voices, samples, run) > 0;
    }
  }
}
