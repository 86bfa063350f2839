/**
 What the sampler sounds like. The reference is unlimited polyphony: a list of tones, one for every hit that has not
 been released. As long as no note is dropped, the fixed pool of voices sounds the same, sample by sample.
 */
module Polyphony {
  import opened Sequences
  import opened Events
  import opened Sampler
  import opened VoicePool
  import Schedule

  // ----- unlimited polyphony -----

  /** A hit of a note, `age` samples ago. */
  datatype Tone = Tone(note: int, data: seq<real>, gain: real, age: nat)

  /** Which notes to listen to. */
  type Notes = int -> bool

  function Except(of: Notes, note: int): Notes {
    n => of(n) && n != note
  }

  function EveryNote(): Notes {
    _ => true
  }

  function ToneSample(t: Tone, i: nat): real {
    if t.age + i < |t.data| then t.data[t.age + i] * t.gain else 0.0
  }

  function ToneMix(tones: seq<Tone>, of: Notes, i: nat): real {
    if tones == [] then 0.0
    else
      var last := tones[|tones| - 1];
      ToneMix(tones[..|tones| - 1], of, i) + if of(last.note) then ToneSample(last, i) else 0.0
  }

  function Released(tones: seq<Tone>, note: int): seq<Tone> {
    if tones == [] then []
    else
      var last := tones[|tones| - 1];
      Released(tones[..|tones| - 1], note) + if last.note == note then [] else [last]
  }

  function ToneStruck(tones: seq<Tone>, samples: SampleMap, e: Event): seq<Tone> {
    match e.kind
    case NoteOn =>
      if e.note in samples then tones + [Tone(e.note, samples[e.note].samples, e.velocity as real / 127.0, 0)]
      else tones
    case NoteOff => Released(tones, e.note)
    case ControlChange => tones
  }

  function AllStruck(tones: seq<Tone>, samples: SampleMap, events: seq<Event>): seq<Tone>
    decreases |events|
  {
    if events == [] then tones
    else ToneStruck(AllStruck(tones, samples, events[..|events| - 1]), samples, events[|events| - 1])
  }

  function Aged(tones: seq<Tone>, size: nat): (r: seq<Tone>)
    ensures |r| == |tones|
  {
    seq(|tones|, k requires 0 <= k < |tones| => tones[k].(age := tones[k].age + size))
  }

  function TonesAfter(tones: seq<Tone>, samples: SampleMap, b: Buffer): seq<Tone> {
    Aged(AllStruck(tones, samples, Reverse(b.arrived)), b.size)
  }

  function RunTones(tones: seq<Tone>, samples: SampleMap, run: seq<Buffer>): seq<Tone>
    decreases |run|
  {
    if run == [] then tones else RunTones(TonesAfter(tones, samples, run[0]), samples, run[1..])
  }

  // ----- the pool's mix, note by note -----

  function VoicePart(v: Voice, of: Notes, i: nat): real {
    if of(v.note) then VoiceSample(v, i) else 0.0
  }

  function VoiceMix(voices: seq<Voice>, of: Notes, i: nat): real {
    if voices == [] then 0.0
    else VoiceMix(voices[..|voices| - 1], of, i) + VoicePart(voices[|voices| - 1], of, i)
  }

  lemma {:induction false} WholeMix(voices: seq<Voice>, i: nat)
    ensures MixedSample(voices, i) == VoiceMix(voices, EveryNote(), i)
  {
    hide VoiceSample;
    if voices != [] {
      WholeMix(voices[..|voices| - 1], i);
    }
  }

  /** The mix is the sum over the voices: a playing voice adds its data, scaled by its velocity. */
  lemma {:induction false} MixAdds(a: seq<Voice>, b: seq<Voice>, i: nat)
    ensures MixedSample(a + b, i) == MixedSample(a, i) + MixedSample(b, i)
    decreases |b|
  {
    hide VoiceSample;
    if b == [] {
      assert a + b == a;
    } else {
      assert (a + b)[..|a + b| - 1] == a + b[..|b| - 1];
      MixAdds(a, b[..|b| - 1], i);
    }
  }

  lemma {:induction false} MixOfOne(v: Voice, i: nat)
    ensures MixedSample([v], i)
         == if v.isPlaying && v.position + i < |v.data| then v.velocity * v.data[v.position + i] else 0.0
  {
    assert [v][..0] == [];
  }

  lemma {:induction false} VoiceReplaced(voices: seq<Voice>, k: nat, v: Voice, of: Notes, i: nat)
    requires k < |voices|
    ensures VoiceMix(voices[k := v], of, i)
         == VoiceMix(voices, of, i) - VoicePart(voices[k], of, i) + VoicePart(v, of, i)
    decreases |voices|
  {
    hide VoicePart;
    var n := |voices| - 1;
    if k < n {
      assert voices[k := v][..n] == voices[..n][k := v];
      VoiceReplaced(voices[..n], k, v, of, i);
    } else {
      assert voices[k := v][..n] == voices[..n];
    }
  }

  lemma {:induction false} VoicesStopped(voices: seq<Voice>, note: int, of: Notes, i: nat)
    ensures VoiceMix(Stopped(voices, note), of, i) == VoiceMix(voices, Except(of, note), i)
    decreases |voices|
  {
    if voices != [] {
      var n := |voices| - 1;
      assert Stopped(voices, note)[..n] == Stopped(voices[..n], note);
      VoicesStopped(voices[..n], note, of, i);
    }
  }

  lemma {:induction false} VoicesAdvanced(voices: seq<Voice>, size: nat, of: Notes, i: nat)
    requires InsideData(voices)
    ensures VoiceMix(AllAdvanced(voices, size), of, i) == VoiceMix(voices, of, size + i)
    decreases |voices|
  {
    if voices != [] {
      var n := |voices| - 1;
      assert AllAdvanced(voices, size)[..n] == AllAdvanced(voices[..n], size);
      VoicesAdvanced(voices[..n], size, of, i);
      PlaybackContinues(voices[n], size, 0, i);
    }
  }

  lemma {:induction false} TonesReleased(tones: seq<Tone>, note: int, of: Notes, i: nat)
    ensures ToneMix(Released(tones, note), of, i) == ToneMix(tones, Except(of, note), i)
    decreases |tones|
  {
    hide ToneSample;
    if tones != [] {
      var rest, last := tones[..|tones| - 1], tones[|tones| - 1];
      TonesReleased(rest, note, of, i);
      assert (Released(rest, note) + [last])[..|Released(rest, note)|] == Released(rest, note);
      assert Released(rest, note) + [] == Released(rest, note);
    }
  }

  lemma {:induction false} TonesAged(tones: seq<Tone>, size: nat, of: Notes, i: nat)
    ensures ToneMix(Aged(tones, size), of, i) == ToneMix(tones, of, size + i)
    decreases |tones|
  {
    if tones != [] {
      var n := |tones| - 1;
      assert Aged(tones, size)[..n] == Aged(tones[..n], size);
      TonesAged(tones[..n], size, of, i);
    }
  }

  // ----- one hit -----

  /** A note-on of a loaded note on a pool with a free voice adds the note's sample, scaled by the velocity. */
  lemma {:induction false} NoteOnAddsSample(voices: seq<Voice>, samples: SampleMap, e: Event, of: Notes, i: nat, k: nat)
    requires e.kind == NoteOn && e.note in samples && k < |voices| && !voices[k].isPlaying
    ensures VoiceMix(Handled(voices, samples, e), of, i)
         == VoiceMix(voices, of, i)
            + if of(e.note) && i < |samples[e.note].samples|
              then samples[e.note].samples[i] * (e.velocity as real / 127.0) else 0.0
  {
    hide VoiceMix;
    var free := FreeVoice(voices);
    assert free.Some?;
    VoiceReplaced(voices, free.value, Handled(voices, samples, e)[free.value], of, i);
  }

  function After(voices: seq<Voice>, sizes: seq<nat>): (r: seq<Voice>)
    ensures |r| == |voices|
    decreases |sizes|
  {
    if sizes == [] then voices else After(AllAdvanced(voices, sizes[0]), sizes[1..])
  }

  lemma {:induction false} AfterBuffers(voices: seq<Voice>, sizes: seq<nat>, of: Notes, i: nat)
    requires InsideData(voices)
    ensures VoiceMix(After(voices, sizes), of, i) == VoiceMix(voices, of, Schedule.Total(sizes) + i)
    decreases |sizes|
  {
    hide VoiceMix;
    if sizes != [] {
      AfterBuffers(AllAdvanced(voices, sizes[0]), sizes[1..], of, i);
      VoicesAdvanced(voices, sizes[0], of, Schedule.Total(sizes[1..]) + i);
    }
  }

  /**
   The sound of a hit, from the event and the sample map: however the time after it is cut into buffers, it adds its
   sample, scaled by velocity / 127, to the mix, and nothing once the sample is over.
   */
  lemma {:induction false} HitSounds(voices: seq<Voice>, samples: SampleMap, e: Event, sizes: seq<nat>, i: nat, k: nat)
    requires e.kind == NoteOn && e.note in samples && k < |voices| && !voices[k].isPlaying && InsideData(voices)
    ensures var at := Schedule.Total(sizes) + i;
            MixedSample(After(Handled(voices, samples, e), sizes), i)
            == MixedSample(After(voices, sizes), i)
               + if at < |samples[e.note].samples|
                 then samples[e.note].samples[at] * (e.velocity as real / 127.0) else 0.0
  {
    hide VoiceMix, Handled, MixedSample, After, InsideData, Schedule.Total;
    HandledStaysInside(voices, samples, e);
    WholeMix(After(Handled(voices, samples, e), sizes), i);
    WholeMix(After(voices, sizes), i);
    AfterBuffers(Handled(voices, samples, e), sizes, EveryNote(), i);
    AfterBuffers(voices, sizes, EveryNote(), i);
    NoteOnAddsSample(voices, samples, e, EveryNote(), Schedule.Total(sizes) + i, k);
    assert EveryNote()(e.note);
  }

  lemma {:induction false} HandledStaysInside(voices: seq<Voice>, samples: SampleMap, e: Event)
    requires InsideData(voices)
    ensures InsideData(Handled(voices, samples, e))
  {
  }

  /** Without new hits the pool is silent once more samples have passed than any of its voices has left. */
  lemma {:induction false} PoolFallsSilent(voices: seq<Voice>, size: nat)
    ensures Silent(AllAdvanced(voices, size)) <==>
            forall k :: 0 <= k < |voices| && voices[k].isPlaying ==> voices[k].position + size > |voices[k].data|
  {
    hide Advanced;
    forall k | 0 <= k < |voices|
      ensures AllAdvanced(voices, size)[k].isPlaying <==>
              voices[k].isPlaying && voices[k].position + size <= |voices[k].data|
    {
      VoiceEnds(voices[k], size);
    }
  }

  // ----- the pool refines unlimited polyphony -----

  ghost predicate Agree(voices: seq<Voice>, tones: seq<Tone>) {
    forall of: Notes, i: nat :: VoiceMix(voices, of, i) == ToneMix(tones, of, i)
  }

  lemma {:induction false} EventAgrees(voices: seq<Voice>, tones: seq<Tone>, samples: SampleMap, e: Event)
    requires Agree(voices, tones) && !IsDropped(voices, samples, e)
    ensures Agree(Handled(voices, samples, e), ToneStruck(tones, samples, e))
  {
    hide VoiceMix, ToneMix, FreeVoice, Handled, ToneStruck;
    forall of: Notes, i: nat
      ensures VoiceMix(Handled(voices, samples, e), of, i) == ToneMix(ToneStruck(tones, samples, e), of, i)
    {
      match e.kind
      case NoteOn => NoteOnAgrees(voices, tones, samples, e, of, i);
      case NoteOff =>
        VoicesStopped(voices, e.note, of, i);
        TonesReleased(tones, e.note, of, i);
        OtherEvent(voices, tones, samples, e);
      case ControlChange => OtherEvent(voices, tones, samples, e);
    }
  }

  lemma {:induction false} OtherEvent(voices: seq<Voice>, tones: seq<Tone>, samples: SampleMap, e: Event)
    requires e.kind != NoteOn
    ensures Handled(voices, samples, e) == if e.kind == NoteOff then Stopped(voices, e.note) else voices
    ensures ToneStruck(tones, samples, e) == if e.kind == NoteOff then Released(tones, e.note) else tones
  {
  }

  lemma {:induction false} NoteOnAgrees(voices: seq<Voice>, tones: seq<Tone>, samples: SampleMap, e: Event, of: Notes,
                                        i: nat)
    requires Agree(voices, tones) && !IsDropped(voices, samples, e) && e.kind == NoteOn
    ensures VoiceMix(Handled(voices, samples, e), of, i) == ToneMix(ToneStruck(tones, samples, e), of, i)
  {
    hide VoiceMix, FreeVoice;
    if e.note in samples {
      var k := FreeVoice(voices).value;
      NoteOnAddsSample(voices, samples, e, of, i, k);
      assert ToneStruck(tones, samples, e)[..|tones|] == tones;
    }
  }

  lemma {:induction false} EventsAgree(voices: seq<Voice>, tones: seq<Tone>, samples: SampleMap, events: seq<Event>)
    requires Agree(voices, tones) && InsideData(voices) && Drops(voices, samples, events) == 0
    ensures Agree(AllHandled(voices, samples, events), AllStruck(tones, samples, events))
    ensures InsideData(AllHandled(voices, samples, events))
    decreases |events|
  {
    hide Agree, InsideData, Handled, ToneStruck, IsDropped;
    if events != [] {
      var before, e := events[..|events| - 1], events[|events| - 1];
      EventsAgree(voices, tones, samples, before);
      EventAgrees(AllHandled(voices, samples, before), AllStruck(tones, samples, before), samples, e);
      HandledStaysInside(AllHandled(voices, samples, before), samples, e);
    }
  }

  lemma {:induction false} TimeAgrees(voices: seq<Voice>, tones: seq<Tone>, size: nat)
    requires Agree(voices, tones) && InsideData(voices)
    ensures Agree(AllAdvanced(voices, size), Aged(tones, size)) && InsideData(AllAdvanced(voices, size))
  {
    hide VoiceMix, ToneMix;
    forall of: Notes, i: nat
      ensures VoiceMix(AllAdvanced(voices, size), of, i) == ToneMix(Aged(tones, size), of, i)
    {
      VoicesAdvanced(voices, size, of, i);
      TonesAged(tones, size, of, i);
    }
  }

  function RunVoices(voices: seq<Voice>, samples: SampleMap, run: seq<Buffer>): (r: seq<Voice>)
    ensures |r| == |voices|
    decreases |run|
  {
    if run == [] then voices else RunVoices(VoicesAfter(voices, samples, run[0]), samples, run[1..])
  }

  lemma {:induction false} RunAgrees(voices: seq<Voice>, tones: seq<Tone>, samples: SampleMap, run: seq<Buffer>)
    requires Agree(voices, tones) && InsideData(voices) && RunDrops(voices, samples, run) == 0
    ensures Agree(RunVoices(voices, samples, run), RunTones(tones, samples, run))
    ensures InsideData(RunVoices(voices, samples, run))
    decreases |run|
  {
    hide Agree, InsideData, AllHandled, AllStruck, AllAdvanced, Aged, Drops;
    if run != [] {
      var events := Reverse(run[0].arrived);
      EventsAgree(voices, tones, samples, events);
      TimeAgrees(AllHandled(voices, samples, events), AllStruck(tones, samples, events), run[0].size);
      RunAgrees(VoicesAfter(voices, samples, run[0]), TonesAfter(tones, samples, run[0]), samples, run[1..]);
    }
  }

  lemma {:induction false} SilenceAgrees(voices: seq<Voice>)
    requires Silent(voices)
    ensures Agree(voices, [])
  {
    forall of: Notes, i: nat
      ensures VoiceMix(voices, of, i) == 0.0
    {
      SilentMix(voices, of, i);
    }
  }

  lemma {:induction false} SilentMix(voices: seq<Voice>, of: Notes, i: nat)
    requires Silent(voices)
    ensures VoiceMix(voices, of, i) == 0.0
  {
    if voices != [] {
      SilentMix(voices[..|voices| - 1], of, i);
    }
  }

  /**
   Over every run from silence, of any events in buffers of any sizes, that drops no note: the mix of a buffer, before
   normalisation, is at every sample the sum of the tones of all hits not released by then.
   */
  lemma {:induction false} PoolIsUnlimited(voices: seq<Voice>, samples: SampleMap, run: seq<Buffer>, b: Buffer, i: nat)
    requires Silent(voices) && InsideData(voices)
    requires RunDrops(voices, samples, run) == 0
    requires Drops(RunVoices(voices, samples, run), samples, Reverse(b.arrived)) == 0
    ensures MixedSample(AllHandled(RunVoices(voices, samples, run), samples, Reverse(b.arrived)), i)
         == ToneMix(AllStruck(RunTones([], samples, run), samples, Reverse(b.arrived)), EveryNote(), i)
  {
    hide InsideData, AllHandled, AllStruck, Drops, MixedSample, VoiceMix, ToneMix;
    SilenceAgrees(voices);
    RunAgrees(voices, [], samples, run);
    EventsAgree(RunVoices(voices, samples, run), RunTones([], samples, run), samples, Reverse(b.arrived));
    WholeMix(AllHandled(RunVoices(voices, samples, run), samples, Reverse(b.arrived)), i);
  }

  lemma {:induction false} RunSplits(voices: seq<Voice>, samples: SampleMap, run: seq<Buffer>, b: Buffer)
    ensures RunDrops(voices, samples, run + [b])
         == RunDrops(voices, samples, run) + Drops(RunVoices(voices, samples, run), samples, Reverse(b.arrived))
    decreases |run|
  {
    hide Drops, AllHandled, AllAdvanced;
    if run == [] {
      assert [] + [b] == [b] && [b][1..] == [];
    } else {
      assert (run + [b])[1..] == run[1..] + [b];
      RunSplits(VoicesAfter(voices, samples, run[0]), samples, run[1..], b);
    }
  }

  /** With voices for the caps of all playable notes, a run of hits within the caps sounds like unlimited polyphony. */
  lemma {:induction false} HitsSoundUnlimited(voices: seq<Voice>, samples: SampleMap, run: seq<Buffer>, b: Buffer,
                                              caps: Caps, i: nat)
    requires Silent(voices) && InsideData(voices) && HitRun(run + [b], caps) && Need(samples, caps) <= |voices|
    ensures MixedSample(AllHandled(RunVoices(voices, samples, run), samples, Reverse(b.arrived)), i)
         == ToneMix(AllStruck(RunTones([], samples, run), samples, Reverse(b.arrived)), EveryNote(), i)
  {
    hide AtMost, InsideData, Need, HitRun, MixedSample, ToneMix, AllHandled, AllStruck, RunTones, Drops, RunDrops;
    SilentIsAtMost(voices, samples, caps);
    EnoughVoices(voices, samples, run + [b], caps);
    RunSplits(voices, samples, run, b);
    PoolIsUnlimited(voices, samples, run, b, i);
  }
}
