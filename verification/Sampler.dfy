/** The sampler: a fixed pool of voices that play back loaded samples. */
module Sampler {
  import opened Options
  import opened Events
  import opened Ports

  datatype WavData = WavData(samples: seq<real>, sampleRate: nat)

  datatype Voice = Voice(data: seq<real>, position: nat, note: int, velocity: real, isPlaying: bool, sampleRate: nat)

  const SILENT_VOICE := Voice([], 0, -1, 0.0, false, 44100)

  datatype Outcome = NoSample | NoFreeVoice | Started(index: nat)

  type SampleMap = map<int, WavData>

  // ----- note handling -----

  function FreeVoice(voices: seq<Voice>): (index: Option<nat>)
    ensures index.Some? ==> index.value < |voices| && !voices[index.value].isPlaying
                            && forall j :: 0 <= j < index.value ==> voices[j].isPlaying
    ensures index.None? ==> forall j :: 0 <= j < |voices| ==> voices[j].isPlaying
    decreases |voices|
  {
    if voices == [] then None
    else
      var n := |voices| - 1;
      var earlier := FreeVoice(voices[..n]);
      if earlier.Some? then earlier else if voices[n].isPlaying then None else Some(n)
  }

  function TriggerOutcome(voices: seq<Voice>, samples: SampleMap, note: int): Outcome {
    if note !in samples then NoSample
    else if FreeVoice(voices).None? then NoFreeVoice
    else Started(FreeVoice(voices).value)
  }

  function Triggered(voices: seq<Voice>, samples: SampleMap, note: int, velocity: real): (r: seq<Voice>)
    ensures |r| == |voices|
  {
    var outcome := TriggerOutcome(voices, samples, note);
    if outcome.Started?
    then voices[outcome.index := Voice(samples[note].samples, 0, note, velocity, true, samples[note].sampleRate)]
    else voices
  }

  function Stopped(voices: seq<Voice>, note: int): (r: seq<Voice>)
    ensures |r| == |voices|
  {
    seq(|voices|, i requires 0 <= i < |voices| =>
      if voices[i].isPlaying && voices[i].note == note then voices[i].(isPlaying := false) else voices[i])
  }

  function Handled(voices: seq<Voice>, samples: SampleMap, e: Event): (r: seq<Voice>)
    ensures |r| == |voices|
  {
    match e.kind
    case NoteOn => Triggered(voices, samples, e.note, e.velocity as real / 127.0)
    case NoteOff => Stopped(voices, e.note)
    case ControlChange => voices
  }

  function AllHandled(voices: seq<Voice>, samples: SampleMap, events: seq<Event>): (r: seq<Voice>)
    ensures |r| == |voices|
    decreases |events|
  {
    if events == [] then voices
    else Handled(AllHandled(voices, samples, events[..|events| - 1]), samples, events[|events| - 1])
  }

  predicate IsDropped(voices: seq<Voice>, samples: SampleMap, e: Event) {
    e.kind == NoteOn && TriggerOutcome(voices, samples, e.note) == NoFreeVoice
  }

  /** Note-ons that find no free voice. */
  function Drops(voices: seq<Voice>, samples: SampleMap, events: seq<Event>): nat
    decreases |events|
  {
    if events == [] then 0
    else
      var before, e := events[..|events| - 1], events[|events| - 1];
      Drops(voices, samples, before)
      + if IsDropped(AllHandled(voices, samples, before), samples, e) then 1 else 0
  }

  // ----- playback -----

  function VoiceSample(v: Voice, i: nat): real {
    if v.isPlaying && v.position + i < |v.data| then v.data[v.position + i] * v.velocity else 0.0
  }

  function MixedSample(voices: seq<Voice>, i: nat): real {
    if voices == [] then 0.0
    else MixedSample(voices[..|voices| - 1], i) + VoiceSample(voices[|voices| - 1], i)
  }

  function Mixed(voices: seq<Voice>, size: nat): seq<real> {
    seq(size, i requires 0 <= i < size => MixedSample(voices, i))
  }

  /** A voice stops when it is asked for a sample beyond its data. */
  function Advanced(v: Voice, size: nat): Voice {
    if !v.isPlaying then v
    else if v.position + size <= |v.data| then v.(position := v.position + size)
    else v.(position := |v.data|, isPlaying := false)
  }

  function AllAdvanced(voices: seq<Voice>, size: nat): (r: seq<Voice>)
    ensures |r| == |voices|
  {
    seq(|voices|, i requires 0 <= i < |voices| => Advanced(voices[i], size))
  }

  function Abs(x: real): real {
    if x < 0.0 then -x else x
  }

  function Peak(buffer: seq<real>): (peak: real)
    ensures peak >= 0.0 && forall i :: 0 <= i < |buffer| ==> Abs(buffer[i]) <= peak
  {
    if buffer == [] then 0.0
    else
      var before, last := Peak(buffer[..|buffer| - 1]), Abs(buffer[|buffer| - 1]);
      if last > before then last else before
  }

  function Scaled(x: real, scale: real): real {
    x * scale
  }

  function Inverse(x: real): real
    requires x > 0.0
  {
    1.0 / x
  }

  function Normalized(buffer: seq<real>): (r: seq<real>)
    ensures |r| == |buffer|
  {
    if Peak(buffer) > 1.0
    then seq(|buffer|, i requires 0 <= i < |buffer| => Scaled(buffer[i], Inverse(Peak(buffer)))) else buffer
  }

  ghost predicate InsideData(voices: seq<Voice>) {
    forall i :: 0 <= i < |voices| ==> voices[i].position <= |voices[i].data|
  }

  class SamplerModule {
    const input: InputPort
    const output: OutputPort
    var samples: SampleMap
    var voices: seq<Voice>
    /** Note-ons so far that found no free voice. */
    ghost var dropped: nat

    ghost predicate Valid()
      reads this
    {
      input.signalType == EventType && output.signalType == AudioType && InsideData(voices)
    }

    constructor (inputId: nat, outputId: nat, maxVoices: nat)
      ensures Valid() && |voices| == maxVoices && samples == map[] && dropped == 0
      ensures input == InputPort(inputId, EventType) && output == OutputPort(outputId, AudioType)
      ensures forall i :: 0 <= i < maxVoices ==> !voices[i].isPlaying
    {
      input, output := InputPort(inputId, EventType), OutputPort(outputId, AudioType);
      samples, voices, dropped := map[], seq(maxVoices, _ => SILENT_VOICE), 0;
    }

    method FindFreeVoice() returns (index: Option<nat>)
      ensures index == FreeVoice(voices)
    {
      for i := 0 to |voices|
        invariant FreeVoice(voices[..i]).None?
      {
        assert voices[..i + 1][..i] == voices[..i];
        if !voices[i].isPlaying {
          FirstFree(voices, i);
          return Some(i);
        }
      }
      assert voices[..|voices|] == voices;
      return None;
    }

    method TriggerSample(note: int, velocity: real) returns (outcome: Outcome)
      requires Valid()
      modifies `voices, `dropped
      ensures Valid()
      ensures outcome == TriggerOutcome(old(voices), samples, note)
      ensures dropped == old(dropped) + if outcome == NoFreeVoice then 1 else 0
      ensures voices == Triggered(old(voices), samples, note, velocity)
    {
      if note !in samples {
        return NoSample;
      }
      var free := FindFreeVoice();
      if free.None? {
        dropped := dropped + 1;
        return NoFreeVoice;
      }
      var wav := samples[note];
      voices := voices[free.value := Voice(wav.samples, 0, note, velocity, true, wav.sampleRate)];
      return Started(free.value);
    }

    method StopSample(note: int)
      requires Valid()
      modifies `voices
      ensures Valid() && voices == Stopped(old(voices), note)
    {
      ghost var before := voices;
      for i := 0 to |voices|
        invariant |voices| == |before|
        invariant forall j :: 0 <= j < |before| ==> voices[j] == if j < i then Stopped(before, note)[j] else before[j]
      {
        if voices[i].isPlaying && voices[i].note == note {
          voices := voices[i := voices[i].(isPlaying := false)];
        }
      }
      assert voices == Stopped(before, note);
    }

    method Handle(e: Event)
      requires Valid()
      modifies `voices, `dropped
      ensures Valid() && voices == Handled(old(voices), samples, e)
      ensures dropped == old(dropped) + if IsDropped(old(voices), samples, e) then 1 else 0
    {
      if e.kind == NoteOn {
        var outcome := TriggerSample(e.note, e.velocity as real / 127.0);
      } else if e.kind == NoteOff {
        StopSample(e.note);
      }
    }

    /** Drains the events, then mixes one buffer and sends it. */
    method Process(ports: PortNetwork, size: nat) returns (mixed: seq<real>)
      requires Valid()
      modifies `voices, `dropped, ports`boxes, ports`lastSignal
      ensures Valid()
      ensures var box := Inbox(old(ports.boxes), input);
              var struck := AllHandled(old(voices), samples, DrainView(box));
              && voices == AllAdvanced(struck, size)
              && dropped == old(dropped) + Drops(old(voices), samples, DrainView(box))
              && mixed == Normalized(Mixed(struck, size))
              && ports.boxes == Delivered(Drained(old(ports.boxes), input), ports.Links(output), AudioSignal(mixed))
    {
      Drain(ports);
      mixed := MixVoices(size);
      ports.Send(output, AudioSignal(mixed));
    }

    method Drain(ports: PortNetwork)
      requires Valid()
      modifies `voices, `dropped, ports`boxes
      ensures Valid()
      ensures var box := Inbox(old(ports.boxes), input);
              && voices == AllHandled(old(voices), samples, DrainView(box))
              && dropped == old(dropped) + Drops(old(voices), samples, DrainView(box))
              && ports.boxes == Drained(old(ports.boxes), input)
    {
      hide Handled, Triggered, Stopped, InsideData, DrainView, DrainRest, AllHandled, Drops, IsDropped;
      ghost var before, box, k := voices, Inbox(ports.boxes, input), |Inbox(ports.boxes, input)|;
      ghost var seen: seq<Event> := [];
      DrainStarts(before, samples, box);
      var signal := ports.Get(input);
      while signal.Some? && signal.value.EventSignal?
        invariant Valid() && 0 <= k <= |box|
        invariant voices == AllHandled(before, samples, seen) && dropped == old(dropped) + Drops(before, samples, seen)
        invariant if signal.Some? then k > 0 && signal.value == box[k - 1] else k == 0
        invariant Inbox(ports.boxes, input) == if k > 0 then box[..k - 1] else []
        invariant ports.boxes == if box == [] then old(ports.boxes)
                                 else old(ports.boxes)[input := Inbox(ports.boxes, input)]
        invariant DrainView(box) == seen + DrainView(box[..k]) && DrainRest(box) == DrainRest(box[..k])
        decreases k
      {
        var e := signal.value.event;
        DrainContinues(before, samples, box, k, seen);
        Handle(e);
        seen, k := seen + [e], k - 1;
        signal := ports.Get(input);
      }
      DrainEnds(box, k, seen);
    }

    static lemma {:induction false} DrainStarts(voices: seq<Voice>, samples: SampleMap, box: seq<Signal>)
      ensures AllHandled(voices, samples, []) == voices && Drops(voices, samples, []) == 0
      ensures box[..|box|] == box && [] + DrainView(box) == DrainView(box)
    {
    }

    static lemma {:induction false} DrainContinues(voices: seq<Voice>, samples: SampleMap, box: seq<Signal>, k: nat,
                                                   seen: seq<Event>)
      requires 0 < k <= |box| && box[k - 1].EventSignal?
      ensures seen + DrainView(box[..k]) == seen + [box[k - 1].event] + DrainView(box[..k - 1])
      ensures DrainRest(box[..k]) == DrainRest(box[..k - 1])
      ensures AllHandled(voices, samples, seen + [box[k - 1].event])
           == Handled(AllHandled(voices, samples, seen), samples, box[k - 1].event)
      ensures Drops(voices, samples, seen + [box[k - 1].event])
           == Drops(voices, samples, seen)
              + if IsDropped(AllHandled(voices, samples, seen), samples, box[k - 1].event) then 1 else 0
    {
      DrainNext(box, k, seen);
      assert (seen + [box[k - 1].event])[..|seen|] == seen;
    }

    /** Takes the loaded samples, a parameter of the module. */
    method SetSamples(loaded: SampleMap)
      requires Valid()
      modifies `samples
      ensures Valid() && samples == loaded
    {
      samples := loaded;
    }

    method MixVoices(size: nat) returns (buffer: seq<real>)
      requires Valid()
      modifies `voices
      ensures Valid()
      ensures voices == AllAdvanced(old(voices), size) && buffer == Normalized(Mixed(old(voices), size))
    {
      ghost var before := voices;
      buffer := seq(size, _ => 0.0);
      assert buffer == Mixed([], size);
      for k := 0 to |voices|
        invariant |voices| == |before| && |buffer| == size
        invariant forall j :: 0 <= j < |before| ==> voices[j] == if j < k then Advanced(before[j], size) else before[j]
        invariant buffer == Mixed(before[..k], size)
      {
        assert before[..k + 1][..k] == before[..k];
        if !voices[k].isPlaying {
          assert Mixed(before[..k + 1], size) == Mixed(before[..k], size);
          continue;
        }
        var voice: Voice;
        voice, buffer := MixVoice(voices[k], buffer, before[..k]);
        voices := voices[k := voice];
      }
      assert before[..|before|] == before;
      buffer := Normalize(buffer);
    }

    /** Adds one playing voice to the mix of the earlier ones. */
    static method MixVoice(start: Voice, earlierMix: seq<real>, ghost earlier: seq<Voice>)
      returns (voice: Voice, buffer: seq<real>)
      requires start.isPlaying && start.position <= |start.data| && earlierMix == Mixed(earlier, |earlierMix|)
      ensures voice == Advanced(start, |earlierMix|) && |buffer| == |earlierMix|
      ensures forall j :: 0 <= j < |buffer| ==> buffer[j] == MixedSample(earlier, j) + VoiceSample(start, j)
    {
      hide MixedSample;
      voice, buffer := start, earlierMix;
      var i := 0;
      while i < |earlierMix|
        invariant i <= |earlierMix| && |buffer| == |earlierMix| && voice == Advanced(start, i)
        invariant voice.isPlaying
        invariant forall j :: 0 <= j < |buffer| ==>
                    buffer[j] == MixedSample(earlier, j) + if j < i then VoiceSample(start, j) else 0.0
      {
        if voice.position >= |voice.data| {
          voice := voice.(isPlaying := false);
          break;
        }
        buffer := buffer[i := buffer[i] + voice.data[voice.position] * voice.velocity];
        voice := voice.(position := voice.position + 1);
        i := i + 1;
      }
    }

    static method Normalize(buffer: seq<real>) returns (r: seq<real>)
      ensures r == Normalized(buffer)
    {
      var maxAbs := 0.0;
      for i := 0 to |buffer|
        invariant maxAbs == Peak(buffer[..i])
      {
        assert buffer[..i + 1][..i] == buffer[..i];
        if Abs(buffer[i]) > maxAbs {
          maxAbs := Abs(buffer[i]);
        }
      }
      assert buffer[..|buffer|] == buffer;
      r := buffer;
      if maxAbs > 1.0 {
        var scale := Inverse(maxAbs);
        for i := 0 to |buffer|
          invariant |r| == |buffer|
          invariant forall j :: 0 <= j < |buffer| ==> r[j] == if j < i then Scaled(buffer[j], scale) else buffer[j]
        {
          r := r[i := Scaled(r[i], scale)];
        }
      }
    }
  }

  lemma {:induction false} FirstFree(voices: seq<Voice>, i: nat)
    requires i < |voices| && !voices[i].isPlaying && FreeVoice(voices[..i]).None?
    ensures FreeVoice(voices) == Some(i)
    decreases |voices|
  {
    var n := |voices| - 1;
    if i < n {
      assert voices[..n][..i] == voices[..i];
      FirstFree(voices[..n], i);
    }
  }

  // ----- playback over buffers -----

  /** Cutting a buffer in two neither loses nor repeats a sample of a voice. */
  lemma {:induction false} PlaybackContinues(v: Voice, a: nat, b: nat, i: nat)
    requires v.position <= |v.data|
    ensures VoiceSample(v, a + i) == VoiceSample(Advanced(v, a), i)
    ensures Advanced(Advanced(v, a), b) == Advanced(v, a + b)
  {
  }

  /** A voice is free again as soon as it is asked for a sample beyond its data, and not before. */
  lemma {:induction false} VoiceEnds(v: Voice, size: nat)
    ensures Advanced(v, size).isPlaying <==> v.isPlaying && v.position + size <= |v.data|
    ensures Advanced(v, size).note == v.note && Advanced(v, size).data == v.data
    ensures Advanced(v, size).velocity == v.velocity && Advanced(v, size).sampleRate == v.sampleRate
  {
  }

  lemma {:induction false} LoudestSample(buffer: seq<real>) returns (k: nat)
    requires buffer != []
    ensures k < |buffer| && Abs(buffer[k]) == Peak(buffer)
  {
    var n := |buffer| - 1;
    if n == 0 {
      k := 0;
      assert Peak(buffer[..0]) == 0.0;
    } else {
      k := LoudestSample(buffer[..n]);
      if Abs(buffer[n]) > Peak(buffer[..n]) {
        k := n;
      }
    }
  }

  /** A mix within -1 and 1 stays as it is; a louder one is scaled so that its loudest sample is exactly 1 or -1. */
  lemma {:induction false} LoudestBecomesOne(buffer: seq<real>) returns (k: nat)
    requires buffer != []
    ensures k < |buffer| && forall i :: 0 <= i < |buffer| ==> Abs(buffer[i]) <= Abs(buffer[k])
    ensures Abs(buffer[k]) <= 1.0 ==> Normalized(buffer) == buffer
    ensures Abs(buffer[k]) > 1.0 ==>
              Abs(Normalized(buffer)[k]) == 1.0
              && forall i :: 0 <= i < |buffer| ==> Normalized(buffer)[i] * Abs(buffer[k]) == buffer[i]
  {
    hide Peak, Normalized;
    k := LoudestSample(buffer);
    var peak := Abs(buffer[k]);
    NormalizedDoesNotClip(buffer, k);
    forall i | 0 <= i < |buffer|
      ensures peak > 1.0 ==> Normalized(buffer)[i] * peak == buffer[i]
    {
      NormalizedDoesNotClip(buffer, i);
    }
    if peak > 1.0 {
      UnitOf(Normalized(buffer)[k], peak, buffer[k]);
    }
  }

  lemma {:induction false} FactorSign(x: real, p: real)
    requires p > 0.0 && x * p == 0.0
    ensures x == 0.0
  {
  }

  lemma {:induction false} UnitOf(y: real, p: real, x: real)
    requires p > 0.0 && y * p == x && Abs(x) == p
    ensures Abs(y) == 1.0
  {
    AbsBelow(y, p, x);
    if x >= 0.0 {
      assert (y - 1.0) * p == y * p - p == 0.0;
      FactorSign(y - 1.0, p);
    } else {
      assert (-1.0 - y) * p == -p - y * p == 0.0;
      FactorSign(-1.0 - y, p);
    }
  }

  /** The mix is scaled by one common factor, and does not clip. */
  lemma {:induction false} NormalizedDoesNotClip(buffer: seq<real>, i: nat)
    requires i < |buffer|
    ensures Abs(Normalized(buffer)[i]) <= 1.0
    ensures Peak(buffer) <= 1.0 ==> Normalized(buffer) == buffer
    ensures Peak(buffer) > 1.0 ==> Normalized(buffer)[i] * Peak(buffer) == buffer[i]
  {
    hide Peak;
    var p := Peak(buffer);
    if p > 1.0 {
      var x, y := buffer[i], Normalized(buffer)[i];
      assert y == Scaled(x, Inverse(p));
      ScaledBack(x, p);
      AbsBelow(y, p, x);
    }
  }

  lemma {:induction false} ScaledBack(x: real, p: real)
    requires p > 0.0
    ensures Scaled(x, Inverse(p)) * p == x
  {
    assert Inverse(p) * p == 1.0;
    assert x * Inverse(p) * p == x * (Inverse(p) * p);
  }

  lemma {:induction false} AbsBelow(y: real, p: real, x: real)
    requires p > 0.0 && y * p == x && Abs(x) <= p
    ensures Abs(y) <= 1.0
  {
    assert (1.0 - y) * p == p - x >= 0.0;
    assert (1.0 + y) * p == p + x >= 0.0;
  }
}
