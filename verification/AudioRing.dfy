/**
 The ring buffer between the engine's blocking `write` and the driver's audio callback. Both run under one mutex, so
 a run interleaves three steps: a write begins, a write stores one chunk, the callback fetches a buffer.
 */
module AudioRing {
  import opened Numbers
  import opened Euclid

  // ----- frames and samples -----

  function Samples(frames: int, channels: int): int {
    frames * channels
  }

  lemma {:induction false} SamplesAdd(a: int, b: int, channels: int)
    ensures Samples(a + b, channels) == Samples(a, channels) + Samples(b, channels)
    ensures Samples(a - b, channels) == Samples(a, channels) - Samples(b, channels)
  {
  }

  lemma {:induction false} SamplesOrder(a: int, b: int, channels: int)
    requires channels > 0
    ensures a < b <==> Samples(a, channels) < Samples(b, channels)
    ensures Samples(0, channels) == 0
  {
  }

  function Wrap(i: nat, n: nat): nat
    requires i < 2 * n
  {
    if i < n then i else i - n
  }

  lemma {:induction false} WrapIsModulo(i: nat, n: nat)
    requires i < 2 * n
    ensures i % n == Wrap(i, n)
  {
  }

  // ----- a ring of samples -----

  /** The `size` samples from position `from` on. */
  function Window(data: seq<real>, from: nat, size: nat): (w: seq<real>)
    requires from < |data| && size <= |data|
    ensures |w| == size && forall i :: 0 <= i < size ==> w[i] == data[Wrap(from + i, |data|)]
  {
    if from + size <= |data| then data[from..from + size] else data[from..] + data[..from + size - |data|]
  }

  /** The two copies of a chunk: up to the end of the ring, then from its start. */
  function Put(data: seq<real>, at: nat, chunk: seq<real>): (r: seq<real>)
    requires at < |data| && |chunk| <= |data|
    ensures |r| == |data|
    ensures forall p :: 0 <= p < |data| ==> r[p] == PutAt(data, at, chunk, p)
  {
    var first := Min(|chunk|, |data| - at);
    var tail := data[..at] + chunk[..first] + data[at + first..];
    chunk[first..] + tail[|chunk| - first..]
  }

  function PutAt(data: seq<real>, at: nat, chunk: seq<real>, p: nat): real
    requires at < |data| && |chunk| <= |data| && p < |data|
  {
    var first := Min(|chunk|, |data| - at);
    if p < |chunk| - first then chunk[first + p] else if at <= p < at + first then chunk[p - at] else data[p]
  }

  lemma {:induction false} PutAppends(data: seq<real>, from: nat, size: nat, chunk: seq<real>)
    requires from < |data| && size + |chunk| <= |data|
    ensures Window(Put(data, Wrap(from + size, |data|), chunk), from, size + |chunk|)
         == Window(data, from, size) + chunk
  {
    hide Window, Put;
    var r := Put(data, Wrap(from + size, |data|), chunk);
    var w, expected := Window(r, from, size + |chunk|), Window(data, from, size) + chunk;
    forall i | 0 <= i < size + |chunk|
      ensures w[i] == expected[i]
    {
      assert w[i] == r[Wrap(from + i, |data|)];
    }
  }

  lemma {:induction false} WindowSplits(data: seq<real>, from: nat, size: nat, k: nat)
    requires from < |data| && k <= size <= |data|
    ensures Window(data, from, size) == Window(data, from, k) + Window(data, Wrap(from + k, |data|), size - k)
  {
    hide Window;
    var w, rest := Window(data, from, size), Window(data, Wrap(from + k, |data|), size - k);
    forall i | k <= i < size
      ensures w[i] == rest[i - k]
    {
      assert w[i] == data[Wrap(from + i, |data|)];
      assert rest[i - k] == data[Wrap(Wrap(from + k, |data|) + (i - k), |data|)];
    }
  }

  // ----- the state machine -----

  /** `pending` is the rest of the write in progress; `written` and `played` are the samples of all writes begun and of
      all callbacks that were not underruns. */
  datatype State = State(capacity: nat, channels: nat, data: seq<real>, writeIndex: nat, readIndex: nat,
                         available: nat, frames: nat, pending: seq<real>, written: seq<real>, played: seq<real>)

  datatype Step = BeginWrite(buffer: seq<real>) | StoreChunk | Callback(frames: nat)

  ghost predicate Indices(s: State) {
    && s.capacity > 0 && s.channels > 0
    && |s.data| == Samples(s.capacity, s.channels)
    && s.readIndex < s.capacity && s.available <= s.capacity
    && s.writeIndex == (s.readIndex + s.available) % s.capacity
    && |s.pending| == Samples(s.frames, s.channels)
  }

  ghost function Contents(s: State): seq<real>
    requires Indices(s)
  {
    SamplesOrder(s.readIndex, s.capacity, s.channels);
    SamplesOrder(s.capacity, s.available, s.channels);
    SamplesOrder(s.available, 0, s.channels);
    SamplesOrder(s.readIndex, 0, s.channels);
    Window(s.data, Samples(s.readIndex, s.channels), Samples(s.available, s.channels))
  }

  /** Nothing written is lost, doubled or reordered. */
  ghost predicate Inv(s: State) {
    Indices(s) && s.played + Contents(s) + s.pending == s.written
  }

  function Initial(capacity: nat, channels: nat, data: seq<real>): State {
    State(capacity, channels, data, 0, 0, 0, 0, [], [], [])
  }

  /** `write` may begin when the previous one is done; a chunk waits for space; a callback never waits. */
  ghost predicate Enabled(s: State, step: Step) {
    match step
    case BeginWrite(_) => s.frames == 0
    case StoreChunk => s.frames > 0 && s.available < s.capacity
    case Callback(_) => true
  }

  ghost function Next(s: State, step: Step): (r: State)
    requires Indices(s)
    ensures Indices(r)
  {
    if !Enabled(s, step) then s
    else
      match step
      case BeginWrite(buffer) => WriteBegun(s, buffer)
      case StoreChunk => ChunkStored(s)
      case Callback(frames) => if s.available < frames then s else FramesFetched(s, frames)
  }

  ghost function WriteBegun(s: State, buffer: seq<real>): (r: State)
    requires Indices(s)
    ensures Indices(r)
  {
    var frames := |buffer| / s.channels;
    WholeFrames(|buffer|, s.channels);
    var whole := buffer[..Samples(frames, s.channels)];
    s.(frames := frames, pending := whole, written := s.written + whole)
  }

  ghost function ChunkStored(s: State): (r: State)
    requires Indices(s) && s.frames > 0 && s.available < s.capacity
    ensures Indices(r)
  {
    var chunk := Min(s.frames, s.capacity - s.available);
    ChunkFits(s);
    SamplesAdd(s.frames, chunk, s.channels);
    ModOfSum(s.readIndex + s.available, chunk, s.capacity);
    var n := Samples(chunk, s.channels);
    s.(data := Put(s.data, Samples(s.writeIndex, s.channels), s.pending[..n]),
       writeIndex := (s.writeIndex + chunk) % s.capacity,
       available := s.available + chunk,
       frames := s.frames - chunk,
       pending := s.pending[n..])
  }

  ghost function FramesFetched(s: State, frames: nat): (r: State)
    requires Indices(s) && frames <= s.available
    ensures Indices(r)
  {
    ModOfSum(s.readIndex + frames, s.available - frames, s.capacity);
    s.(readIndex := (s.readIndex + frames) % s.capacity, available := s.available - frames,
       played := s.played + Fetched(s, frames))
  }

  /** The samples a callback plays. */
  ghost function Fetched(s: State, frames: nat): seq<real>
    requires Indices(s)
  {
    if s.available < frames then seq(SampleCount(frames, s.channels), _ => 0.0)
    else
      SamplesOrder(s.readIndex, s.capacity, s.channels);
      SamplesOrder(s.capacity, frames, s.channels);
      SamplesOrder(frames, 0, s.channels);
      SamplesOrder(s.readIndex, 0, s.channels);
      Window(s.data, Samples(s.readIndex, s.channels), Samples(frames, s.channels))
  }

  function SampleCount(frames: nat, channels: nat): nat {
    SamplesNat(frames, channels);
    Samples(frames, channels)
  }

  lemma {:induction false} SamplesNat(frames: nat, channels: nat)
    ensures Samples(frames, channels) >= 0
  {
  }

  lemma {:induction false} WholeFrames(size: nat, channels: nat)
    requires channels > 0
    ensures 0 <= Samples(size / channels, channels) <= size < Samples(size / channels + 1, channels)
  {
    assert size == channels * (size / channels) + size % channels;
  }

  lemma {:induction false} ChunkFits(s: State)
    requires Indices(s) && s.frames > 0 && s.available < s.capacity
    ensures var chunk := Min(s.frames, s.capacity - s.available);
            && 0 < Samples(chunk, s.channels) <= |s.pending|
            && Samples(s.available, s.channels) + Samples(chunk, s.channels) <= |s.data|
            && 0 <= Samples(s.writeIndex, s.channels) < |s.data|
            && 0 <= Samples(s.available, s.channels)
  {
    var chunk := Min(s.frames, s.capacity - s.available);
    SamplesOrder(0, chunk, s.channels);
    SamplesOrder(s.frames, chunk, s.channels);
    SamplesOrder(s.capacity, s.available + chunk, s.channels);
    SamplesAdd(s.available, chunk, s.channels);
    SamplesOrder(s.writeIndex, s.capacity, s.channels);
    SamplesOrder(s.writeIndex, 0, s.channels);
    SamplesOrder(s.available, 0, s.channels);
  }

  // ----- conservation -----

  /** Wrapping the frame index is wrapping the sample index. */
  lemma {:induction false} SampleWrap(i: nat, capacity: nat, channels: nat)
    requires channels > 0 && i < 2 * capacity
    ensures 0 <= Samples(i, channels) < 2 * Samples(capacity, channels)
    ensures i % capacity == Wrap(i, capacity)
    ensures Samples(i % capacity, channels) == Wrap(Samples(i, channels), Samples(capacity, channels))
  {
    WrapIsModulo(i, capacity);
    SamplesOrder(i, 2 * capacity, channels);
    SamplesOrder(i, 0, channels);
    SamplesOrder(i, capacity, channels);
    SamplesAdd(capacity, capacity, channels);
    SamplesAdd(i, capacity, channels);
  }

  lemma {:induction false} BeginKeepsInv(s: State, buffer: seq<real>)
    requires Inv(s)
    requires s.frames == 0
    ensures Inv(WriteBegun(s, buffer))
  {
    hide Samples;
    WholeFrames(|buffer|, s.channels);
    SamplesOrder(0, 0, s.channels);
    assert s.pending == [];
  }

  lemma {:induction false} StoreKeepsInv(s: State)
    requires Inv(s) && s.frames > 0 && s.available < s.capacity
    ensures Inv(ChunkStored(s))
    ensures Contents(ChunkStored(s)) + ChunkStored(s).pending == Contents(s) + s.pending
    ensures ChunkStored(s).frames < s.frames
    ensures ChunkStored(s).frames == 0 || ChunkStored(s).available == s.capacity
  {
    hide Samples, Window, Put;
    var s', chunk := ChunkStored(s), Min(s.frames, s.capacity - s.available);
    var n := Samples(chunk, s.channels);
    ChunkFits(s);
    SamplesAdd(s.available, chunk, s.channels);
    SamplesAdd(s.frames, chunk, s.channels);
    SamplesAdd(s.readIndex, s.available, s.channels);
    SampleWrap(s.readIndex + s.available, s.capacity, s.channels);
    SamplesOrder(s.readIndex, s.capacity, s.channels);
    SamplesOrder(s.readIndex, 0, s.channels);
    PutAppends(s.data, Samples(s.readIndex, s.channels), Samples(s.available, s.channels), s.pending[..n]);
    assert Contents(s') == Contents(s) + s.pending[..n];
    assert s.pending == s.pending[..n] + s'.pending;
    Reassociate(s.played, Contents(s), s.pending[..n], s'.pending);
  }

  lemma {:induction false} Reassociate(a: seq<real>, b: seq<real>, c: seq<real>, d: seq<real>)
    ensures a + (b + c) + d == a + b + (c + d)
    ensures (a + b) + c + d == a + (b + c) + d
    ensures (b + c) + d == b + (c + d)
  {
  }

  /** A callback that is no underrun plays the oldest samples. */
  lemma {:induction false} FetchKeepsInv(s: State, frames: nat)
    requires Inv(s) && frames <= s.available
    ensures Inv(FramesFetched(s, frames))
    ensures Contents(s) == Fetched(s, frames) + Contents(FramesFetched(s, frames))
  {
    hide Samples, Window;
    var s' := FramesFetched(s, frames);
    SamplesAdd(s.readIndex, frames, s.channels);
    SamplesAdd(s.available, frames, s.channels);
    SampleWrap(s.readIndex + frames, s.capacity, s.channels);
    SamplesOrder(s.readIndex, s.capacity, s.channels);
    SamplesOrder(s.capacity, s.available, s.channels);
    SamplesOrder(s.available, frames, s.channels);
    SamplesOrder(frames, 0, s.channels);
    SamplesOrder(s.readIndex, 0, s.channels);
    WindowSplits(s.data, Samples(s.readIndex, s.channels), Samples(s.available, s.channels),
                 Samples(frames, s.channels));
    Reassociate(s.played, Fetched(s, frames), Contents(s'), s.pending);
  }

  lemma {:induction false} NextKeepsInv(s: State, step: Step)
    requires Inv(s)
    ensures Inv(Next(s, step))
  {
    hide Inv, WriteBegun, ChunkStored, FramesFetched;
    if Enabled(s, step) {
      match step
      case BeginWrite(buffer) => BeginKeepsInv(s, buffer);
      case StoreChunk => StoreKeepsInv(s);
      case Callback(frames) => if frames <= s.available { FetchKeepsInv(s, frames); }
    }
  }

  ghost function Run(s: State, steps: seq<Step>): (r: State)
    requires Indices(s)
    ensures Indices(r)
    decreases |steps|
  {
    if steps == [] then s else Run(Next(s, steps[0]), steps[1..])
  }

  lemma {:induction false} RunKeepsInv(s: State, steps: seq<Step>)
    requires Inv(s)
    ensures Inv(Run(s, steps))
    decreases |steps|
  {
    if steps != [] {
      NextKeepsInv(s, steps[0]);
      RunKeepsInv(Next(s, steps[0]), steps[1..]);
    }
  }

  // ----- what callers pass to `write` and what the driver hears -----

  /** The samples a step passes to `write`: an incomplete last frame is ignored. */
  ghost function Passed(s: State, step: Step): seq<real>
    requires Indices(s)
  {
    if step.BeginWrite? && s.frames == 0
    then
      WholeFrames(|step.buffer|, s.channels);
      step.buffer[..(|step.buffer| / s.channels) * s.channels]
    else []
  }

  /** The samples of a callback that is no underrun. */
  ghost function Heard(s: State, step: Step): seq<real>
    requires Indices(s)
  {
    if step.Callback? && step.frames <= s.available then Fetched(s, step.frames) else []
  }

  ghost function AllPassed(s: State, steps: seq<Step>): seq<real>
    requires Indices(s)
    decreases |steps|
  {
    if steps == [] then [] else Passed(s, steps[0]) + AllPassed(Next(s, steps[0]), steps[1..])
  }

  ghost function AllHeard(s: State, steps: seq<Step>): seq<real>
    requires Indices(s)
    decreases |steps|
  {
    if steps == [] then [] else Heard(s, steps[0]) + AllHeard(Next(s, steps[0]), steps[1..])
  }

  lemma {:induction false} StepIsAccounted(s: State, step: Step)
    requires Indices(s)
    ensures Next(s, step).written == s.written + Passed(s, step)
    ensures Next(s, step).played == s.played + Heard(s, step)
  {
    hide Put, Fetched;
  }

  /** Over every run, what is written is what callers passed to `write`, and what is played is what the driver got. */
  lemma {:induction false} RunIsAccounted(s: State, steps: seq<Step>)
    requires Indices(s)
    ensures Run(s, steps).written == s.written + AllPassed(s, steps)
    ensures Run(s, steps).played == s.played + AllHeard(s, steps)
    decreases |steps|
  {
    hide Next, Passed, Heard, Indices;
    if steps != [] {
      var s', rest := Next(s, steps[0]), steps[1..];
      StepIsAccounted(s, steps[0]);
      RunIsAccounted(s', rest);
      assert s.written + Passed(s, steps[0]) + AllPassed(s', rest)
          == s.written + (Passed(s, steps[0]) + AllPassed(s', rest));
      assert s.played + Heard(s, steps[0]) + AllHeard(s', rest)
          == s.played + (Heard(s, steps[0]) + AllHeard(s', rest));
    }
  }

  lemma {:induction false} InitialInv(capacity: nat, channels: nat, data: seq<real>)
    requires capacity > 0 && channels > 0 && |data| == Samples(capacity, channels)
    ensures Inv(Initial(capacity, channels, data))
  {
    SamplesOrder(0, 0, channels);
  }

  /** Over every run, for every channel count: what the driver heard is a prefix of what callers passed to `write`, the
      rest is stored or still pending, and the indices agree. */
  lemma {:induction false} PlaysWhatWasWritten(capacity: nat, channels: nat, data: seq<real>, steps: seq<Step>)
    requires capacity > 0 && channels > 0 && |data| == Samples(capacity, channels)
    ensures Inv(Initial(capacity, channels, data))
    ensures var s := Run(Initial(capacity, channels, data), steps);
            var passed := AllPassed(Initial(capacity, channels, data), steps);
            && passed == AllHeard(Initial(capacity, channels, data), steps) + Contents(s) + s.pending
            && passed == s.written && s.played <= s.written
            && s.available <= s.capacity && s.writeIndex == (s.readIndex + s.available) % s.capacity
  {
    InitialInv(capacity, channels, data);
    RunKeepsInv(Initial(capacity, channels, data), steps);
    RunIsAccounted(Initial(capacity, channels, data), steps);
    var s := Run(Initial(capacity, channels, data), steps);
    assert s.written[..|s.played|] == s.played;
    NothingBefore(AllPassed(Initial(capacity, channels, data), steps));
    NothingBefore(AllHeard(Initial(capacity, channels, data), steps));
  }

  lemma {:induction false} NothingBefore(s: seq<real>)
    ensures [] + s == s
  {
  }

  /** An underrun plays silence and consumes nothing. */
  lemma {:induction false} UnderrunIsSilent(s: State, frames: nat)
    requires Inv(s) && s.available < frames
    ensures Next(s, Callback(frames)) == s
    ensures |Fetched(s, frames)| == Samples(frames, s.channels)
    ensures forall i :: 0 <= i < |Fetched(s, frames)| ==> Fetched(s, frames)[i] == 0.0
  {
  }

  /** A write that waits on a full ring is released by a callback exactly if the callback asks for at least one frame
      and no more than the ring holds. */
  lemma {:induction false} BlockedWriteIsReleased(s: State, frames: nat)
    requires Inv(s) && s.frames > 0 && !Enabled(s, StoreChunk)
    ensures Enabled(Next(s, Callback(frames)), StoreChunk) <==> 0 < frames <= s.capacity
  {
  }

  // ----- the backend object -----

  class RtAudioOutputBackend {
    const capacity: nat
    const channels: nat
    const ring: array<real>
    var writeIndex: nat
    var readIndex: nat
    var available: nat
    var frames: nat
    var pending: seq<real>
    ghost var written: seq<real>
    ghost var played: seq<real>

    ghost function View(): State
      reads this, ring
    {
      State(capacity, channels, ring[..], writeIndex, readIndex, available, frames, pending, written, played)
    }

    ghost predicate Valid()
      reads this, ring
    {
      Inv(View())
    }

    constructor (capacity: nat, channels: nat)
      requires capacity > 0 && channels > 0
      ensures Valid() && View() == Initial(capacity, channels, ring[..])
    {
      SamplesNat(capacity, channels);
      this.capacity, this.channels := capacity, channels;
      ring := new real[capacity * channels](_ => 0.0);
      writeIndex, readIndex, available, frames, pending, written, played := 0, 0, 0, 0, [], [], [];
      new;
      InitialInv(capacity, channels, ring[..]);
    }

    /** `write` is entered: an incomplete last frame is not written. */
    method BeginWrite(buffer: seq<real>)
      requires Valid() && frames == 0
      modifies `frames, `pending, `written
      ensures Valid() && View() == WriteBegun(old(View()), buffer)
      ensures frames == |buffer| / channels && |pending| == frames * channels && pending <= buffer
      ensures written == old(written) + pending
    {
      BeginKeepsInv(View(), buffer);
      WholeFrames(|buffer|, channels);
      frames := |buffer| / channels;
      pending := buffer[..frames * channels];
      written := written + pending;
    }

    /** One turn of the write loop, under the mutex, once there is space. */
    method StoreChunk()
      requires Valid() && frames > 0 && available < capacity
      modifies `writeIndex, `available, `frames, `pending, ring
      ensures Valid() && View() == ChunkStored(old(View()))
    {
      hide Contents, Samples, Put;
      ghost var before := View();
      StoreKeepsInv(before);
      ChunkFits(before);
      var spaceUntilWrap, spaceAvailable := capacity - writeIndex, capacity - available;
      var chunk := Min(frames, spaceAvailable);
      var firstPart := Min(chunk, spaceUntilWrap);
      FirstPartInSamples(chunk, writeIndex, capacity, channels);
      CopyChunk(Samples(writeIndex, channels), pending[..Samples(chunk, channels)], Samples(firstPart, channels));
      writeIndex := (writeIndex + chunk) % capacity;
      available := available + chunk;
      frames := frames - chunk;
      pending := pending[Samples(chunk, channels)..];
    }

    /** The two block copies of a chunk. */
    method CopyChunk(at: nat, chunk: seq<real>, first: nat)
      requires at < ring.Length && |chunk| <= ring.Length && first == Min(|chunk|, ring.Length - at)
      modifies ring
      ensures ring[..] == Put(old(ring[..]), at, chunk)
    {
      forall i | 0 <= i < first {
        ring[at + i] := chunk[i];
      }
      if |chunk| > first {
        forall i | 0 <= i < |chunk| - first {
          ring[i] := chunk[first + i];
        }
      }
      PutByIndex(old(ring[..]), at, chunk, ring[..]);
    }

    /** The driver asks for `nFrames` frames: the oldest ones, or silence if there are fewer. */
    method AudioCallback(out: array<real>, nFrames: nat)
      requires Valid() && out != ring && out.Length == SampleCount(nFrames, channels)
      modifies `readIndex, `available, `played, out
      ensures Valid() && View() == Next(old(View()), Callback(nFrames))
      ensures out[..] == old(Fetched(View(), nFrames))
    {
      hide Contents, Samples;
      ghost var before := View();
      if available < nFrames {
        forall i | 0 <= i < out.Length {
          out[i] := 0.0;
        }
        assert out[..] == Fetched(before, nFrames);
        return;
      }
      FetchKeepsInv(before, nFrames);
      FetchInSamples(before, nFrames);
      var firstPart := Min(nFrames, capacity - readIndex);
      FirstPartInSamples(nFrames, readIndex, capacity, channels);
      CopyOut(out, Samples(readIndex, channels), Samples(firstPart, channels));
      readIndex := (readIndex + nFrames) % capacity;
      available := available - nFrames;
      played := played + out[..];
    }

    method CopyOut(out: array<real>, at: nat, first: nat)
      requires out != ring && at < ring.Length && out.Length <= ring.Length
      requires first == Min(out.Length, ring.Length - at)
      modifies out
      ensures out[..] == Window(ring[..], at, out.Length)
    {
      for i := 0 to first
        invariant forall j :: 0 <= j < i ==> out[j] == ring[at + j]
      {
        out[i] := ring[at + i];
      }
      if out.Length > first {
        for i := 0 to out.Length - first
          invariant forall j :: 0 <= j < first ==> out[j] == ring[at + j]
          invariant forall j :: 0 <= j < i ==> out[first + j] == ring[j]
        {
          out[first + i] := ring[i];
        }
      }
      WindowByIndex(ring[..], at, out[..], first);
    }
  }

  /** The part before the wrap, counted in frames, is the part before the wrap, counted in samples. */
  lemma {:induction false} FirstPartInSamples(chunk: nat, index: nat, capacity: nat, channels: nat)
    requires channels > 0 && index < capacity
    ensures 0 <= Samples(chunk, channels) && 0 <= Samples(index, channels) < Samples(capacity, channels)
    ensures Samples(Min(chunk, capacity - index), channels)
         == Min(Samples(chunk, channels), Samples(capacity, channels) - Samples(index, channels))
    ensures chunk > Min(chunk, capacity - index) <==>
            Samples(chunk, channels) > Samples(Min(chunk, capacity - index), channels)
  {
    SamplesNat(chunk, channels);
    SamplesOrder(0, index, channels);
    SamplesNat(index, channels);
    SamplesOrder(index, capacity, channels);
    SamplesAdd(capacity, index, channels);
    SamplesOrder(chunk, capacity - index, channels);
    SamplesOrder(capacity - index, chunk, channels);
  }

  lemma {:induction false} FetchInSamples(s: State, frames: nat)
    requires Indices(s) && frames <= s.available
    ensures 0 <= Samples(s.readIndex, s.channels) < |s.data| && 0 <= Samples(frames, s.channels) <= |s.data|
    ensures Fetched(s, frames) == Window(s.data, Samples(s.readIndex, s.channels), Samples(frames, s.channels))
  {
    SamplesOrder(s.readIndex, s.capacity, s.channels);
    SamplesOrder(s.capacity, frames, s.channels);
    SamplesNat(s.readIndex, s.channels);
    SamplesNat(frames, s.channels);
  }

  lemma {:induction false} PutByIndex(data: seq<real>, at: nat, chunk: seq<real>, r: seq<real>)
    requires at < |data| == |r| && |chunk| <= |data|
    requires forall p :: 0 <= p < |data| ==> r[p] == PutAt(data, at, chunk, p)
    ensures r == Put(data, at, chunk)
  {
    hide Put;
  }

  lemma {:induction false} WindowByIndex(data: seq<real>, from: nat, w: seq<real>, first: nat)
    requires from < |data| && |w| <= |data| && first == Min(|w|, |data| - from)
    requires forall j :: 0 <= j < first ==> w[j] == data[from + j]
    requires forall j :: 0 <= j < |w| - first ==> w[first + j] == data[j]
    ensures w == Window(data, from, |w|)
  {
    hide Window;
    forall i | 0 <= i < |w|
      ensures w[i] == Window(data, from, |w|)[i]
    {
      assert Window(data, from, |w|)[i] == data[Wrap(from + i, |data|)];
      if i >= first {
        assert w[first + (i - first)] == data[i - first];
      }
    }
  }
}
