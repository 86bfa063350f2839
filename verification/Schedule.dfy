/**
 What a buffer emits, and what a run of buffers amounts to: at constant tempo the note-on schedule is the closed
 form "point p of cycle c strikes at sample floor((c + p - phase) / increment)", however the samples are cut.
 */
module Schedule {
  import opened Sequences
  import opened Numbers
  import opened Events
  import opened Timeline
  import opened Playhead

  /** The part of a cycle that `size` samples cover. */
  function Span(inc: real, size: nat): real {
    inc * size as real
  }

  datatype Track = Track(noteNumber: int, velocity: int, activePoints: seq<bool>, name: string)

  predicate Fires(track: Track, i: nat) {
    i < |track.activePoints| && track.activePoints[i]
  }

  ghost predicate InCycles(timeline: seq<Point>) {
    forall i :: 0 <= i < |timeline| ==> InCycle(timeline[i].phase)
  }

  /** Sample offset of a triggered point. The clamp to the last sample never applies. */
  function SampleOffset(p: real, phase: real, inc: real, size: nat): (offset: nat)
    requires phase < 1.0 && InCycle(p) && Hit(p, phase, Span(inc, size))
    ensures inc > 0.0 && offset < size && offset == (Ahead(p, phase) / inc).Floor
  {
    HitIsAhead(p, phase, Span(inc, size));
    QuotientBelow(Ahead(p, phase), inc, size);
    Clamp((Ahead(p, phase) / inc).Floor, size)
  }

  function Clamp(offset: int, size: int): int {
    if offset >= size then size - 1 else offset
  }

  lemma {:induction false} QuotientBelow(x: real, inc: real, size: nat)
    requires 0.0 <= x < Span(inc, size)
    ensures inc > 0.0 && 0 <= (x / inc).Floor < size
  {
    PositiveFactor(inc, size as real);
    var q := x / inc;
    assert q * inc == x;
    ScaledRealOrder(0.0, q, inc);
    ScaledRealOrder(size as real, q, inc);
  }

  lemma {:induction false} PositiveFactor(x: real, y: real)
    requires x * y > 0.0 && y >= 0.0
    ensures x > 0.0
  {
  }

  /** One hit of point `i`: a note-on and a note-off for every track that has the point active. */
  function PointEvents(tracks: seq<Track>, i: nat, offset: nat, size: nat): seq<Event> {
    if tracks == [] then []
    else
      var last := tracks[|tracks| - 1];
      PointEvents(tracks[..|tracks| - 1], i, offset, size)
      + if Fires(last, i) then HitEvents(last, offset, size) else []
  }

  function HitEvents(track: Track, offset: nat, size: nat): seq<Event> {
    [Event(NoteOn, offset, Byte(track.noteNumber), Byte(track.velocity)),
     Event(NoteOff, offset + size / 4, Byte(track.noteNumber), 0)]
  }

  function BufferEvents(timeline: seq<Point>, tracks: seq<Track>, phase: real, inc: real, size: nat): seq<Event>
    requires InCycles(timeline) && phase < 1.0
    decreases |timeline|
  {
    if timeline == [] then []
    else
      var i := |timeline| - 1;
      var p := timeline[i].phase;
      BufferEvents(timeline[..i], tracks, phase, inc, size)
      + if Hit(p, phase, Span(inc, size))
        then PointEvents(tracks, i, SampleOffset(p, phase, inc, size), size) else []
  }

  // ----- note-on schedules -----

  datatype Strike = Strike(sample: int, note: nat, velocity: nat)

  /** The note-ons of a buffer that starts at sample `start` of the run. */
  function Strikes(events: seq<Event>, start: int): multiset<Strike> {
    if events == [] then multiset{}
    else
      var e := events[|events| - 1];
      Strikes(events[..|events| - 1], start)
      + if e.kind == NoteOn then multiset{Strike(start + e.offset, e.note, e.velocity)} else multiset{}
  }

  lemma {:induction false} StrikesConcat(a: seq<Event>, b: seq<Event>, start: int)
    ensures Strikes(a + b, start) == Strikes(a, start) + Strikes(b, start)
  {
    if b == [] {
      assert a + b == a;
    } else {
      assert (a + b)[..|a + b| - 1] == a + b[..|b| - 1];
      StrikesConcat(a, b[..|b| - 1], start);
    }
  }

  function TrackStrike(track: Track, sample: int): Strike {
    Strike(sample, Byte(track.noteNumber), Byte(track.velocity))
  }

  function TrackStrikes(tracks: seq<Track>, i: nat, sample: int): multiset<Strike> {
    if tracks == [] then multiset{}
    else
      var last := tracks[|tracks| - 1];
      TrackStrikes(tracks[..|tracks| - 1], i, sample)
      + if Fires(last, i) then multiset{TrackStrike(last, sample)} else multiset{}
  }

  lemma {:induction false} HitStrikes(track: Track, offset: nat, size: nat, start: int)
    ensures Strikes(HitEvents(track, offset, size), start)
         == multiset{TrackStrike(track, start + offset)}
  {
    var pair := HitEvents(track, offset, size);
    assert pair[..1] == [pair[0]] && pair[..1][..0] == [];
    assert Strikes(pair[..1], start) == multiset{TrackStrike(track, start + offset)};
  }

  lemma {:induction false} PointEventsStrike(tracks: seq<Track>, i: nat, offset: nat, size: nat, start: int)
    ensures Strikes(PointEvents(tracks, i, offset, size), start) == TrackStrikes(tracks, i, start + offset)
  {
    if tracks != [] {
      var last := tracks[|tracks| - 1];
      PointEventsStrike(tracks[..|tracks| - 1], i, offset, size, start);
      StrikesConcat(PointEvents(tracks[..|tracks| - 1], i, offset, size),
                    if Fires(last, i) then HitEvents(last, offset, size) else [], start);
      HitStrikes(last, offset, size, start);
    }
  }

  // ----- the closed form -----

  /** The sample at which the unwrapped playhead reaches a position. */
  type Clock = real -> int

  /** Unwrapped position of phase `p` in cycle `c`. */
  function Position(p: real, c: int): real {
    c as real + p
  }

  /** At one tempo, from `origin` on. */
  function Steady(origin: real, inc: real): Clock
    requires inc > 0.0
  {
    position => ((position - origin) / inc).Floor
  }

  /** At one tempo, from sample `s` at position `u` on. */
  function FromSample(s: int, u: real, inc: real): Clock {
    position => if inc > 0.0 then s + ((position - u) / inc).Floor else s
  }

  /** The strikes of point `i` in the cycles [first, last). */
  function CycleStrikes(tracks: seq<Track>, i: nat, p: real, clock: Clock, first: int, last: int): multiset<Strike>
    decreases last - first
  {
    if first >= last then multiset{}
    else CycleStrikes(tracks, i, p, clock, first, last - 1)
         + TrackStrikes(tracks, i, clock(Position(p, last - 1)))
  }

  lemma {:induction false} CycleStrikesSplit(tracks: seq<Track>, i: nat, p: real, clock: Clock, first: int, mid: int,
                                             last: int)
    requires first <= mid <= last
    ensures CycleStrikes(tracks, i, p, clock, first, last)
         == CycleStrikes(tracks, i, p, clock, first, mid) + CycleStrikes(tracks, i, p, clock, mid, last)
    decreases last - mid
  {
    if mid < last {
      CycleStrikesSplit(tracks, i, p, clock, first, mid, last - 1);
    }
  }

  function FirstCycleFrom(p: real, position: real): int {
    Ceiling(position - p)
  }

  /** The closed form: every pass of every point while the unwrapped playhead moves from position `u` to `v`. */
  function ClosedForm(timeline: seq<Point>, tracks: seq<Track>, clock: Clock, u: real, v: real): multiset<Strike>
    decreases |timeline|
  {
    if timeline == [] then multiset{}
    else
      var i := |timeline| - 1;
      var p := timeline[i].phase;
      ClosedForm(timeline[..i], tracks, clock, u, v)
      + CycleStrikes(tracks, i, p, clock, FirstCycleFrom(p, u), FirstCycleFrom(p, v))
  }

  lemma {:induction false} FirstCycleMonotone(p: real, u: real, v: real)
    requires u <= v
    ensures FirstCycleFrom(p, u) <= FirstCycleFrom(p, v)
  {
    CeilingBounds(v - p, FirstCycleFrom(p, v));
    CeilingBounds(u - p, FirstCycleFrom(p, v));
  }

  lemma {:induction false} CyclesBetween(p: real, u: real, v: real, c: int)
    ensures u <= Position(p, c) < v <==> FirstCycleFrom(p, u) <= c < FirstCycleFrom(p, v)
  {
    CeilingBounds(u - p, c);
    CeilingBounds(v - p, c);
  }

  lemma {:induction false} ClosedFormSplit(timeline: seq<Point>, tracks: seq<Track>, clock: Clock, u: real, mid: real,
                                           v: real)
    requires u <= mid <= v
    ensures ClosedForm(timeline, tracks, clock, u, v)
         == ClosedForm(timeline, tracks, clock, u, mid) + ClosedForm(timeline, tracks, clock, mid, v)
    decreases |timeline|
  {
    if timeline != [] {
      var i := |timeline| - 1;
      var p := timeline[i].phase;
      ClosedFormSplit(timeline[..i], tracks, clock, u, mid, v);
      FirstCycleMonotone(p, u, mid);
      FirstCycleMonotone(p, mid, v);
      CycleStrikesSplit(tracks, i, p, clock, FirstCycleFrom(p, u), FirstCycleFrom(p, mid), FirstCycleFrom(p, v));
    }
  }

  lemma {:induction false} ClosedFormEmpty(timeline: seq<Point>, tracks: seq<Track>, clock: Clock, u: real)
    ensures ClosedForm(timeline, tracks, clock, u, u) == multiset{}
    decreases |timeline|
  {
    if timeline != [] {
      ClosedFormEmpty(timeline[..|timeline| - 1], tracks, clock, u);
    }
  }

  ghost predicate Agree(clock: Clock, clock': Clock, u: real, v: real) {
    forall position :: u <= position < v ==> clock(position) == clock'(position)
  }

  lemma {:induction false} CycleStrikesAgree(tracks: seq<Track>, i: nat, p: real, clock: Clock, clock': Clock, u: real,
                                             v: real, first: int, last: int)
    requires Agree(clock, clock', u, v) && forall c :: first <= c < last ==> u <= Position(p, c) < v
    ensures CycleStrikes(tracks, i, p, clock, first, last) == CycleStrikes(tracks, i, p, clock', first, last)
    decreases last - first
  {
    if first < last {
      CycleStrikesAgree(tracks, i, p, clock, clock', u, v, first, last - 1);
    }
  }

  /** Only the clock's values between the two positions matter. */
  lemma {:induction false} ClosedFormAgrees(timeline: seq<Point>, tracks: seq<Track>, clock: Clock, clock': Clock,
                                            u: real, v: real)
    requires Agree(clock, clock', u, v)
    ensures ClosedForm(timeline, tracks, clock, u, v) == ClosedForm(timeline, tracks, clock', u, v)
    decreases |timeline|
  {
    hide Agree, CycleStrikes, FirstCycleFrom;
    if timeline != [] {
      var i := |timeline| - 1;
      var p := timeline[i].phase;
      ClosedFormAgrees(timeline[..i], tracks, clock, clock', u, v);
      var first, last := FirstCycleFrom(p, u), FirstCycleFrom(p, v);
      forall c: int
        ensures u <= Position(p, c) < v <==> first <= c < last
      {
        CyclesBetween(p, u, v, c);
      }
      CycleStrikesAgree(tracks, i, p, clock, clock', u, v, first, last);
    }
  }

  // ----- one buffer -----

  /** Unwrapped position `u` is the phase plus `k` whole cycles. */
  ghost predicate InStep(phase: real, u: real, k: int) {
    InCycle(phase) && u == phase + k as real
  }

  lemma {:induction false} StrikeSampleOfHit(p: real, phase: real, inc: real, size: nat, s: int, u: real, k: int)
    requires InStep(phase, u, k) && InCycle(p) && 0.0 <= Span(inc, size) <= 1.0 && Hit(p, phase, Span(inc, size))
    ensures FromSample(s, u, inc)(Position(p, k + HitCycle(p, phase))) == s + SampleOffset(p, phase, inc, size)
  {
    HitBySpan(p, phase, Span(inc, size));
    assert Position(p, k + HitCycle(p, phase)) - u == Ahead(p, phase);
  }

  function PointStrikes(tracks: seq<Track>, i: nat, p: real, phase: real, inc: real, size: nat, s: int)
    : multiset<Strike>
    requires phase < 1.0 && InCycle(p)
  {
    if Hit(p, phase, Span(inc, size))
    then TrackStrikes(tracks, i, s + SampleOffset(p, phase, inc, size)) else multiset{}
  }

  /** One point in one buffer: zero or one strike, at the sample of the closed form. */
  lemma {:induction false} PointInBuffer(tracks: seq<Track>, i: nat, p: real, phase: real, inc: real, size: nat,
                                         s: int, u: real, k: int)
    requires InStep(phase, u, k) && InCycle(p) && 0.0 <= Span(inc, size) <= 1.0
    ensures CycleStrikes(tracks, i, p, FromSample(s, u, inc), FirstCycleFrom(p, u),
                         FirstCycleFrom(p, u + Span(inc, size)))
         == PointStrikes(tracks, i, p, phase, inc, size, s)
  {
    hide FromSample;
    var span := Span(inc, size);
    HitIsPass(p, phase, span);
    FirstCycle(p, phase);
    CeilingShift(phase - p, k);
    CeilingShift(phase + span - p, k);
    assert u - p == (phase - p) + k as real;
    assert u + span - p == (phase + span - p) + k as real;
    if Hit(p, phase, span) {
      StrikeSampleOfHit(p, phase, inc, size, s, u, k);
    }
  }

  lemma {:induction false} BufferIsClosedForm(timeline: seq<Point>, tracks: seq<Track>, phase: real, inc: real,
                                              size: nat, s: int, u: real, k: int)
    requires InCycles(timeline) && 0.0 <= Span(inc, size) <= 1.0 && InStep(phase, u, k)
    ensures Strikes(BufferEvents(timeline, tracks, phase, inc, size), s)
         == ClosedForm(timeline, tracks, FromSample(s, u, inc), u, u + Span(inc, size))
    decreases |timeline|
  {
    hide FromSample, CycleStrikes, PointStrikes, FirstCycleFrom;
    if timeline != [] {
      var i := |timeline| - 1;
      BufferIsClosedForm(timeline[..i], tracks, phase, inc, size, s, u, k);
      LastPointStrikes(timeline, tracks, phase, inc, size, s);
      PointInBuffer(tracks, i, timeline[i].phase, phase, inc, size, s, u, k);
    }
  }

  lemma {:induction false} LastPointStrikes(timeline: seq<Point>, tracks: seq<Track>, phase: real, inc: real,
                                            size: nat, s: int)
    requires InCycles(timeline) && phase < 1.0 && timeline != []
    ensures var i := |timeline| - 1;
            Strikes(BufferEvents(timeline, tracks, phase, inc, size), s)
            == Strikes(BufferEvents(timeline[..i], tracks, phase, inc, size), s)
               + PointStrikes(tracks, i, timeline[i].phase, phase, inc, size, s)
  {
    var i, p := |timeline| - 1, timeline[|timeline| - 1].phase;
    var before := BufferEvents(timeline[..i], tracks, phase, inc, size);
    if Hit(p, phase, Span(inc, size)) {
      var offset := SampleOffset(p, phase, inc, size);
      PointEventsStrike(tracks, i, offset, size, s);
      StrikesConcat(before, PointEvents(tracks, i, offset, size), s);
    } else {
      assert before + [] == before;
    }
  }

  // ----- runs, each buffer at its own tempo -----

  /** One buffer of a run, and the phase increment at its tempo. */
  datatype Stretch = Stretch(inc: real, size: nat) {
    function Cycles(): real {
      Span(inc, size)
    }
  }

  /** No buffer spans more than one cycle. */
  ghost predicate Short(run: seq<Stretch>) {
    forall i :: 0 <= i < |run| ==> 0.0 <= run[i].Cycles() <= 1.0
  }

  /** The note-ons of a run of buffers, the first of which starts at sample `s`. */
  function RunStrikes(timeline: seq<Point>, tracks: seq<Track>, phase: real, run: seq<Stretch>, s: int)
    : multiset<Strike>
    requires InCycles(timeline) && phase < 1.0
    decreases |run|
  {
    if run == [] then multiset{}
    else Strikes(BufferEvents(timeline, tracks, phase, run[0].inc, run[0].size), s)
         + RunStrikes(timeline, tracks, NextPhase(phase, run[0].Cycles()), run[1..], s + run[0].size)
  }

  /** Where a run that starts at position `u` ends. */
  function EndOf(run: seq<Stretch>, u: real): real
    decreases |run|
  {
    if run == [] then u else EndOf(run[1..], u + run[0].Cycles())
  }

  /** The sample at which the run reaches a position: each buffer goes at its own tempo. */
  function ReachedAt(run: seq<Stretch>, s: int, u: real, position: real): int
    decreases |run|
  {
    if run == [] then s
    else
      var mid := u + run[0].Cycles();
      if position < mid then FromSample(s, u, run[0].inc)(position)
      else ReachedAt(run[1..], s + run[0].size, mid, position)
  }

  function RunClock(run: seq<Stretch>, s: int, u: real): Clock {
    position => ReachedAt(run, s, u, position)
  }

  lemma {:induction false} EndIsLater(run: seq<Stretch>, u: real)
    requires Short(run)
    ensures EndOf(run, u) >= u
    decreases |run|
  {
    if run != [] {
      EndIsLater(run[1..], u + run[0].Cycles());
    }
  }

  lemma {:induction false} StaysInStep(phase: real, u: real, k: int, span: real) returns (k': int)
    requires InStep(phase, u, k) && span >= 0.0
    ensures InStep(NextPhase(phase, span), u + span, k')
  {
    var d := NextPhaseIsFraction(phase, span);
    k' := k + d;
  }

  lemma {:induction false} ClockOfFirst(run: seq<Stretch>, s: int, u: real)
    requires run != []
    ensures var mid := u + run[0].Cycles();
            && Agree(FromSample(s, u, run[0].inc), RunClock(run, s, u), u, mid)
            && Agree(RunClock(run[1..], s + run[0].size, mid), RunClock(run, s, u), mid, EndOf(run, u))
  {
  }

  /** Over every run with tempo changes between buffers of at most one cycle each, the note-ons are the closed form:
      every pass strikes once, at the sample at which the run reaches it. */
  lemma {:induction false} RunIsClosedForm(timeline: seq<Point>, tracks: seq<Track>, phase: real, run: seq<Stretch>,
                                           s: int, u: real, k: int)
    requires InCycles(timeline) && Short(run) && InStep(phase, u, k)
    ensures RunStrikes(timeline, tracks, phase, run, s)
         == ClosedForm(timeline, tracks, RunClock(run, s, u), u, EndOf(run, u))
    decreases |run|
  {
    hide BufferEvents, Strikes, ClosedForm, NextPhase, FromSample, RunClock, Agree, InStep;
    if run == [] {
      ClosedFormEmpty(timeline, tracks, RunClock(run, s, u), u);
    } else {
      var mid, end := u + run[0].Cycles(), EndOf(run, u);
      var k' := StaysInStep(phase, u, k, run[0].Cycles());
      EndIsLater(run[1..], mid);
      RunIsClosedForm(timeline, tracks, NextPhase(phase, run[0].Cycles()), run[1..], s + run[0].size, mid, k');
      BufferIsClosedForm(timeline, tracks, phase, run[0].inc, run[0].size, s, u, k);
      ClockOfFirst(run, s, u);
      ClosedFormAgrees(timeline, tracks, FromSample(s, u, run[0].inc), RunClock(run, s, u), u, mid);
      ClosedFormAgrees(timeline, tracks, RunClock(run[1..], s + run[0].size, mid), RunClock(run, s, u), mid, end);
      ClosedFormSplit(timeline, tracks, RunClock(run, s, u), u, mid, end);
    }
  }

  // ----- runs at constant tempo -----

  function Total(cuts: seq<nat>): nat {
    if cuts == [] then 0 else cuts[0] + Total(cuts[1..])
  }

  function Cut(cuts: seq<nat>, inc: real): seq<Stretch> {
    seq(|cuts|, i requires 0 <= i < |cuts| => Stretch(inc, cuts[i]))
  }

  lemma {:induction false} SpanOfTotal(inc: real, size: nat, rest: nat)
    ensures Span(inc, size + rest) == Span(inc, size) + Span(inc, rest)
  {
  }

  lemma {:induction false} SteadySample(origin: real, inc: real, s: int, u: real, position: real)
    requires inc > 0.0 && u == origin + inc * s as real
    ensures FromSample(s, u, inc)(position) == Steady(origin, inc)(position)
  {
    var x := (position - u) / inc;
    assert (position - origin) / inc == x + s as real by {
      assert position - origin == position - u + inc * s as real;
    }
    FloorShift(x, s);
  }

  /** At constant tempo the clock of a run is linear, however the run is cut. */
  lemma {:induction false} CutClock(cuts: seq<nat>, inc: real, origin: real, s: int, u: real, position: real)
    requires inc > 0.0 && u == origin + inc * s as real && position < EndOf(Cut(cuts, inc), u)
    ensures cuts != [] ==> ReachedAt(Cut(cuts, inc), s, u, position) == Steady(origin, inc)(position)
    decreases |cuts|
  {
    if cuts != [] {
      var mid := u + Span(inc, cuts[0]);
      assert Cut(cuts, inc)[1..] == Cut(cuts[1..], inc);
      if position < mid {
        SteadySample(origin, inc, s, u, position);
      } else {
        NextOrigin(inc, origin, s, u, cuts[0]);
        CutClock(cuts[1..], inc, origin, s + cuts[0], mid, position);
      }
    }
  }

  lemma {:induction false} NextOrigin(inc: real, origin: real, s: int, u: real, size: nat)
    requires u == origin + inc * s as real
    ensures u + Span(inc, size) == origin + inc * (s + size) as real
  {
  }

  lemma {:induction false} CutEnd(cuts: seq<nat>, inc: real, u: real)
    ensures EndOf(Cut(cuts, inc), u) == u + Span(inc, Total(cuts))
    decreases |cuts|
  {
    if cuts != [] {
      assert Cut(cuts, inc)[1..] == Cut(cuts[1..], inc);
      CutEnd(cuts[1..], inc, u + Span(inc, cuts[0]));
      SpanOfTotal(inc, cuts[0], Total(cuts[1..]));
    }
  }

  /** At constant tempo point p of cycle c strikes at sample floor((c + p - origin) / inc). */
  lemma {:induction false} SteadyRunIsClosedForm(timeline: seq<Point>, tracks: seq<Track>, phase: real, origin: real,
                                                 inc: real, cuts: seq<nat>, s: int, u: real, k: int)
    requires InCycles(timeline) && inc > 0.0 && Short(Cut(cuts, inc)) && InStep(phase, u, k)
    requires u == origin + inc * s as real
    ensures RunStrikes(timeline, tracks, phase, Cut(cuts, inc), s)
         == ClosedForm(timeline, tracks, Steady(origin, inc), u, u + Span(inc, Total(cuts)))
  {
    hide RunStrikes, ClosedForm, Short, Steady, InStep;
    var run := Cut(cuts, inc);
    RunIsClosedForm(timeline, tracks, phase, run, s, u, k);
    CutEnd(cuts, inc, u);
    forall position | u <= position < EndOf(run, u)
      ensures RunClock(run, s, u)(position) == Steady(origin, inc)(position)
    {
      CutClock(cuts, inc, origin, s, u, position);
    }
    ClosedFormAgrees(timeline, tracks, RunClock(run, s, u), Steady(origin, inc), u, EndOf(run, u));
  }

  /** Buffered scheduling refines per-sample scheduling: two cuts of the same samples strike the same notes at the
      same samples. The cut into single samples is one of them. */
  lemma {:induction false} CutIndependence(timeline: seq<Point>, tracks: seq<Track>, phase: real, inc: real,
                                           cuts: seq<nat>, cuts': seq<nat>)
    requires InCycles(timeline) && InCycle(phase) && inc > 0.0
    requires Short(Cut(cuts, inc)) && Short(Cut(cuts', inc)) && Total(cuts) == Total(cuts')
    ensures RunStrikes(timeline, tracks, phase, Cut(cuts, inc), 0)
         == RunStrikes(timeline, tracks, phase, Cut(cuts', inc), 0)
  {
    hide RunStrikes, ClosedForm, Short;
    SteadyRunIsClosedForm(timeline, tracks, phase, phase, inc, cuts, 0, phase, 0);
    SteadyRunIsClosedForm(timeline, tracks, phase, phase, inc, cuts', 0, phase, 0);
  }

  // ----- what the closed form means -----

  /** A reason for a strike: a track that has a point active, and a cycle in which the playhead passes the point. */
  datatype Cause = Cause(point: nat, cycle: int, track: nat)

  ghost predicate Causes(timeline: seq<Point>, tracks: seq<Track>, clock: Clock, u: real, v: real,
                         x: Strike, q: Cause)
  {
    && q.point < |timeline| && q.track < |tracks|
    && var position, track := q.cycle as real + timeline[q.point].phase, tracks[q.track];
    && q.point < |track.activePoints| && track.activePoints[q.point]
    && u <= position < v && x == Strike(clock(position), track.noteNumber % 256, track.velocity % 256)
  }

  ghost function TrackCauses(tracks: seq<Track>, i: nat, c: int, sample: int, x: Strike): set<Cause> {
    if tracks == [] then {}
    else
      var t := |tracks| - 1;
      TrackCauses(tracks[..t], i, c, sample, x)
      + if Fires(tracks[t], i) && x == TrackStrike(tracks[t], sample) then {Cause(i, c, t)} else {}
  }

  lemma {:induction false} TrackCausesMembers(tracks: seq<Track>, i: nat, c: int, sample: int, x: Strike, q: Cause)
    ensures q in TrackCauses(tracks, i, c, sample, x) <==>
              q.point == i && q.cycle == c && q.track < |tracks| && Fires(tracks[q.track], i)
              && x == TrackStrike(tracks[q.track], sample)
  {
    hide TrackStrike, Fires;
    if tracks != [] {
      TrackCausesMembers(tracks[..|tracks| - 1], i, c, sample, x, q);
    }
  }

  lemma {:induction false} TrackCausesCount(tracks: seq<Track>, i: nat, c: int, sample: int, x: Strike)
    ensures TrackStrikes(tracks, i, sample)[x] == |TrackCauses(tracks, i, c, sample, x)|
  {
    hide TrackStrike, Fires;
    if tracks != [] {
      TrackCausesCount(tracks[..|tracks| - 1], i, c, sample, x);
      TrackCausesMembers(tracks[..|tracks| - 1], i, c, sample, x, Cause(i, c, |tracks| - 1));
    }
  }

  ghost function CycleCauses(tracks: seq<Track>, i: nat, p: real, clock: Clock, first: int, last: int,
                             x: Strike): set<Cause>
    decreases last - first
  {
    if first >= last then {}
    else CycleCauses(tracks, i, p, clock, first, last - 1, x)
         + TrackCauses(tracks, i, last - 1, clock(Position(p, last - 1)), x)
  }

  lemma {:induction false} CycleCausesMembers(tracks: seq<Track>, i: nat, p: real, clock: Clock, first: int, last: int,
                                              x: Strike, q: Cause)
    ensures q in CycleCauses(tracks, i, p, clock, first, last, x) <==>
              q.point == i && first <= q.cycle < last && q.track < |tracks| && Fires(tracks[q.track], i)
              && x == TrackStrike(tracks[q.track], clock(Position(p, q.cycle)))
    decreases last - first
  {
    hide TrackCauses, TrackStrike, Fires, Position;
    if first < last {
      CycleCausesMembers(tracks, i, p, clock, first, last - 1, x, q);
      TrackCausesMembers(tracks, i, last - 1, clock(Position(p, last - 1)), x, q);
    }
  }

  lemma {:induction false} CycleCausesCount(tracks: seq<Track>, i: nat, p: real, clock: Clock, first: int, last: int,
                                            x: Strike)
    ensures CycleStrikes(tracks, i, p, clock, first, last)[x]
         == |CycleCauses(tracks, i, p, clock, first, last, x)|
    decreases last - first
  {
    hide TrackCauses, TrackStrikes;
    if first < last {
      var earlier := CycleCauses(tracks, i, p, clock, first, last - 1, x);
      var sample := clock(Position(p, last - 1));
      var here := TrackCauses(tracks, i, last - 1, sample, x);
      CycleCausesCount(tracks, i, p, clock, first, last - 1, x);
      TrackCausesCount(tracks, i, last - 1, sample, x);
      forall q: Cause
        ensures !(q in earlier && q in here)
      {
        CycleCausesMembers(tracks, i, p, clock, first, last - 1, x, q);
        TrackCausesMembers(tracks, i, last - 1, sample, x, q);
      }
      assert earlier * here == {};
      UnionSize(earlier, here);
    }
  }

  lemma {:induction false} PointCauses(timeline: seq<Point>, tracks: seq<Track>, clock: Clock, u: real, v: real,
                                       x: Strike, q: Cause)
    requires timeline != []
    ensures var i, p := |timeline| - 1, timeline[|timeline| - 1].phase;
            && (q in CycleCauses(tracks, i, p, clock, FirstCycleFrom(p, u), FirstCycleFrom(p, v), x) <==>
                q.point == i && Causes(timeline, tracks, clock, u, v, x, q))
            && (Causes(timeline[..i], tracks, clock, u, v, x, q) <==>
                q.point < i && Causes(timeline, tracks, clock, u, v, x, q))
  {
    hide CycleCauses, FirstCycleFrom;
    var i, p := |timeline| - 1, timeline[|timeline| - 1].phase;
    CycleCausesMembers(tracks, i, p, clock, FirstCycleFrom(p, u), FirstCycleFrom(p, v), x, q);
    CyclesBetween(p, u, v, q.cycle);
  }

  /** A strike is in the closed form exactly as often as a pass of an active point causes it. */
  lemma {:induction false} StrikesArePasses(timeline: seq<Point>, tracks: seq<Track>, clock: Clock, u: real, v: real,
                                            x: Strike) returns (causes: set<Cause>)
    ensures forall q :: q in causes <==> Causes(timeline, tracks, clock, u, v, x, q)
    ensures ClosedForm(timeline, tracks, clock, u, v)[x] == |causes|
    decreases |timeline|
  {
    hide CycleStrikes, CycleCauses, FirstCycleFrom, Causes;
    if timeline == [] {
      causes := {};
      forall q: Cause
        ensures !Causes(timeline, tracks, clock, u, v, x, q)
      {
        NoCauses(tracks, clock, u, v, x, q);
      }
    } else {
      var i, p := |timeline| - 1, timeline[|timeline| - 1].phase;
      var first, last := FirstCycleFrom(p, u), FirstCycleFrom(p, v);
      var earlier := StrikesArePasses(timeline[..i], tracks, clock, u, v, x);
      var here := CycleCauses(tracks, i, p, clock, first, last, x);
      CycleCausesCount(tracks, i, p, clock, first, last, x);
      forall q: Cause
        ensures q in here <==> q.point == i && Causes(timeline, tracks, clock, u, v, x, q)
        ensures q in earlier <==> q.point < i && Causes(timeline, tracks, clock, u, v, x, q)
        ensures Causes(timeline, tracks, clock, u, v, x, q) ==> q.point <= i
      {
        PointCauses(timeline, tracks, clock, u, v, x, q);
        CausedByPoint(timeline, tracks, clock, u, v, x, q);
      }
      assert earlier * here == {};
      UnionSize(earlier, here);
      causes := earlier + here;
    }
  }

  lemma {:induction false} NoCauses(tracks: seq<Track>, clock: Clock, u: real, v: real, x: Strike, q: Cause)
    ensures !Causes([], tracks, clock, u, v, x, q)
  {
  }

  lemma {:induction false} CausedByPoint(timeline: seq<Point>, tracks: seq<Track>, clock: Clock, u: real, v: real,
                                         x: Strike, q: Cause)
    ensures Causes(timeline, tracks, clock, u, v, x, q) ==> q.point < |timeline|
  {
  }
}
