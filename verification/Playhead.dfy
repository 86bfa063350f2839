/**
 The playhead: the phase accumulator of one cycle, and which phases a buffer triggers. A buffer's span is the part
 of a cycle it covers. Unwrapped positions count cycles: point `p` is passed at c + p for every integer c.
 */
module Playhead {
  import opened Timeline

  predicate Wraps(phase: real, span: real) {
    phase + span >= 1.0
  }

  function NextPhase(phase: real, span: real): (next: real)
    ensures next < 1.0
  {
    if Wraps(phase, span) then FMod1(phase + span) else phase + span
  }

  /** The trigger test of the timeline scan. */
  predicate Hit(p: real, phase: real, span: real) {
    if Wraps(phase, span) then p >= phase || p < FMod1(phase + span)
    else p >= phase && p < phase + span
  }

  /** Distance from the start of the buffer to the point. */
  function Ahead(p: real, phase: real): real {
    if p >= phase then p - phase else 1.0 - phase + p
  }

  predicate InCycle(x: real) {
    0.0 <= x < 1.0
  }

  function Ceiling(x: real): int {
    -((-x).Floor)
  }

  lemma {:induction false} CeilingBounds(x: real, c: int)
    ensures c >= Ceiling(x) <==> c as real >= x
  {
    var f := (-x).Floor;
    assert f as real <= -x < f as real + 1.0;
    if c >= -f {
      assert c as real >= (-f) as real;
    } else {
      assert c as real <= (-f - 1) as real;
    }
  }

  lemma {:induction false} CeilingShift(x: real, k: int)
    ensures Ceiling(x + k as real) == Ceiling(x) + k
  {
    FloorShift(-x, -k);
    assert -(x + k as real) == -x + (-k) as real;
  }

  /** How often point `p` lies in the unwrapped interval [from, to). */
  function Passes(p: real, from: real, to: real): int {
    Ceiling(to - p) - Ceiling(from - p)
  }

  /** Passes counts the cycles c with from <= c + p < to: they are Passes consecutive integers. */
  lemma {:induction false} PassesMeaning(p: real, from: real, to: real, c: int)
    ensures from <= c as real + p < to <==> Ceiling(from - p) <= c < Ceiling(from - p) + Passes(p, from, to)
  {
    CeilingBounds(from - p, c);
    CeilingBounds(to - p, c);
  }

  lemma {:induction false} PassesShift(p: real, from: real, to: real, k: int)
    ensures Passes(p, from + k as real, to + k as real) == Passes(p, from, to)
  {
    assert from + k as real - p == (from - p) + k as real;
    assert to + k as real - p == (to - p) + k as real;
    CeilingShift(from - p, k);
    CeilingShift(to - p, k);
  }

  // ----- one buffer -----

  /** Advancing keeps the fractional position. The phase stays below 1 whatever the tempo, and stays at or above 0
      exactly when the unwrapped playhead does. */
  lemma {:induction false} NextPhaseIsFraction(phase: real, span: real) returns (k: int)
    requires phase < 1.0
    ensures NextPhase(phase, span) == phase + span - k as real
    ensures NextPhase(phase, span) < 1.0
    ensures InCycle(NextPhase(phase, span)) <==> phase + span >= 0.0
  {
    if Wraps(phase, span) {
      k := (phase + span).Floor;
    } else {
      k := 0;
    }
  }

  /** The cycle, counted from the buffer's own, in which a triggered point is passed. */
  function HitCycle(p: real, phase: real): int {
    if p >= phase then 0 else 1
  }

  lemma {:induction false} HitBySpan(p: real, phase: real, span: real)
    requires InCycle(p) && InCycle(phase) && 0.0 <= span <= 1.0
    ensures Hit(p, phase, span) <==> Ahead(p, phase) < span
    ensures Ahead(p, phase) == HitCycle(p, phase) as real + p - phase
  {
    if Wraps(phase, span) {
      FloorOfWrapped(phase + span);
    }
  }

  lemma {:induction false} FloorOfWrapped(x: real)
    requires 1.0 <= x < 2.0
    ensures FMod1(x) == x - 1.0
  {
    FloorUnique(x, 1);
  }

  lemma {:induction false} FirstCycle(p: real, phase: real)
    requires InCycle(p) && InCycle(phase)
    ensures Ceiling(phase - p) == HitCycle(p, phase)
  {
    CeilingBounds(phase - p, HitCycle(p, phase));
    CeilingBounds(phase - p, HitCycle(p, phase) - 1);
  }

  /** A buffer of at most one cycle triggers a point exactly as often as the playhead passes it: zero times or once. */
  lemma {:induction false} HitIsPass(p: real, phase: real, span: real)
    requires InCycle(p) && InCycle(phase) && 0.0 <= span <= 1.0
    ensures Passes(p, phase, phase + span) == if Hit(p, phase, span) then 1 else 0
  {
    HitBySpan(p, phase, span);
    FirstCycle(p, phase);
    var c := HitCycle(p, phase);
    CeilingBounds(phase + span - p, c);
    CeilingBounds(phase + span - p, c + 1);
    CeilingBounds(phase + span - p, c - 1);
  }

  /** Counting every pass is exactly what a span of at most one cycle guarantees. */
  lemma {:induction false} HitIsPassIff(phase: real, span: real)
    requires InCycle(phase) && span >= 0.0
    ensures (forall p :: InCycle(p) ==> Passes(p, phase, phase + span) == if Hit(p, phase, span) then 1 else 0)
       <==> span <= 1.0
  {
    if span <= 1.0 {
      forall p | InCycle(p)
        ensures Passes(p, phase, phase + span) == if Hit(p, phase, span) then 1 else 0
      {
        HitIsPass(p, phase, span);
      }
    } else {
      // the point under the playhead is passed now and one cycle later
      CeilingBounds(phase + span - phase, 1);
      FirstCycle(phase, phase);
      assert InCycle(phase) && Passes(phase, phase, phase + span) >= 2;
    }
  }

  /** A triggered point lies strictly inside the buffer, for spans of any size. */
  lemma {:induction false} HitIsAhead(p: real, phase: real, span: real)
    requires phase < 1.0 && InCycle(p) && Hit(p, phase, span)
    ensures span > 0.0 && 0.0 <= Ahead(p, phase) < span
  {
  }

  // ----- runs of buffers, the tempo changing between them -----

  function Sum(spans: seq<real>): real {
    if spans == [] then 0.0 else spans[0] + Sum(spans[1..])
  }

  function PhaseAfter(phase: real, spans: seq<real>): real
    decreases |spans|
  {
    if spans == [] then phase else PhaseAfter(NextPhase(phase, spans[0]), spans[1..])
  }

  function Firings(p: real, phase: real, spans: seq<real>): nat
    decreases |spans|
  {
    if spans == [] then 0
    else (if Hit(p, phase, spans[0]) then 1 else 0) + Firings(p, NextPhase(phase, spans[0]), spans[1..])
  }

  /** Over any run, a point fires exactly as often as the unwrapped playhead passes it. */
  lemma {:induction false} FiringsArePasses(p: real, phase: real, spans: seq<real>)
    requires InCycle(p) && InCycle(phase)
    requires forall i :: 0 <= i < |spans| ==> 0.0 <= spans[i] <= 1.0
    ensures Firings(p, phase, spans) == Passes(p, phase, phase + Sum(spans))
    decreases |spans|
  {
    if spans != [] {
      var next := NextPhase(phase, spans[0]);
      HitIsPass(p, phase, spans[0]);
      var k := NextPhaseIsFraction(phase, spans[0]);
      FiringsArePasses(p, next, spans[1..]);
      PassesShift(p, next, next + Sum(spans[1..]), k);
      assert next + Sum(spans[1..]) + k as real == phase + Sum(spans);
    }
  }

  /** The phase is the fractional part of the unwrapped position: tempo changes neither drift nor reset it. */
  lemma {:induction false} PhaseIsFraction(phase: real, spans: seq<real>)
    requires InCycle(phase)
    requires forall i :: 0 <= i < |spans| ==> 0.0 <= spans[i]
    ensures InCycle(PhaseAfter(phase, spans)) && PhaseAfter(phase, spans) == WrapPhase(phase + Sum(spans))
    decreases |spans|
  {
    if spans == [] {
      FractionUnique(phase, 0, phase);
    } else {
      var next := NextPhase(phase, spans[0]);
      var k := NextPhaseIsFraction(phase, spans[0]);
      PhaseIsFraction(next, spans[1..]);
      var end := next + Sum(spans[1..]);
      assert phase + Sum(spans) == end + k as real;
      WrapShift(end, k);
    }
  }

  lemma {:induction false} WrapShift(x: real, k: int)
    ensures WrapPhase(x + k as real) == WrapPhase(x)
  {
    WrapPhaseIsFraction(x);
    FractionUnique(x + k as real, x.Floor + k, WrapPhase(x));
  }
}
