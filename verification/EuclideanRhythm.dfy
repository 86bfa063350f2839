/** What the rhythms of `Bjorklund.Euclidean` look like: counts, period, evenness, closed form. */
module EuclideanRhythm {
  import opened Numbers
  import opened Euclid
  import opened Bjorklund

  function Hits(w: Rhythm): nat {
    if w == [] then 0 else (if w[0] then 1 else 0) + Hits(w[1..])
  }

  lemma {:induction false} HitsConcat(u: Rhythm, v: Rhythm)
    ensures Hits(u + v) == Hits(u) + Hits(v)
  {
    if u == [] {
      assert u + v == v;
    } else {
      assert (u + v)[1..] == u[1..] + v;
      HitsConcat(u[1..], v);
    }
  }

  // ----- counts -----

  lemma {:induction false} RepeatCounts(g: Rhythm, n: nat)
    ensures |Repeat(g, n)| == n * |g| && Hits(Repeat(g, n)) == n * Hits(g)
  {
    if n > 0 {
      RepeatCounts(g, n - 1);
      HitsConcat(g, Repeat(g, n - 1));
    }
  }

  lemma {:induction false} Regroup(a: int, b: int, x: int, y: int)
    ensures a * (x + y) + (b - a) * y == a * x + b * y
  {
  }

  lemma {:induction false} MergeLength(front: Rhythm, a: nat, back: Rhythm, b: nat)
    requires a > 0
    ensures |Merge(front, a, back, b)| == a * |front| + b * |back|
    decreases a + b
  {
    if b <= 1 {
      RepeatCounts(front, a);
      RepeatCounts(back, b);
    } else if a <= b {
      MergeLength(front + back, a, back, b - a);
      Regroup(a, b, |front|, |back|);
    } else {
      MergeLength(front + back, b, front, a - b);
      Regroup(b, a, |back|, |front|);
    }
  }

  lemma {:induction false} MergeHits(front: Rhythm, a: nat, back: Rhythm, b: nat)
    requires a > 0
    ensures Hits(Merge(front, a, back, b)) == a * Hits(front) + b * Hits(back)
    decreases a + b
  {
    if b <= 1 {
      RepeatCounts(front, a);
      RepeatCounts(back, b);
      HitsConcat(Repeat(front, a), Repeat(back, b));
    } else if a <= b {
      HitsConcat(front, back);
      MergeHits(front + back, a, back, b - a);
      Regroup(a, b, Hits(front), Hits(back));
    } else {
      HitsConcat(front, back);
      MergeHits(front + back, b, front, a - b);
      Regroup(b, a, Hits(back), Hits(front));
    }
  }

  /** A Euclidean rhythm has the requested length and the requested number of hits. */
  lemma {:induction false} EuclideanCounts(hits: nat, steps: nat)
    ensures |Euclidean(hits, steps)| == steps
    ensures Hits(Euclidean(hits, steps)) == if hits <= steps then hits else steps
  {
    if hits >= steps {
      RepeatCounts([true], steps);
    } else if hits == 0 {
      RepeatCounts([false], steps);
    } else {
      MergeLength([true], hits, [false], steps - hits);
      MergeHits([true], hits, [false], steps - hits);
    }
  }

  lemma {:induction false} MergeStartsWithFront(front: Rhythm, a: nat, back: Rhythm, b: nat)
    requires a > 0 && front != []
    ensures Merge(front, a, back, b) != [] && Merge(front, a, back, b)[0] == front[0]
    decreases a + b
  {
    if b > 1 {
      if a <= b {
        MergeStartsWithFront(front + back, a, back, b - a);
      } else {
        MergeStartsWithFront(front + back, b, front, a - b);
      }
    }
  }

  /** A rhythm with any hits starts with one. */
  lemma {:induction false} EuclideanStartsWithHit(hits: nat, steps: nat)
    requires hits > 0 && steps > 0
    ensures Euclidean(hits, steps) != [] && Euclidean(hits, steps)[0]
  {
    if hits < steps {
      MergeStartsWithFront([true], hits, [false], steps - hits);
    }
  }

  // ----- period -----

  lemma {:induction false} MergePeriod(front: Rhythm, a: nat, back: Rhythm, b: nat) returns (block: Rhythm)
    requires a > 0
    ensures Merge(front, a, back, b) == Repeat(block, Gcd(a, b))
    decreases a + b
  {
    if b == 0 {
      block := front;
    } else if b == 1 {
      block := Repeat(front, a) + back;
      assert a % 1 == 0;
      assert Repeat(back, 1) == back;
      assert Repeat(block, 1) == block;
    } else if a <= b {
      GcdSubtract(b, a);
      GcdSymmetric(a, b - a);
      GcdSymmetric(a, b);
      block := MergePeriod(front + back, a, back, b - a);
    } else {
      GcdSubtract(a, b);
      GcdSymmetric(b, a - b);
      block := MergePeriod(front + back, b, front, a - b);
    }
  }

  /** The merging preserves the gcd, so the rhythm is one block of steps/g positions, played g times. */
  lemma {:induction false} EuclideanPeriod(hits: nat, steps: nat) returns (block: Rhythm)
    requires hits <= steps && steps > 0
    ensures Euclidean(hits, steps) == Repeat(block, Gcd(hits, steps))
    ensures |block| * Gcd(hits, steps) == steps && Hits(block) * Gcd(hits, steps) == hits
  {
    EuclideanCounts(hits, steps);
    if hits == steps || hits == 0 {
      block := [hits == steps];
      GcdOfAllOrNone(steps);
    } else {
      block := MergePeriod([true], hits, [false], steps - hits);
      GcdOfRest(hits, steps);
    }
    RepeatCounts(block, Gcd(hits, steps));
  }

  lemma {:induction false} GcdOfAllOrNone(n: nat)
    requires n > 0
    ensures Gcd(n, n) == n && Gcd(0, n) == n
  {
    ModUnique(n, n, 1, 0);
    ModUnique(0, n, 0, 0);
  }

  lemma {:induction false} GcdOfRest(hits: nat, steps: nat)
    requires hits <= steps
    ensures Gcd(hits, steps - hits) == Gcd(hits, steps)
  {
    GcdSubtract(steps, hits);
    GcdSymmetric(hits, steps - hits);
    GcdSymmetric(hits, steps);
  }

  // ----- drift: a hit climbs by `up`, a rest falls by `down` -----

  function Drift(w: Rhythm, up: int, down: int): int {
    if w == [] then 0 else (if w[0] then up else -down) + Drift(w[1..], up, down)
  }

  lemma {:induction false} DriftConcat(u: Rhythm, v: Rhythm, up: int, down: int)
    ensures Drift(u + v, up, down) == Drift(u, up, down) + Drift(v, up, down)
  {
    if u == [] {
      assert u + v == v;
    } else {
      assert (u + v)[1..] == u[1..] + v;
      DriftConcat(u[1..], v, up, down);
    }
  }

  lemma {:induction false} DriftCounts(w: Rhythm, up: int, down: int)
    ensures Drift(w, up, down) == (up + down) * Hits(w) - down * |w|
  {
    if w != [] {
      DriftCounts(w[1..], up, down);
      assert (up + down) * Hits(w) == (up + down) * Hits(w[1..]) + if w[0] then up + down else 0;
    }
  }

  /** Every prefix of `w` drifts within [lo, hi]. */
  ghost predicate InBand(w: Rhythm, up: int, down: int, lo: int, hi: int) {
    forall i :: 0 <= i <= |w| ==> lo <= Drift(w[..i], up, down) <= hi
  }

  lemma {:induction false} BandConcat(u: Rhythm, v: Rhythm, up: int, down: int, lo: int, hi: int)
    requires InBand(u, up, down, lo, hi)
    requires InBand(v, up, down, lo - Drift(u, up, down), hi - Drift(u, up, down))
    ensures InBand(u + v, up, down, lo, hi)
  {
    forall i | 0 <= i <= |u + v|
      ensures lo <= Drift((u + v)[..i], up, down) <= hi
    {
      if i <= |u| {
        assert (u + v)[..i] == u[..i];
      } else {
        assert (u + v)[..i] == u + v[..i - |u|];
        DriftConcat(u, v[..i - |u|], up, down);
      }
    }
  }

  /** Between its two ends, `w` overshoots by at most `below` and `above`. */
  ghost predicate Overshoots(w: Rhythm, up: int, down: int, below: int, above: int) {
    InBand(w, up, down, Min(0, Drift(w, up, down)) - below, Max(0, Drift(w, up, down)) + above)
  }

  /** `count` copies that each drift by -1, 0 or 1 stay as close to their ends as one copy does. */
  lemma {:induction false} RepeatOvershoots(g: Rhythm, count: nat, up: int, down: int, below: int, above: int)
    requires Overshoots(g, up, down, below, above) && -1 <= Drift(g, up, down) <= 1 && below >= 0 && above >= 0
    ensures Drift(Repeat(g, count), up, down) == count * Drift(g, up, down)
    ensures Overshoots(Repeat(g, count), up, down, below, above)
  {
    if count > 0 {
      RepeatOvershoots(g, count - 1, up, down, below, above);
      OneMoreCopy(g, Repeat(g, count - 1), count - 1, up, down, below, above);
    }
  }

  lemma {:induction false} OneMoreCopy(g: Rhythm, rest: Rhythm, n: nat, up: int, down: int, below: int, above: int)
    requires Overshoots(g, up, down, below, above) && -1 <= Drift(g, up, down) <= 1 && below >= 0 && above >= 0
    requires Overshoots(rest, up, down, below, above) && Drift(rest, up, down) == n * Drift(g, up, down)
    ensures Drift(g + rest, up, down) == (n + 1) * Drift(g, up, down)
    ensures Overshoots(g + rest, up, down, below, above)
  {
    hide Drift;
    var d := Drift(g, up, down);
    DriftConcat(g, rest, up, down);
    SmallMultiple(n, d);
    SmallMultiple(n + 1, d);
    BandConcat(g, rest, up, down, Min(0, (n + 1) * d) - below, Max(0, (n + 1) * d) + above);
  }

  lemma {:induction false} SmallMultiple(n: nat, d: int)
    requires -1 <= d <= 1
    ensures n * d == if d == 0 then 0 else if d > 0 then n else 0 - n
  {
  }

  /**
   Balance of the merging, from the outermost groups inwards: while the groups drift by b and -a (up to a common
   sign) and their overshoot plus a + b is n, the flattened rhythm stays in a band of n values.
   */
  lemma {:induction false} MergeBand(front: Rhythm, a: nat, back: Rhythm, b: nat, up: int, down: int, below: int,
                                     above: int) returns (lo: int)
    requires a > 0 && below >= 0 && above >= 0
    requires (Drift(front, up, down) == b && Drift(back, up, down) == 0 - a)
          || (Drift(front, up, down) == 0 - b && Drift(back, up, down) == a)
    requires Overshoots(front, up, down, below, above) && Overshoots(back, up, down, below, above)
    ensures InBand(Merge(front, a, back, b), up, down, lo, lo + below + above + a + b - 1)
    decreases a + b
  {
    hide Drift, Overshoots, InBand, Repeat;
    if b <= 1 {
      MergeEnds(front, a, back, b);
      lo := LastBand(front, a, back, b, up, down, below, above);
    } else {
      var m, d := Min(a, b), Drift(front, up, down);
      var below', above' := if d > 0 then below else below + m, if d > 0 then above + m else above;
      MergedGroup(front, back, m, up, down, below, above);
      if a <= b {
        lo := MergeBand(front + back, a, back, b - a, up, down, below', above');
      } else {
        lo := MergeBand(front + back, b, front, a - b, up, down, below', above');
      }
    }
  }

  lemma {:induction false} MergeEnds(front: Rhythm, a: nat, back: Rhythm, b: nat)
    requires a > 0 && b <= 1
    ensures Merge(front, a, back, b) == if b == 0 then Repeat(front, a) else Repeat(front, a) + back
  {
    assert Repeat(back, 1) == back;
    assert Repeat(front, a) + Repeat(back, 0) == Repeat(front, a);
  }

  /** The end of the merging: copies of one group, and at most one other group. */
  lemma {:induction false} LastBand(front: Rhythm, a: nat, back: Rhythm, b: nat, up: int, down: int, below: int,
                                    above: int) returns (lo: int)
    requires a > 0 && b <= 1 && below >= 0 && above >= 0
    requires (Drift(front, up, down) == b && Drift(back, up, down) == 0 - a)
          || (Drift(front, up, down) == 0 - b && Drift(back, up, down) == a)
    requires Overshoots(front, up, down, below, above) && Overshoots(back, up, down, below, above)
    ensures InBand(if b == 0 then Repeat(front, a) else Repeat(front, a) + back, up, down,
                   lo, lo + below + above + a + b - 1)
  {
    hide Drift, Repeat;
    var d := Drift(front, up, down);
    RepeatOvershoots(front, a, up, down, below, above);
    SmallMultiple(a, d);
    lo := Min(0, a * d) - below;
    if b == 1 {
      BandConcat(Repeat(front, a), back, up, down, lo, lo + below + above + a);
    }
  }

  /** Two groups that drift apart merge into one that overshoots by the smaller drift more, on one side. */
  lemma {:induction false} MergedGroup(front: Rhythm, back: Rhythm, m: nat, up: int, down: int, below: int, above: int)
    requires var d, e := Drift(front, up, down), Drift(back, up, down);
             (d > 0 && e < 0 && m == Min(d, 0 - e)) || (d < 0 && e > 0 && m == Min(0 - d, e))
    requires Overshoots(front, up, down, below, above) && Overshoots(back, up, down, below, above)
    ensures Drift(front + back, up, down) == Drift(front, up, down) + Drift(back, up, down)
    ensures var d := Drift(front, up, down);
            Overshoots(front + back, up, down, if d > 0 then below else below + m, if d > 0 then above + m else above)
    ensures var d := Drift(front, up, down);
            && Overshoots(front, up, down, if d > 0 then below else below + m, if d > 0 then above + m else above)
            && Overshoots(back, up, down, if d > 0 then below else below + m, if d > 0 then above + m else above)
  {
    hide Drift;
    DriftConcat(front, back, up, down);
    var d, s := Drift(front, up, down), Drift(front + back, up, down);
    var below', above' := if d > 0 then below else below + m, if d > 0 then above + m else above;
    BandConcat(front, back, up, down, Min(0, s) - below', Max(0, s) + above');
  }

  /** For k hits in n steps, with hits worth n - k and rests worth -k, all prefixes lie within n values. */
  lemma {:induction false} EuclideanBand(hits: nat, steps: nat) returns (lo: int)
    requires 0 < hits < steps
    ensures InBand(Euclidean(hits, steps), steps - hits, hits, lo, lo + steps - 1)
  {
    var up: int, down: int := steps - hits, hits;
    assert [true][..1] == [true] && [false][..1] == [false];
    assert Drift([true], up, down) == up && Drift([false], up, down) == -down;
    lo := MergeBand([true], hits, [false], steps - hits, up, down, 0, 0);
  }

  // ----- closed form -----

  /** Bresenham form: up to a shift, the hits are the positions where a counter in steps of k wraps modulo n. */
  lemma {:induction false} EuclideanClosedForm(hits: nat, steps: nat) returns (shift: int)
    requires 0 < hits < steps
    ensures |Euclidean(hits, steps)| == steps
    ensures forall i :: 0 <= i < steps ==> (Euclidean(hits, steps)[i] <==> (shift - hits * i) % steps < hits)
  {
    EuclideanCounts(hits, steps);
    var lo := EuclideanBand(hits, steps);
    shift := -lo;
    forall i | 0 <= i < steps
      ensures Euclidean(hits, steps)[i] <==> (shift - hits * i) % steps < hits
    {
      BandDecides(Euclidean(hits, steps), hits, lo, i);
    }
  }

  /** A band of n values leaves no choice at position i: only one of a hit and a rest stays inside. */
  lemma {:induction false} BandDecides(w: Rhythm, k: nat, lo: int, i: nat)
    requires k <= |w| && i < |w|
    requires InBand(w, |w| - k, k, lo, lo + |w| - 1)
    ensures w[i] <==> (-lo - k * i) % |w| < k
  {
    var up, down := |w| - k, k;
    DriftCounts(w[..i], up, down);
    var d := Drift(w[..i], up, down) - lo;
    ModUnique(-lo - k * i, |w|, 0 - Hits(w[..i]), d);
    assert w[..i + 1] == w[..i] + [w[i]];
    DriftConcat(w[..i], [w[i]], up, down);
    assert Drift(w[..i + 1], up, down) == Drift(w[..i], up, down) + if w[i] then up else 0 - down;
  }

  // ----- maximal evenness -----

  /** Hits in the cyclic window of `length` positions from `start`. */
  function WindowHits(w: Rhythm, start: nat, length: nat): nat
    requires w != []
  {
    if length == 0 then 0
    else WindowHits(w, start, length - 1) + if w[(start + length - 1) % |w|] then 1 else 0
  }

  /** Any two cyclic windows of equal length differ by at most one hit. */
  ghost predicate MaximallyEven(w: Rhythm)
    requires w != []
  {
    forall i: nat, j: nat, length: nat :: WindowHits(w, i, length) <= WindowHits(w, j, length) + 1
  }

  lemma {:induction false} NextIndex(x: nat, n: nat)
    requires n > 0
    ensures (x + 1) % n == if x % n + 1 < n then x % n + 1 else 0
  {
    if x % n + 1 < n {
      ModUnique(x + 1, n, x / n, x % n + 1);
    } else {
      ModUnique(x + 1, n, x / n + 1, 0);
    }
  }

  lemma {:induction false} WindowDrift(w: Rhythm, start: nat, length: nat, up: int, down: int)
    requires w != [] && Drift(w, up, down) == 0
    ensures (up + down) * WindowHits(w, start, length) - down * length
         == Drift(w[..(start + length) % |w|], up, down) - Drift(w[..start % |w|], up, down)
  {
    if length > 0 {
      var at := (start + length - 1) % |w|;
      WindowDrift(w, start, length - 1, up, down);
      NextIndex(start + length - 1, |w|);
      assert w[..at + 1] == w[..at] + [w[at]];
      DriftConcat(w[..at], [w[at]], up, down);
      assert at + 1 == |w| ==> w[..at + 1] == w;
      OneMore(up + down, WindowHits(w, start, length - 1), w[at]);
      assert down * length == down * (length - 1) + down;
    }
  }

  lemma {:induction false} OneMore(c: int, x: int, hit: bool)
    ensures c * (x + if hit then 1 else 0) == c * x + if hit then c else 0
  {
  }

  /** A window of a Euclidean rhythm holds its proportional share of the hits, to less than one hit. */
  lemma {:induction false} WindowShare(hits: nat, steps: nat, start: nat, length: nat)
    requires 0 < hits < steps
    ensures Euclidean(hits, steps) != []
    ensures 0 - steps < steps * WindowHits(Euclidean(hits, steps), start, length) - hits * length < steps
  {
    var w := Euclidean(hits, steps);
    EuclideanCounts(hits, steps);
    DriftCounts(w, steps - hits, hits);
    var lo := EuclideanBand(hits, steps);
    WindowDrift(w, start, length, steps - hits, hits);
    assert 0 <= start % steps < steps && 0 <= (start + length) % steps < steps;
  }

  /** Every Euclidean rhythm is maximally even. */
  lemma {:induction false} EuclideanMaximallyEven(hits: nat, steps: nat)
    requires steps > 0
    ensures Euclidean(hits, steps) != [] && MaximallyEven(Euclidean(hits, steps))
  {
    EuclideanCounts(hits, steps);
    var w := Euclidean(hits, steps);
    forall i: nat, j: nat, length: nat
      ensures WindowHits(w, i, length) <= WindowHits(w, j, length) + 1
    {
      if 0 < hits < steps {
        WindowShare(hits, steps, i, length);
        WindowShare(hits, steps, j, length);
        SharesAreClose(steps, WindowHits(w, i, length), WindowHits(w, j, length), hits * length);
      } else {
        RepeatUnit(hits >= steps, steps);
        ConstantWindow(w, hits >= steps, i, length);
        ConstantWindow(w, hits >= steps, j, length);
      }
    }
  }

  lemma {:induction false} ConstantWindow(w: Rhythm, x: bool, start: nat, length: nat)
    requires w != [] && forall i :: 0 <= i < |w| ==> w[i] == x
    ensures WindowHits(w, start, length) == if x then length else 0
  {
    if length > 0 { ConstantWindow(w, x, start, length - 1); }
  }

  lemma {:induction false} SharesAreClose(n: int, x: int, y: int, share: int)
    requires n > 0 && n * x - share < n && -n < n * y - share
    ensures x <= y + 1
  {
    assert n * (x - y) == n * x - n * y;
    MultipleBound(n, x - y - 1);
    assert n * (x - y - 1) == n * (x - y) - n;
  }

  /** The distance between consecutive hits is the mean distance n/k, rounded down or up. */
  lemma {:induction false} EuclideanGaps(hits: nat, steps: nat, start: nat, gap: nat)
    requires 0 < hits < steps && gap > 0
    requires Euclidean(hits, steps) != []
    requires WindowHits(Euclidean(hits, steps), start, 1) == 1
    requires WindowHits(Euclidean(hits, steps), start, gap) == 1
    requires WindowHits(Euclidean(hits, steps), start, gap + 1) == 2
    ensures hits * (gap - 1) < steps < hits * (gap + 1)
  {
    hide WindowHits, Euclidean;
    var w := Euclidean(hits, steps);
    WindowShare(hits, steps, start, gap + 1);
    WindowShare(hits, steps, start + 1, gap - 1);
    WindowShift(w, start, gap - 1);
  }

  lemma {:induction false} WindowShift(w: Rhythm, start: nat, length: nat)
    requires w != []
    ensures WindowHits(w, start, length + 1) == WindowHits(w, start, 1) + WindowHits(w, start + 1, length)
  {
    if length > 0 {
      WindowShift(w, start, length - 1);
    }
  }
}
