/** The merged timeline of several rhythmic shapes: one cycle is the phase interval [0, 1). */
module Timeline {
  import opened Numbers
  import opened Sequences
  import opened Bjorklund
  import EuclideanRhythm

  datatype Shape = Shape(subdivision: UInt32, offset: real, name: string, euclideanHits: UInt32)

  datatype Point = Point(phase: real, shapeIndex: nat, subdivisionIndex: nat)

  const EPSILON: real := 0.000000001

  /** C's `fmod(x, 1.0)`: the fraction keeps the sign of `x`. */
  function FMod1(x: real): real {
    if x >= 0.0 then x - x.Floor as real else -(-x - (-x).Floor as real)
  }

  function WrapPhase(x: real): real {
    if FMod1(x) < 0.0 then FMod1(x) + 1.0 else FMod1(x)
  }

  function PointPhase(shape: Shape, j: nat): real
    requires j < shape.subdivision
  {
    WrapPhase(j as real / shape.subdivision as real + shape.offset)
  }

  /** Manual shapes keep every subdivision, Euclidean shapes only the hits of their rhythm. */
  predicate Selected(shape: Shape, j: nat)
    requires j < shape.subdivision
  {
    EuclideanRhythm.EuclideanCounts(shape.euclideanHits, shape.subdivision);
    shape.euclideanHits == 0 || Euclidean(shape.euclideanHits, shape.subdivision)[j]
  }

  function ShapePoints(shape: Shape, index: nat, upTo: nat): seq<Point>
    requires upTo <= shape.subdivision
  {
    if upTo == 0 then []
    else ShapePoints(shape, index, upTo - 1)
         + if Selected(shape, upTo - 1) then [Point(PointPhase(shape, upTo - 1), index, upTo - 1)] else []
  }

  function AllPoints(shapes: seq<Shape>, upTo: nat): seq<Point>
    requires upTo <= |shapes|
  {
    if upTo == 0 then []
    else AllPoints(shapes, upTo - 1) + ShapePoints(shapes[upTo - 1], upTo - 1, shapes[upTo - 1].subdivision)
  }

  ghost predicate SortedByPhase(points: seq<Point>) {
    forall i, j :: 0 <= i <= j < |points| ==> points[i].phase <= points[j].phase
  }

  /** Keep a point if it lies more than epsilon after the last point kept. */
  function Dedup(points: seq<Point>, epsilon: real): (kept: seq<Point>)
    ensures points != [] ==> kept != []
  {
    if |points| <= 1 then points
    else
      var kept := Dedup(points[..|points| - 1], epsilon);
      var p := points[|points| - 1];
      if p.phase - kept[|kept| - 1].phase > epsilon then kept + [p] else kept
  }

  /** `t` is a timeline of the shapes: an unstable sort may leave equal phases in any order. */
  ghost predicate IsTimeline(shapes: seq<Shape>, epsilon: real, t: seq<Point>) {
    exists s :: IsTimelineVia(shapes, epsilon, t, s)
  }

  ghost predicate IsTimelineVia(shapes: seq<Shape>, epsilon: real, t: seq<Point>, s: seq<Point>) {
    SortedByPhase(s) && multiset(s) == multiset(AllPoints(shapes, |shapes|)) && t == Dedup(s, epsilon)
  }

  // ----- the algorithm -----

  method SortPoints(points: seq<Point>) returns (s: seq<Point>)
    ensures SortedByPhase(s) && multiset(s) == multiset(points)
  {
    s := [];
    for i := 0 to |points|
      invariant SortedByPhase(s) && multiset(s) == multiset(points[..i])
    {
      assert points[..i + 1] == points[..i] + [points[i]];
      s := InsertPoint(s, points[i]);
    }
    assert points[..|points|] == points;
  }

  method InsertPoint(s: seq<Point>, p: Point) returns (r: seq<Point>)
    requires SortedByPhase(s)
    ensures SortedByPhase(r) && multiset(r) == multiset(s) + multiset{p}
  {
    var k := |s|;
    while k > 0 && p.phase < s[k - 1].phase
      invariant 0 <= k <= |s|
      invariant k < |s| ==> p.phase < s[k].phase
    {
      k := k - 1;
    }
    r := s[..k] + [p] + s[k..];
    assert s == s[..k] + s[k..];
    InsertedIsSorted(s, p, k);
  }

  lemma {:induction false} InsertedIsSorted(s: seq<Point>, p: Point, k: nat)
    requires SortedByPhase(s) && k <= |s|
    requires k > 0 ==> s[k - 1].phase <= p.phase
    requires k < |s| ==> p.phase <= s[k].phase
    ensures SortedByPhase(s[..k] + [p] + s[k..])
  {
    var r := s[..k] + [p] + s[k..];
    forall i, j | 0 <= i <= j < |r|
      ensures r[i].phase <= r[j].phase
    {
      assert r[i] == if i < k then s[i] else if i == k then p else s[i - 1];
      assert r[j] == if j < k then s[j] else if j == k then p else s[j - 1];
    }
  }

  method CollectPoints(shapes: seq<Shape>) returns (points: seq<Point>)
    ensures points == AllPoints(shapes, |shapes|)
  {
    points := [];
    for si := 0 to |shapes|
      invariant points == AllPoints(shapes, si)
    {
      var shape := shapes[si];
      if shape.subdivision == 0 {
        continue;
      }
      var mask: Rhythm := [];
      if shape.euclideanHits > 0 {
        mask := Distribute(shape.euclideanHits, shape.subdivision);
      }
      EuclideanRhythm.EuclideanCounts(shape.euclideanHits, shape.subdivision);
      for j := 0 to shape.subdivision
        invariant points == AllPoints(shapes, si) + ShapePoints(shape, si, j)
      {
        if mask != [] && !mask[j] {
          continue;
        }
        var phase := FMod1(j as real / shape.subdivision as real + shape.offset);
        if phase < 0.0 {
          phase := phase + 1.0;
        }
        points := points + [Point(phase, si, j)];
      }
    }
  }

  method BuildTimeline(shapes: seq<Shape>, epsilon: real) returns (t: seq<Point>)
    ensures IsTimeline(shapes, epsilon, t)
  {
    var points := CollectPoints(shapes);
    points := SortPoints(points);
    t := Fuse(points, epsilon);
    assert IsTimelineVia(shapes, epsilon, t, points);
  }

  /** The de-duplication loop: it compares with the last point kept. */
  method Fuse(points: seq<Point>, epsilon: real) returns (t: seq<Point>)
    ensures t == Dedup(points, epsilon)
  {
    t := points;
    if |points| > 1 {
      t := [points[0]];
      for i := 1 to |points|
        invariant t == Dedup(points[..i], epsilon)
      {
        assert points[..i + 1][..i] == points[..i];
        if points[i].phase - t[|t| - 1].phase > epsilon {
          t := t + [points[i]];
        }
      }
      assert points[..|points|] == points;
    }
  }

  // ----- phases -----

  lemma {:induction false} FloorUnique(x: real, k: int)
    requires k as real <= x < (k + 1) as real
    ensures x.Floor == k
  {
  }

  lemma {:induction false} FloorShift(x: real, k: int)
    ensures (x + k as real).Floor == x.Floor + k
  {
    FloorUnique(x + k as real, x.Floor + k);
  }

  lemma {:induction false} FractionUnique(x: real, k: int, f: real)
    requires x == k as real + f && 0.0 <= f < 1.0
    ensures WrapPhase(x) == f && x.Floor == k
  {
    FloorUnique(x, k);
    WrapPhaseIsFraction(x);
  }

  lemma {:induction false} ScaledRealOrder(d: real, e: real, l: real)
    requires l > 0.0
    ensures d <= e <==> d * l <= e * l
  {
    assert d * l - e * l == (d - e) * l;
  }

  lemma {:induction false} WrapPhaseIsFraction(x: real)
    ensures WrapPhase(x) == x - x.Floor as real && 0.0 <= WrapPhase(x) < 1.0
  {
    if x < 0.0 {
      var f := (-x).Floor;
      if -x == f as real {
        FloorUnique(x, -f);
      } else {
        FloorUnique(x, -f - 1);
      }
    }
  }

  // ----- generated points -----

  ghost predicate Generated(shapes: seq<Shape>, p: Point) {
    && p.shapeIndex < |shapes|
    && var shape := shapes[p.shapeIndex];
    && p.subdivisionIndex < shape.subdivision
    && Selected(shape, p.subdivisionIndex)
    && p.phase == PointPhase(shape, p.subdivisionIndex)
  }

  lemma {:induction false} ShapePointsAreGenerated(shape: Shape, index: nat, upTo: nat, p: Point)
    requires upTo <= shape.subdivision
    ensures p in ShapePoints(shape, index, upTo) <==>
            p.shapeIndex == index && p.subdivisionIndex < upTo && Selected(shape, p.subdivisionIndex)
            && p.phase == PointPhase(shape, p.subdivisionIndex)
  {
    if upTo > 0 { ShapePointsAreGenerated(shape, index, upTo - 1, p); }
  }

  lemma {:induction false} AllPointsAreGenerated(shapes: seq<Shape>, upTo: nat, p: Point)
    requires upTo <= |shapes|
    ensures p in AllPoints(shapes, upTo) <==> p.shapeIndex < upTo && Generated(shapes, p)
    ensures Generated(shapes, p) ==> p.shapeIndex < |shapes|
  {
    hide Selected, PointPhase, ShapePoints;
    if upTo > 0 {
      AllPointsAreGenerated(shapes, upTo - 1, p);
      ShapePointsAreGenerated(shapes[upTo - 1], upTo - 1, shapes[upTo - 1].subdivision, p);
    }
  }

  // ----- where a shape's points lie -----

  ghost predicate IsWhole(x: real) {
    x == x.Floor as real
  }

  /** `x` is the place of subdivision `j` in a cycle of `n` equal parts that starts `offset` late. */
  ghost predicate PlacedAt(n: nat, offset: real, j: nat, x: real) {
    j < n && 0.0 <= x < 1.0 && IsWhole(j as real / n as real + offset - x)
  }

  /** The shape draws its subdivision `j`: every one, or those its Euclidean rhythm hits. */
  ghost predicate Draws(shape: Shape, j: nat) {
    shape.euclideanHits == 0
    || (j < |Euclidean(shape.euclideanHits, shape.subdivision)| && Euclidean(shape.euclideanHits, shape.subdivision)[j])
  }

  ghost predicate Placed(shapes: seq<Shape>, index: nat, j: nat, x: real) {
    index < |shapes| && Draws(shapes[index], j) && PlacedAt(shapes[index].subdivision, shapes[index].offset, j, x)
  }

  lemma {:induction false} PlaceIsPhase(shape: Shape, j: nat, x: real)
    requires j < shape.subdivision
    ensures PlacedAt(shape.subdivision, shape.offset, j, x) <==> x == PointPhase(shape, j)
  {
    var y := j as real / shape.subdivision as real + shape.offset;
    WrapPhaseIsFraction(y);
    assert y - WrapPhase(y) == y.Floor as real;
    if PlacedAt(shape.subdivision, shape.offset, j, x) {
      FractionUnique(y, (y - x).Floor, x);
    }
  }

  lemma {:induction false} PlacedIsGenerated(shapes: seq<Shape>, index: nat, j: nat, x: real)
    ensures Placed(shapes, index, j, x) <==> Generated(shapes, Point(x, index, j))
  {
    hide PointPhase, PlacedAt;
    if index < |shapes| && j < shapes[index].subdivision {
      PlaceIsPhase(shapes[index], j, x);
      EuclideanRhythm.EuclideanCounts(shapes[index].euclideanHits, shapes[index].subdivision);
    } else if index < |shapes| {
      assert !PlacedAt(shapes[index].subdivision, shapes[index].offset, j, x) by { NotPlaced(shapes[index], j, x); }
    }
  }

  lemma {:induction false} NotPlaced(shape: Shape, j: nat, x: real)
    requires j >= shape.subdivision
    ensures !PlacedAt(shape.subdivision, shape.offset, j, x)
  {
  }

  /**
   The timeline in the shapes' own numbers: a kept point of subdivision j of a shape (n, offset) lies where
   j/n + offset falls in the cycle, and wherever a drawn subdivision falls, a kept point lies at most epsilon before.
   */
  lemma {:induction false} TimelineIsPlaced(shapes: seq<Shape>, epsilon: real, t: seq<Point>)
    requires IsTimeline(shapes, epsilon, t) && epsilon >= 0.0
    ensures forall k :: 0 <= k < |t| ==> Placed(shapes, t[k].shapeIndex, t[k].subdivisionIndex, t[k].phase)
    ensures forall index: nat, j: nat, x :: Placed(shapes, index, j, x) ==> exists k :: FusedInto(t, epsilon, x, k)
  {
    hide Placed, Generated, IsTimeline, FusedInto;
    TimelineMeaning(shapes, epsilon, t);
    forall k | 0 <= k < |t|
      ensures Placed(shapes, t[k].shapeIndex, t[k].subdivisionIndex, t[k].phase)
    {
      PlacedIsGenerated(shapes, t[k].shapeIndex, t[k].subdivisionIndex, t[k].phase);
    }
    forall index: nat, j: nat, x | Placed(shapes, index, j, x)
      ensures exists k :: FusedInto(t, epsilon, x, k)
    {
      PlacedIsGenerated(shapes, index, j, x);
      assert Generated(shapes, Point(x, index, j));
    }
  }

  function Later(shape: Shape, d: real): Shape {
    shape.(offset := shape.offset + d)
  }

  /** Adding `d` to a shape's offset moves each of its points by `d`, around the cycle. */
  lemma {:induction false} LaterShapeMovesPoints(shape: Shape, d: real, j: nat)
    requires j < shape.subdivision
    ensures 0.0 <= PointPhase(Later(shape, d), j) < 1.0
    ensures IsWhole(PointPhase(shape, j) + d - PointPhase(Later(shape, d), j))
  {
    var y := j as real / shape.subdivision as real + shape.offset;
    WrapPhaseIsFraction(y);
    WrapPhaseIsFraction(y + d);
    var k := (y + d).Floor - y.Floor;
    assert PointPhase(Later(shape, d), j) == WrapPhase(y + d);
    assert PointPhase(shape, j) + d - PointPhase(Later(shape, d), j) == k as real;
  }

  /** A shape generates all its subdivisions, or as many as it asks for hits. */
  lemma {:induction false} ShapePointsCount(shape: Shape, index: nat)
    ensures |ShapePoints(shape, index, shape.subdivision)|
         == if shape.euclideanHits == 0 then shape.subdivision else Min(shape.euclideanHits, shape.subdivision)
  {
    var rhythm := Euclidean(shape.euclideanHits, shape.subdivision);
    EuclideanRhythm.EuclideanCounts(shape.euclideanHits, shape.subdivision);
    DrawnSoFar(shape, index, shape.subdivision);
    assert rhythm[..shape.subdivision] == rhythm;
  }

  lemma {:induction false} DrawnSoFar(shape: Shape, index: nat, upTo: nat)
    requires upTo <= shape.subdivision == |Euclidean(shape.euclideanHits, shape.subdivision)|
    ensures |ShapePoints(shape, index, upTo)|
         == if shape.euclideanHits == 0 then upTo
            else EuclideanRhythm.Hits(Euclidean(shape.euclideanHits, shape.subdivision)[..upTo])
  {
    hide PointPhase;
    if upTo > 0 {
      var rhythm := Euclidean(shape.euclideanHits, shape.subdivision);
      DrawnSoFar(shape, index, upTo - 1);
      assert rhythm[..upTo] == rhythm[..upTo - 1] + [rhythm[upTo - 1]];
      EuclideanRhythm.HitsConcat(rhythm[..upTo - 1], [rhythm[upTo - 1]]);
      assert [rhythm[upTo - 1]][1..] == [];
    }
  }

  // ----- de-duplication -----

  ghost predicate Separated(t: seq<Point>, epsilon: real) {
    forall i :: 0 < i < |t| ==> t[i].phase - t[i - 1].phase > epsilon
  }

  /** Index of the kept point that `phase` fused into: it lies at most epsilon before. */
  ghost predicate FusedInto(t: seq<Point>, epsilon: real, phase: real, k: int) {
    0 <= k < |t| && t[k].phase <= phase <= t[k].phase + epsilon
  }

  lemma {:induction false} DedupSeparates(s: seq<Point>, epsilon: real)
    requires SortedByPhase(s)
    ensures Separated(Dedup(s, epsilon), epsilon)
    ensures forall p :: p in Dedup(s, epsilon) ==> p in s
  {
    if |s| > 1 {
      DedupSeparates(s[..|s| - 1], epsilon);
    }
  }

  lemma {:induction false} DedupCovers(s: seq<Point>, epsilon: real, i: nat) returns (k: nat)
    requires SortedByPhase(s) && epsilon >= 0.0 && i < |s|
    ensures FusedInto(Dedup(s, epsilon), epsilon, s[i].phase, k)
  {
    var n := |s| - 1;
    if n == 0 {
      k := 0;
    } else if i < n {
      k := DedupCovers(s[..n], epsilon, i);
    } else {
      DedupLastIsEarlier(s[..n], epsilon);
      k := |Dedup(s, epsilon)| - 1;
    }
  }

  lemma {:induction false} DedupLastIsEarlier(s: seq<Point>, epsilon: real)
    requires SortedByPhase(s) && s != []
    ensures var t := Dedup(s, epsilon); t[|t| - 1].phase <= s[|s| - 1].phase
  {
    if |s| > 1 {
      DedupLastIsEarlier(s[..|s| - 1], epsilon);
    }
  }

  /**
   The timeline of arbitrary shapes: phases lie in [0, 1) and are more than epsilon apart, every point was generated
   by a shape, and every generated point has a kept point at most epsilon before it.
   */
  lemma {:induction false} TimelineMeaning(shapes: seq<Shape>, epsilon: real, t: seq<Point>)
    requires IsTimeline(shapes, epsilon, t) && epsilon >= 0.0
    ensures forall i :: 0 <= i < |t| ==> 0.0 <= t[i].phase < 1.0 && Generated(shapes, t[i])
    ensures Separated(t, epsilon)
    ensures forall p :: Generated(shapes, p) ==> exists k :: FusedInto(t, epsilon, p.phase, k)
  {
    var s :| IsTimelineVia(shapes, epsilon, t, s);
    DedupSeparates(s, epsilon);
    hide Generated, AllPoints, FusedInto, Dedup, SortedByPhase, Separated;
    forall p
      ensures p in s <==> Generated(shapes, p)
    {
      PermutationMembers(s, AllPoints(shapes, |shapes|), p);
      AllPointsAreGenerated(shapes, |shapes|, p);
    }
    forall p | Generated(shapes, p)
      ensures exists k :: FusedInto(t, epsilon, p.phase, k)
    {
      var i :| 0 <= i < |s| && s[i] == p;
      var k := DedupCovers(s, epsilon, i);
    }
    forall i | 0 <= i < |t|
      ensures 0.0 <= t[i].phase < 1.0 && Generated(shapes, t[i])
    {
      assert t[i] in s;
      GeneratedInCycle(shapes, t[i]);
    }
  }

  lemma {:induction false} PermutationMembers<T>(s: seq<T>, s': seq<T>, x: T)
    requires multiset(s) == multiset(s')
    ensures x in s <==> x in s'
  {
    assert x in s <==> x in multiset(s);
    assert x in s' <==> x in multiset(s');
  }

  lemma {:induction false} GeneratedInCycle(shapes: seq<Shape>, p: Point)
    requires Generated(shapes, p)
    ensures 0.0 <= p.phase < 1.0
  {
    var shape := shapes[p.shapeIndex];
    WrapPhaseIsFraction(p.subdivisionIndex as real / shape.subdivision as real + shape.offset);
  }

  lemma {:induction false} SeparatedIsIncreasing(t: seq<Point>, epsilon: real, i: nat, j: nat)
    requires Separated(t, epsilon) && epsilon >= 0.0 && i < j < |t|
    ensures t[j].phase - t[i].phase > epsilon
  {
    if i + 1 < j { SeparatedIsIncreasing(t, epsilon, i, j - 1); }
  }

  // ----- the phases do not depend on how the sort breaks ties -----

  function Phases(points: seq<Point>): seq<real> {
    seq(|points|, i requires 0 <= i < |points| => points[i].phase)
  }

  ghost predicate SortedReals(s: seq<real>) {
    forall i, j :: 0 <= i <= j < |s| ==> s[i] <= s[j]
  }

  lemma {:induction false} SortedIsUnique(s: seq<real>, s': seq<real>)
    requires SortedReals(s) && SortedReals(s') && multiset(s) == multiset(s')
    ensures s == s'
  {
    SameLength(s, s');
    if s != [] {
      var n := |s| - 1;
      LastIsLargest(s, s');
      LastIsLargest(s', s);
      DropLast(s);
      DropLast(s');
      SortedIsUnique(s[..n], s'[..n]);
    }
  }

  lemma {:induction false} SameLength<T>(s: seq<T>, s': seq<T>)
    requires multiset(s) == multiset(s')
    ensures |s| == |s'|
  {
    assert |s| == |multiset(s)| == |multiset(s')| == |s'|;
  }

  lemma {:induction false} LastIsLargest(s: seq<real>, s': seq<real>)
    requires SortedReals(s) && s != [] && s' != [] && multiset(s) == multiset(s')
    ensures s'[|s'| - 1] <= s[|s| - 1]
  {
    assert s'[|s'| - 1] in multiset(s');
    assert s'[|s'| - 1] in s;
  }

  lemma {:induction false} DropLast(s: seq<real>)
    requires s != []
    ensures var n := |s| - 1; s == s[..n] + [s[n]] && multiset(s[..n]) == multiset(s) - multiset{s[n]}
  {
    assert s == s[..|s| - 1] + [s[|s| - 1]];
  }

  lemma {:induction false} TakeOut(s: seq<Point>, k: nat)
    requires k < |s|
    ensures multiset(Dropped(s, k)) == multiset(s) - multiset{s[k]}
    ensures multiset(Phases(s)) == multiset(Phases(Dropped(s, k))) + multiset{s[k].phase}
  {
    assert s == s[..k] + [s[k]] + s[k + 1..];
    assert Phases(s) == Phases(s[..k]) + [s[k].phase] + Phases(s[k + 1..]);
    assert Phases(s[..k] + s[k + 1..]) == Phases(s[..k]) + Phases(s[k + 1..]);
  }

  lemma {:induction false} PhasesOfPermutation(s: seq<Point>, s': seq<Point>)
    requires multiset(s) == multiset(s')
    ensures multiset(Phases(s)) == multiset(Phases(s'))
  {
    hide Phases;
    SameLength(s, s');
    if s != [] {
      var k := Occurrence(s', s[0]);
      TakeOut(s, 0);
      TakeOut(s', k);
      PhasesOfPermutation(Dropped(s, 0), Dropped(s', k));
    } else {
      assert s == s';
    }
  }

  lemma {:induction false} Occurrence<T>(s: seq<T>, x: T) returns (k: nat)
    requires x in multiset(s)
    ensures k < |s| && s[k] == x
  {
    k :| 0 <= k < |s| && s[k] == x;
  }

  function DedupReals(s: seq<real>, epsilon: real): (kept: seq<real>)
    ensures s != [] ==> kept != []
  {
    if |s| <= 1 then s
    else
      var kept := DedupReals(s[..|s| - 1], epsilon);
      if s[|s| - 1] - kept[|kept| - 1] > epsilon then kept + [s[|s| - 1]] else kept
  }

  /** De-duplication looks at phases alone. */
  lemma {:induction false} DedupOfPhases(s: seq<Point>, epsilon: real)
    ensures Phases(Dedup(s, epsilon)) == DedupReals(Phases(s), epsilon)
  {
    if |s| > 1 {
      var n := |s| - 1;
      DedupOfPhases(s[..n], epsilon);
      assert Phases(s)[..n] == Phases(s[..n]);
      var t := Dedup(s[..n], epsilon);
      assert Phases(t + [s[n]]) == Phases(t) + [s[n].phase];
    }
  }

  lemma {:induction false} TimelinePhasesAreUnique(shapes: seq<Shape>, epsilon: real, t: seq<Point>, t': seq<Point>)
    requires IsTimeline(shapes, epsilon, t) && IsTimeline(shapes, epsilon, t')
    ensures Phases(t) == Phases(t')
  {
    var s :| IsTimelineVia(shapes, epsilon, t, s);
    var s' :| IsTimelineVia(shapes, epsilon, t', s');
    PhasesOfPermutation(s, s');
    assert SortedReals(Phases(s)) && SortedReals(Phases(s'));
    SortedIsUnique(Phases(s), Phases(s'));
    DedupOfPhases(s, epsilon);
    DedupOfPhases(s', epsilon);
  }
}
