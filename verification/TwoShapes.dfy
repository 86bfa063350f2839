/**
 How many points two plain shapes merge into. On the grid of lcm(n, m) positions the shapes are two sets of
 multiples; the timeline has n + m - gcd(n, m) points exactly when that grid is coarser than epsilon.
 */
module TwoShapes {
  import opened Sequences
  import opened Euclid
  import opened Timeline

  const GRID_LIMIT := 1_000_000_000

  ghost predicate PlainPair(shapes: seq<Shape>) {
    && |shapes| == 2
    && forall i :: 0 <= i < 2 ==>
        shapes[i].offset == 0.0 && shapes[i].euclideanHits == 0 && shapes[i].subdivision > 0
  }

  // ----- sets of multiples -----

  ghost function Multiples(count: nat, step: nat): set<int> {
    if count == 0 then {} else Multiples(count - 1, step) + {(count - 1) * step}
  }

  lemma {:induction false} MultiplesMembers(count: nat, step: nat, x: int)
    ensures x in Multiples(count, step) <==> exists j :: 0 <= j < count && x == j * step
  {
    if count > 0 { MultiplesMembers(count - 1, step, x); }
  }

  lemma {:induction false} MultiplesCount(count: nat, step: nat)
    requires step > 0
    ensures |Multiples(count, step)| == count
  {
    if count > 0 {
      MultiplesCount(count - 1, step);
      MultiplesMembers(count - 1, step, (count - 1) * step);
      forall j | 0 <= j < count - 1
        ensures j * step < (count - 1) * step
      {
        MultipleBound(step, count - 1 - j);
        assert (count - 1) * step - j * step == step * (count - 1 - j);
      }
    }
  }

  /** j*q == i*p for coprime p and q: the common value is a multiple of p*q. */
  lemma {:induction false} CommonMultiple(p: int, q: int, x: int, y: int, j: int, i: int)
    requires x * p + y * q == 1 && j * q == i * p
    ensures j == (x * j + y * i) * p
  {
    calc {
      (x * j + y * i) * p;
      { MulAssociates(x, j, p); MulAssociates(y, i, p); }
      x * (j * p) + y * (i * p);
      x * (j * p) + y * (j * q);
      j * (x * p + y * q);
      j;
    }
  }

  lemma {:induction false} CoprimeBezout(g: int, p: int, q: int, x: int, y: int)
    requires g > 0 && x * (g * p) + y * (g * q) == g
    ensures x * p + y * q == 1
  {
    assert g * (x * p + y * q) == g * 1;
    CancelLeft(g, x * p + y * q, 1);
  }

  ghost predicate Grid(g: nat, p: nat, q: nat, x: int, y: int) {
    g > 0 && p > 0 && q > 0 && x * p + y * q == 1
  }

  lemma {:induction false} CommonPoints(g: nat, p: nat, q: nat, x: int, y: int)
    requires Grid(g, p, q, x, y)
    ensures Multiples(g * p, q) * Multiples(g * q, p) == Multiples(g, p * q)
  {
    forall k: int
      ensures k in Multiples(g * p, q) * Multiples(g * q, p) <==> k in Multiples(g, p * q)
    {
      MultiplesMembers(g * p, q, k);
      MultiplesMembers(g * q, p, k);
      MultiplesMembers(g, p * q, k);
      if k in Multiples(g * p, q) * Multiples(g * q, p) {
        var j :| 0 <= j < g * p && k == j * q;
        var i :| 0 <= i < g * q && k == i * p;
        CommonMultiple(p, q, x, y, j, i);
        var s := x * j + y * i;
        MulAssociates(s, p, q);
        ScaledOrder(s, 0, p);
        ScaledOrder(s, g, p);
        assert k == s * (p * q);
      }
      if k in Multiples(g, p * q) {
        var s :| 0 <= s < g && k == s * (p * q);
        CommonPointIsBoth(g, p, q, s);
      }
    }
  }

  lemma {:induction false} ScaledOrder(s: int, t: int, p: int)
    requires p > 0
    ensures s < t <==> s * p < t * p
  {
  }

  lemma {:induction false} CommonPointIsBoth(g: nat, p: nat, q: nat, s: int)
    requires p > 0 && q > 0 && 0 <= s < g
    ensures 0 <= s * p < g * p && s * (p * q) == (s * p) * q
    ensures 0 <= s * q < g * q && s * (p * q) == (s * q) * p
  {
    MulAssociates(s, p, q);
    MulAssociates(s, q, p);
    assert (g - s) * p > 0 && (g - s) * q > 0;
  }

  ghost function GridPoints(g: nat, p: nat, q: nat): set<int> {
    Multiples(g * p, q) + Multiples(g * q, p)
  }

  lemma {:induction false} GridPointsCount(g: nat, p: nat, q: nat, x: int, y: int)
    requires Grid(g, p, q, x, y)
    ensures |GridPoints(g, p, q)| == g * p + g * q - g
  {
    hide Multiples;
    CommonPoints(g, p, q, x, y);
    PositiveProduct(p, q);
    MultiplesCount(g * p, q);
    MultiplesCount(g * q, p);
    MultiplesCount(g, p * q);
    UnionSize(Multiples(g * p, q), Multiples(g * q, p));
  }

  lemma {:induction false} PositiveProduct(p: int, q: int)
    requires p > 0 && q > 0
    ensures p * q > 0
  {
  }

  /** Unless the grid is a single position, two of its points are neighbours. */
  lemma {:induction false} NeighboursExist(g: nat, p: nat, q: nat, x: int, y: int) returns (k: int)
    requires Grid(g, p, q, x, y) && g * p * q >= 2
    ensures k in GridPoints(g, p, q) && k + 1 in GridPoints(g, p, q)
  {
    var n, m := g * p, g * q;
    if p == 1 {
      k := 0;
      MultiplesMembers(m, p, 0);
      MultiplesMembers(m, p, 1);
      assert 0 == 0 * p && 1 == 1 * p;
    } else {
      // j*q == i*p + 1 modulo the grid size, and p > 1 rules out the wrap
      var j, i := y % n, (-x) % m;
      k := i * p;
      MultiplesMembers(m, p, k);
      MultiplesMembers(n, q, j * q);
      NeighbourDistance(g, p, q, x, y);
    }
  }

  lemma {:induction false} ScaledRemainder(z: int, n: int, q: int)
    requires n > 0 && q > 0
    ensures (z % n) * q == z * q - (n * q) * (z / n)
    ensures 0 <= (z % n) * q <= n * q - q
  {
    var r, d := z % n, z / n;
    assert z == n * d + r;
    assert z * q == (n * d) * q + r * q;
    assert (n * d) * q == (n * q) * d;
    assert (n - 1 - r) * q >= 0;
  }

  lemma {:induction false} NeighbourDistance(g: nat, p: nat, q: nat, x: int, y: int)
    requires Grid(g, p, q, x, y) && p > 1
    ensures (y % (g * p)) * q == ((-x) % (g * q)) * p + 1
  {
    var n, m := g * p, g * q;
    MulAssociates(g, q, p);
    MulAssociates(g, p, q);
    ScaledRemainder(y, n, q);
    ScaledRemainder(-x, m, p);
    var l, u, v := n * q, y / n, (-x) / m;
    assert (-x) * p == -(x * p);
    WrapIsExcluded(l, v - u, (y % n) * q, ((-x) % m) * p, p, q, u, v);
  }

  lemma {:induction false} WrapIsExcluded(l: int, w: int, a: int, b: int, p: int, q: int, u: int, v: int)
    requires l > 0 && p > 1 && q > 0 && w == v - u && a - b == 1 - l * u + l * v
    requires 0 <= a <= l - q && 0 <= b <= l - p
    ensures a == b + 1
  {
    assert l * w == l * v - l * u;
    MultipleBound(l, w);
    MultipleBound(l, w + 1);
    assert l * (w + 1) == l * w + l;
  }

  // ----- phases on the grid -----

  ghost function Phase(k: int, l: nat): real
    requires l > 0
  {
    k as real / l as real
  }

  lemma {:induction false} PhaseScaled(j: nat, n: nat, q: nat)
    requires n > 0 && q > 0
    ensures j as real / n as real == Phase(j * q, n * q)
  {
    var a, b, c := j as real, n as real, q as real;
    assert (j * q) as real == a * c && (n * q) as real == b * c;
    assert a / b == (a * c) / (b * c);
  }

  lemma {:induction false} PhaseGap(k: int, k': int, l: nat)
    requires l > 0 && k < k'
    ensures Phase(k', l) > Phase(k, l)
    ensures l < GRID_LIMIT ==> Phase(k', l) - Phase(k, l) > EPSILON
    ensures l >= GRID_LIMIT && k' == k + 1 ==> Phase(k', l) - Phase(k, l) <= EPSILON
  {
    var d := Phase(k', l) - Phase(k, l);
    assert d * l as real == (k' - k) as real;
    ScaledRealOrder(d, 0.0, l as real);
    ScaledRealOrder(d, EPSILON, l as real);
  }

  ghost function Key(pt: Point, p: nat, q: nat): int {
    pt.subdivisionIndex * if pt.shapeIndex == 0 then q else p
  }

  /** A generated point sits on the grid position of its key. */
  lemma {:induction false} GeneratedKey(shapes: seq<Shape>, pt: Point, g: nat, p: nat, q: nat, x: int, y: int)
    requires PlainPair(shapes) && Generated(shapes, pt) && Grid(g, p, q, x, y)
    requires shapes[0].subdivision == g * p && shapes[1].subdivision == g * q
    ensures Key(pt, p, q) in GridPoints(g, p, q) && g * p * q > 0
    ensures pt.phase == Phase(Key(pt, p, q), g * p * q)
  {
    hide GridPoints, Phase, PointPhase, Selected;
    var shape, j := shapes[pt.shapeIndex], pt.subdivisionIndex;
    GridMember(g, p, q, j, pt.shapeIndex == 0);
    PhaseScaled(j, shape.subdivision, if pt.shapeIndex == 0 then q else p);
    PlainPhase(shape, j);
  }

  lemma {:induction false} GridMember(g: nat, p: nat, q: nat, j: nat, first: bool)
    requires g > 0 && p > 0 && q > 0 && j < if first then g * p else g * q
    ensures j * (if first then q else p) in GridPoints(g, p, q)
    ensures g * p * q > 0 && (g * p) * q == g * p * q == (g * q) * p
  {
    MulAssociates(g, p, q);
    MulAssociates(g, q, p);
    PositiveProduct(g, p);
    PositiveProduct(g * p, q);
    if first {
      MultiplesMembers(g * p, q, j * q);
    } else {
      MultiplesMembers(g * q, p, j * p);
    }
  }

  lemma {:induction false} PlainPhase(shape: Shape, j: nat)
    requires shape.offset == 0.0 && j < shape.subdivision
    ensures PointPhase(shape, j) == j as real / shape.subdivision as real
  {
    var f := j as real / shape.subdivision as real;
    ProperFraction(j, shape.subdivision);
    FractionUnique(f, 0, f);
  }

  lemma {:induction false} ProperFraction(j: nat, n: nat)
    requires j < n
    ensures 0.0 <= j as real / n as real < 1.0
  {
    var f, d := j as real / n as real, n as real;
    assert d > 0.0 && f * d == j as real;
    ScaledRealOrder(1.0, f, d);
    ScaledRealOrder(0.0, f, d);
  }

  lemma {:induction false} KeyGenerated(shapes: seq<Shape>, k: int, g: nat, p: nat, q: nat) returns (pt: Point)
    requires PlainPair(shapes) && k in GridPoints(g, p, q)
    requires shapes[0].subdivision == g * p && shapes[1].subdivision == g * q
    ensures Generated(shapes, pt) && Key(pt, p, q) == k
  {
    MultiplesMembers(g * p, q, k);
    MultiplesMembers(g * q, p, k);
    if k in Multiples(g * p, q) {
      var j :| 0 <= j < g * p && k == j * q;
      pt := Point(PointPhase(shapes[0], j), 0, j);
    } else {
      var i :| 0 <= i < g * q && k == i * p;
      pt := Point(PointPhase(shapes[1], i), 1, i);
    }
  }

  ghost function KeySet(t: seq<Point>, p: nat, q: nat): set<int> {
    if t == [] then {} else KeySet(t[..|t| - 1], p, q) + {Key(t[|t| - 1], p, q)}
  }

  lemma {:induction false} KeySetMembers(t: seq<Point>, p: nat, q: nat, k: int)
    ensures k in KeySet(t, p, q) <==> exists i :: 0 <= i < |t| && k == Key(t[i], p, q)
  {
    if t != [] { KeySetMembers(t[..|t| - 1], p, q, k); }
  }

  lemma {:induction false} KeySetCount(t: seq<Point>, p: nat, q: nat)
    requires forall i, j :: 0 <= i < j < |t| ==> Key(t[i], p, q) != Key(t[j], p, q)
    ensures |KeySet(t, p, q)| == |t|
  {
    if t != [] {
      KeySetCount(t[..|t| - 1], p, q);
      KeySetMembers(t[..|t| - 1], p, q, Key(t[|t| - 1], p, q));
    }
  }

  /** The kept keys: one per kept point, all on the grid. */
  lemma {:induction false} KeptKeys(shapes: seq<Shape>, t: seq<Point>, g: nat, p: nat, q: nat, x: int, y: int)
    requires PlainPair(shapes) && IsTimeline(shapes, EPSILON, t) && Grid(g, p, q, x, y)
    requires shapes[0].subdivision == g * p && shapes[1].subdivision == g * q
    ensures KeySet(t, p, q) <= GridPoints(g, p, q) && |KeySet(t, p, q)| == |t|
    ensures g * p * q > 0
    ensures forall i :: 0 <= i < |t| ==> t[i].phase == Phase(Key(t[i], p, q), g * p * q)
  {
    TimelineMeaning(shapes, EPSILON, t);
    forall i | 0 <= i < |t|
      ensures Key(t[i], p, q) in GridPoints(g, p, q) && g * p * q > 0
      ensures t[i].phase == Phase(Key(t[i], p, q), g * p * q)
    {
      GeneratedKey(shapes, t[i], g, p, q, x, y);
    }
    forall i, j | 0 <= i < j < |t|
      ensures Key(t[i], p, q) != Key(t[j], p, q)
    {
      SeparatedIsIncreasing(t, EPSILON, i, j);
    }
    KeySetCount(t, p, q);
    forall k | k in KeySet(t, p, q)
      ensures k in GridPoints(g, p, q)
    {
      KeySetMembers(t, p, q, k);
    }
  }

  /** On a coarse grid a point only fuses into a point of the same position. */
  lemma {:induction false} FusesOntoItself(shapes: seq<Shape>, t: seq<Point>, g: nat, p: nat, q: nat, k: int, pt: Point)
    requires g * p * q > 0 && g * p * q < GRID_LIMIT
    requires forall i :: 0 <= i < |t| ==> t[i].phase == Phase(Key(t[i], p, q), g * p * q)
    requires pt.phase == Phase(k, g * p * q)
    requires exists i :: FusedInto(t, EPSILON, pt.phase, i)
    ensures k in KeySet(t, p, q)
  {
    var i :| FusedInto(t, EPSILON, pt.phase, i);
    var k' := Key(t[i], p, q);
    if k' < k {
      PhaseGap(k', k, g * p * q);
    } else if k < k' {
      PhaseGap(k, k', g * p * q);
    }
    KeySetMembers(t, p, q, k);
  }

  /** A coarse grid loses no point: only equal phases fuse. */
  lemma {:induction false} CoarseGridKeepsAll(shapes: seq<Shape>, t: seq<Point>, g: nat, p: nat, q: nat, x: int, y: int)
    requires PlainPair(shapes) && IsTimeline(shapes, EPSILON, t) && Grid(g, p, q, x, y)
    requires shapes[0].subdivision == g * p && shapes[1].subdivision == g * q
    requires 0 < g * p * q < GRID_LIMIT
    ensures KeySet(t, p, q) == GridPoints(g, p, q)
  {
    KeptKeys(shapes, t, g, p, q, x, y);
    forall k | k in GridPoints(g, p, q)
      ensures k in KeySet(t, p, q)
    {
      var pt := KeyGenerated(shapes, k, g, p, q);
      GeneratedKey(shapes, pt, g, p, q, x, y);
      assert exists i :: FusedInto(t, EPSILON, pt.phase, i) by { TimelineMeaning(shapes, EPSILON, t); }
      FusesOntoItself(shapes, t, g, p, q, k, pt);
    }
  }

  /** A fine grid has two neighbours that epsilon cannot tell apart, so not all of its points are kept. */
  lemma {:induction false} FineGridFuses(shapes: seq<Shape>, t: seq<Point>, g: nat, p: nat, q: nat, x: int, y: int)
    requires PlainPair(shapes) && IsTimeline(shapes, EPSILON, t) && Grid(g, p, q, x, y)
    requires shapes[0].subdivision == g * p && shapes[1].subdivision == g * q
    requires g * p * q >= GRID_LIMIT
    ensures KeySet(t, p, q) != GridPoints(g, p, q)
  {
    hide Phase, Key, KeySet, GridPoints, Separated;
    if KeySet(t, p, q) == GridPoints(g, p, q) {
      KeptKeys(shapes, t, g, p, q, x, y);
      TimelineMeaning(shapes, EPSILON, t);
      var k := NeighboursExist(g, p, q, x, y);
      KeySetMembers(t, p, q, k);
      KeySetMembers(t, p, q, k + 1);
      var i :| 0 <= i < |t| && k == Key(t[i], p, q);
      var j :| 0 <= j < |t| && k + 1 == Key(t[j], p, q);
      NeighboursFuse(t, g * p * q, k, i, j);
    }
  }

  /** Neighbours on a fine grid are not both kept. */
  lemma {:induction false} NeighboursFuse(t: seq<Point>, l: nat, k: int, i: nat, j: nat)
    requires Separated(t, EPSILON) && l >= GRID_LIMIT && i < |t| && j < |t|
    ensures t[i].phase == Phase(k, l) ==> t[j].phase != Phase(k + 1, l)
  {
    PhaseGap(k, k + 1, l);
    if i < j {
      SeparatedIsIncreasing(t, EPSILON, i, j);
    } else if j < i {
      SeparatedIsIncreasing(t, EPSILON, j, i);
    }
  }

  lemma {:induction false} PairGrid(n: nat, m: nat) returns (g: nat, p: nat, q: nat, x: int, y: int)
    requires n > 0 && m > 0
    ensures Grid(g, p, q, x, y) && g == Gcd(n, m) && n == g * p && m == g * q && Lcm(n, m) == g * p * q
  {
    g := Gcd(n, m);
    p, q := LcmFactors(n, m);
    x, y := Bezout(n, m);
    CoprimeBezout(g, p, q, x, y);
  }

  /**
   Two plain shapes n and m merge into n + m - gcd(n, m) points if and only if lcm(n, m) is below 10^9. Beyond it
   there are fewer points.
   */
  lemma {:induction false} TwoShapesCount(shapes: seq<Shape>, t: seq<Point>)
    requires PlainPair(shapes) && IsTimeline(shapes, EPSILON, t)
    ensures var n, m := shapes[0].subdivision, shapes[1].subdivision;
            && |t| <= n + m - Gcd(n, m)
            && (|t| == n + m - Gcd(n, m) <==> Lcm(n, m) < GRID_LIMIT)
  {
    var g, p, q, x, y := PairGrid(shapes[0].subdivision, shapes[1].subdivision);
    KeptKeys(shapes, t, g, p, q, x, y);
    GridPointsCount(g, p, q, x, y);
    CardinalityOfSubset(KeySet(t, p, q), GridPoints(g, p, q));
    if g * p * q < GRID_LIMIT {
      CoarseGridKeepsAll(shapes, t, g, p, q, x, y);
    } else {
      FineGridFuses(shapes, t, g, p, q, x, y);
    }
  }

  ghost predicate SubdivisionPhase(shapes: seq<Shape>, phase: real, s: int, j: int) {
    0 <= s < |shapes| && 0 <= j < shapes[s].subdivision && phase == j as real / shapes[s].subdivision as real
  }

  /** Below that limit the phases are exactly the phases j/n and i/m: none is lost, none is moved. */
  lemma {:induction false} TwoShapesPhases(shapes: seq<Shape>, t: seq<Point>, phase: real)
    requires PlainPair(shapes) && IsTimeline(shapes, EPSILON, t)
    requires Lcm(shapes[0].subdivision, shapes[1].subdivision) < GRID_LIMIT
    ensures (exists i :: 0 <= i < |t| && t[i].phase == phase)
       <==> (exists s, j :: SubdivisionPhase(shapes, phase, s, j))
  {
    if i :| 0 <= i < |t| && t[i].phase == phase {
      TimelineMeaning(shapes, EPSILON, t);
      PlainPhase(shapes[t[i].shapeIndex], t[i].subdivisionIndex);
      assert SubdivisionPhase(shapes, phase, t[i].shapeIndex, t[i].subdivisionIndex);
    }
    if s, j :| SubdivisionPhase(shapes, phase, s, j) {
      PlainPhase(shapes[s], j);
      var pt := Point(phase, s, j);
      var g, p, q, x, y := PairGrid(shapes[0].subdivision, shapes[1].subdivision);
      KeptKeys(shapes, t, g, p, q, x, y);
      CoarseGridKeepsAll(shapes, t, g, p, q, x, y);
      GeneratedKey(shapes, pt, g, p, q, x, y);
      KeySetMembers(t, p, q, Key(pt, p, q));
    }
  }
}
