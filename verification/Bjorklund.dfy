/**
 Euclidean rhythms. `Distribute` is the group-merging loop of the rhythm engine. It runs Euclid's algorithm on
 the group counts; the rhythm it returns is one block repeated gcd times, and is maximally even.
 */
module Bjorklund {
  import opened Sequences

  type Rhythm = seq<bool>

  function Repeat(g: Rhythm, count: nat): Rhythm {
    if count == 0 then [] else g + Repeat(g, count - 1)
  }

  function Flatten(groups: seq<Rhythm>): Rhythm {
    if groups == [] then [] else groups[0] + Flatten(groups[1..])
  }

  /** The merging of `a` front groups with `b` remainder groups, until at most one remainder group is left. */
  function Merge(front: Rhythm, a: nat, back: Rhythm, b: nat): Rhythm
    requires a > 0
    decreases a + b
  {
    if b <= 1 then Repeat(front, a) + Repeat(back, b)
    else if a <= b then Merge(front + back, a, back, b - a)
    else Merge(front + back, b, front, a - b)
  }

  function Euclidean(hits: nat, steps: nat): Rhythm {
    if hits >= steps then Repeat([true], steps)
    else if hits == 0 then Repeat([false], steps)
    else Merge([true], hits, [false], steps - hits)
  }

  // ----- the loop -----

  method Distribute(hits: nat, steps: nat) returns (result: Rhythm)
    ensures result == Euclidean(hits, steps)
  {
    if steps == 0 {
      return [];
    }
    if hits >= steps {
      RepeatUnit(true, steps);
      return seq(steps, _ => true);
    }
    if hits == 0 {
      RepeatUnit(false, steps);
      return seq(steps, _ => false);
    }
    var groups := StartGroups(hits, steps - hits);

    // ghost view of the group list: `a` copies of `front`, then `b` copies of `back`
    ghost var front: Rhythm, a: nat, back: Rhythm, b: nat := [true], hits, [false], steps - hits;
    while true
      invariant a > 0 && front != back && front != [] && back != []
      invariant groups == Repeated(front, a) + Repeated(back, b)
      invariant Merge(front, a, back, b) == Euclidean(hits, steps)
      decreases |groups|
    {
      if |groups| <= 1 {
        break;
      }
      var splitIdx := |groups|;
      for i := 1 to |groups|
        invariant splitIdx == |groups|
        invariant forall j :: 0 <= j < i ==> groups[j] == groups[0]
      {
        if groups[i] != groups[0] {
          splitIdx := i;
          break;
        }
      }
      assert groups[0] == front;
      assert b > 0 ==> groups[a] == back;
      if splitIdx >= |groups| {
        break;
      }
      assert splitIdx == a;
      var nFront, nRemainder := splitIdx, |groups| - splitIdx;
      if nRemainder <= 1 {
        break;
      }
      groups := MergeGroups(groups, nFront, front, back);
      if a <= b {
        front, b := front + back, b - a;
      } else {
        front, a, back, b := front + back, b, front, a - b;
      }
    }
    assert b <= 1;
    FlattenCopies(front, a, back, b);
    result := Concatenate(groups);
  }

  /** One group per hit, then one per rest. */
  method StartGroups(hits: nat, rests: nat) returns (groups: seq<Rhythm>)
    ensures groups == Repeated([true], hits) + Repeated([false], rests)
  {
    groups := [];
    for i := 0 to hits
      invariant groups == Repeated([true], i)
    {
      groups := groups + [[true]];
    }
    for i := 0 to rests
      invariant groups == Repeated([true], hits) + Repeated([false], i)
    {
      groups := groups + [[false]];
    }
  }

  method Concatenate(groups: seq<Rhythm>) returns (result: Rhythm)
    ensures result == Flatten(groups)
  {
    result := [];
    for i := 0 to |groups|
      invariant result == Flatten(groups[..i])
    {
      FlattenSnoc(groups[..i], groups[i]);
      assert groups[..i + 1] == groups[..i] + [groups[i]];
      result := result + groups[i];
    }
    assert groups[..|groups|] == groups;
  }

  /** One pass of the outer loop: pair the first groups with the remainder groups, keep what is left over. */
  method MergeGroups(groups: seq<Rhythm>, nFront: nat, ghost front: Rhythm, ghost back: Rhythm)
    returns (next: seq<Rhythm>)
    requires 0 < nFront < |groups|
    requires groups == Repeated(front, nFront) + Repeated(back, |groups| - nFront)
    ensures var b := |groups| - nFront;
            next == if nFront <= b then Repeated(front + back, nFront) + Repeated(back, b - nFront)
                    else Repeated(front + back, b) + Repeated(front, nFront - b)
  {
    var nRemainder := |groups| - nFront;
    var nMerge := if nFront <= nRemainder then nFront else nRemainder;
    next := [];
    for i := 0 to nMerge
      invariant next == Repeated(front + back, i)
    {
      next := next + [groups[i] + groups[nFront + i]];
    }
    for i := nMerge to nFront
      invariant next == Repeated(front + back, nMerge) + Repeated(front, i - nMerge)
    {
      next := next + [groups[i]];
    }
    for i := nFront + nMerge to |groups|
      invariant next == Repeated(front + back, nMerge) + Repeated(front, nFront - nMerge)
                        + Repeated(back, i - nFront - nMerge)
    {
      next := next + [groups[i]];
    }
  }

  lemma {:induction false} RepeatUnit(x: bool, n: nat)
    ensures Repeat([x], n) == seq(n, _ => x)
  {
    if n > 0 { RepeatUnit(x, n - 1); }
  }

  lemma {:induction false} FlattenSnoc(groups: seq<Rhythm>, g: Rhythm)
    ensures Flatten(groups + [g]) == Flatten(groups) + g
  {
    if groups == [] {
      assert groups + [g] == [g];
    } else {
      assert (groups + [g])[1..] == groups[1..] + [g];
      FlattenSnoc(groups[1..], g);
    }
  }

  lemma {:induction false} FlattenCopies(front: Rhythm, a: nat, back: Rhythm, b: nat)
    ensures Flatten(Repeated(front, a) + Repeated(back, b)) == Repeat(front, a) + Repeat(back, b)
    decreases a + b
  {
    var groups := Repeated(front, a) + Repeated(back, b);
    if a > 0 {
      assert groups[1..] == Repeated(front, a - 1) + Repeated(back, b);
      FlattenCopies(front, a - 1, back, b);
    } else if b > 0 {
      assert groups[1..] == Repeated(front, 0) + Repeated(back, b - 1);
      FlattenCopies(front, 0, back, b - 1);
    }
  }
}
