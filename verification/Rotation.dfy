/** Rotating a track's mask: an action of the integers modulo the mask length. */
module Rotation {
  import opened Euclid
  import opened Bjorklund
  import opened EuclideanRhythm

  /** C's remainder: truncated division, so the result has the sign of `x`. */
  function CRem(x: int, n: nat): int
    requires n > 0
  {
    if x >= 0 then x % n else -((-x) % n)
  }

  /** The shift normalised to [0, n). */
  function Shift(amount: int, n: nat): (s: nat)
    requires n > 0
    ensures s < n && s == amount % n
  {
    ShiftIsModulo(amount, n);
    CRem(CRem(amount, n) + n, n)
  }

  lemma {:induction false} ShiftIsModulo(amount: int, n: nat)
    requires n > 0
    ensures CRem(CRem(amount, n) + n, n) == amount % n
  {
    var r := amount % n;
    if amount >= 0 {
      ModUnique(r + n, n, 1, r);
    } else {
      var m := (-amount) % n;
      assert -amount == n * ((-amount) / n) + m;
      if m == 0 {
        ModUnique(amount, n, -((-amount) / n), 0);
        ModUnique(n, n, 1, 0);
      } else {
        assert n * (-((-amount) / n) - 1) == -(n * ((-amount) / n)) - n;
        ModUnique(amount, n, -((-amount) / n) - 1, n - m);
        ModUnique(n - m, n, 0, n - m);
      }
    }
  }

  /** Left rotation by the normalised amount, as `std::rotate` performs it. */
  function Rotate(mask: Rhythm, amount: int): (r: Rhythm)
    ensures |r| == |mask|
  {
    if mask == [] then mask
    else mask[Shift(amount, |mask|)..] + mask[..Shift(amount, |mask|)]
  }

  lemma {:induction false} RotateAt(mask: Rhythm, amount: int, i: nat)
    requires i < |mask|
    ensures Rotate(mask, amount)[i] == mask[(i + amount) % |mask|]
  {
    var n, s := |mask|, Shift(amount, |mask|);
    assert amount == n * (amount / n) + s;
    if i + s < n {
      ModUnique(i + amount, n, amount / n, i + s);
    } else {
      assert n * (amount / n + 1) == n * (amount / n) + n;
      ModUnique(i + amount, n, amount / n + 1, i + s - n);
    }
  }

  lemma {:induction false} RotationsComposeAt(mask: Rhythm, a: int, b: int, i: nat)
    requires i < |mask|
    ensures Rotate(Rotate(mask, a), b)[i] == Rotate(mask, a + b)[i]
  {
    hide Rotate;
    RotateAt(Rotate(mask, a), b, i);
    RotateAt(mask, a, (i + b) % |mask|);
    ModOfSum(i + b, a, |mask|);
    RotateAt(mask, a + b, i);
    assert i + b + a == i + (a + b);
  }

  /** Rotations compose by addition. */
  lemma {:induction false} RotationsCompose(mask: Rhythm, a: int, b: int)
    ensures Rotate(Rotate(mask, a), b) == Rotate(mask, a + b)
  {
    hide Rotate;
    forall i | 0 <= i < |mask|
      ensures Rotate(Rotate(mask, a), b)[i] == Rotate(mask, a + b)[i]
    {
      RotationsComposeAt(mask, a, b, i);
    }
  }

  /** A rotation by any multiple of the length is the identity, so -a undoes a. */
  lemma {:induction false} RotationPeriod(mask: Rhythm, k: int)
    ensures Rotate(mask, k * |mask|) == mask
  {
    if mask != [] {
      ModUnique(k * |mask|, |mask|, k, 0);
    }
  }

  lemma {:induction false} RotationInverse(mask: Rhythm, a: int)
    ensures Rotate(Rotate(mask, a), -a) == mask
  {
    RotationsCompose(mask, a, -a);
    RotationPeriod(mask, 0);
  }

  lemma {:induction false} RotationKeepsHits(mask: Rhythm, amount: int)
    ensures Hits(Rotate(mask, amount)) == Hits(mask) && multiset(Rotate(mask, amount)) == multiset(mask)
  {
    if mask != [] {
      var s := Shift(amount, |mask|);
      HitsConcat(mask[..s], mask[s..]);
      HitsConcat(mask[s..], mask[..s]);
      assert mask == mask[..s] + mask[s..];
    }
  }

  /** A rotated window is a window of the original, so rotation keeps a rhythm maximally even. */
  lemma {:induction false} RotatedWindow(w: Rhythm, amount: nat, start: nat, length: nat)
    requires w != []
    ensures Rotate(w, amount) != []
    ensures WindowHits(Rotate(w, amount), start, length) == WindowHits(w, start + amount, length)
  {
    hide Rotate;
    if length > 0 {
      RotatedWindow(w, amount, start, length - 1);
      var at := start + length - 1;
      RotateAt(w, amount, at % |w|);
      ModOfSum(at, amount, |w|);
    }
  }

  lemma {:induction false} RotationKeepsEvenness(w: Rhythm, amount: int)
    requires w != [] && MaximallyEven(w)
    ensures Rotate(w, amount) != [] && MaximallyEven(Rotate(w, amount))
  {
    var s := Shift(amount, |w|);
    ModUnique(s, |w|, 0, s);
    assert Rotate(w, amount) == Rotate(w, s);
    forall i: nat, j: nat, length: nat
      ensures WindowHits(Rotate(w, s), i, length) <= WindowHits(Rotate(w, s), j, length) + 1
    {
      RotatedWindow(w, s, i, length);
      RotatedWindow(w, s, j, length);
    }
  }
}
