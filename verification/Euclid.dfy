/** Greatest common divisor and least common multiple, as the rhythm engine computes them on 32-bit words. */
module Euclid {
  import opened Numbers

  function Gcd(a: nat, b: nat): nat
    decreases b
  {
    if b == 0 then a else Gcd(b, a % b)
  }

  ghost predicate Divides(d: nat, x: nat) {
    exists q: nat :: d * q == x
  }

  function Lcm(a: nat, b: nat): nat {
    if a == 0 || b == 0 || Gcd(a, b) == 0 then 0 else a / Gcd(a, b) * b
  }

  method PolyGcd(a: UInt32, b: UInt32) returns (g: UInt32)
    ensures g == Gcd(a, b)
  {
    var x, y := a, b;
    while y != 0
      invariant Gcd(x, y) == Gcd(a, b)
      decreases y
    {
      x, y := y, x % y;
    }
    g := x;
  }

  /** The product of the last step is a 32-bit product, so it wraps. */
  method PolyLcm(a: UInt32, b: UInt32) returns (l: UInt32)
    ensures l == Lcm(a, b) % UINT32_MODULUS
  {
    if a == 0 || b == 0 {
      return 0;
    }
    var g := PolyGcd(a, b);
    GcdPositive(a, b);
    l := (a / g * b) % UINT32_MODULUS;
  }

  lemma {:induction false} GcdPositive(a: nat, b: nat)
    requires a > 0 || b > 0
    ensures Gcd(a, b) > 0
    decreases b
  {
    if b > 0 { GcdPositive(b, a % b); }
  }

  lemma {:induction false} GcdSwapsSmaller(a: nat, b: nat)
    requires a < b
    ensures Gcd(a, b) == Gcd(b, a)
  {
    ModUnique(a, b, 0, a);
  }

  lemma {:induction false} GcdSymmetric(a: nat, b: nat)
    ensures Gcd(a, b) == Gcd(b, a)
  {
    if a < b {
      GcdSwapsSmaller(a, b);
    } else if b < a {
      GcdSwapsSmaller(b, a);
    }
  }

  /** One subtraction step of Euclid's algorithm. */
  lemma {:induction false} GcdSubtract(a: nat, b: nat)
    requires b <= a
    ensures Gcd(a - b, b) == Gcd(a, b)
  {
    if b > 0 {
      ModOfDifference(a, b);
    }
  }

  lemma {:induction false} ModOfDifference(a: int, b: int)
    requires b > 0
    ensures (a - b) % b == a % b
  {
    var q := a / b;
    assert a == b * q + a % b && b * (q - 1) == b * q - b;
    ModUnique(a - b, b, q - 1, a % b);
  }

  lemma {:induction false} ModUnique(x: int, n: int, q: int, r: int)
    requires 0 <= r < n && x == n * q + r
    ensures x % n == r && x / n == q
  {
    var d := x / n - q;
    assert x == n * (x / n) + x % n;
    assert n * d == r - x % n by { assert n * (x / n) - n * q == n * d; }
    MultipleBound(n, d);
  }

  lemma {:induction false} ModOfSum(x: int, y: int, n: nat)
    requires n > 0
    ensures (x % n + y) % n == (x + y) % n
  {
    var z := x + y;
    assert x == n * (x / n) + x % n && z == n * (z / n) + z % n;
    assert n * (z / n - x / n) == n * (z / n) - n * (x / n);
    ModUnique(x % n + y, n, z / n - x / n, z % n);
  }

  lemma {:induction false} MultipleBound(n: int, d: int)
    requires n > 0
    ensures d >= 1 ==> n * d >= n
    ensures d <= -1 ==> n * d <= -n
  {
  }

  /** Bezout coefficients of the pair. */
  lemma {:induction false} Bezout(a: nat, b: nat) returns (x: int, y: int)
    ensures x * a + y * b == Gcd(a, b)
    decreases b
  {
    if b == 0 {
      x, y := 1, 0;
    } else {
      var u, v := Bezout(b, a % b);
      x, y := v, u - v * (a / b);
      BezoutStep(a, b, a / b, a % b, u, v);
    }
  }

  lemma {:induction false} BezoutStep(a: int, b: int, q: int, r: int, u: int, v: int)
    requires a == q * b + r
    ensures v * a + (u - v * q) * b == u * b + v * r
  {
    MulAssociates(v, q, b);
    assert v * a == v * (q * b) + v * r;
    assert (u - v * q) * b == u * b - v * q * b;
  }

  lemma {:induction false} GcdDividesBoth(a: nat, b: nat) returns (p: nat, q: nat)
    ensures a == Gcd(a, b) * p && b == Gcd(a, b) * q
    decreases b
  {
    var g := Gcd(a, b);
    if b == 0 {
      p, q := 1, 0;
    } else {
      var u, v := GcdDividesBoth(b, a % b);
      p, q := u * (a / b) + v, u;
      QuotientOf(a, b);
      Distributes(g, u, a / b, v);
    }
  }

  lemma {:induction false} QuotientOf(a: nat, b: nat)
    requires b > 0
    ensures a == b * (a / b) + a % b && a / b >= 0
  {
  }

  lemma {:induction false} Distributes(g: int, u: int, w: int, v: int)
    ensures g * (u * w + v) == (g * u) * w + g * v
  {
  }

  lemma {:induction false} MulAssociates(x: int, y: int, z: int)
    ensures x * (y * z) == x * y * z
  {
  }

  /** Gcd is a common divisor, and every common divisor divides it. */
  lemma {:induction false} GcdIsGreatest(a: nat, b: nat, d: nat)
    ensures Divides(Gcd(a, b), a) && Divides(Gcd(a, b), b)
    ensures Divides(d, a) && Divides(d, b) ==> Divides(d, Gcd(a, b))
  {
    var p, q := GcdDividesBoth(a, b);
    if Divides(d, a) && Divides(d, b) {
      var s: nat :| d * s == a;
      var t: nat :| d * t == b;
      var x, y := Bezout(a, b);
      CombineMultiples(d, s, t, x, y);
      MultipleIsDivided(d, x * s + y * t, Gcd(a, b));
    }
  }

  lemma {:induction false} CombineMultiples(d: int, s: int, t: int, x: int, y: int)
    ensures x * (d * s) + y * (d * t) == d * (x * s + y * t)
  {
  }

  lemma {:induction false} MultipleIsDivided(d: nat, z: int, m: nat)
    requires d * z == m
    ensures Divides(d, m)
  {
    if d == 0 || z < 0 {
      assert d * 0 == m by { if d > 0 { MultipleBound(d, z); } }
    } else {
      assert d * z == m;
    }
  }

  lemma {:induction false} LcmFactors(a: nat, b: nat) returns (p: nat, q: nat)
    requires a > 0 && b > 0
    ensures p > 0 && q > 0 && a == Gcd(a, b) * p && b == Gcd(a, b) * q
    ensures Lcm(a, b) == p * b == q * a == Gcd(a, b) * p * q
    ensures Gcd(a, b) > 0
  {
    p, q := GcdDividesBoth(a, b);
    GcdPositive(a, b);
    var g := Gcd(a, b);
    ModUnique(a, g, p, 0);
    assert p * b == p * (g * q) == (g * p) * q == q * a;
  }

  /** Lcm is a common multiple, and it divides every common multiple. */
  lemma {:induction false} LcmIsLeast(a: nat, b: nat, m: nat)
    requires a > 0 && b > 0
    ensures Divides(a, Lcm(a, b)) && Divides(b, Lcm(a, b))
    ensures Divides(a, m) && Divides(b, m) ==> Divides(Lcm(a, b), m)
  {
    var p, q := LcmFactors(a, b);
    assert a * q == Lcm(a, b) == b * p;
    if Divides(a, m) && Divides(b, m) {
      var s: nat :| a * s == m;
      var t: nat :| b * t == m;
      var x, y := Bezout(a, b);
      var g, l := Gcd(a, b), Lcm(a, b);
      // g * m == x * a * m + y * b * m, and a * b == g * l divides both terms
      MulAssociates(g, q, a);
      BezoutScaled(a, b, s, t, x, y);
      MulAssociates(g, l, x * t + y * s);
      CancelLeft(g, m, l * (x * t + y * s));
      MultipleIsDivided(l, x * t + y * s, m);
    }
  }

  lemma {:induction false} BezoutScaled(a: int, b: int, s: int, t: int, x: int, y: int)
    requires a * s == b * t
    ensures (x * a + y * b) * (a * s) == (b * a) * (x * t + y * s)
  {
    assert (x * a) * (b * t) == (b * a) * (x * t);
    assert (y * b) * (a * s) == (b * a) * (y * s);
  }

  lemma {:induction false} CancelLeft(c: int, x: int, y: int)
    requires c != 0 && c * x == c * y
    ensures x == y
  {
    assert c * (x - y) == 0;
  }
}
