/** Sequences as lists of elements: distinctness, counting, removal, reversal. */
module Sequences {

  ghost predicate Distinct<T>(s: seq<T>) {
    forall i, j :: 0 <= i < j < |s| ==> s[i] != s[j]
  }

  ghost function Elements<T>(s: seq<T>): set<T> {
    set x | x in s
  }

  lemma {:induction false} DistinctSize<T>(s: seq<T>)
    requires Distinct(s)
    ensures |Elements(s)| == |s|
  {
    if s != [] {
      var rest, last := s[..|s| - 1], s[|s| - 1];
      DistinctSize(rest);
      assert s == rest + [last];
      assert Elements(s) == Elements(rest) + {last};
    }
  }

  lemma {:induction false} SubsetSize<T>(s: seq<T>, t: seq<T>)
    requires Distinct(s) && Distinct(t) && forall x :: x in s ==> x in t
    ensures |s| <= |t|
    ensures |s| == |t| ==> forall x :: x in t ==> x in s
  {
    DistinctSize(s);
    DistinctSize(t);
    assert Elements(t) == Elements(s) + (Elements(t) - Elements(s));
    if |s| == |t| {
      assert Elements(t) - Elements(s) == {};
      forall x | x in t
        ensures x in s
      {
        assert x in Elements(t);
      }
    }
  }

  ghost function Count<T>(s: seq<T>, x: T): nat {
    if s == [] then 0 else Count(s[..|s| - 1], x) + if s[|s| - 1] == x then 1 else 0
  }

  lemma {:induction false} CountConcat<T>(s: seq<T>, t: seq<T>, x: T)
    ensures Count(s + t, x) == Count(s, x) + Count(t, x)
  {
    if t == [] {
      assert s + t == s;
    } else {
      assert (s + t)[..|s + t| - 1] == s + t[..|t| - 1];
      CountConcat(s, t[..|t| - 1], x);
    }
  }

  lemma {:induction false} CountRest<T>(s: seq<T>, k: nat)
    requires k < |s|
    ensures forall x :: Count(s[k..], x) == Count(s[k + 1..], x) + if s[k] == x then 1 else 0
  {
    forall x
      ensures Count(s[k..], x) == Count(s[k + 1..], x) + if s[k] == x then 1 else 0
    {
      CountConcat([s[k]], s[k + 1..], x);
      assert s[k..] == [s[k]] + s[k + 1..];
      assert [s[k]][..0] == [];
    }
  }

  function Dropped<T>(s: seq<T>, k: nat): seq<T>
    requires k < |s|
  {
    s[..k] + s[k + 1..]
  }

  function Repeated<T>(x: T, n: nat): (r: seq<T>)
    ensures |r| == n && forall i :: 0 <= i < n ==> r[i] == x
  {
    seq(n, _ => x)
  }

  function RemoveFirst<T(==)>(s: seq<T>, x: T): seq<T> {
    if s == [] then [] else if s[0] == x then s[1..] else [s[0]] + RemoveFirst(s[1..], x)
  }

  lemma {:induction false} FirstIndex<T>(s: seq<T>, x: T) returns (k: nat)
    requires x in s
    ensures k < |s| && s[k] == x && x !in s[..k]
  {
    if s[0] == x {
      k := 0;
    } else {
      k := FirstIndex(s[1..], x);
      assert s[..k + 1] == [s[0]] + s[1..][..k];
      k := k + 1;
    }
  }

  lemma {:induction false} RemoveFirstIsDropped<T>(s: seq<T>, x: T, k: nat)
    requires k < |s| && s[k] == x && x !in s[..k]
    ensures RemoveFirst(s, x) == Dropped(s, k)
  {
    if k > 0 {
      assert s[0] in s[..k] && s[1..][..k - 1] == s[..k][1..];
      RemoveFirstIsDropped(s[1..], x, k - 1);
    }
  }

  lemma {:induction false} Member<T>(s: set<T>) returns (x: T)
    requires s != {}
    ensures x in s
  {
    x :| x in s;
  }

  lemma {:induction false} CardinalityOfSubset<T>(a: set<T>, b: set<T>)
    requires a <= b
    ensures |a| <= |b| && (|a| == |b| <==> a == b)
  {
    assert b == a + (b - a);
  }

  lemma {:induction false} UnionSize<T>(a: set<T>, b: set<T>)
    ensures |a + b| == |a| + |b| - |a * b|
  {
  }

  ghost function SumOver<T(!new)>(s: set<T>, f: T -> nat): nat
    decreases |s|
  {
    if s == {} then 0
    else
      var x :| x in s;
      f(x) + SumOver(s - {x}, f)
  }

  /** The sum does not depend on the order in which elements are taken. */
  lemma {:induction false} SumSplit<T(!new)>(s: set<T>, f: T -> nat, x: T)
    requires x in s
    ensures SumOver(s, f) == f(x) + SumOver(s - {x}, f)
    decreases |s|
  {
    var y :| y in s && SumOver(s, f) == f(y) + SumOver(s - {y}, f);
    if y != x {
      SumSplit(s - {y}, f, x);
      SumSplit(s - {x}, f, y);
      assert s - {y} - {x} == s - {x} - {y};
    }
  }

  lemma {:induction false} SumOfEqual<T(!new)>(s: set<T>, f: T -> nat, c: nat)
    requires forall x :: f(x) == c
    ensures SumOver(s, f) == c * |s|
    decreases |s|
  {
    if s != {} {
      var x :| x in s;
      SumSplit(s, f, x);
      SumOfEqual(s - {x}, f, c);
      assert |s| == |s - {x}| + 1;
      assert c * |s| == c * |s - {x}| + c;
    }
  }

  function SumList<T>(s: seq<T>, f: T -> nat): nat {
    if s == [] then 0 else SumList(s[..|s| - 1], f) + f(s[|s| - 1])
  }

  lemma {:induction false} SumOfDistinct<T(!new)>(s: seq<T>, f: T -> nat)
    requires Distinct(s)
    ensures SumList(s, f) == SumOver(Elements(s), f)
  {
    if s != [] {
      var rest, last := s[..|s| - 1], s[|s| - 1];
      SumOfDistinct(rest, f);
      assert s == rest + [last];
      assert Elements(s) - {last} == Elements(rest);
      SumSplit(Elements(s), f, last);
    }
  }

  lemma {:induction false} SameElementsSameSum<T(!new)>(s: seq<T>, t: seq<T>, f: T -> nat)
    requires Distinct(s) && Distinct(t) && forall x :: x in s <==> x in t
    ensures SumList(s, f) == SumList(t, f)
  {
    SumOfDistinct(s, f);
    SumOfDistinct(t, f);
    assert Elements(s) == Elements(t);
  }

  function Reverse<T>(s: seq<T>): (r: seq<T>)
    ensures |r| == |s| && forall i :: 0 <= i < |s| ==> r[i] == s[|s| - 1 - i]
  {
    seq(|s|, i requires 0 <= i < |s| => s[|s| - 1 - i])
  }

  function Without<T(==)>(s: seq<T>, x: T): seq<T> {
    if s == [] then []
    else Without(s[..|s| - 1], x) + if s[|s| - 1] == x then [] else [s[|s| - 1]]
  }

  lemma {:induction false} WithoutMembers<T>(s: seq<T>, x: T, y: T)
    ensures y in Without(s, x) <==> y in s && y != x
  {
    if s != [] {
      assert s == s[..|s| - 1] + [s[|s| - 1]];
      WithoutMembers(s[..|s| - 1], x, y);
    }
  }

  lemma {:induction false} WithoutCounts<T>(s: seq<T>, x: T, y: T)
    ensures Count(Without(s, x), y) == if y == x then 0 else Count(s, y)
  {
    if s != [] {
      var last := s[|s| - 1];
      WithoutCounts(s[..|s| - 1], x, y);
      CountConcat(Without(s[..|s| - 1], x), if last == x then [] else [last], y);
      assert [last][..0] == [];
    }
  }

  lemma {:induction false} WithoutConcat<T>(s: seq<T>, t: seq<T>, x: T)
    ensures Without(s + t, x) == Without(s, x) + Without(t, x)
    ensures t == [x] ==> Without(t, x) == []
    ensures |t| == 1 && t != [x] ==> Without(t, x) == t
  {
    if t == [] {
      assert s + t == s;
    } else {
      assert (s + t)[..|s + t| - 1] == s + t[..|t| - 1];
      WithoutConcat(s, t[..|t| - 1], x);
    }
  }
}
