/**
 Accumulation of a real-valued measure over a sequence, in the shape of
 `xs.reduce((sum, x) => sum + f(x), 0)`: left to right, starting from 0.
 */
module Sums {

  function SumBy<T>(s: seq<T>, f: T -> real): real
    decreases |s|
  {
    if |s| == 0 then 0.0 else SumBy(s[..|s| - 1], f) + f(s[|s| - 1])
  }

  /** Reference definition: the same sum accumulated from the head. */
  function SumRight<T>(s: seq<T>, f: T -> real): real
    decreases |s|
  {
    if |s| == 0 then 0.0 else f(s[0]) + SumRight(s[1..], f)
  }

  /** The sum over a concatenation is the sum of the parts' sums. */
  lemma {:induction false} SumByAppend<T>(a: seq<T>, b: seq<T>, f: T -> real)
    ensures SumBy(a + b, f) == SumBy(a, f) + SumBy(b, f)
    decreases |b|
  {
    if |b| == 0 {
      assert a + b == a;
    } else {
      var b' := b[..|b| - 1];
      assert (a + b)[..|a + b| - 1] == a + b';
      assert (a + b)[|a + b| - 1] == b[|b| - 1];
      SumByAppend(a, b', f);
    }
  }

  /** Prepending an element adds its measure. */
  lemma SumByCons<T>(x: T, s: seq<T>, f: T -> real)
    ensures SumBy([x] + s, f) == f(x) + SumBy(s, f)
  {
    SumByAppend([x], s, f);
    assert [x][..0] == [];
  }

  /** Left-to-right and head-first accumulation agree. */
  lemma {:induction false} SumByIsSumRight<T>(s: seq<T>, f: T -> real)
    ensures SumBy(s, f) == SumRight(s, f)
    decreases |s|
  {
    if |s| > 0 {
      assert s == [s[0]] + s[1..];
      SumByCons(s[0], s[1..], f);
      SumByIsSumRight(s[1..], f);
    }
  }

  /** A sum of non-negative measures is non-negative. */
  lemma {:induction false} SumByNonNegative<T>(s: seq<T>, f: T -> real)
    requires forall i :: 0 <= i < |s| ==> f(s[i]) >= 0.0
    ensures SumBy(s, f) >= 0.0
    decreases |s|
  {
    if |s| > 0 {
      SumByNonNegative(s[..|s| - 1], f);
    }
  }
}
