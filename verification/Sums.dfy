/** Integer sums over rows of a table, and the exchange laws the conservation proofs rest on. */
module Sums {

  function Min(x: int, y: int): int { if x <= y then x else y }
  function Max(x: int, y: int): int { if x >= y then x else y }

  /** The SQL aggregate COALESCE(SUM(f(row)), 0) over the rows of `s`. */
  function SumBy<T>(s: seq<T>, f: T -> int): int {
    if s == [] then 0 else SumBy(s[..|s| - 1], f) + f(s[|s| - 1])
  }

  lemma SumAppend<T>(s: seq<T>, x: T, f: T -> int)
    ensures SumBy(s + [x], f) == SumBy(s, f) + f(x)
  {
    assert (s + [x])[..|s|] == s;
  }

  lemma {:induction false} SumConcat<T>(s: seq<T>, t: seq<T>, f: T -> int)
    ensures SumBy(s + t, f) == SumBy(s, f) + SumBy(t, f)
  {
    if t == [] {
      assert s + t == s;
    } else {
      var t0, x := t[..|t| - 1], t[|t| - 1];
      assert s + t == (s + t0) + [x] && t == t0 + [x];
      SumConcat(s, t0, f);
      SumAppend(s + t0, x, f);
      SumAppend(t0, x, f);
    }
  }

  /** If h = f + g on every row then the sums add. */
  lemma {:induction false} SumAdd<T>(s: seq<T>, f: T -> int, g: T -> int, h: T -> int)
    requires forall x :: x in s ==> h(x) == f(x) + g(x)
    ensures SumBy(s, h) == SumBy(s, f) + SumBy(s, g)
  {
    if s != [] {
      assert forall x :: x in s[..|s| - 1] ==> x in s;
      SumAdd(s[..|s| - 1], f, g, h);
    }
  }

  lemma {:induction false} SumEqual<T>(s: seq<T>, f: T -> int, g: T -> int)
    requires forall x :: x in s ==> f(x) == g(x)
    ensures SumBy(s, f) == SumBy(s, g)
  {
    if s != [] {
      assert forall x :: x in s[..|s| - 1] ==> x in s;
      SumEqual(s[..|s| - 1], f, g);
    }
  }

  lemma {:induction false} SumZero<T>(s: seq<T>, f: T -> int)
    requires forall x :: x in s ==> f(x) == 0
    ensures SumBy(s, f) == 0
  {
    if s != [] {
      assert forall x :: x in s[..|s| - 1] ==> x in s;
      SumZero(s[..|s| - 1], f);
    }
  }

  lemma {:induction false} SumNonNegative<T>(s: seq<T>, f: T -> int)
    requires forall x :: x in s ==> f(x) >= 0
    ensures SumBy(s, f) >= 0
  {
    if s != [] {
      assert forall x :: x in s[..|s| - 1] ==> x in s;
      SumNonNegative(s[..|s| - 1], f);
    }
  }

  lemma {:induction false} SumMonotone<T>(s: seq<T>, f: T -> int, g: T -> int)
    requires forall x :: x in s ==> f(x) <= g(x)
    ensures SumBy(s, f) <= SumBy(s, g)
    ensures (exists x :: x in s && f(x) < g(x)) ==> SumBy(s, f) < SumBy(s, g)
  {
    if s != [] {
      assert s == s[..|s| - 1] + [s[|s| - 1]];
      SumMonotone(s[..|s| - 1], f, g);
    }
  }

  lemma {:induction false} SumBounded<T>(s: seq<T>, f: T -> int, bound: int)
    requires forall x :: x in s ==> f(x) <= bound
    ensures SumBy(s, f) <= bound * |s|
  {
    if s != [] {
      assert forall x :: x in s[..|s| - 1] ==> x in s;
      SumBounded(s[..|s| - 1], f, bound);
    }
  }

  /** A sum in which only the row at `i` counts. */
  lemma {:induction false} SumSingle<T>(s: seq<T>, i: nat, f: T -> int)
    requires i < |s|
    requires forall j :: 0 <= j < |s| && j != i ==> f(s[j]) == 0
    ensures SumBy(s, f) == f(s[i])
  {
    var s0 := s[..|s| - 1];
    if i == |s| - 1 {
      assert forall x :: x in s0 ==> exists j :: 0 <= j < |s0| && s0[j] == x && s[j] == x;
      SumZero(s0, f);
    } else {
      assert forall j :: 0 <= j < |s0| ==> s0[j] == s[j];
      SumSingle(s0, i, f);
    }
  }

  /** Replacing one row changes the sum by the difference of the two rows. */
  lemma {:induction false} SumUpdate<T>(s: seq<T>, i: nat, x: T, f: T -> int)
    requires i < |s|
    ensures SumBy(s[i := x], f) == SumBy(s, f) - f(s[i]) + f(x)
  {
    var n := |s| - 1;
    if i == n {
      assert s[i := x][..n] == s[..n];
    } else {
      assert s[i := x][..n] == s[..n][i := x];
      SumUpdate(s[..n], i, x, f);
    }
  }

  function Row<T, U>(f: (T, U) -> int, x: T): U -> int { (y: U) => f(x, y) }
  function Col<T, U>(f: (T, U) -> int, y: U): T -> int { (x: T) => f(x, y) }
  function RowSum<T, U>(f: (T, U) -> int, t: seq<U>): T -> int { (x: T) => SumBy(t, Row(f, x)) }
  function ColSum<T, U>(f: (T, U) -> int, s: seq<T>): U -> int { (y: U) => SumBy(s, Col(f, y)) }

  /** Exchange of summation order. */
  lemma {:induction false} SumSwap<T, U>(s: seq<T>, t: seq<U>, f: (T, U) -> int)
    ensures SumBy(s, RowSum(f, t)) == SumBy(t, ColSum(f, s))
  {
    if s == [] {
      SumZero(t, ColSum(f, s));
    } else {
      var s0, x := s[..|s| - 1], s[|s| - 1];
      SumSwap(s0, t, f);
      forall y | y in t
        ensures ColSum(f, s)(y) == ColSum(f, s0)(y) + Row(f, x)(y)
      {
        assert s == s0 + [x];
        SumAppend(s0, x, Col(f, y));
      }
      SumAdd(t, ColSum(f, s0), Row(f, x), ColSum(f, s));
    }
  }
}
