/** Finite sums over the reals. */
module Sums {
  import opened Indexing

  function Sum(f: nat -> real, n: nat): real {
    if n == 0 then 0.0 else Sum(f, n - 1) + f(n - 1)
  }

  lemma {:induction false} SumSame(f: nat -> real, g: nat -> real, n: nat)
    requires forall i :: 0 <= i < n ==> f(i) == g(i)
    ensures Sum(f, n) == Sum(g, n)
  {
    if n > 0 {
      SumSame(f, g, n - 1);
    }
  }

  lemma {:induction false} SumZero(f: nat -> real, n: nat)
    requires forall i :: 0 <= i < n ==> f(i) == 0.0
    ensures Sum(f, n) == 0.0
  {
    if n > 0 {
      SumZero(f, n - 1);
    }
  }

  lemma {:induction false} SumAdds(f: nat -> real, g: nat -> real, h: nat -> real, n: nat)
    requires forall i :: 0 <= i < n ==> h(i) == f(i) + g(i)
    ensures Sum(h, n) == Sum(f, n) + Sum(g, n)
  {
    if n > 0 {
      SumAdds(f, g, h, n - 1);
    }
  }

  lemma {:induction false} SumScales(f: nat -> real, g: nat -> real, k: real, n: nat)
    requires forall i :: 0 <= i < n ==> g(i) == k * f(i)
    ensures Sum(g, n) == k * Sum(f, n)
  {
    if n > 0 {
      SumScales(f, g, k, n - 1);
      Distribute(k, Sum(f, n - 1), f(n - 1));
    }
  }

  lemma Distribute(k: real, a: real, b: real)
    ensures k * (a + b) == k * a + k * b
  {
  }

  /** A sum with one nonzero term is that term. With `SumAdds` this determines every sum. */
  lemma {:induction false} SumOfOne(f: nat -> real, k: nat, n: nat)
    requires k < n && forall i :: 0 <= i < n && i != k ==> f(i) == 0.0
    ensures Sum(f, n) == f(k)
    decreases n
  {
    if k == n - 1 {
      SumZero(f, n - 1);
    } else {
      SumOfOne(f, k, n - 1);
    }
  }

  /** The first `m` terms, then the other `n`. */
  lemma {:induction false} SumSplits(f: nat -> real, g: nat -> real, m: nat, n: nat)
    requires forall i :: 0 <= i < n ==> g(i) == f(m + i)
    ensures Sum(f, m + n) == Sum(f, m) + Sum(g, n)
  {
    if n > 0 {
      SumSplits(f, g, m, n - 1);
    }
  }

  /** Row `i` of a table of terms. */
  function Row(t: (nat, nat) -> real, i: nat): nat -> real {
    (j: nat) => t(i, j)
  }

  function RowSums(t: (nat, nat) -> real, n: nat): nat -> real {
    (i: nat) => Sum(Row(t, i), n)
  }

  /** An `m` by `n` table, summed row by row. */
  function Total(t: (nat, nat) -> real, m: nat, n: nat): real {
    Sum(RowSums(t, n), m)
  }

  function Flip(t: (nat, nat) -> real): (nat, nat) -> real {
    (j: nat, i: nat) => t(i, j)
  }

  /** The order of two summations does not matter. */
  lemma {:induction false} TotalFlips(t: (nat, nat) -> real, m: nat, n: nat)
    ensures Total(t, m, n) == Total(Flip(t), n, m)
  {
    if m == 0 {
      SumZero(RowSums(Flip(t), 0), n);
    } else {
      TotalFlips(t, m - 1, n);
      forall j | 0 <= j < n
        ensures RowSums(Flip(t), m)(j) == RowSums(Flip(t), m - 1)(j) + Row(t, m - 1)(j)
      {
      }
      SumAdds(RowSums(Flip(t), m - 1), Row(t, m - 1), RowSums(Flip(t), m), n);
    }
  }

  /** `f` lists the rows of `t` one after the other. */
  ghost predicate Lists(f: nat -> real, t: (nat, nat) -> real, m: nat, n: nat) {
    forall i, j :: 0 <= i < m && 0 <= j < n ==> f(Flat(i, j, n)) == t(i, j)
  }

  lemma ListsRow(f: nat -> real, t: (nat, nat) -> real, m: nat, n: nat, i: nat)
    requires Lists(f, t, m, n) && i < m
    ensures Sum(f, At(i + 1, n)) == Sum(f, At(i, n)) + Sum(Row(t, i), n)
  {
    hide At;
    AtNext(i, n);
    var g := Row(t, i);
    forall j | 0 <= j < n
      ensures g(j) == f(At(i, n) + j)
    {
      assert f(Flat(i, j, n)) == t(i, j);
    }
    hide Lists;
    SumSplits(f, g, At(i, n), n);
  }

  /** A flattened table sums to the same. */
  lemma {:induction false} SumOfTable(f: nat -> real, t: (nat, nat) -> real, m: nat, n: nat)
    requires Lists(f, t, m, n)
    ensures Sum(f, At(m, n)) == Total(t, m, n)
    decreases m
  {
    hide At;
    AtNext(0, n);
    if m > 0 {
      SumOfTable(f, t, m - 1, n);
      ListsRow(f, t, m, n, m - 1);
    }
  }

  // ------------------------------------------------------------ matrices and vectors

  function Times(f: nat -> real, g: nat -> real): nat -> real {
    (i: nat) => f(i) * g(i)
  }

  /** The product of a matrix, `n` columns wide, and a vector. */
  function MatVec(a: (nat, nat) -> real, v: nat -> real, n: nat): nat -> real {
    (i: nat) => Sum(Times(Row(a, i), v), n)
  }

  /** u . (A v) is (A^T u) . v: a matrix can be moved from one factor to the other. */
  lemma MatrixMoves(a: (nat, nat) -> real, u: nat -> real, v: nat -> real, m: nat, n: nat)
    ensures Sum(Times(u, MatVec(a, v, n)), m) == Sum(Times(MatVec(Flip(a), u, m), v), n)
  {
    var t := (i: nat, j: nat) => u(i) * (a(i, j) * v(j));
    forall i | 0 <= i < m
      ensures Times(u, MatVec(a, v, n))(i) == RowSums(t, n)(i)
    {
      SumScales(Times(Row(a, i), v), Row(t, i), u(i), n);
    }
    SumSame(Times(u, MatVec(a, v, n)), RowSums(t, n), m);
    TotalFlips(t, m, n);
    forall j | 0 <= j < n
      ensures Times(MatVec(Flip(a), u, m), v)(j) == RowSums(Flip(t), m)(j)
    {
      forall i | 0 <= i < m
        ensures Row(Flip(t), j)(i) == v(j) * Times(Row(Flip(a), j), u)(i)
      {
        Commute(u(i), a(i, j), v(j));
      }
      SumScales(Times(Row(Flip(a), j), u), Row(Flip(t), j), v(j), m);
    }
    SumSame(Times(MatVec(Flip(a), u, m), v), RowSums(Flip(t), m), n);
  }

  lemma Commute(u: real, a: real, v: real)
    ensures u * (a * v) == v * (a * u)
  {
    assert a * v == v * a;
    Associate(u, v, a);
    Associate(v, u, a);
    assert u * v == v * u;
    assert a * u == u * a;
  }

  lemma Associate(x: real, y: real, z: real)
    ensures x * (y * z) == (x * y) * z
  {
  }
}
