/** Finite sums of real-valued functions over an integer range, and the few
    algebraic facts about them that the grid theorems need. */
module Sums {

  /** f(0) + f(1) + ... + f(n - 1), accumulated from the left. */
  function Sum(n: nat, f: int -> real): real
  {
    if n == 0 then 0.0 else Sum(n - 1, f) + f(n - 1)
  }

  /** Sums of functions that agree on the range are equal. */
  lemma {:induction false} SumExt(n: nat, f: int -> real, g: int -> real)
    requires forall k :: 0 <= k < n ==> f(k) == g(k)
    ensures Sum(n, f) == Sum(n, g)
  {
    if n > 0 {
      SumExt(n - 1, f, g);
    }
  }

  /** The sum of a pointwise sum is the sum of the sums. */
  lemma {:induction false} SumAdd(n: nat, f: int -> real, g: int -> real, h: int -> real)
    requires forall k :: 0 <= k < n ==> h(k) == f(k) + g(k)
    ensures Sum(n, h) == Sum(n, f) + Sum(n, g)
  {
    if n > 0 {
      SumAdd(n - 1, f, g, h);
    }
  }

  /** The sum of a scaled function is the scaled sum. */
  lemma {:induction false} SumScale(n: nat, a: real, f: int -> real, h: int -> real)
    requires forall k :: 0 <= k < n ==> h(k) == a * f(k)
    ensures Sum(n, h) == a * Sum(n, f)
  {
    if n > 0 {
      SumScale(n - 1, a, f, h);
    }
  }

  /** Summing a function that is zero on the range gives zero. */
  lemma {:induction false} SumZero(n: nat, f: int -> real)
    requires forall k :: 0 <= k < n ==> f(k) == 0.0
    ensures Sum(n, f) == 0.0
  {
    if n > 0 {
      SumZero(n - 1, f);
    }
  }

  /** Column i of a function of two indices, as a function of the second index. */
  function Column(f: (int, int) -> real, i: int): int -> real
  {
    j => f(i, j)
  }

  /** Row j of a function of two indices, as a function of the first index. */
  function Row(f: (int, int) -> real, j: int): int -> real
  {
    i => f(i, j)
  }

  /** For each first index i, the sum of column i over its first h entries. */
  function ColumnSums(h: nat, f: (int, int) -> real): int -> real
  {
    i => Sum(h, Column(f, i))
  }

  /** For each second index j, the sum of row j over its first w entries. */
  function RowSums(w: nat, f: (int, int) -> real): int -> real
  {
    j => Sum(w, Row(f, j))
  }

  /** The order of a double sum over a w by h rectangle does not matter. */
  lemma {:induction false} SumSwap(w: nat, h: nat, f: (int, int) -> real)
    ensures Sum(w, ColumnSums(h, f)) == Sum(h, RowSums(w, f))
  {
    if w > 0 {
      SumSwap(w - 1, h, f);
      forall j | 0 <= j < h
        ensures RowSums(w, f)(j) == RowSums(w - 1, f)(j) + Column(f, w - 1)(j)
      {
        assert Row(f, j)(w - 1) == f(w - 1, j);
      }
      SumAdd(h, RowSums(w - 1, f), Column(f, w - 1), RowSums(w, f));
      assert ColumnSums(h, f)(w - 1) == Sum(h, Column(f, w - 1));
    } else {
      SumZero(h, RowSums(w, f));
    }
  }

  /** The sum of f over a w by h rectangle, column by column. */
  function DoubleSum(w: nat, h: nat, f: (int, int) -> real): real
  {
    Sum(w, ColumnSums(h, f))
  }

  /** The constant function x. */
  function Constant(x: real): int -> real
  {
    _ => x
  }

  /** On the w by h rectangle, total is the pointwise sum f + g. */
  predicate IsSumOf(w: nat, h: nat, f: (int, int) -> real, g: (int, int) -> real, total: (int, int) -> real)
  {
    forall i, j :: 0 <= i < w && 0 <= j < h ==> total(i, j) == f(i, j) + g(i, j)
  }

  /** Each of the h rows of f (w entries long) sums to r of its index. */
  predicate RowsSumTo(w: nat, h: nat, f: (int, int) -> real, r: int -> real)
  {
    forall j :: 0 <= j < h ==> RowSums(w, f)(j) == r(j)
  }

  /** Each of the w columns of g (h entries long) sums to c of its index. */
  predicate ColumnsSumTo(w: nat, h: nat, g: (int, int) -> real, c: int -> real)
  {
    forall i :: 0 <= i < w ==> ColumnSums(h, g)(i) == c(i)
  }

  /** Summing f + g over a w by h rectangle, with f summed row by row and g
      column by column. */
  lemma {:induction false} DoubleSumOfSum(w: nat, h: nat, f: (int, int) -> real, g: (int, int) -> real,
                                          total: (int, int) -> real)
    requires IsSumOf(w, h, f, g, total)
    ensures DoubleSum(w, h, total) == Sum(h, RowSums(w, f)) + Sum(w, ColumnSums(h, g))
  {
    forall i | 0 <= i < w
      ensures ColumnSums(h, total)(i) == ColumnSums(h, f)(i) + ColumnSums(h, g)(i)
    {
      SumAdd(h, Column(f, i), Column(g, i), Column(total, i));
    }
    SumAdd(w, ColumnSums(h, f), ColumnSums(h, g), ColumnSums(h, total));
    SumSwap(w, h, f);
  }

  /** The double sum of f + g from the row totals r of f and the column totals
      c of g: a discrete summation by parts. */
  lemma DoubleSumByMargins(w: nat, h: nat, f: (int, int) -> real, g: (int, int) -> real,
                           total: (int, int) -> real, r: int -> real, c: int -> real)
    requires IsSumOf(w, h, f, g, total)
    requires RowsSumTo(w, h, f, r) && ColumnsSumTo(w, h, g, c)
    ensures DoubleSum(w, h, total) == Sum(h, r) + Sum(w, c)
  {
    DoubleSumOfSum(w, h, f, g, total);
    SumOfRows(w, h, f, r);
    SumOfColumns(w, h, g, c);
  }

  lemma SumOfRows(w: nat, h: nat, f: (int, int) -> real, r: int -> real)
    requires RowsSumTo(w, h, f, r)
    ensures Sum(h, RowSums(w, f)) == Sum(h, r)
  {
    SumExt(h, RowSums(w, f), r);
  }

  lemma SumOfColumns(w: nat, h: nat, g: (int, int) -> real, c: int -> real)
    requires ColumnsSumTo(w, h, g, c)
    ensures Sum(w, ColumnSums(h, g)) == Sum(w, c)
  {
    SumExt(w, ColumnSums(h, g), c);
  }
}
