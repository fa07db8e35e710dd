/** The linear per-texel fragment shaders of the smoke solver (divergence,
    curl, Jacobi pressure relaxation, gradient subtraction and the pressure
    "clear"), stated as functions over real-valued grids.

    A texture of w by h texels is a grid g with g[i][j] the texel in column i
    (the x axis, left to right) and row j (the y axis, row 0 at the bottom).
    The shaders run once per texel centre ((i + 0.5) / w, (j + 0.5) / h) and
    read the four neighbours one texel size away. Every simulation texture
    uses CLAMP_TO_EDGE wrapping, so a neighbour that falls off the grid reads
    the nearest edge texel: Texel clamps its indices. At a texel centre the
    sampled coordinate is exactly the neighbour's centre, so linear and
    nearest filtering read the same value. */
module GridStencils {
  import opened Sums

  datatype Vec2 = Vec2(x: real, y: real)

  /** A one-channel texture (divergence, curl, pressure). */
  type Grid = seq<seq<real>>

  /** A two-channel texture (velocity). */
  type Field = seq<seq<Vec2>>

  function Width<T>(g: seq<seq<T>>): nat
  {
    |g|
  }

  function Height<T>(g: seq<seq<T>>): nat
  {
    if |g| == 0 then 0 else |g[0]|
  }

  /** A non-empty rectangular grid. */
  predicate IsRect<T>(g: seq<seq<T>>)
  {
    |g| > 0 && |g[0]| > 0 && forall i :: 0 <= i < |g| ==> |g[i]| == |g[0]|
  }

  /** CLAMP_TO_EDGE on one axis of n texels. */
  function Clamp(k: int, n: nat): (r: int)
    ensures n > 0 ==> 0 <= r < n
    ensures 0 <= k < n ==> r == k
  {
    if k < 0 then 0 else if k >= n then n - 1 else k
  }

  /** The texel read at integer offset (i, j), with clamping. */
  function Texel(g: Grid, i: int, j: int): real
  {
    if |g| == 0 then 0.0
    else
      var column := g[Clamp(i, |g|)];
      if |column| == 0 then 0.0 else column[Clamp(j, |column|)]
  }

  function TexelV(v: Field, i: int, j: int): Vec2
  {
    if |v| == 0 then Vec2(0.0, 0.0)
    else
      var column := v[Clamp(i, |v|)];
      if |column| == 0 then Vec2(0.0, 0.0) else column[Clamp(j, |column|)]
  }

  /** The shaders' off-grid tests at a texel centre: on a line of n texels the
      left (or bottom) neighbour's coordinate (i + 0.5) / n - 1 / n is below 0
      exactly at i = 0, and the right (or top) neighbour's coordinate
      (i + 0.5) / n + 1 / n is above 1 exactly at i = n - 1. */
  lemma EdgeTestsAtTexelCentres(i: int, n: int)
    requires 0 <= i < n
    ensures (i as real + 0.5) / n as real - 1.0 / n as real < 0.0 <==> i == 0
    ensures (i as real + 0.5) / n as real + 1.0 / n as real > 1.0 <==> i == n - 1
  {
    var w := n as real;
    assert (i as real + 0.5) / w - 1.0 / w == (i as real - 0.5) / w;
    assert (i as real + 0.5) / w + 1.0 / w == (i as real + 1.5) / w;
    assert (i as real - 0.5) / w < 0.0 <==> i as real - 0.5 < 0.0;
    assert (i as real + 1.5) / w > 1.0 <==> i as real + 1.5 > w;
  }

  // ---------------------------------------------------------------------
  // One-dimensional differences with boundary substitutes

  /** Forward neighbour minus backward neighbour of texel k on a line of n
      texels read through a; where a neighbour is off the line it is replaced
      by the centre value scaled by `high` (at k = n - 1) or `low` (at k = 0):
      -1 mirrors the value (closed wall), +1 repeats it (open edge, or
      CLAMP_TO_EDGE). */
  function EdgeDiff(a: int -> real, n: int, k: int, low: real, high: real): real
  {
    (if k == n - 1 then high * a(k) else a(k + 1)) - (if k == 0 then low * a(k) else a(k - 1))
  }

  function EdgeDiffs(a: int -> real, n: int, low: real, high: real): int -> real
  {
    k => EdgeDiff(a, n, k, low, high)
  }

  lemma {:induction false} EdgeDiffPartialSum(a: int -> real, n: int, low: real, high: real, m: nat)
    requires 1 <= m < n
    ensures Sum(m, EdgeDiffs(a, n, low, high)) == a(m - 1) + a(m) - (1.0 + low) * a(0)
  {
    if m > 1 {
      EdgeDiffPartialSum(a, n, low, high, m - 1);
    }
  }

  /** Summation by parts on a line: the interior differences telescope and only
      the two boundary substitutes remain. */
  lemma {:induction false} EdgeDiffSum(a: int -> real, n: nat, low: real, high: real)
    requires n >= 1
    ensures Sum(n, EdgeDiffs(a, n, low, high)) == (1.0 + high) * a(n - 1) - (1.0 + low) * a(0)
  {
    if n > 1 {
      EdgeDiffPartialSum(a, n, low, high, n - 1);
    }
  }

  // ---------------------------------------------------------------------
  // Divergence

  /** The divergence shader at texel (i, j) of a w by h velocity field: the
      left, right and bottom edges are closed (the missing neighbour's normal
      component is the mirrored centre value), the top edge is open (the
      missing neighbour repeats the centre value). */
  function DivergenceAt(v: Field, i: int, j: int): real
  {
    var c := TexelV(v, i, j);
    var l := if i == 0 then -c.x else TexelV(v, i - 1, j).x;
    var r := if i == Width(v) - 1 then -c.x else TexelV(v, i + 1, j).x;
    var t := if j == Height(v) - 1 then c.y else TexelV(v, i, j + 1).y;
    var b := if j == 0 then -c.y else TexelV(v, i, j - 1).y;
    0.5 * (r - l + t - b)
  }

  /** The divergence pass: one texel per velocity texel. */
  function Divergence(v: Field): (d: Grid)
    requires IsRect(v)
    ensures IsRect(d) && Width(d) == Width(v) && Height(d) == Height(v)
    ensures forall i, j :: 0 <= i < Width(v) && 0 <= j < Height(v) ==> d[i][j] == DivergenceAt(v, i, j)
  {
    seq(Width(v), i => seq(Height(v), j => DivergenceAt(v, i, j)))
  }

  function TexelsOf(g: Grid): (int, int) -> real
  {
    (i, j) => Texel(g, i, j)
  }

  /** The sum of all texels of a grid. */
  function GridSum(g: Grid): real
  {
    DoubleSum(Width(g), Height(g), TexelsOf(g))
  }

  function XComponents(v: Field): (int, int) -> real
  {
    (i, j) => TexelV(v, i, j).x
  }

  function YComponents(v: Field): (int, int) -> real
  {
    (i, j) => TexelV(v, i, j).y
  }

  /** The vertical velocity of each column's top texel: what leaves through the top edge. */
  function TopOutflow(v: Field): int -> real
  {
    i => TexelV(v, i, Height(v) - 1).y
  }

  /** Half of R - L in the divergence shader at (i, j), with closed left and right walls. */
  function WallDiffs(v: Field): (int, int) -> real
  {
    (i, j) => 0.5 * EdgeDiff(Row(XComponents(v), j), Width(v), i, -1.0, -1.0)
  }

  /** Half of T - B in the divergence shader at (i, j), with a closed bottom and an open top. */
  function OpenTopDiffs(v: Field): (int, int) -> real
  {
    (i, j) => 0.5 * EdgeDiff(Column(YComponents(v), i), Height(v), j, -1.0, 1.0)
  }

  lemma DivergenceSplit(v: Field, i: int, j: int)
    requires IsRect(v) && 0 <= i < Width(v) && 0 <= j < Height(v)
    ensures TexelsOf(Divergence(v))(i, j) == WallDiffs(v)(i, j) + OpenTopDiffs(v)(i, j)
  {
    assert Texel(Divergence(v), i, j) == DivergenceAt(v, i, j);
  }

  /** Along each row the closed side walls cancel: the R - L terms sum to zero. */
  lemma DivergenceRowBalance(v: Field, j: int)
    requires IsRect(v)
    ensures RowSums(Width(v), WallDiffs(v))(j) == 0.0
  {
    SumScale(Width(v), 0.5, EdgeDiffs(Row(XComponents(v), j), Width(v), -1.0, -1.0), Row(WallDiffs(v), j));
    EdgeDiffSum(Row(XComponents(v), j), Width(v), -1.0, -1.0);
  }

  /** Up each column the closed bottom cancels and the open top counts twice,
      so the halved T - B terms sum to the column's top outflow. */
  lemma DivergenceColumnBalance(v: Field, i: int)
    requires IsRect(v)
    ensures ColumnSums(Height(v), OpenTopDiffs(v))(i) == TopOutflow(v)(i)
  {
    SumScale(Height(v), 0.5, EdgeDiffs(Column(YComponents(v), i), Height(v), -1.0, 1.0), Column(OpenTopDiffs(v), i));
    EdgeDiffSum(Column(YComponents(v), i), Height(v), -1.0, 1.0);
  }

  lemma {:induction false} DivergenceSplitAll(v: Field)
    requires IsRect(v)
    ensures IsSumOf(Width(v), Height(v), WallDiffs(v), OpenTopDiffs(v), TexelsOf(Divergence(v)))
  {
    forall i, j | 0 <= i < Width(v) && 0 <= j < Height(v)
      ensures TexelsOf(Divergence(v))(i, j) == WallDiffs(v)(i, j) + OpenTopDiffs(v)(i, j)
    {
      DivergenceSplit(v, i, j);
    }
  }

  lemma DivergenceRowsBalance(v: Field)
    requires IsRect(v)
    ensures RowsSumTo(Width(v), Height(v), WallDiffs(v), Constant(0.0))
  {
    forall j | 0 <= j < Height(v)
      ensures RowSums(Width(v), WallDiffs(v))(j) == Constant(0.0)(j)
    {
      DivergenceRowBalance(v, j);
    }
  }

  lemma DivergenceColumnsBalance(v: Field)
    requires IsRect(v)
    ensures ColumnsSumTo(Width(v), Height(v), OpenTopDiffs(v), TopOutflow(v))
  {
    forall i | 0 <= i < Width(v)
      ensures ColumnSums(Height(v), OpenTopDiffs(v))(i) == TopOutflow(v)(i)
    {
      DivergenceColumnBalance(v, i);
    }
  }

  /** Discrete divergence theorem for the smoke box: the divergence summed over
      the whole grid equals the flow out through the top edge alone, whatever
      the velocities along the closed left, right and bottom walls. */
  lemma DivergenceTotalIsTopOutflow(v: Field)
    requires IsRect(v)
    ensures GridSum(Divergence(v)) == Sum(Width(v), TopOutflow(v))
  {
    DivergenceSplitAll(v);
    DivergenceRowsBalance(v);
    DivergenceColumnsBalance(v);
    DoubleSumByMargins(Width(v), Height(v), WallDiffs(v), OpenTopDiffs(v), TexelsOf(Divergence(v)),
                       Constant(0.0), TopOutflow(v));
    SumZero(Height(v), Constant(0.0));
  }

  // ---------------------------------------------------------------------
  // Curl

  /** The curl shader at texel (i, j): half the central-difference vorticity
      dv.y/dx - dv.x/dy, every neighbour read through CLAMP_TO_EDGE. */
  function CurlAt(v: Field, i: int, j: int): real
  {
    var l := TexelV(v, i - 1, j).y;
    var r := TexelV(v, i + 1, j).y;
    var t := TexelV(v, i, j + 1).x;
    var b := TexelV(v, i, j - 1).x;
    0.5 * (r - l - t + b)
  }

  function Curl(v: Field): (c: Grid)
    requires IsRect(v)
    ensures IsRect(c) && Width(c) == Width(v) && Height(c) == Height(v)
    ensures forall i, j :: 0 <= i < Width(v) && 0 <= j < Height(v) ==> c[i][j] == CurlAt(v, i, j)
  {
    seq(Width(v), i => seq(Height(v), j => CurlAt(v, i, j)))
  }

  /** Up the right edge minus up the left edge, row by row. */
  function SideCirculation(v: Field): int -> real
  {
    j => TexelV(v, Width(v) - 1, j).y - TexelV(v, 0, j).y
  }

  /** Along the bottom edge minus along the top edge, column by column. */
  function BottomTopCirculation(v: Field): int -> real
  {
    i => TexelV(v, i, 0).x - TexelV(v, i, Height(v) - 1).x
  }

  /** Half of dv.y along x at (i, j), every neighbour clamped. */
  function CurlAcross(v: Field): (int, int) -> real
  {
    (i, j) => 0.5 * EdgeDiff(Row(YComponents(v), j), Width(v), i, 1.0, 1.0)
  }

  /** Minus half of dv.x along y at (i, j), every neighbour clamped. */
  function CurlUp(v: Field): (int, int) -> real
  {
    (i, j) => -0.5 * EdgeDiff(Column(XComponents(v), i), Height(v), j, 1.0, 1.0)
  }

  lemma CurlSplit(v: Field, i: int, j: int)
    requires IsRect(v) && 0 <= i < Width(v) && 0 <= j < Height(v)
    ensures TexelsOf(Curl(v))(i, j) == CurlAcross(v)(i, j) + CurlUp(v)(i, j)
  {
    assert Texel(Curl(v), i, j) == CurlAt(v, i, j);
  }

  lemma CurlRowSum(v: Field, j: int)
    requires IsRect(v)
    ensures RowSums(Width(v), CurlAcross(v))(j) == SideCirculation(v)(j)
  {
    SumScale(Width(v), 0.5, EdgeDiffs(Row(YComponents(v), j), Width(v), 1.0, 1.0), Row(CurlAcross(v), j));
    EdgeDiffSum(Row(YComponents(v), j), Width(v), 1.0, 1.0);
  }

  lemma CurlColumnSum(v: Field, i: int)
    requires IsRect(v)
    ensures ColumnSums(Height(v), CurlUp(v))(i) == BottomTopCirculation(v)(i)
  {
    SumScale(Height(v), -0.5, EdgeDiffs(Column(XComponents(v), i), Height(v), 1.0, 1.0), Column(CurlUp(v), i));
    EdgeDiffSum(Column(XComponents(v), i), Height(v), 1.0, 1.0);
  }

  lemma {:induction false} CurlSplitAll(v: Field)
    requires IsRect(v)
    ensures IsSumOf(Width(v), Height(v), CurlAcross(v), CurlUp(v), TexelsOf(Curl(v)))
  {
    forall i, j | 0 <= i < Width(v) && 0 <= j < Height(v)
      ensures TexelsOf(Curl(v))(i, j) == CurlAcross(v)(i, j) + CurlUp(v)(i, j)
    {
      CurlSplit(v, i, j);
    }
  }

  lemma CurlRowSums(v: Field)
    requires IsRect(v)
    ensures RowsSumTo(Width(v), Height(v), CurlAcross(v), SideCirculation(v))
  {
    forall j | 0 <= j < Height(v)
      ensures RowSums(Width(v), CurlAcross(v))(j) == SideCirculation(v)(j)
    {
      CurlRowSum(v, j);
    }
  }

  lemma CurlColumnSums(v: Field)
    requires IsRect(v)
    ensures ColumnsSumTo(Width(v), Height(v), CurlUp(v), BottomTopCirculation(v))
  {
    forall i | 0 <= i < Width(v)
      ensures ColumnSums(Height(v), CurlUp(v))(i) == BottomTopCirculation(v)(i)
    {
      CurlColumnSum(v, i);
    }
  }

  /** Discrete Stokes theorem: the curl summed over the grid equals the
      counter-clockwise circulation of the velocity along the grid's border
      (up the right edge, back along the top, down the left, along the bottom). */
  lemma CurlTotalIsBoundaryCirculation(v: Field)
    requires IsRect(v)
    ensures GridSum(Curl(v)) == Sum(Height(v), SideCirculation(v)) + Sum(Width(v), BottomTopCirculation(v))
  {
    CurlSplitAll(v);
    CurlRowSums(v);
    CurlColumnSums(v);
    DoubleSumByMargins(Width(v), Height(v), CurlAcross(v), CurlUp(v), TexelsOf(Curl(v)),
                       SideCirculation(v), BottomTopCirculation(v));
  }

  /** In the interior, a rigid rotation with angular speed omega has curl 2 * omega everywhere. */
  lemma CurlOfRotationInInterior(v: Field, omega: real, i: int, j: int)
    requires IsRect(v)
    requires forall a, b :: 0 <= a < Width(v) && 0 <= b < Height(v) ==> v[a][b] == Vec2(-omega * b as real, omega * a as real)
    requires 0 < i < Width(v) - 1 && 0 < j < Height(v) - 1
    ensures CurlAt(v, i, j) == 2.0 * omega
  {
    assert TexelV(v, i + 1, j) == v[i + 1][j];
    assert TexelV(v, i - 1, j) == v[i - 1][j];
    assert TexelV(v, i, j + 1) == v[i][j + 1];
    assert TexelV(v, i, j - 1) == v[i][j - 1];
  }

  // ---------------------------------------------------------------------
  // Pressure: clear, Jacobi relaxation, gradient subtraction

  function Abs(x: real): real
  {
    if x < 0.0 then -x else x
  }

  /** The clear pass: every pressure texel scaled by `value` (the warm-start factor). */
  function Clear(p: Grid, value: real): (r: Grid)
    requires IsRect(p)
    ensures IsRect(r) && Width(r) == Width(p) && Height(r) == Height(p)
    ensures forall i, j :: 0 <= i < Width(p) && 0 <= j < Height(p) ==> r[i][j] == value * p[i][j]
    ensures 0.0 <= value <= 1.0 ==>
      forall i, j :: 0 <= i < Width(p) && 0 <= j < Height(p) ==> Abs(r[i][j]) <= Abs(p[i][j])
  {
    seq(Width(p), i requires 0 <= i < Width(p) => seq(Height(p), j requires 0 <= j < Height(p) => value * p[i][j]))
  }

  /** The five-point Laplacian with CLAMP_TO_EDGE neighbours (a reflecting edge). */
  function LaplacianAt(p: Grid, i: int, j: int): real
  {
    Texel(p, i - 1, j) + Texel(p, i + 1, j) + Texel(p, i, j - 1) + Texel(p, i, j + 1) - 4.0 * Texel(p, i, j)
  }

  /** The pressure shader: one Jacobi step for the Poisson equation
      Laplacian(p) = divergence. A texel is left unchanged exactly when it
      already satisfies that equation. */
  function JacobiAt(p: Grid, d: Grid, i: int, j: int): (r: real)
    ensures r == Texel(p, i, j) <==> LaplacianAt(p, i, j) == Texel(d, i, j)
  {
    var l := Texel(p, i - 1, j);
    var r := Texel(p, i + 1, j);
    var t := Texel(p, i, j + 1);
    var b := Texel(p, i, j - 1);
    (l + r + b + t - Texel(d, i, j)) * 0.25
  }

  /** One Jacobi pass over the pressure texture against the divergence texture. */
  function Jacobi(p: Grid, d: Grid): (r: Grid)
    requires IsRect(p)
    ensures IsRect(r) && Width(r) == Width(p) && Height(r) == Height(p)
    ensures forall i, j :: 0 <= i < Width(p) && 0 <= j < Height(p) ==> r[i][j] == JacobiAt(p, d, i, j)
  {
    seq(Width(p), i => seq(Height(p), j => JacobiAt(p, d, i, j)))
  }

  /** p solves the discrete Poisson equation Laplacian(p) = d at every texel. */
  predicate SolvesPoisson(p: Grid, d: Grid)
  {
    forall i, j {:trigger LaplacianAt(p, i, j)} :: 0 <= i < Width(p) && 0 <= j < Height(p) ==> LaplacianAt(p, i, j) == Texel(d, i, j)
  }

  /** A Jacobi pass leaves the pressure unchanged exactly when it solves the
      discrete Poisson equation at every texel. */
  lemma JacobiFixedPointIffPoisson(p: Grid, d: Grid)
    requires IsRect(p)
    ensures Jacobi(p, d) == p <==> SolvesPoisson(p, d)
  {
    var r := Jacobi(p, d);
    if SolvesPoisson(p, d) {
      forall i | 0 <= i < Width(p)
        ensures r[i] == p[i]
      {
        forall j | 0 <= j < Height(p)
          ensures r[i][j] == p[i][j]
        {
          assert Texel(p, i, j) == p[i][j];
        }
      }
    }
    if r == p {
      forall i, j | 0 <= i < Width(p) && 0 <= j < Height(p)
        ensures LaplacianAt(p, i, j) == Texel(d, i, j)
      {
        assert Texel(p, i, j) == p[i][j];
      }
    }
  }

  /** Two grids of the same shape whose texels differ by at most m. */
  predicate Within(p: Grid, q: Grid, m: real)
  {
    IsRect(p) && IsRect(q) && Width(p) == Width(q) && Height(p) == Height(q) &&
    forall i, j {:trigger p[i][j]} :: 0 <= i < Width(p) && 0 <= j < Height(p) ==> Abs(p[i][j] - q[i][j]) <= m
  }

  lemma TexelWithin(p: Grid, q: Grid, m: real, i: int, j: int)
    requires Within(p, q, m)
    ensures Abs(Texel(p, i, j) - Texel(q, i, j)) <= m
  {
    var a, b := Clamp(i, Width(p)), Clamp(j, Height(p));
    assert Texel(p, i, j) == p[a][b] && Texel(q, i, j) == q[a][b];
  }

  /** A Jacobi pass never increases the largest texel-wise difference between two pressure fields. */
  lemma JacobiNonExpansive(p: Grid, q: Grid, d: Grid, m: real)
    requires Within(p, q, m)
    ensures Within(Jacobi(p, d), Jacobi(q, d), m)
  {
    var jp, jq := Jacobi(p, d), Jacobi(q, d);
    forall i, j | 0 <= i < Width(p) && 0 <= j < Height(p)
      ensures Abs(jp[i][j] - jq[i][j]) <= m
    {
      JacobiTexelNonExpansive(p, q, d, m, i, j);
    }
  }

  lemma JacobiTexelNonExpansive(p: Grid, q: Grid, d: Grid, m: real, i: int, j: int)
    requires Within(p, q, m)
    ensures Abs(JacobiAt(p, d, i, j) - JacobiAt(q, d, i, j)) <= m
  {
    TexelWithin(p, q, m, i - 1, j);
    TexelWithin(p, q, m, i + 1, j);
    TexelWithin(p, q, m, i, j - 1);
    TexelWithin(p, q, m, i, j + 1);
    QuarterNear(Texel(p, i - 1, j), Texel(p, i + 1, j), Texel(p, i, j - 1), Texel(p, i, j + 1),
                Texel(q, i - 1, j), Texel(q, i + 1, j), Texel(q, i, j - 1), Texel(q, i, j + 1), Texel(d, i, j), m);
  }

  /** n Jacobi passes against the same divergence texture. */
  function JacobiIterate(n: nat, p: Grid, d: Grid): (r: Grid)
    requires IsRect(p)
    ensures IsRect(r) && Width(r) == Width(p) && Height(r) == Height(p)
  {
    if n == 0 then p else Jacobi(JacobiIterate(n - 1, p, d), d)
  }

  /** One Jacobi pass never moves the pressure further (in the largest
      texel-wise difference) from a solution of the Poisson equation. */
  lemma JacobiStaysNearSolution(p: Grid, s: Grid, d: Grid, m: real)
    requires Within(p, s, m) && SolvesPoisson(s, d)
    ensures Within(Jacobi(p, d), s, m)
  {
    var q := Jacobi(p, d);
    forall i, j | 0 <= i < Width(p) && 0 <= j < Height(p)
      ensures Abs(q[i][j] - s[i][j]) <= m
    {
      SolutionIsOwnAverage(s, d, i, j);
      JacobiTexelNear(p, s, d, m, i, j);
    }
  }

  /** At one texel where s is its own Jacobi average: averaging four
      neighbours each within m of those of s lands within m of s. */
  lemma JacobiTexelNear(p: Grid, s: Grid, d: Grid, m: real, i: int, j: int)
    requires Within(p, s, m) && 0 <= i < Width(p) && 0 <= j < Height(p)
    requires s[i][j] == (Texel(s, i - 1, j) + Texel(s, i + 1, j) + Texel(s, i, j - 1) + Texel(s, i, j + 1) - Texel(d, i, j)) * 0.25
    ensures Abs(JacobiAt(p, d, i, j) - s[i][j]) <= m
  {
    TexelWithin(p, s, m, i - 1, j);
    TexelWithin(p, s, m, i + 1, j);
    TexelWithin(p, s, m, i, j - 1);
    TexelWithin(p, s, m, i, j + 1);
    QuarterNear(Texel(p, i - 1, j), Texel(p, i + 1, j), Texel(p, i, j - 1), Texel(p, i, j + 1),
                Texel(s, i - 1, j), Texel(s, i + 1, j), Texel(s, i, j - 1), Texel(s, i, j + 1), Texel(d, i, j), m);
  }

  /** Where p solves the Poisson equation, the Jacobi average gives back p. */
  lemma SolutionIsOwnAverage(p: Grid, d: Grid, i: int, j: int)
    requires SolvesPoisson(p, d) && IsRect(p) && 0 <= i < Width(p) && 0 <= j < Height(p)
    ensures p[i][j] == (Texel(p, i - 1, j) + Texel(p, i + 1, j) + Texel(p, i, j - 1) + Texel(p, i, j + 1) - Texel(d, i, j)) * 0.25
  {
    assert Texel(p, i, j) == p[i][j];
    assert LaplacianAt(p, i, j) == Texel(d, i, j);
  }

  lemma QuarterNear(l: real, r: real, b: real, t: real, l': real, r': real, b': real, t': real, x: real, m: real)
    requires Abs(l - l') <= m && Abs(r - r') <= m && Abs(b - b') <= m && Abs(t - t') <= m
    ensures Abs((l + r + b + t - x) * 0.25 - (l' + r' + b' + t' - x) * 0.25) <= m
  {
  }

  /** However many passes run, the pressure never ends up further from a
      solution of the Poisson equation than it started. */
  lemma {:induction false} JacobiIterateStaysNearSolution(n: nat, p: Grid, s: Grid, d: Grid, m: real)
    requires Within(p, s, m) && SolvesPoisson(s, d)
    ensures Within(JacobiIterate(n, p, d), s, m)
  {
    if n > 0 {
      JacobiIterateStaysNearSolution(n - 1, p, s, d, m);
      JacobiStaysNearSolution(JacobiIterate(n - 1, p, d), s, d, m);
    }
  }

  /** The gradient-subtraction shader at texel (i, j): the velocity minus the
      (unhalved) central-difference pressure gradient. */
  function GradientSubtractAt(v: Field, p: Grid, i: int, j: int): Vec2
  {
    var l := Texel(p, i - 1, j);
    var r := Texel(p, i + 1, j);
    var t := Texel(p, i, j + 1);
    var b := Texel(p, i, j - 1);
    var c := TexelV(v, i, j);
    Vec2(c.x - (r - l), c.y - (t - b))
  }

  function GradientSubtract(v: Field, p: Grid): (r: Field)
    requires IsRect(v)
    ensures IsRect(r) && Width(r) == Width(v) && Height(r) == Height(v)
    ensures forall i, j :: 0 <= i < Width(v) && 0 <= j < Height(v) ==> r[i][j] == GradientSubtractAt(v, p, i, j)
  {
    seq(Width(v), i => seq(Height(v), j => GradientSubtractAt(v, p, i, j)))
  }

  /** Pressure matters only up to a constant: adding k to every pressure texel
      leaves the projected velocity unchanged (so a constant pressure leaves
      the velocity as it was). */
  lemma GradientSubtractShiftInvariant(v: Field, p: Grid, q: Grid, k: real)
    requires IsRect(v) && IsRect(p) && IsRect(q)
    requires Width(q) == Width(p) && Height(q) == Height(p)
    requires forall i, j :: 0 <= i < Width(p) && 0 <= j < Height(p) ==> q[i][j] == p[i][j] + k
    ensures GradientSubtract(v, q) == GradientSubtract(v, p)
  {
    forall i, j ensures Texel(q, i, j) == Texel(p, i, j) + k {
      var a, b := Clamp(i, Width(p)), Clamp(j, Height(p));
      assert Texel(q, i, j) == q[a][b] && Texel(p, i, j) == p[a][b];
    }
    var gq, gp := GradientSubtract(v, q), GradientSubtract(v, p);
    forall i | 0 <= i < Width(v)
      ensures gq[i] == gp[i]
    {
      assert forall j :: 0 <= j < Height(v) ==> gq[i][j] == gp[i][j];
    }
  }
}
