// The cubic B-spline prefilter of src/cpu/b_spline_prefilter.cpp. Each
// line of n >= 2 samples l is replaced by the solution x of the
// tridiagonal system
//
//   4 x[0]   + 2 x[1]                 = 6 l[0]
//   x[i-1]   + 4 x[i]   + x[i+1]      = 6 l[i]      (0 < i < n - 1)
//   2 x[n-2] + 4 x[n-1]               = 6 l[n-1]
//
// solved by forward elimination and back-substitution (the Thomas
// algorithm); first every row of every channel, then every column.
module BSpline {
  import opened Arith
  import opened Grid
  import opened Images
  import Resample

  // ---------------------------------------------------------------------
  // The system and its solution, on values

  /** lower[i] of a system of n rows: 1, except 2 in the last row. */
  function LowerCoef(n: nat, i: nat): (r: real)
    requires i + 1 < n
    ensures r == 1.0 || r == 2.0
  {
    if i + 2 == n then 2.0 else 1.0
  }

  /** upper[i] of a system of n rows: 1, except 2 in the first row. */
  function UpperCoef(n: nat, i: nat): (r: real)
    requires i + 1 < n
    ensures r == 1.0 || r == 2.0
  {
    if i == 0 then 2.0 else 1.0
  }

  /** Row i of the system applied to x: lower[i-1] x[i-1] + 4 x[i] +
      upper[i] x[i+1], leaving out the terms past either end. */
  function SystemRow(x: seq<real>, i: nat): real
    requires 2 <= |x| && i < |x|
  {
    var n := |x|;
    (if i > 0 then LowerCoef(n, i - 1) * x[i - 1] else 0.0) + 4.0 * x[i] +
    (if i + 1 < n then UpperCoef(n, i) * x[i + 1] else 0.0)
  }

  /** x solves the system whose right-hand side is 6 l. */
  predicate Solves(x: seq<real>, l: seq<real>) {
    2 <= |x| == |l| && forall i :: 0 <= i < |x| ==> SystemRow(x, i) == 6.0 * l[i]
  }


  /** What prefilter_line leaves in a line whose samples were l: l itself
      for 0 or 1 samples, otherwise a solution of the system. */
  predicate LineFiltered(x: seq<real>, l: seq<real>) {
    if |l| <= 1 then x == l else Solves(x, l)
  }

  // ---------------------------------------------------------------------
  // The system has exactly one solution

  function Abs(v: real): real {
    if v < 0.0 then -v else v
  }

  /** An index of a value of largest magnitude. */
  function MaxAbsIndex(z: seq<real>): (j: nat)
    requires |z| > 0
    ensures j < |z|
    ensures forall i :: 0 <= i < |z| ==> Abs(z[i]) <= Abs(z[j])
  {
    if |z| == 1 then 0
    else
      var j := MaxAbsIndex(z[..|z| - 1]);
      assert forall i :: 0 <= i < |z| - 1 ==> z[..|z| - 1][i] == z[i];
      if Abs(z[|z| - 1]) > Abs(z[j]) then |z| - 1 else j
  }

  /** The off-diagonal part of row i of the system applied to z. */
  function OffDiagonal(z: seq<real>, i: nat): real
    requires 2 <= |z| && i < |z|
  {
    (if i > 0 then LowerCoef(|z|, i - 1) * z[i - 1] else 0.0) +
    (if i + 1 < |z| then UpperCoef(|z|, i) * z[i + 1] else 0.0)
  }

  /** The off-diagonal coefficients of every row add up to 2. */
  lemma OffDiagonalBound(z: seq<real>, i: nat, m: real)
    requires 2 <= |z| && i < |z|
    requires forall k :: 0 <= k < |z| ==> Abs(z[k]) <= m
    ensures Abs(OffDiagonal(z, i)) <= 2.0 * m
  {
    var n := |z|;
    if i == 0 {
      assert OffDiagonal(z, i) == 2.0 * z[1] && Abs(z[1]) <= m;
    } else if i + 1 < n {
      assert OffDiagonal(z, i) == z[i - 1] + z[i + 1] && Abs(z[i - 1]) <= m && Abs(z[i + 1]) <= m;
    } else {
      assert OffDiagonal(z, i) == 2.0 * z[i - 1] && Abs(z[i - 1]) <= m;
    }
  }

  /** The system is strictly diagonally dominant (4 on the diagonal, 2 off
      it in every row), so with a zero right-hand side only the zero line
      solves it. */
  lemma HomogeneousZero(z: seq<real>)
    requires |z| >= 2
    requires forall i :: 0 <= i < |z| ==> SystemRow(z, i) == 0.0
    ensures forall i :: 0 <= i < |z| ==> z[i] == 0.0
  {
    var j := MaxAbsIndex(z);
    var m := Abs(z[j]);
    OffDiagonalBound(z, j, m);
    assert SystemRow(z, j) == 4.0 * z[j] + OffDiagonal(z, j);
    assert m == 0.0;
  }

  /** The line x - y, element by element. */
  function Diff(x: seq<real>, y: seq<real>): (z: seq<real>)
    requires |x| == |y|
    ensures |z| == |x| && forall i :: 0 <= i < |z| ==> z[i] == x[i] - y[i]
  {
    seq(|x|, i requires 0 <= i < |x| => x[i] - y[i])
  }

  /** The system is linear. */
  lemma SystemRowDiff(x: seq<real>, y: seq<real>, i: nat)
    requires 2 <= |x| == |y| && i < |x|
    ensures SystemRow(Diff(x, y), i) == SystemRow(x, i) - SystemRow(y, i)
  {
    var n := |x|;
    if i > 0 {
      var lo := LowerCoef(n, i - 1);
      assert lo * (x[i - 1] - y[i - 1]) == lo * x[i - 1] - lo * y[i - 1];
    }
    if i + 1 < n {
      var up := UpperCoef(n, i);
      assert up * (x[i + 1] - y[i + 1]) == up * x[i + 1] - up * y[i + 1];
    }
  }

  /** Two solutions of the same system are the same line. */
  lemma SolutionUnique(x: seq<real>, y: seq<real>, l: seq<real>)
    requires Solves(x, l) && Solves(y, l)
    ensures x == y
  {
    var z := Diff(x, y);
    forall i | 0 <= i < |z| ensures SystemRow(z, i) == 0.0 {
      SystemRowDiff(x, y, i);
    }
    HomogeneousZero(z);
    assert forall i :: 0 <= i < |x| ==> x[i] == y[i];
  }

  /** prefilter_line's result is determined by the line it was given. */
  lemma LineFilteredUnique(x: seq<real>, y: seq<real>, l: seq<real>)
    requires LineFiltered(x, l) && LineFiltered(y, l)
    ensures x == y
  {
    if |l| >= 2 {
      SolutionUnique(x, y, l);
    }
  }

  /** A constant line solves its own system (every row's coefficients add
      up to 6), so prefilter_line maps it to itself. */
  lemma ConstantLine(l: seq<real>, v: real, x: seq<real>)
    requires forall i :: 0 <= i < |l| ==> l[i] == v
    requires LineFiltered(x, l)
    ensures x == l
  {
    if |l| >= 2 {
      forall i | 0 <= i < |l| ensures SystemRow(l, i) == 6.0 * l[i] {
      }
      SolutionUnique(x, l, l);
    }
  }

  // ---------------------------------------------------------------------
  // Forward elimination and back-substitution

  /** One elimination step keeps the pivot in [3, 4]: either the previous
      pivot is the first one, 4, or the off-diagonal product is at most 2. */
  lemma NextPivot(prev: real, lo: real, up: real)
    requires 3.0 <= prev <= 4.0 && 0.0 < lo <= 2.0 && 0.0 < up <= 2.0
    requires up == 1.0 || prev == 4.0
    ensures 3.0 <= 4.0 - (lo / prev) * up <= 4.0
  {
    var f := lo / prev;
    assert f * prev == lo;
    NonnegProduct(f, up);
    if prev == 4.0 {
      NonnegProduct(0.5 - f, up);
    } else {
      NonnegProduct(prev - 3.0, f);
    }
  }

  lemma NonnegProduct(a: real, b: real)
    requires a >= 0.0 && b >= 0.0
    ensures a * b >= 0.0
  {
  }

  /** Elimination step i: diagonal[i] -= factor * upper[i-1] and
      rhs[i] -= factor * rhs[i-1], with factor = lower[i-1] / diagonal[i-1]. */
  ghost predicate EliminationStep(l: seq<real>, ds: seq<real>, rs: seq<real>, i: nat)
    requires 0 < i < |l| && |ds| == |l| && |rs| == |l| && ds[i - 1] != 0.0
  {
    ds[i] == 4.0 - (LowerCoef(|l|, i - 1) / ds[i - 1]) * UpperCoef(|l|, i - 1) &&
    rs[i] == 6.0 * l[i] - (LowerCoef(|l|, i - 1) / ds[i - 1]) * rs[i - 1]
  }

  /** The eliminated system: the pivots ds and right-hand sides rs the
      forward-elimination loop leaves, every pivot at least 3. */
  ghost predicate Eliminated(l: seq<real>, ds: seq<real>, rs: seq<real>) {
    2 <= |l| && |ds| == |l| && |rs| == |l| && ds[0] == 4.0 && rs[0] == 6.0 * l[0] &&
    (forall i :: 0 <= i < |l| ==> 3.0 <= ds[i] <= 4.0) &&
    forall i :: 0 < i < |l| ==> EliminationStep(l, ds, rs, i)
  }

  /** Eliminated row i, satisfied by x: ds[i] x[i] + upper[i] x[i+1] ==
      rs[i], the last one without the upper term. */
  ghost predicate BackRow(x: seq<real>, ds: seq<real>, rs: seq<real>, i: nat)
    requires i < |x| && |ds| == |x| && |rs| == |x|
  {
    if i + 1 < |x| then ds[i] * x[i] + UpperCoef(|x|, i) * x[i + 1] == rs[i]
    else ds[i] * x[i] == rs[i]
  }

  ghost predicate BackSolved(x: seq<real>, ds: seq<real>, rs: seq<real>) {
    2 <= |x| && |ds| == |x| && |rs| == |x| &&
    forall i :: 0 <= i < |x| ==> BackRow(x, ds, rs, i)
  }

  /** Row i of the original system follows from eliminated rows i - 1 and i. */
  lemma RowFromEliminated(lo: real, d1: real, r1: real, u1: real, x1: real, xi: real,
                          di: real, ri: real, li: real, rest: real)
    requires d1 != 0.0
    requires d1 * x1 + u1 * xi == r1
    requires di == 4.0 - (lo / d1) * u1 && ri == 6.0 * li - (lo / d1) * r1
    requires di * xi + rest == ri
    ensures lo * x1 + 4.0 * xi + rest == 6.0 * li
  {
    var f := lo / d1;
    assert lo == f * d1;
    assert lo * x1 == f * (d1 * x1);
    assert f * (d1 * x1) == f * r1 - f * u1 * xi;
  }

  /** Row i of the original system holds for a back-substituted line. */
  lemma EliminatedRow(l: seq<real>, ds: seq<real>, rs: seq<real>, x: seq<real>, i: nat)
    requires Eliminated(l, ds, rs) && BackSolved(x, ds, rs) && |x| == |l| && i < |l|
    ensures SystemRow(x, i) == 6.0 * l[i]
  {
    var n := |l|;
    var rest := if i + 1 < n then UpperCoef(n, i) * x[i + 1] else 0.0;
    assert BackRow(x, ds, rs, i);
    if i > 0 {
      assert BackRow(x, ds, rs, i - 1);
      assert EliminationStep(l, ds, rs, i);
      RowFromEliminated(LowerCoef(n, i - 1), ds[i - 1], rs[i - 1], UpperCoef(n, i - 1),
                        x[i - 1], x[i], ds[i], rs[i], l[i], rest);
    }
  }

  /** Back-substitution on the eliminated system solves the original one. */
  lemma EliminationSolves(l: seq<real>, ds: seq<real>, rs: seq<real>, x: seq<real>)
    requires Eliminated(l, ds, rs) && BackSolved(x, ds, rs) && |x| == |l|
    ensures Solves(x, l)
  {
    forall i | 0 <= i < |l| ensures SystemRow(x, i) == 6.0 * l[i] {
      EliminatedRow(l, ds, rs, x, i);
    }
  }

  // ---------------------------------------------------------------------
  // prefilter_line over a strided line of an array

  /** The position of sample i of the line starting at off: line[i * stride]. */
  function LinePos(off: nat, stride: nat, i: nat): nat {
    off + i * stride
  }

  /** Positions of a line grow with the sample index. */
  lemma LinePosOrder(off: nat, stride: nat, i: nat, j: nat)
    requires stride > 0 && i < j
    ensures LinePos(off, stride, i) < LinePos(off, stride, j)
  {
    assert j * stride == i * stride + (j - i) * stride;
    assert (j - i) * stride >= stride by {
      MulMonoLeft(1, j - i, stride);
    }
  }

  /** The line of n samples starting at off fits in a buffer of len elements. */
  predicate LineFits(off: nat, stride: nat, n: nat, len: nat) {
    n == 0 || LinePos(off, stride, n - 1) < len
  }

  /** The samples line[0], line[stride], ..., line[(n - 1) * stride] of s. */
  function LineOf(s: seq<real>, off: nat, stride: nat, n: nat): (l: seq<real>)
    requires LineFits(off, stride, n, |s|)
    ensures |l| == n
  {
    seq(n, i requires 0 <= i < n =>
      MulMonoLeft(i, n - 1, stride);
      s[LinePos(off, stride, i)])
  }

  /** Position k is none of the line's positions. */
  predicate OffLine(off: nat, stride: nat, n: nat, k: nat) {
    forall i :: 0 <= i < n ==> k != LinePos(off, stride, i)
  }

  /** Sample i of a line is the element at its position. */
  lemma LineOfAt(s: seq<real>, off: nat, stride: nat, n: nat, i: nat)
    requires LineFits(off, stride, n, |s|) && i < n
    ensures LinePos(off, stride, i) < |s| && LineOf(s, off, stride, n)[i] == s[LinePos(off, stride, i)]
  {
    MulMonoLeft(i, n - 1, stride);
  }

  /** Writing sample i's position writes sample i of the line and no other. */
  lemma LineOfUpdate(s: seq<real>, off: nat, stride: nat, n: nat, i: nat, v: real)
    requires stride > 0 && LineFits(off, stride, n, |s|) && i < n
    ensures LinePos(off, stride, i) < |s|
    ensures LineOf(s[LinePos(off, stride, i) := v], off, stride, n) == LineOf(s, off, stride, n)[i := v]
  {
    LineOfAt(s, off, stride, n, i);
    var s' := s[LinePos(off, stride, i) := v];
    forall j | 0 <= j < n
      ensures LineOf(s', off, stride, n)[j] == LineOf(s, off, stride, n)[i := v][j]
    {
      LineOfAt(s, off, stride, n, j);
      LineOfAt(s', off, stride, n, j);
      if j < i {
        LinePosOrder(off, stride, j, i);
      } else if j > i {
        LinePosOrder(off, stride, i, j);
      }
    }
  }

  /** The set-up part of prefilter_line: diagonal 4, upper [2, 1, ..., 1],
      lower [1, ..., 1, 2] and rhs 6 times the line. */
  method SetUpSystem(data: array<real>, off: nat, length: nat, stride: nat)
    returns (diagonal: array<real>, upper: array<real>, lower: array<real>, rhs: array<real>)
    requires length >= 2 && LineFits(off, stride, length, data.Length)
    ensures fresh(diagonal) && fresh(upper) && fresh(lower) && fresh(rhs) && diagonal != rhs
    ensures diagonal.Length == length && rhs.Length == length
    ensures upper.Length == length - 1 && lower.Length == length - 1
    ensures SystemOf(LineOf(data[..], off, stride, length), diagonal[..], upper[..], lower[..], rhs[..])
  {
    ghost var s := data[..];
    ghost var l := LineOf(s, off, stride, length);
    diagonal := new real[length](_ => 4.0);
    upper := new real[length - 1](_ => 0.0);
    lower := new real[length - 1](_ => 0.0);
    rhs := new real[length](_ => 0.0);

    LineOfAt(s, off, stride, length, 0);
    rhs[0] := 6.0 * data[off];
    upper[0] := 2.0;
    for i := 1 to length - 1
      invariant SetUpTo(l, diagonal[..], upper[..], lower[..], rhs[..], i)
    {
      ghost var us, ls, rs := upper[..], lower[..], rhs[..];
      LineOfAt(s, off, stride, length, i);
      rhs[i] := 6.0 * data[LinePos(off, stride, i)];
      lower[i - 1] := 1.0;
      upper[i] := 1.0;
      SetUpStep(l, diagonal[..], us, ls, rs, i);
    }
    ghost var ls, rs := lower[..], rhs[..];
    LineOfAt(s, off, stride, length, length - 1);
    rhs[length - 1] := 6.0 * data[LinePos(off, stride, length - 1)];
    lower[length - 2] := 2.0;
    SetUpLast(l, diagonal[..], upper[..], ls, rs);
    assert data[..] == s;
  }

  /** The tridiagonal system of a line l as prefilter_line sets it up: 4 on
      the diagonal, 6 l on the right, and the boundary-aware off-diagonal
      coefficients. */
  ghost predicate SystemOf(l: seq<real>, ds: seq<real>, us: seq<real>, ls: seq<real>, rs: seq<real>) {
    2 <= |l| && |ds| == |l| && |rs| == |l| && |us| == |l| - 1 && |ls| == |l| - 1 &&
    (forall i :: 0 <= i < |l| ==> ds[i] == 4.0 && rs[i] == 6.0 * l[i]) &&
    forall i :: 0 <= i < |l| - 1 ==> us[i] == UpperCoef(|l|, i) && ls[i] == LowerCoef(|l|, i)
  }

  /** Rows 0 .. i - 1 of the system are set up: every pivot is 4, the
      right-hand sides so far are 6 times the samples, and the off-diagonal
      coefficients so far are the interior ones (the first upper one is 2). */
  ghost predicate SetUpTo(l: seq<real>, ds: seq<real>, us: seq<real>, ls: seq<real>, rs: seq<real>, i: nat) {
    2 <= |l| && |ds| == |l| && |rs| == |l| && |us| == |l| - 1 && |ls| == |l| - 1 && 1 <= i < |l| &&
    (forall j :: 0 <= j < |ds| ==> ds[j] == 4.0) &&
    (forall j :: 0 <= j < i ==> rs[j] == 6.0 * l[j]) &&
    us[0] == 2.0 && (forall j :: 1 <= j < i ==> us[j] == 1.0) &&
    forall j :: 0 <= j < i - 1 ==> ls[j] == 1.0
  }

  /** Setting up interior row i extends the set-up prefix by one row. */
  lemma SetUpStep(l: seq<real>, ds: seq<real>, us: seq<real>, ls: seq<real>, rs: seq<real>, i: nat)
    requires SetUpTo(l, ds, us, ls, rs, i) && i + 1 < |l|
    ensures SetUpTo(l, ds, us[i := 1.0], ls[i - 1 := 1.0], rs[i := 6.0 * l[i]], i + 1)
  {
  }

  /** Setting up the last row completes the system. */
  lemma SetUpLast(l: seq<real>, ds: seq<real>, us: seq<real>, ls: seq<real>, rs: seq<real>)
    requires |l| >= 2 && SetUpTo(l, ds, us, ls, rs, |l| - 1)
    ensures SystemOf(l, ds, us, ls[|l| - 2 := 2.0], rs[|l| - 1 := 6.0 * l[|l| - 1]])
  {
  }

  /** After elimination steps 1 .. i - 1: those steps hold, the rows from i
      on are still as set up, and the pivots so far are in [3, 4]. */
  ghost predicate EliminatedUpTo(l: seq<real>, ds: seq<real>, rs: seq<real>, i: nat) {
    2 <= |l| && |ds| == |l| && |rs| == |l| && 1 <= i <= |l| && ds[0] == 4.0 && rs[0] == 6.0 * l[0] &&
    (forall j :: i <= j < |l| ==> ds[j] == 4.0 && rs[j] == 6.0 * l[j]) &&
    (forall j :: 0 <= j < i ==> 3.0 <= ds[j] <= 4.0) &&
    forall j :: 0 < j < i ==> EliminationStep(l, ds, rs, j)
  }

  /** Elimination step i extends the eliminated prefix by one row. */
  lemma EliminateStep(l: seq<real>, ds: seq<real>, rs: seq<real>, i: nat, d: real, r: real)
    requires EliminatedUpTo(l, ds, rs, i) && i < |l|
    requires d == ds[i] - (LowerCoef(|l|, i - 1) / ds[i - 1]) * UpperCoef(|l|, i - 1)
    requires r == rs[i] - (LowerCoef(|l|, i - 1) / ds[i - 1]) * rs[i - 1]
    ensures EliminatedUpTo(l, ds[i := d], rs[i := r], i + 1)
  {
    var ds', rs' := ds[i := d], rs[i := r];
    NextPivot(ds[i - 1], LowerCoef(|l|, i - 1), UpperCoef(|l|, i - 1));
    assert 3.0 <= d <= 4.0;
    assert EliminationStep(l, ds', rs', i);
    forall j | 0 < j < i ensures EliminationStep(l, ds', rs', j) {
      StepUnchanged(l, ds, rs, ds', rs', j);
    }
    assert forall j :: 0 <= j < i ==> 3.0 <= ds'[j] <= 4.0;
    assert forall j :: i + 1 <= j < |l| ==> ds'[j] == 4.0 && rs'[j] == 6.0 * l[j];
  }

  /** A step only reads rows j - 1 and j. */
  lemma StepUnchanged(l: seq<real>, ds: seq<real>, rs: seq<real>, ds': seq<real>, rs': seq<real>, j: nat)
    requires 0 < j < |l| && |ds| == |l| && |rs| == |l| && |ds'| == |l| && |rs'| == |l| && ds[j - 1] != 0.0
    requires ds'[j] == ds[j] && ds'[j - 1] == ds[j - 1] && rs'[j] == rs[j] && rs'[j - 1] == rs[j - 1]
    requires EliminationStep(l, ds, rs, j)
    ensures EliminationStep(l, ds', rs', j)
  {
  }

  /** The forward-elimination loop of prefilter_line. */
  method Eliminate(diagonal: array<real>, upper: array<real>, lower: array<real>, rhs: array<real>,
                   ghost l: seq<real>)
    requires diagonal != rhs && SystemOf(l, diagonal[..], upper[..], lower[..], rhs[..])
    modifies diagonal, rhs
    ensures Eliminated(l, diagonal[..], rhs[..])
  {
    var length := diagonal.Length;
    for i := 1 to length
      invariant EliminatedUpTo(l, diagonal[..], rhs[..], i)
    {
      ghost var ds, rs := diagonal[..], rhs[..];
      var factor := lower[i - 1] / diagonal[i - 1];
      diagonal[i] := diagonal[i] - factor * upper[i - 1];
      rhs[i] := rhs[i] - factor * rhs[i - 1];
      EliminateStep(l, ds, rs, i, diagonal[i], rhs[i]);
    }
  }

  /** Eliminated rows i .. n - 1 hold for x. */
  ghost predicate BackSolvedFrom(x: seq<real>, ds: seq<real>, rs: seq<real>, i: nat) {
    |ds| == |x| && |rs| == |x| && forall j :: i <= j < |x| ==> BackRow(x, ds, rs, j)
  }

  /** Back-substitution step i: the value written satisfies row i, and rows
      past i are untouched. */
  lemma BackStep(x: seq<real>, ds: seq<real>, rs: seq<real>, i: nat, v: real)
    requires BackSolvedFrom(x, ds, rs, i + 1) && i + 1 < |x| && ds[i] != 0.0
    requires v == (rs[i] - UpperCoef(|x|, i) * x[i + 1]) / ds[i]
    ensures BackSolvedFrom(x[i := v], ds, rs, i)
  {
    var x' := x[i := v];
    MulDivCancel(rs[i] - UpperCoef(|x|, i) * x[i + 1], ds[i]);
    assert BackRow(x', ds, rs, i);
    forall j | i < j < |x| ensures BackRow(x', ds, rs, j) {
      assert BackRow(x, ds, rs, j);
    }
  }

  /** Dividing by d and multiplying back gives the value again. */
  lemma MulDivCancel(t: real, d: real)
    requires d != 0.0
    ensures d * (t / d) == t
  {
  }

  /** The back-substitution loop of prefilter_line: line[(n - 1) * stride]
      first, then downwards to line[0]. */
  method BackSubstitute(data: array<real>, off: nat, length: nat, stride: nat,
                        diagonal: array<real>, upper: array<real>, rhs: array<real>)
    requires length >= 2 && stride > 0 && LineFits(off, stride, length, data.Length)
    requires diagonal.Length == length && rhs.Length == length && upper.Length == length - 1
    requires data != diagonal && data != rhs && data != upper
    requires forall i :: 0 <= i < length ==> diagonal[i] >= 3.0
    requires forall i :: 0 <= i < length - 1 ==> upper[i] == UpperCoef(length, i)
    modifies data
    ensures BackSolved(LineOf(data[..], off, stride, length), diagonal[..], rhs[..])
    ensures forall k :: 0 <= k < data.Length && OffLine(off, stride, length, k) ==> data[k] == old(data[k])
  {
    ghost var before := data[..];
    LineOfUpdate(data[..], off, stride, length, length - 1, rhs[length - 1] / diagonal[length - 1]);
    data[LinePos(off, stride, length - 1)] := rhs[length - 1] / diagonal[length - 1];
    MulDivCancel(rhs[length - 1], diagonal[length - 1]);
    assert BackRow(LineOf(data[..], off, stride, length), diagonal[..], rhs[..], length - 1);
    var i := length - 1;
    while i > 0
      invariant 0 <= i <= length - 1
      invariant BackSolvedFrom(LineOf(data[..], off, stride, length), diagonal[..], rhs[..], i)
      invariant forall k :: 0 <= k < data.Length && OffLine(off, stride, length, k) ==> data[k] == before[k]
    {
      i := i - 1;
      ghost var x := LineOf(data[..], off, stride, length);
      LineOfAt(data[..], off, stride, length, i + 1);
      var value := (rhs[i] - upper[i] * data[LinePos(off, stride, i + 1)]) / diagonal[i];
      LineOfUpdate(data[..], off, stride, length, i, value);
      data[LinePos(off, stride, i)] := value;
      BackStep(x, diagonal[..], rhs[..], i, value);
    }
  }
  /** prefilter_line: a line of 0 or 1 samples is left alone; a longer one
      is replaced by the solution of its system. Only the line's own
      positions change. */
  method PrefilterLine(data: array<real>, off: nat, length: nat, stride: nat)
    requires stride > 0 && LineFits(off, stride, length, data.Length)
    modifies data
    ensures LineFiltered(LineOf(data[..], off, stride, length), LineOf(old(data[..]), off, stride, length))
    ensures forall k :: 0 <= k < data.Length && OffLine(off, stride, length, k) ==> data[k] == old(data[k])
  {
    if length == 0 {
      return;
    }
    if length == 1 {
      return;
    }
    ghost var l := LineOf(data[..], off, stride, length);
    var diagonal, upper, lower, rhs := SetUpSystem(data, off, length, stride);
    Eliminate(diagonal, upper, lower, rhs, l);
    BackSubstitute(data, off, length, stride, diagonal, upper, rhs);
    EliminationSolves(l, diagonal[..], rhs[..], LineOf(data[..], off, stride, length));
  }

  // ---------------------------------------------------------------------
  // The two passes over an interleaved image

  /** The lines of one pass over a w x h image of ch channels. The rows pass
      (cols false) has a line of w samples with stride ch for each row a and
      channel c; the columns pass has a line of h samples with stride w * ch
      for each column a and channel c. */
  function PassCount(w: nat, h: nat, cols: bool): nat {
    if cols then w else h
  }

  function LineLen(w: nat, h: nat, cols: bool): nat {
    if cols then h else w
  }

  function LineStride(w: nat, ch: nat, cols: bool): nat {
    if cols then w * ch else ch
  }

  /** First position of line (a, c): a * w * ch + c for row a, a * ch + c
      for column a. */
  function LineStart(w: nat, ch: nat, cols: bool, a: nat, c: nat): nat {
    if cols then a * ch + c else a * w * ch + c
  }

  /** The row or column of a pass that element k lies in, and its sample
      index along that line. */
  function MajorOf(w: nat, ch: nat, cols: bool, k: nat): nat
    requires w > 0 && ch > 0
  {
    if cols then ColOf(w, ch, k) else RowOf(w, ch, k)
  }

  function SampleOf(w: nat, ch: nat, cols: bool, k: nat): nat
    requires w > 0 && ch > 0
  {
    if cols then RowOf(w, ch, k) else ColOf(w, ch, k)
  }

  /** Sample i of line (a, c) is element (a, i, c) of a row or element
      (i, a, c) of a column. */
  lemma SamplePos(w: nat, ch: nat, cols: bool, a: nat, c: nat, i: nat)
    ensures LinePos(LineStart(w, ch, cols, a, c), LineStride(w, ch, cols), i) ==
            if cols then Idx(w, ch, i, a, c) else Idx(w, ch, a, i, c)
  {
    IdxAsOff(w, ch, a, i, c);
    IdxAsOff(w, ch, i, a, c);
    assert a * w * ch == a * (w * ch);
  }

  /** Sample i of line (a, c) lies in the image, on line (a, c). */
  lemma LineSample(w: nat, h: nat, ch: nat, cols: bool, a: nat, c: nat, i: nat)
    requires w > 0 && h > 0 && ch > 0 && a < PassCount(w, h, cols) && c < ch && i < LineLen(w, h, cols)
    ensures LinePos(LineStart(w, ch, cols, a, c), LineStride(w, ch, cols), i) < w * h * ch
    ensures MajorOf(w, ch, cols, LinePos(LineStart(w, ch, cols, a, c), LineStride(w, ch, cols), i)) == a
    ensures ChanOf(w, ch, LinePos(LineStart(w, ch, cols, a, c), LineStride(w, ch, cols), i)) == c
    ensures SampleOf(w, ch, cols, LinePos(LineStart(w, ch, cols, a, c), LineStride(w, ch, cols), i)) == i
  {
    SamplePos(w, ch, cols, a, c, i);
    if cols {
      IdxBound(h, w, ch, i, a, c);
      DecodeIdx(h, w, ch, i, a, c);
    } else {
      IdxBound(h, w, ch, a, i, c);
      DecodeIdx(h, w, ch, a, i, c);
    }
  }

  /** Every line of a pass fits in the image. */
  lemma PassLineFits(w: nat, h: nat, ch: nat, cols: bool, a: nat, c: nat)
    requires w > 0 && h > 0 && ch > 0 && a < PassCount(w, h, cols) && c < ch
    ensures LineFits(LineStart(w, ch, cols, a, c), LineStride(w, ch, cols), LineLen(w, h, cols), w * h * ch)
  {
    LineSample(w, h, ch, cols, a, c, LineLen(w, h, cols) - 1);
  }

  /** Every element of the image is a sample of the line it lies on. */
  lemma ElementOnLine(w: nat, h: nat, ch: nat, cols: bool, k: nat)
    requires w > 0 && h > 0 && ch > 0 && k < w * h * ch
    ensures MajorOf(w, ch, cols, k) < PassCount(w, h, cols) && ChanOf(w, ch, k) < ch
    ensures SampleOf(w, ch, cols, k) < LineLen(w, h, cols)
    ensures LinePos(LineStart(w, ch, cols, MajorOf(w, ch, cols, k), ChanOf(w, ch, k)), LineStride(w, ch, cols),
                    SampleOf(w, ch, cols, k)) == k
  {
    EncodeDecode(h, w, ch, k);
    SamplePos(w, ch, cols, MajorOf(w, ch, cols, k), ChanOf(w, ch, k), SampleOf(w, ch, cols, k));
  }

  /** Line (a, c) of a pass over the image s. */
  function PassLine(s: seq<real>, w: nat, h: nat, ch: nat, cols: bool, a: nat, c: nat): (l: seq<real>)
    requires w > 0 && h > 0 && ch > 0 && |s| == w * h * ch && a < PassCount(w, h, cols) && c < ch
    ensures |l| == LineLen(w, h, cols)
  {
    PassLineFits(w, h, ch, cols, a, c);
    LineOf(s, LineStart(w, ch, cols, a, c), LineStride(w, ch, cols), LineLen(w, h, cols))
  }

  /** Sample i of line (a, c) is the element at its position. */
  lemma PassLineAt(s: seq<real>, w: nat, h: nat, ch: nat, cols: bool, a: nat, c: nat, i: nat)
    requires w > 0 && h > 0 && ch > 0 && |s| == w * h * ch && a < PassCount(w, h, cols) && c < ch
    requires i < LineLen(w, h, cols)
    ensures LinePos(LineStart(w, ch, cols, a, c), LineStride(w, ch, cols), i) < |s|
    ensures PassLine(s, w, h, ch, cols, a, c)[i] == s[LinePos(LineStart(w, ch, cols, a, c), LineStride(w, ch, cols), i)]
  {
    PassLineFits(w, h, ch, cols, a, c);
    LineOfAt(s, LineStart(w, ch, cols, a, c), LineStride(w, ch, cols), LineLen(w, h, cols), i);
  }

  /** Images that agree on the elements of line (a, c) agree on that line. */
  lemma PassLineAgree(s: seq<real>, t: seq<real>, w: nat, h: nat, ch: nat, cols: bool, a: nat, c: nat)
    requires w > 0 && h > 0 && ch > 0 && |s| == w * h * ch && |t| == |s| && a < PassCount(w, h, cols) && c < ch
    requires forall k :: 0 <= k < |s| && MajorOf(w, ch, cols, k) == a && ChanOf(w, ch, k) == c ==> s[k] == t[k]
    ensures PassLine(s, w, h, ch, cols, a, c) == PassLine(t, w, h, ch, cols, a, c)
  {
    forall i | 0 <= i < LineLen(w, h, cols)
      ensures PassLine(s, w, h, ch, cols, a, c)[i] == PassLine(t, w, h, ch, cols, a, c)[i]
    {
      LineSample(w, h, ch, cols, a, c, i);
      PassLineAt(s, w, h, ch, cols, a, c, i);
      PassLineAt(t, w, h, ch, cols, a, c, i);
    }
  }

  /** Elements on other lines are off line (a, c). */
  lemma OtherLineOff(w: nat, h: nat, ch: nat, cols: bool, a: nat, c: nat, k: nat)
    requires w > 0 && h > 0 && ch > 0 && a < PassCount(w, h, cols) && c < ch
    requires MajorOf(w, ch, cols, k) != a || ChanOf(w, ch, k) != c
    ensures OffLine(LineStart(w, ch, cols, a, c), LineStride(w, ch, cols), LineLen(w, h, cols), k)
  {
    forall i | 0 <= i < LineLen(w, h, cols)
      ensures k != LinePos(LineStart(w, ch, cols, a, c), LineStride(w, ch, cols), i)
    {
      LineSample(w, h, ch, cols, a, c, i);
    }
  }

  /** Images with the same lines are the same image. */
  lemma LinesDetermine(s: seq<real>, t: seq<real>, w: nat, h: nat, ch: nat, cols: bool)
    requires w > 0 && h > 0 && ch > 0 && |s| == w * h * ch && |t| == |s|
    requires forall a, c :: 0 <= a < PassCount(w, h, cols) && 0 <= c < ch ==>
               PassLine(s, w, h, ch, cols, a, c) == PassLine(t, w, h, ch, cols, a, c)
    ensures s == t
  {
    forall k | 0 <= k < |s| ensures s[k] == t[k] {
      ElementOnLine(w, h, ch, cols, k);
      var a, c, i := MajorOf(w, ch, cols, k), ChanOf(w, ch, k), SampleOf(w, ch, cols, k);
      PassLineAt(s, w, h, ch, cols, a, c, i);
      PassLineAt(t, w, h, ch, cols, a, c, i);
    }
  }

  /** Every line of out is the prefiltered line of inp. */
  ghost predicate PassFiltered(out: seq<real>, inp: seq<real>, w: nat, h: nat, ch: nat, cols: bool) {
    w > 0 && h > 0 && ch > 0 && |inp| == w * h * ch && |out| == |inp| &&
    forall a, c :: 0 <= a < PassCount(w, h, cols) && 0 <= c < ch ==>
      LineFiltered(PassLine(out, w, h, ch, cols, a, c), PassLine(inp, w, h, ch, cols, a, c))
  }

  /** A pass has exactly one result. */
  lemma PassUnique(o1: seq<real>, o2: seq<real>, inp: seq<real>, w: nat, h: nat, ch: nat, cols: bool)
    requires PassFiltered(o1, inp, w, h, ch, cols) && PassFiltered(o2, inp, w, h, ch, cols)
    ensures o1 == o2
  {
    forall a, c | 0 <= a < PassCount(w, h, cols) && 0 <= c < ch
      ensures PassLine(o1, w, h, ch, cols, a, c) == PassLine(o2, w, h, ch, cols, a, c)
    {
      LineFilteredUnique(PassLine(o1, w, h, ch, cols, a, c), PassLine(o2, w, h, ch, cols, a, c),
                         PassLine(inp, w, h, ch, cols, a, c));
    }
    LinesDetermine(o1, o2, w, h, ch, cols);
  }

  /** A pass leaves a constant image unchanged. */
  lemma PassConstant(out: seq<real>, inp: seq<real>, v: real, w: nat, h: nat, ch: nat, cols: bool)
    requires PassFiltered(out, inp, w, h, ch, cols)
    requires forall k :: 0 <= k < |inp| ==> inp[k] == v
    ensures out == inp
  {
    forall a, c | 0 <= a < PassCount(w, h, cols) && 0 <= c < ch
      ensures PassLine(out, w, h, ch, cols, a, c) == PassLine(inp, w, h, ch, cols, a, c)
    {
      var l := PassLine(inp, w, h, ch, cols, a, c);
      forall i | 0 <= i < |l| ensures l[i] == v {
        PassLineAt(inp, w, h, ch, cols, a, c, i);
      }
      ConstantLine(l, v, PassLine(out, w, h, ch, cols, a, c));
    }
    LinesDetermine(out, inp, w, h, ch, cols);
  }

  /** Line (a, c) comes before line (y, d) in the order the passes visit
      them: by row or column, then by channel. */
  predicate Before(a: nat, c: nat, y: nat, d: nat) {
    a < y || (a == y && c < d)
  }

  /** The lines before (y, d) are filtered and the elements of the other
      lines are as they were. */
  ghost predicate PassUpTo(cur: seq<real>, orig: seq<real>, w: nat, h: nat, ch: nat, cols: bool, y: nat, d: nat) {
    w > 0 && h > 0 && ch > 0 && |orig| == w * h * ch && |cur| == |orig| &&
    (forall a, c :: 0 <= a < PassCount(w, h, cols) && 0 <= c < ch && Before(a, c, y, d) ==>
       LineFiltered(PassLine(cur, w, h, ch, cols, a, c), PassLine(orig, w, h, ch, cols, a, c))) &&
    forall k :: 0 <= k < |cur| && !Before(MajorOf(w, ch, cols, k), ChanOf(w, ch, k), y, d) ==> cur[k] == orig[k]
  }

  /** Filtering line (y, d) in place extends the filtered prefix by one line. */
  lemma PassStep(cur: seq<real>, next: seq<real>, orig: seq<real>, w: nat, h: nat, ch: nat, cols: bool, y: nat, d: nat)
    requires PassUpTo(cur, orig, w, h, ch, cols, y, d) && y < PassCount(w, h, cols) && d < ch && |next| == |cur|
    requires LineFiltered(PassLine(next, w, h, ch, cols, y, d), PassLine(cur, w, h, ch, cols, y, d))
    requires forall k :: 0 <= k < |cur| && OffLine(LineStart(w, ch, cols, y, d), LineStride(w, ch, cols), LineLen(w, h, cols), k) ==>
               next[k] == cur[k]
    ensures PassUpTo(next, orig, w, h, ch, cols, y, d + 1)
  {
    forall k | 0 <= k < |cur| && (MajorOf(w, ch, cols, k) != y || ChanOf(w, ch, k) != d) ensures next[k] == cur[k] {
      OtherLineOff(w, h, ch, cols, y, d, k);
    }
    PassLineAgree(cur, orig, w, h, ch, cols, y, d);
    forall a, c | 0 <= a < PassCount(w, h, cols) && 0 <= c < ch && Before(a, c, y, d)
      ensures LineFiltered(PassLine(next, w, h, ch, cols, a, c), PassLine(orig, w, h, ch, cols, a, c))
    {
      PassLineAgree(next, cur, w, h, ch, cols, a, c);
    }
  }

  /** Finishing every channel of row or column y moves on to the next. */
  lemma PassNext(cur: seq<real>, orig: seq<real>, w: nat, h: nat, ch: nat, cols: bool, y: nat)
    requires PassUpTo(cur, orig, w, h, ch, cols, y, ch)
    ensures PassUpTo(cur, orig, w, h, ch, cols, y + 1, 0)
  {
    forall k | 0 <= k < |cur| && !Before(MajorOf(w, ch, cols, k), ChanOf(w, ch, k), y + 1, 0)
      ensures cur[k] == orig[k]
    {
      ElementOnLine(w, h, ch, cols, k);
    }
  }

  /** The rows pass of b_spline_prefilter: every channel of every row. */
  method RowsPass(data: array<real>, w: nat, h: nat, ch: nat)
    requires w > 0 && h > 0 && ch > 0 && data.Length == w * h * ch
    modifies data
    ensures PassFiltered(data[..], old(data[..]), w, h, ch, false)
  {
    ghost var orig := data[..];
    for y := 0 to h
      invariant PassUpTo(data[..], orig, w, h, ch, false, y, 0)
    {
      var row := y * w * ch;
      for c := 0 to ch
        invariant PassUpTo(data[..], orig, w, h, ch, false, y, c)
      {
        ghost var cur := data[..];
        PassLineFits(w, h, ch, false, y, c);
        PrefilterLine(data, row + c, w, ch);
        PassStep(cur, data[..], orig, w, h, ch, false, y, c);
      }
      PassNext(data[..], orig, w, h, ch, false, y);
    }
  }

  /** The columns pass of b_spline_prefilter: every channel of every column,
      with the row stride w * ch between samples. */
  method ColumnsPass(data: array<real>, w: nat, h: nat, ch: nat)
    requires w > 0 && h > 0 && ch > 0 && data.Length == w * h * ch
    modifies data
    ensures PassFiltered(data[..], old(data[..]), w, h, ch, true)
  {
    ghost var orig := data[..];
    var rowStride := w * ch;
    for x := 0 to w
      invariant PassUpTo(data[..], orig, w, h, ch, true, x, 0)
    {
      for c := 0 to ch
        invariant PassUpTo(data[..], orig, w, h, ch, true, x, c)
      {
        ghost var cur := data[..];
        PassLineFits(w, h, ch, true, x, c);
        PrefilterLine(data, x * ch + c, h, rowStride);
        PassStep(cur, data[..], orig, w, h, ch, true, x, c);
      }
      PassNext(data[..], orig, w, h, ch, true, x);
    }
  }

  /** What b_spline_prefilter returns for input: the input itself when it
      is empty or its channel count is not whole; otherwise an image of the
      same size whose columns are prefiltered after its rows were. */
  ghost predicate Prefiltered(input: Image, output: Image) {
    var ch := Resample.ComputeChannels(input);
    if ch == 0 then output == input
    else
      output.width == input.width && output.height == input.height &&
      exists mid :: PassFiltered(mid, input.pixels, input.width, input.height, ch, false) &&
                    PassFiltered(output.pixels, mid, input.width, input.height, ch, true)
  }

  /** b_spline_prefilter: copy the input, filter all rows, then all columns. */
  method BSplinePrefilter(input: Image) returns (output: Image)
    ensures Prefiltered(input, output)
    ensures output.width == input.width && output.height == input.height
    ensures |output.pixels| == |input.pixels|
  {
    output := input;
    var width, height := output.width, output.height;
    if width == 0 || height == 0 {
      return;
    }
    var channels := Resample.ComputeChannels(output);
    if channels == 0 {
      return;
    }
    var data := new real[|output.pixels|](i requires 0 <= i < |output.pixels| => output.pixels[i]);
    assert data[..] == input.pixels;
    RowsPass(data, width, height, channels);
    ghost var mid := data[..];
    ColumnsPass(data, width, height, channels);
    output := Image(width, height, data[..]);
    assert PassFiltered(mid, input.pixels, width, height, channels, false);
  }

  /** The prefiltered image is determined by the input. */
  lemma PrefilteredUnique(input: Image, o1: Image, o2: Image)
    requires Prefiltered(input, o1) && Prefiltered(input, o2)
    ensures o1 == o2
  {
    var ch := Resample.ComputeChannels(input);
    if ch > 0 {
      var w, h := input.width, input.height;
      var m1 :| PassFiltered(m1, input.pixels, w, h, ch, false) && PassFiltered(o1.pixels, m1, w, h, ch, true);
      var m2 :| PassFiltered(m2, input.pixels, w, h, ch, false) && PassFiltered(o2.pixels, m2, w, h, ch, true);
      PassUnique(m1, m2, input.pixels, w, h, ch, false);
      PassUnique(o1.pixels, o2.pixels, m1, w, h, ch, true);
    }
  }

  /** A constant image is its own prefiltered image: the cubic B-spline
      through equal coefficients interpolates that constant. */
  lemma PrefilterConstant(input: Image, v: real, output: Image)
    requires forall k :: 0 <= k < |input.pixels| ==> input.pixels[k] == v
    requires Prefiltered(input, output)
    ensures output == input
  {
    var ch := Resample.ComputeChannels(input);
    if ch > 0 {
      var w, h := input.width, input.height;
      var mid :| PassFiltered(mid, input.pixels, w, h, ch, false) && PassFiltered(output.pixels, mid, w, h, ch, true);
      PassConstant(mid, input.pixels, v, w, h, ch, false);
      PassConstant(output.pixels, mid, v, w, h, ch, true);
    }
  }
}
