/** Dense matrices of reals: the value type behind every point set and every
    transform of the simulation. A Matrix is copied by value, so none of the
    operations below can change an operand; each one builds a fresh `result`
    cell by cell, as the C++ operators do. */
module Matrices {

  /** A rows x cols grid stored row by row: `a[i][j]` is the cell in row i,
      column j (both 0-based). */
  datatype Matrix = Matrix(rows: nat, cols: nat, a: seq<seq<real>>) {

    /** The grid really has the declared shape. */
    ghost predicate Valid() {
      |a| == rows && forall i :: 0 <= i < rows ==> |a[i]| == cols
    }

    /** Cell (i, j). */
    function At(i: nat, j: nat): real
      requires Valid() && i < rows && j < cols
    {
      a[i][j]
    }

    /** The matrix after the assignment `m(i, j) = v`: cell (i, j) holds v and
        every other cell and the shape are kept. */
    function Set(i: nat, j: nat, v: real): (m: Matrix)
      requires Valid() && i < rows && j < cols
      ensures m.Valid() && m.rows == rows && m.cols == cols
      ensures m.At(i, j) == v
      ensures forall r, c :: 0 <= r < rows && 0 <= c < cols && (r != i || c != j) ==>
                m.At(r, c) == At(r, c)
    {
      Matrix(rows, cols, a[i := a[i][j := v]])
    }
  }

  /** `Matrix(rows, cols)`: a rows x cols matrix whose every cell is 0. */
  function Zero(rows: nat, cols: nat): (m: Matrix)
    ensures m.Valid() && m.rows == rows && m.cols == cols
    ensures forall i, j :: 0 <= i < rows && 0 <= j < cols ==> m.At(i, j) == 0.0
  {
    Matrix(rows, cols, seq(rows, _ => seq(cols, _ => 0.0)))
  }

  /** Same shape and, cell by cell, exactly equal values (no tolerance). */
  ghost predicate Identical(lhs: Matrix, rhs: Matrix)
    requires lhs.Valid() && rhs.Valid()
  {
    lhs.rows == rhs.rows && lhs.cols == rhs.cols &&
    forall i, j :: 0 <= i < lhs.rows && 0 <= j < lhs.cols ==> lhs.At(i, j) == rhs.At(i, j)
  }

  /** Two well-shaped matrices are identical exactly when they are the same value. */
  lemma {:induction false} IdenticalIffEqual(lhs: Matrix, rhs: Matrix)
    requires lhs.Valid() && rhs.Valid()
    ensures Identical(lhs, rhs) <==> lhs == rhs
  {
    if Identical(lhs, rhs) {
      forall i | 0 <= i < lhs.rows
        ensures lhs.a[i] == rhs.a[i]
      {
        assert |lhs.a[i]| == |rhs.a[i]|;
        forall j | 0 <= j < lhs.cols
          ensures lhs.a[i][j] == rhs.a[i][j]
        {
          assert lhs.At(i, j) == rhs.At(i, j);
        }
      }
    }
  }

  /** Equality of matrices is reflexive. */
  lemma IdenticalReflexive(m: Matrix)
    requires m.Valid()
    ensures Identical(m, m)
  {
  }

  /** Equality of matrices is symmetric. */
  lemma IdenticalSymmetric(lhs: Matrix, rhs: Matrix)
    requires lhs.Valid() && rhs.Valid()
    ensures Identical(lhs, rhs) ==> Identical(rhs, lhs)
  {
  }

  /** `lhs + rhs`: the cell-wise sum. The C++ operator reads rhs(i, j) for
      every cell of lhs without checking rhs's shape, so equal shapes are the
      caller's obligation. */
  method Add(lhs: Matrix, rhs: Matrix) returns (result: Matrix)
    requires lhs.Valid() && rhs.Valid()
    requires rhs.rows == lhs.rows && rhs.cols == lhs.cols
    ensures result.Valid() && result.rows == lhs.rows && result.cols == lhs.cols
    ensures forall i, j :: 0 <= i < result.rows && 0 <= j < result.cols ==>
              result.At(i, j) == lhs.At(i, j) + rhs.At(i, j)
  {
    var rows, cols := lhs.rows, lhs.cols;
    result := Zero(rows, cols);
    for i := 0 to rows
      invariant result.Valid() && result.rows == rows && result.cols == cols
      invariant forall r, c :: 0 <= r < i && 0 <= c < cols ==>
                  result.At(r, c) == lhs.At(r, c) + rhs.At(r, c)
    {
      for j := 0 to cols
        invariant result.Valid() && result.rows == rows && result.cols == cols
        invariant forall r, c :: 0 <= r < i && 0 <= c < cols ==>
                    result.At(r, c) == lhs.At(r, c) + rhs.At(r, c)
        invariant forall c :: 0 <= c < j ==> result.At(i, c) == lhs.At(i, c) + rhs.At(i, c)
      {
        result := result.Set(i, j, lhs.At(i, j) + rhs.At(i, j));
      }
    }
  }

  /** The sum of lhs(i, k) * rhs(k, j) over k < n, accumulated in increasing k:
      the entry of the product that the first n terms contribute. */
  function Dot(lhs: Matrix, rhs: Matrix, i: nat, j: nat, n: nat): real
    requires lhs.Valid() && rhs.Valid() && lhs.cols == rhs.rows
    requires i < lhs.rows && j < rhs.cols && n <= lhs.cols
  {
    if n == 0 then 0.0 else Dot(lhs, rhs, i, j, n - 1) + lhs.At(i, n - 1) * rhs.At(n - 1, j)
  }

  /** `lhs * rhs` for an r x k and a k x c matrix: the r x c matrix whose cell
      (i, j) is the sum over k of lhs(i, k) * rhs(k, j). */
  method Multiply(lhs: Matrix, rhs: Matrix) returns (result: Matrix)
    requires lhs.Valid() && rhs.Valid()
    requires lhs.cols == rhs.rows
    ensures result.Valid() && result.rows == lhs.rows && result.cols == rhs.cols
    ensures forall i, j :: 0 <= i < result.rows && 0 <= j < result.cols ==>
              result.At(i, j) == Dot(lhs, rhs, i, j, lhs.cols)
  {
    var rows, inner, cols := lhs.rows, lhs.cols, rhs.cols;
    result := Zero(rows, cols);
    for i := 0 to rows
      invariant result.Valid() && result.rows == rows && result.cols == cols
      invariant forall r, c :: 0 <= r < i && 0 <= c < cols ==>
                  result.At(r, c) == Dot(lhs, rhs, r, c, inner)
    {
      for j := 0 to cols
        invariant result.Valid() && result.rows == rows && result.cols == cols
        invariant forall r, c :: 0 <= r < i && 0 <= c < cols ==>
                    result.At(r, c) == Dot(lhs, rhs, r, c, inner)
        invariant forall c :: 0 <= c < j ==> result.At(i, c) == Dot(lhs, rhs, i, c, inner)
      {
        var sum := 0.0;
        for k := 0 to inner
          invariant sum == Dot(lhs, rhs, i, j, k)
        {
          sum := sum + lhs.At(i, k) * rhs.At(k, j);
        }
        result := result.Set(i, j, sum);
      }
    }
  }

  /** A product entry with a two-term inner dimension, written out. */
  lemma DotOfTwo(lhs: Matrix, rhs: Matrix, i: nat, j: nat)
    requires lhs.Valid() && rhs.Valid() && lhs.cols == rhs.rows == 2
    requires i < lhs.rows && j < rhs.cols
    ensures Dot(lhs, rhs, i, j, 2) == lhs.At(i, 0) * rhs.At(0, j) + lhs.At(i, 1) * rhs.At(1, j)
  {
    assert Dot(lhs, rhs, i, j, 1) == lhs.At(i, 0) * rhs.At(0, j);
  }

  /** The n x n identity matrix. */
  function Identity(n: nat): (m: Matrix)
    ensures m.Valid() && m.rows == n && m.cols == n
  {
    Matrix(n, n, seq(n, i => seq(n, j => if i == j then 1.0 else 0.0)))
  }

  /** Multiplying by the identity on the left keeps every cell: the first n
      terms of row i of I * m pick out m(i, j) when i < n and nothing otherwise. */
  lemma {:induction false} IdentityDot(m: Matrix, i: nat, j: nat, n: nat)
    requires m.Valid() && i < m.rows && j < m.cols && n <= m.rows
    ensures Dot(Identity(m.rows), m, i, j, n) == if i < n then m.At(i, j) else 0.0
  {
    if n > 0 {
      IdentityDot(m, i, j, n - 1);
      assert Identity(m.rows).At(i, n - 1) == if i == n - 1 then 1.0 else 0.0;
    }
  }

  /** Hence I * m has the cells of m. */
  lemma IdentityIsNeutral(m: Matrix)
    requires m.Valid()
    ensures forall i, j :: 0 <= i < m.rows && 0 <= j < m.cols ==>
              Dot(Identity(m.rows), m, i, j, m.rows) == m.At(i, j)
  {
    forall i, j | 0 <= i < m.rows && 0 <= j < m.cols
      ensures Dot(Identity(m.rows), m, i, j, m.rows) == m.At(i, j)
    {
      IdentityDot(m, i, j, m.rows);
    }
  }

  /** The product distributes over a cell-wise sum on the right:
      the first n terms of lhs * (b + c) add up to those of lhs * b plus those of lhs * c. */
  lemma {:induction false} DotDistributes(lhs: Matrix, b: Matrix, c: Matrix, s: Matrix, i: nat, j: nat, n: nat)
    requires lhs.Valid() && b.Valid() && c.Valid() && s.Valid()
    requires b.rows == c.rows == s.rows == lhs.cols && b.cols == c.cols == s.cols
    requires forall r, k :: 0 <= r < s.rows && 0 <= k < s.cols ==> s.At(r, k) == b.At(r, k) + c.At(r, k)
    requires i < lhs.rows && j < s.cols && n <= lhs.cols
    ensures Dot(lhs, s, i, j, n) == Dot(lhs, b, i, j, n) + Dot(lhs, c, i, j, n)
  {
    if n > 0 {
      DotDistributes(lhs, b, c, s, i, j, n - 1);
      assert s.At(n - 1, j) == b.At(n - 1, j) + c.At(n - 1, j);
    }
  }

  /** `lhs == rhs`: false as soon as the shapes differ, otherwise true exactly
      when every pair of cells is equal. The scan stops at the first unequal pair. */
  method Equals(lhs: Matrix, rhs: Matrix) returns (eq: bool)
    requires lhs.Valid() && rhs.Valid()
    ensures lhs.rows != rhs.rows || lhs.cols != rhs.cols ==> !eq
    ensures eq <==> Identical(lhs, rhs)
    ensures eq <==> lhs == rhs
  {
    IdenticalIffEqual(lhs, rhs);
    if lhs.rows != rhs.rows || lhs.cols != rhs.cols {
      return false;
    }
    for i := 0 to lhs.rows
      invariant forall r, c :: 0 <= r < i && 0 <= c < lhs.cols ==> lhs.At(r, c) == rhs.At(r, c)
    {
      for j := 0 to lhs.cols
        invariant forall r, c :: 0 <= r < i && 0 <= c < lhs.cols ==> lhs.At(r, c) == rhs.At(r, c)
        invariant forall c :: 0 <= c < j ==> lhs.At(i, c) == rhs.At(i, c)
      {
        if lhs.At(i, j) != rhs.At(i, j) {
          return false;
        }
      }
    }
    return true;
  }

  /** `lhs != rhs`: exactly the negation of `lhs == rhs`. */
  method NotEquals(lhs: Matrix, rhs: Matrix) returns (ne: bool)
    requires lhs.Valid() && rhs.Valid()
    ensures ne <==> !Identical(lhs, rhs)
    ensures ne <==> lhs != rhs
  {
    var eq := Equals(lhs, rhs);
    ne := !eq;
  }
}
