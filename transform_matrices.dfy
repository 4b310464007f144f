/** The three 2-row operators a particle is moved with: a rotation and a
    uniform scaling (2 x 2, applied by multiplying on the left) and a
    translation (2 x n, applied by adding). cos and sin are not modelled; the
    rotation constructor takes them as function values. */
module TransformMatrices {
  import opened Matrices

  /** [[c, -s], [s, c]]: counter-clockwise rotation with cos c and sin s. */
  function Rotation(c: real, s: real): Matrix
  {
    Matrix(2, 2, [[c, -s], [s, c]])
  }

  /** [[k, 0], [0, k]]: uniform scaling by k. */
  function Scaling(k: real): Matrix
  {
    Matrix(2, 2, [[k, 0.0], [0.0, k]])
  }

  /** The 2 x n matrix whose every column is (dx, dy). */
  function Translation(dx: real, dy: real, n: nat): Matrix
  {
    Matrix(2, n, [seq(n, _ => dx), seq(n, _ => dy)])
  }

  /** `RotationMatrix(theta)`: a 2 x 2 matrix filled cell by cell with
      cos theta, -sin theta, sin theta, cos theta. */
  method RotationMatrix(theta: real, cos: real -> real, sin: real -> real) returns (m: Matrix)
    ensures m.Valid() && m.rows == 2 && m.cols == 2
    ensures m.At(0, 0) == cos(theta) && m.At(0, 1) == -sin(theta)
    ensures m.At(1, 0) == sin(theta) && m.At(1, 1) == cos(theta)
    ensures m == Rotation(cos(theta), sin(theta))
  {
    m := Zero(2, 2);
    m := m.Set(0, 0, cos(theta));
    m := m.Set(0, 1, -sin(theta));
    m := m.Set(1, 0, sin(theta));
    m := m.Set(1, 1, cos(theta));
    IdenticalIffEqual(m, Rotation(cos(theta), sin(theta)));
  }

  /** `ScalingMatrix(k)`: a 2 x 2 matrix with k on the diagonal and 0 off it. */
  method ScalingMatrix(k: real) returns (m: Matrix)
    ensures m.Valid() && m.rows == 2 && m.cols == 2
    ensures m.At(0, 0) == k && m.At(1, 1) == k
    ensures m.At(0, 1) == 0.0 && m.At(1, 0) == 0.0
    ensures m == Scaling(k)
  {
    m := Zero(2, 2);
    m := m.Set(0, 0, k);
    m := m.Set(0, 1, 0.0);
    m := m.Set(1, 0, 0.0);
    m := m.Set(1, 1, k);
    IdenticalIffEqual(m, Scaling(k));
  }

  /** `TranslationMatrix(dx, dy, n)`: a 2 x n matrix filled column by column,
      so that every column is (dx, dy). */
  method TranslationMatrix(dx: real, dy: real, n: nat) returns (m: Matrix)
    ensures m.Valid() && m.rows == 2 && m.cols == n
    ensures forall j :: 0 <= j < n ==> m.At(0, j) == dx && m.At(1, j) == dy
    ensures m == Translation(dx, dy, n)
  {
    m := Zero(2, n);
    for j := 0 to n
      invariant m.Valid() && m.rows == 2 && m.cols == n
      invariant forall c :: 0 <= c < j ==> m.At(0, c) == dx && m.At(1, c) == dy
    {
      m := m.Set(0, j, dx);
      m := m.Set(1, j, dy);
    }
    IdenticalIffEqual(m, Translation(dx, dy, n));
  }

  /** Scaling by 1 is the 2 x 2 identity. */
  lemma ScalingOneIsIdentity()
    ensures Scaling(1.0) == Identity(2)
  {
    IdenticalIffEqual(Scaling(1.0), Identity(2));
  }

  /** Rotating by an angle whose cos is 1 and sin is 0 (such as 0) is the identity. */
  lemma RotationByZeroIsIdentity(cos: real -> real, sin: real -> real)
    requires cos(0.0) == 1.0 && sin(0.0) == 0.0
    ensures Rotation(cos(0.0), sin(0.0)) == Identity(2)
  {
    IdenticalIffEqual(Rotation(1.0, 0.0), Identity(2));
  }
}
