/** 3x3 direction cosine matrices and their transpose, the inverse of a rotation. */
module Dcm {

  /** A 3x3 matrix, stored row by row. */
  predicate IsMatrix3(m: seq<seq<real>>)
  {
    |m| == 3 && forall i | 0 <= i < 3 :: |m[i]| == 3
  }

  type Matrix3 = m: seq<seq<real>> | IsMatrix3(m)
    witness [[1.0, 0.0, 0.0], [0.0, 1.0, 0.0], [0.0, 0.0, 1.0]]

  /** The body-from-inertial matrix of a 3-2-1 Euler sequence, as a function of
      (phi, theta, psi). Its trigonometric definition belongs to the library the
      rigid body calls and is not part of this model, so it is a parameter. */
  type Dcm321 = (real, real, real) -> Matrix3

  /** The transpose: row i of the result is column i of `m`. */
  function Transpose(m: Matrix3): (mt: Matrix3)
    ensures forall i, j | 0 <= i < 3 && 0 <= j < 3 :: mt[i][j] == m[j][i]
  {
    [[m[0][0], m[1][0], m[2][0]],
     [m[0][1], m[1][1], m[2][1]],
     [m[0][2], m[1][2], m[2][2]]]
  }

  /** Transposing twice gives back the matrix. */
  lemma {:induction false} TransposeInvolutive(m: Matrix3)
    ensures Transpose(Transpose(m)) == m
  {
    var tt := Transpose(Transpose(m));
    forall i | 0 <= i < 3
      ensures tt[i] == m[i]
    {
      assert |tt[i]| == |m[i]| == 3;
      assert forall j | 0 <= j < 3 :: tt[i][j] == m[i][j];
    }
  }
}
