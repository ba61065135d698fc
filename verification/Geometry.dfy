/**
 Vectors and 4x4 matrices of the 3D labs (`CVector3`, `CMatrix4x4`), plus
 the functions the labs call but whose code is not part of this model: the
 C runtime's trigonometry and `pow`, and the matrix library's constructors,
 product and affine inverse. Those are carried as function values so that
 every statement about them holds whatever they compute.
 */
module Geometry {

  datatype Vec3 = Vec3(x: real, y: real, z: real)
  {
    function Plus(o: Vec3): Vec3
    {
      Vec3(x + o.x, y + o.y, z + o.z)
    }

    function Scaled(k: real): Vec3
    {
      Vec3(k * x, k * y, k * z)
    }
  }

  const Zero := Vec3(0.0, 0.0, 0.0)

  datatype Vec4 = Vec4(x: real, y: real, z: real, w: real)

  /** A `CMatrix4x4`: `rowI.x .. rowI.w` are the elements eI0 .. eI3. */
  datatype Matrix = Matrix(row0: Vec4, row1: Vec4, row2: Vec4, row3: Vec4)

  /** The first three elements of a row: a local axis of a world matrix. */
  function Axis(row: Vec4): Vec3
  {
    Vec3(row.x, row.y, row.z)
  }

  /** A row vector multiplied by a matrix, the labs' (row-vector) convention. */
  function Transform(v: Vec4, m: Matrix): Vec4
  {
    Vec4(v.x * m.row0.x + v.y * m.row1.x + v.z * m.row2.x + v.w * m.row3.x,
         v.x * m.row0.y + v.y * m.row1.y + v.z * m.row2.y + v.w * m.row3.y,
         v.x * m.row0.z + v.y * m.row1.z + v.z * m.row2.z + v.w * m.row3.z,
         v.x * m.row0.w + v.y * m.row1.w + v.z * m.row2.w + v.w * m.row3.w)
  }

  /** `sin`, `cos`, `tan` and `pow`/`powf` of the C runtime. */
  datatype Maths = Maths(sin: real -> real, cos: real -> real, tan: real -> real, pow: (real, real) -> real)

  /** The matrix library's functions used by the update code. */
  datatype MatrixLib = MatrixLib(
    identity: Matrix,
    scaling: Vec3 -> Matrix,
    uniformScaling: real -> Matrix,
    rotationX: real -> Matrix,
    rotationY: real -> Matrix,
    rotationZ: real -> Matrix,
    translation: Vec3 -> Matrix,
    mul: (Matrix, Matrix) -> Matrix,
    inverseAffine: Matrix -> Matrix)
}
