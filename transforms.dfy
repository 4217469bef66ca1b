/** Placement matrices and bounding boxes, kept symbolic.

    GLC_Matrix4x4 and GLC_BoundingBox hold doubles; the instance logic only
    composes, replaces and applies them, so the model represents each value by
    the way it was built and never evaluates one. The terms are never equated
    by algebra: `Mult(Identity, m)` and `m` are different values here, and no
    part of the model depends on them being equal. `Extent` stands for a
    box given by its corners, such as a geometry's local box. */
module Transforms {
  datatype Matrix =
    | Identity
    | Translation(tx: real, ty: real, tz: real)
    | Product(left: Matrix, right: Matrix)

  datatype Box =
    | EmptyBox
    | Extent(lower: seq<real>, upper: seq<real>)
    | Transformed(original: Box, placement: Matrix)

  /** The matrix product `a * b`. */
  function Mult(a: Matrix, b: Matrix): (m: Matrix)
  {
    Product(a, b)
  }

  /** The box `b` after GLC_BoundingBox::transform(m). */
  function Transform(b: Box, m: Matrix): (t: Box)
  {
    Transformed(b, m)
  }
}
