/** Shape tags, axes and rigid frames (urdfModifiers/geometry/geometry.py and the
    shape records of the robot description the modifiers edit). */
module Geometry {

  /** An axis of a box extent or of a translation.
      ASSUMPTION: geometry.py names the members of `Side` WIDTH, HEIGHT and DEPTH,
      but linkModifier.py and fixedOffsetModifier.py compare against Side.X,
      Side.Y and Side.Z. The model takes the X/Y/Z reading, with indices 0/1/2. */
  datatype Axis = X | Y | Z {
    function Index(): (i: nat)
      ensures i < 3
      ensures AxisAt(i) == this
    {
      match this
      case X => 0
      case Y => 1
      case Z => 2
    }
  }

  /** The axis with index `i`. */
  function AxisAt(i: nat): Axis
    requires i < 3
  {
    if i == 0 then X else if i == 1 then Y else Z
  }

  /** A 3-vector of reals (a translation, an extent triple or a diagonal). */
  datatype Vec3 = Vec3(x: real, y: real, z: real) {
    function Get(a: Axis): real {
      match a
      case X => x
      case Y => y
      case Z => z
    }

    function At(i: nat): real
      requires i < 3
    {
      Get(AxisAt(i))
    }

    /** The vector with component `a` replaced by `v`. */
    function Set(a: Axis, v: real): (r: Vec3)
      ensures r.Get(a) == v
      ensures forall b :: b != a ==> r.Get(b) == Get(b)
    {
      match a
      case X => this.(x := v)
      case Y => this.(y := v)
      case Z => this.(z := v)
    }

    function Plus(o: Vec3): Vec3 {
      Vec3(x + o.x, y + o.y, z + o.z)
    }

    function Minus(o: Vec3): Vec3 {
      Vec3(x - o.x, y - o.y, z - o.z)
    }

    function Times(k: real): Vec3 {
      Vec3(k * x, k * y, k * z)
    }
  }

  const Zero: Vec3 := Vec3(0.0, 0.0, 0.0)

  /** The unit vector along `a`. */
  function Unit(a: Axis): (u: Vec3)
    ensures u.Get(a) == 1.0
    ensures forall b :: b != a ==> u.Get(b) == 0.0
  {
    Zero.Set(a, 1.0)
  }

  function Dot(a: Vec3, b: Vec3): real {
    a.x * b.x + a.y * b.y + a.z * b.z
  }

  /** A 3×3 real matrix, row by row. */
  datatype Mat3 = Mat3(row0: Vec3, row1: Vec3, row2: Vec3) {
    function Row(i: nat): Vec3
      requires i < 3
    {
      if i == 0 then row0 else if i == 1 then row1 else row2
    }

    function Entry(i: nat, j: nat): real
      requires i < 3 && j < 3
    {
      Row(i).At(j)
    }

    /** The matrix-vector product. */
    function Apply(v: Vec3): Vec3 {
      Vec3(Dot(row0, v), Dot(row1, v), Dot(row2, v))
    }
  }

  /** A rigid frame: the rotation and translation parts of a homogeneous transform.
      ASSUMPTION: the conversions between a 4×4 transform and xyz/rpy are left out;
      reading and writing the translation leaves the rotation as it was. */
  datatype Origin = Origin(R: Mat3, t: Vec3) {
    /** An absolute position edit on axis `a`. */
    function WritePosition(a: Axis, v: real): (o: Origin)
      ensures o.R == R
      ensures o.t.Get(a) == v
      ensures forall b :: b != a ==> o.t.Get(b) == t.Get(b)
    {
      Origin(R, t.Set(a, v))
    }
  }

  /** The three primitive shapes (the `Geometry` enum together with the data of each). */
  datatype Shape =
    | Box(size: Vec3)
    | Cylinder(radius: real, length: real)
    | Sphere(radius: real)

  type PositiveReal = r: real | 0.0 < r witness 1.0

  /** π, kept abstract: only its positivity is used. */
  const Pi: PositiveReal
}
