/** Link editing (urdfModifiers/core/linkModifier.py): checks an edit request
    against the link's shape, applies radius, length, density and mass edits in
    that order to the visual and collision geometry, and rebuilds a diagonal
    inertia tensor. The closed formulas are written as functions on a snapshot
    of the link; the modifier's methods change the link in place and are proved
    to agree with those functions. */
module Links {
  import opened Wrappers
  import opened Geometry
  import opened Sequences
  import opened Urdf
  import opened Requests

  /** The exceptions a link modifier raises. */
  datatype LinkError =
    | DimensionForCylinder   // "Modifier cannot have dimension for cylinder geometry"
    | DimensionForSphere     // "Modifier cannot have dimension for sphere geometry"
    | BoxWithoutDimension    // "Box geometry with no dimension", raised when reading the length
    | RadiusOfBox            // "Cannot modify radius of box geometry"
    | LengthOfSphere         // "Cannot modify length of sphere geometry"
    | MissingInertial        // reading the mass of a link that has no inertial record
    | ZeroVolume             // dividing the mass by a volume of zero
    | LinkNotFound           // building a modifier from a name no link has

  // ---------------------------------------------------------------------------
  // Closed formulas

  /** The volume of a shape: x·y·z for a box, π·r²·l for a cylinder, 4·π·r³/3 for a sphere. */
  function Volume(s: Shape): (v: real)
    ensures s.Box? ==> (v == 0.0 <==> s.size.x == 0.0 || s.size.y == 0.0 || s.size.z == 0.0)
    ensures s.Cylinder? ==> (v == 0.0 <==> s.radius == 0.0 || s.length == 0.0)
    ensures s.Sphere? ==> (v == 0.0 <==> s.radius == 0.0)
  {
    match s
    case Box(size) =>
      ProductZero(size.x, size.y); ProductZero(size.x * size.y, size.z);
      size.x * size.y * size.z
    case Cylinder(r, l) =>
      ProductZero(Pi * r, r); ProductZero(Pi * r * r, l);
      Pi * r * r * l
    case Sphere(r) =>
      ProductZero(Pi * r, r); ProductZero(Pi * r * r, r);
      4.0 * Pi * r * r * r / 3.0
  }

  lemma ProductZero(a: real, b: real)
    ensures a * b == 0.0 <==> a == 0.0 || b == 0.0
  {
  }

  /** The radius of a cylinder or a sphere; a box has none. */
  function Radius(s: Shape): (r: Option<real>)
    ensures r.Some? <==> !s.Box?
    ensures r.Some? ==> r.value == s.radius
  {
    if s.Box? then None else Some(s.radius)
  }

  /** The length an edit of the dimension acts on: the extent of a box along the
      modifier's dimension, the length of a cylinder, and none for a sphere.
      Reading it for a box modifier built without a dimension raises. */
  function SignificantLength(s: Shape, dim: Option<Axis>): (r: Result<Option<real>, LinkError>)
    ensures r.Failure? <==> s.Box? && dim.None?
    ensures r.Failure? ==> r.error == BoxWithoutDimension
    ensures r.Success? ==> (r.value.None? <==> s.Sphere?)
    ensures r.Success? && s.Box? ==> r.value == Some(s.size.Get(dim.value))
    ensures s.Cylinder? ==> r == Success(Some(s.length))
  {
    match s
    case Box(size) =>
      if dim.None? then Failure(BoxWithoutDimension) else Success(Some(size.Get(dim.value)))
    case Cylinder(_, l) => Success(Some(l))
    case Sphere(_) => Success(None)
  }

  /** The density mass / volume; None where the division by zero raises. */
  function DensityOf(mass: real, s: Shape): (d: Option<real>)
    ensures d.None? <==> Volume(s) == 0.0
    ensures d.Some? ==> d.value * Volume(s) == mass
  {
    if Volume(s) == 0.0 then None else Some(mass / Volume(s))
  }

  /** The shape with its radius set to `r`; a box has no radius and is kept. */
  function WithRadius(s: Shape, r: real): (t: Shape)
    ensures t.Box? == s.Box? && t.Cylinder? == s.Cylinder?
    ensures Radius(t) == if s.Box? then None else Some(r)
    ensures s.Box? ==> t == s
    ensures s.Cylinder? ==> t.length == s.length
  {
    match s
    case Box(_) => s
    case Cylinder(_, l) => Cylinder(r, l)
    case Sphere(_) => Sphere(r)
  }

  /** The shape with its significant length set to `l`: a box's extent along
      `dim`, or a cylinder's length. A sphere, and a box when there is no
      dimension (the source prints an error and goes on), are kept. */
  function WithLength(s: Shape, dim: Option<Axis>, l: real): (t: Shape)
    ensures t.Box? == s.Box? && t.Cylinder? == s.Cylinder?
    ensures Radius(t) == Radius(s)
    ensures s.Box? && dim.Some? ==> t.size.Get(dim.value) == l
    ensures s.Box? && dim.Some? ==> forall b :: b != dim.value ==> t.size.Get(b) == s.size.Get(b)
    ensures s.Cylinder? ==> t.length == l
    ensures s.Sphere? || (s.Box? && dim.None?) ==> t == s
  {
    match s
    case Box(size) => if dim.Some? then Box(size.Set(dim.value, l)) else s
    case Cylinder(r, _) => Cylinder(r, l)
    case Sphere(_) => s
  }

  /** The three principal moments of a solid of mass `m`:
      a box m/12·(y²+z², x²+z², x²+y²), a cylinder m·((3r²+l²)/12, (3r²+l²)/12, r²/2),
      a sphere 2·m·r²/5 about every axis. */
  function InertiaDiagonal(s: Shape, m: real): (d: Vec3)
    ensures s.Sphere? ==> d.x == d.y == d.z
    ensures s.Cylinder? ==> d.x == d.y
  {
    match s
    case Box(size) =>
      Vec3(m / 12.0 * (size.y * size.y + size.z * size.z),
           m / 12.0 * (size.x * size.x + size.z * size.z),
           m / 12.0 * (size.x * size.x + size.y * size.y))
    case Cylinder(r, l) =>
      var i := (3.0 * r * r + l * l) / 12.0;
      Vec3(m * i, m * i, m * (r * r / 2.0))
    case Sphere(r) =>
      var i := 2.0 * m * r * r / 5.0;
      Vec3(i, i, i)
  }

  /** A solid of non-negative mass has non-negative principal moments. */
  lemma InertiaDiagonalNonNegative(s: Shape, m: real)
    requires 0.0 <= m
    ensures var d := InertiaDiagonal(s, m); 0.0 <= d.x && 0.0 <= d.y && 0.0 <= d.z
  {
  }

  /** The smallest moment kept in a rebuilt tensor. */
  const InertiaFloor: real := 0.01

  /** A moment raised to the floor when below it. */
  function Floor(v: real): (r: real)
    ensures InertiaFloor <= r
    ensures r == v || (v < InertiaFloor && r == InertiaFloor)
  {
    if v < InertiaFloor then InertiaFloor else v
  }

  /** Floor applied to each component. */
  function FloorAll(d: Vec3): (r: Vec3)
    ensures forall i :: 0 <= i < 3 ==> r.At(i) == Floor(d.At(i))
  {
    Vec3(Floor(d.x), Floor(d.y), Floor(d.z))
  }

  /** The matrix with `d` on the diagonal and zeros elsewhere. */
  function DiagonalMatrix(d: Vec3): (m: Mat3)
    ensures forall i, j :: 0 <= i < 3 && 0 <= j < 3 ==> m.Entry(i, j) == if i == j then d.At(i) else 0.0
  {
    Mat3(Vec3(d.x, 0.0, 0.0), Vec3(0.0, d.y, 0.0), Vec3(0.0, 0.0, d.z))
  }

  // ---------------------------------------------------------------------------
  // The edits as functions of a link snapshot

  /** The value an edit asks for: its own value when absolute, otherwise the
      pre-edit value `before` scaled by it. */
  function Target(e: ModificationType, before: Option<real>): (v: real)
    requires e.absolute || before.Some?
    ensures e.absolute ==> v == e.value
    ensures !e.absolute ==> v == before.value * e.value
  {
    if e.absolute then e.value else before.value * e.value
  }

  /** set_radius: the visual and, independently, the collision get radius `r`
      where their shape has one. */
  function SetRadiusSpec(st: LinkState, r: real): (t: LinkState)
    ensures t.visualOrigin == st.visualOrigin && t.inertial == st.inertial
    ensures t.visual == WithRadius(st.visual, r)
    ensures t.collision.None? <==> st.collision.None?
    ensures st.collision.Some? ==> t.collision.value == WithRadius(st.collision.value, r)
  {
    st.(visual := WithRadius(st.visual, r),
        collision := if st.collision.None? then None else Some(WithRadius(st.collision.value, r)))
  }

  /** set_length: the visual and, independently, the collision get length `l`
      according to their own shape. */
  function SetLengthSpec(st: LinkState, dim: Option<Axis>, l: real): (t: LinkState)
    ensures t.visualOrigin == st.visualOrigin && t.inertial == st.inertial
    ensures t.visual == WithLength(st.visual, dim, l)
    ensures t.collision.None? <==> st.collision.None?
    ensures st.collision.Some? ==> t.collision.value == WithLength(st.collision.value, dim, l)
  {
    st.(visual := WithLength(st.visual, dim, l),
        collision := if st.collision.None? then None else Some(WithLength(st.collision.value, dim, l)))
  }

  /** set_mass. */
  function SetMassSpec(st: LinkState, m: real): (t: LinkState)
    requires st.inertial.Some?
    ensures t.inertial.Some? && t.inertial.value.mass == m
    ensures t.inertial.value.inertia == st.inertial.value.inertia
    ensures t.visual == st.visual && t.visualOrigin == st.visualOrigin && t.collision == st.collision
  {
    st.(inertial := Some(st.inertial.value.(mass := m)))
  }

  /** set_density: the mass becomes the current visual volume times `d`. */
  function SetDensitySpec(st: LinkState, d: real): (t: LinkState)
    requires st.inertial.Some?
    ensures t.inertial.Some? && t.inertial.value.mass == Volume(st.visual) * d
    ensures st.inertial.value.mass == Volume(st.visual) * d ==> t == st
  {
    SetMassSpec(st, Volume(st.visual) * d)
  }

  /** update_inertia: when the link has an inertial record, its tensor becomes
      diagonal, holding the floored moments of the current shape and mass. */
  function UpdateInertiaSpec(st: LinkState): (t: LinkState)
    ensures st.inertial.None? ==> t == st
    ensures t.visual == st.visual && t.visualOrigin == st.visualOrigin && t.collision == st.collision
    ensures st.inertial.Some? ==> t.inertial.Some? && t.inertial.value.mass == st.inertial.value.mass
    ensures st.inertial.Some? ==> forall i, j :: 0 <= i < 3 && 0 <= j < 3 ==>
      t.inertial.value.inertia.Entry(i, j) ==
        if i == j then Floor(InertiaDiagonal(st.visual, st.inertial.value.mass).At(i)) else 0.0
  {
    if st.inertial.None? then st
    else
      var d := FloorAll(InertiaDiagonal(st.visual, st.inertial.value.mass));
      st.(inertial := Some(InertialState(st.inertial.value.mass, DiagonalMatrix(d))))
  }

  /** The state a call leaves behind and the exception it raised, if any. */
  datatype Outcome = Outcome(state: LinkState, error: Option<LinkError>)

  /** The parts of a link no edit of modify changes: the visual origin, the kind
      of each shape, and whether the collision and the inertial record exist. */
  predicate SameFrame(a: LinkState, b: LinkState) {
    a.visualOrigin == b.visualOrigin && a.visual.Box? == b.visual.Box? && a.visual.Cylinder? == b.visual.Cylinder? &&
    (a.collision.None? <==> b.collision.None?) && (a.inertial.None? <==> b.inertial.None?)
  }

  /** The radius edit of modify: raises on a box, otherwise sets the radius from
      the pre-edit radius `radius0` (a relative edit with no radius does nothing). */
  function RadiusStep(st: LinkState, e: Option<ModificationType>, radius0: Option<real>): (o: Outcome)
    ensures o.error.Some? <==> e.Some? && st.visual.Box?
    ensures o.error.Some? ==> o == Outcome(st, Some(RadiusOfBox))
    ensures SameFrame(st, o.state) && o.state.inertial == st.inertial
  {
    if e.None? then Outcome(st, None)
    else if st.visual.Box? then Outcome(st, Some(RadiusOfBox))
    else if e.value.absolute || radius0.Some? then Outcome(SetRadiusSpec(st, Target(e.value, radius0)), None)
    else Outcome(st, None)
  }

  /** The dimension edit of modify: raises on a sphere, otherwise sets the length
      from the pre-edit length `length0` (a relative edit with no length does nothing). */
  function LengthStep(st: LinkState, dim: Option<Axis>, e: Option<ModificationType>, length0: Option<real>): (o: Outcome)
    ensures o.error.Some? <==> e.Some? && st.visual.Sphere?
    ensures o.error.Some? ==> o == Outcome(st, Some(LengthOfSphere))
    ensures SameFrame(st, o.state) && o.state.inertial == st.inertial
  {
    if e.None? then Outcome(st, None)
    else if st.visual.Sphere? then Outcome(st, Some(LengthOfSphere))
    else if e.value.absolute || length0.Some? then Outcome(SetLengthSpec(st, dim, Target(e.value, length0)), None)
    else Outcome(st, None)
  }

  /** The density edit of modify, relative to the pre-edit density `density0`;
      a relative edit when the pre-edit volume was zero raises. */
  function DensityStep(st: LinkState, e: Option<ModificationType>, density0: Option<real>): (o: Outcome)
    requires st.inertial.Some?
    ensures o.error.Some? <==> e.Some? && !e.value.absolute && density0.None?
    ensures o.error.Some? ==> o == Outcome(st, Some(ZeroVolume))
    ensures o.state.inertial.Some? && SameFrame(st, o.state) && o.state.visual == st.visual
    ensures e.None? ==> o.state == st
    ensures e.Some? && o.error.None? ==> o.state.inertial.value.mass == Volume(st.visual) * Target(e.value, density0)
  {
    if e.None? then Outcome(st, None)
    else if e.value.absolute || density0.Some? then Outcome(SetDensitySpec(st, Target(e.value, density0)), None)
    else Outcome(st, Some(ZeroVolume))
  }

  /** The mass edit of modify, relative to the pre-edit mass `mass0`. */
  function MassStep(st: LinkState, e: Option<ModificationType>, mass0: real): (t: LinkState)
    requires st.inertial.Some?
    ensures t.inertial.Some?
    ensures e.Some? ==> t.inertial.value.mass == Target(e.value, Some(mass0))
    ensures e.None? ==> t == st
    ensures SameFrame(st, t) && t.visual == st.visual
  {
    if e.None? then st else SetMassSpec(st, Target(e.value, Some(mass0)))
  }

  /** modify: the pre-edit density, radius, length and mass are read first (the
      first two reads raise without an inertial record or with a zero cylinder or
      sphere volume, the length read raises for a box without a dimension), then
      the radius, dimension, density and mass edits are applied in that order,
      then the inertia is rebuilt. An exception stops the call where it is
      raised: edits applied before it stay applied. */
  function ModifySpec(st: LinkState, dim: Option<Axis>, req: Request): Outcome {
    if st.inertial.None? then Outcome(st, Some(MissingInertial))
    else if Volume(st.visual) == 0.0 && !st.visual.Box? then Outcome(st, Some(ZeroVolume))
    else match SignificantLength(st.visual, dim)
      case Failure(e) => Outcome(st, Some(e))
      case Success(length0) =>
        var density0 := DensityOf(st.inertial.value.mass, st.visual);
        var mass0 := st.inertial.value.mass;
        var o1 := RadiusStep(st, req.radius, Radius(st.visual));
        if o1.error.Some? then o1
        else
          var o2 := LengthStep(o1.state, dim, req.dimension, length0);
          if o2.error.Some? then o2
          else
            var o3 := DensityStep(o2.state, req.density, density0);
            if o3.error.Some? then o3
            else Outcome(UpdateInertiaSpec(MassStep(o3.state, req.mass, mass0)), None)
  }

  /** Construction fails for a cylinder or a sphere given a dimension. */
  function ConstructionCheck(visual: Shape, dim: Option<Axis>): (e: Option<LinkError>)
    ensures e.None? <==> visual.Box? || dim.None?
    ensures e == Some(DimensionForCylinder) <==> visual.Cylinder? && dim.Some?
    ensures e == Some(DimensionForSphere) <==> visual.Sphere? && dim.Some?
  {
    if visual.Cylinder? && dim.Some? then Some(DimensionForCylinder)
    else if visual.Sphere? && dim.Some? then Some(DimensionForSphere)
    else None
  }

  /** The first link of the robot with that name, or None. */
  function GetElementByName(robot: Robot, name: string): (r: Option<Link>)
    ensures r.Some? ==> r.value in robot.links && r.value.name == name
    ensures r.Some? ==>
      exists k :: 0 <= k < |robot.links| && robot.links[k] == r.value && (forall i :: 0 <= i < k ==> robot.links[i].name != name)
    ensures r.None? <==> forall i :: 0 <= i < |robot.links| ==> robot.links[i].name != name
  {
    match FirstIndex(robot.links, (l: Link) => l.name == name)
    case None => None
    case Some(k) => Some(robot.links[k])
  }

  // ---------------------------------------------------------------------------
  // The modifier

  class LinkModifier {
    const link: Link
    /** The box axis a dimension edit acts on; None for cylinders and spheres. */
    const dimension: Option<Axis>
    /** The axis a position edit acts on.
        ASSUMPTION: linkModifier.py has no such field and handles no position
        edit, yet fixedOffsetModifier.py builds a link modifier with `axis=`,
        rebinds `axis` and issues absolute position edits through it. The model
        gives the modifier this field and the writer ModifyPosition, which sets
        one component of the visual origin's translation. */
    var axis: Axis

    constructor (link: Link, dimension: Option<Axis>, axis: Axis)
      requires ConstructionCheck(link.visual, dimension).None?
      ensures this.link == link && this.dimension == dimension && this.axis == axis
    {
      this.link := link;
      this.dimension := dimension;
      this.axis := axis;
    }

    /** LinkModifier(link, dimension): fails for a cylinder or a sphere given a dimension. */
    static method Create(link: Link, dimension: Option<Axis>) returns (m: LinkModifier?, err: Option<LinkError>)
      ensures err == ConstructionCheck(link.visual, dimension)
      ensures err.None? ==> m != null && fresh(m) && m.link == link && m.dimension == dimension
      ensures err.Some? ==> m == null
    {
      err := ConstructionCheck(link.visual, dimension);
      if err.None? {
        var a := if dimension.Some? then dimension.value else Z;
        m := new LinkModifier(link, dimension, a);
      } else {
        m := null;
      }
    }

    /** from_name: looks the link up first; a name no link has fails. */
    static method FromName(name: string, robot: Robot, dimension: Option<Axis>) returns (m: LinkModifier?, err: Option<LinkError>)
      ensures GetElementByName(robot, name).None? ==> m == null && err == Some(LinkNotFound)
      ensures GetElementByName(robot, name).Some? ==>
        err == ConstructionCheck(GetElementByName(robot, name).value.visual, dimension)
      ensures err.None? ==> m != null && fresh(m) && m.link == GetElementByName(robot, name).value && m.dimension == dimension
      ensures err.Some? ==> m == null
    {
      var link := GetElementByName(robot, name);
      if link.None? {
        return null, Some(LinkNotFound);
      }
      m, err := Create(link.value, dimension);
    }

    method SetRadius(r: real)
      requires link.Valid()
      modifies link
      ensures link.State() == SetRadiusSpec(old(link.State()), r)
    {
      link.visual := WithRadius(link.visual, r);
      if link.collision.Some? {
        link.collision := Some(WithRadius(link.collision.value, r));
      }
    }

    method SetLength(l: real)
      requires link.Valid()
      modifies link
      ensures link.State() == SetLengthSpec(old(link.State()), dimension, l)
    {
      link.visual := WithLength(link.visual, dimension, l);
      if link.collision.Some? {
        link.collision := Some(WithLength(link.collision.value, dimension, l));
      }
    }

    method SetMass(m: real)
      requires link.Valid() && link.inertial != null
      modifies link.inertial
      ensures link.State() == SetMassSpec(old(link.State()), m)
    {
      link.inertial.mass := m;
    }

    method SetDensity(d: real)
      requires link.Valid() && link.inertial != null
      modifies link.inertial
      ensures link.State() == SetDensitySpec(old(link.State()), d)
    {
      var volume := Volume(link.visual);
      link.inertial.mass := volume * d;
    }

    /** Writes the floored moments on the diagonal of the tensor and zeros elsewhere. */
    method UpdateInertia()
      requires link.Valid()
      modifies link.InertialRepr()
      ensures link.State() == UpdateInertiaSpec(old(link.State()))
    {
      if link.inertial != null {
        var inertia := link.inertial.inertia;
        var moments := FloorAll(InertiaDiagonal(link.visual, link.inertial.mass));
        for i := 0 to 3
          modifies inertia
          invariant forall p, q :: 0 <= p < i && 0 <= q < 3 ==>
            inertia[p, q] == if p == q then moments.At(p) else 0.0
        {
          for j := 0 to 3
            modifies inertia
            invariant forall q :: 0 <= q < j ==> inertia[i, q] == if i == q then moments.At(i) else 0.0
            invariant forall p, q :: 0 <= p < i && 0 <= q < 3 ==>
              inertia[p, q] == if p == q then moments.At(p) else 0.0
          {
            if i == j {
              inertia[i, j] := moments.At(i);
            } else {
              inertia[i, j] := 0.0;
            }
          }
        }
        assert MatrixOf(inertia) == DiagonalMatrix(moments) by {
          assert inertia[0, 0] == moments.At(0) && inertia[1, 1] == moments.At(1) && inertia[2, 2] == moments.At(2);
        }
      }
    }

    method ApplyRadius(e: Option<ModificationType>, radius0: Option<real>) returns (err: Option<LinkError>)
      requires link.Valid()
      modifies link
      ensures Outcome(link.State(), err) == RadiusStep(old(link.State()), e, radius0)
    {
      err := None;
      if e.Some? {
        if link.visual.Box? {
          return Some(RadiusOfBox);
        }
        if e.value.absolute {
          SetRadius(e.value.value);
        } else if radius0.Some? {
          SetRadius(radius0.value * e.value.value);
        }
      }
    }

    method ApplyLength(e: Option<ModificationType>, length0: Option<real>) returns (err: Option<LinkError>)
      requires link.Valid()
      modifies link
      ensures Outcome(link.State(), err) == LengthStep(old(link.State()), dimension, e, length0)
    {
      err := None;
      if e.Some? {
        if link.visual.Sphere? {
          return Some(LengthOfSphere);
        }
        if e.value.absolute {
          SetLength(e.value.value);
        } else if length0.Some? {
          assert Target(e.value, length0) == length0.value * e.value.value;
          SetLength(length0.value * e.value.value);
        }
      }
    }

    method ApplyDensity(e: Option<ModificationType>, density0: Option<real>) returns (err: Option<LinkError>)
      requires link.Valid() && link.inertial != null
      modifies link.inertial
      ensures Outcome(link.State(), err) == DensityStep(old(link.State()), e, density0)
    {
      err := None;
      if e.Some? {
        if e.value.absolute {
          SetDensity(e.value.value);
        } else if density0.Some? {
          assert Target(e.value, density0) == density0.value * e.value.value;
          SetDensity(density0.value * e.value.value);
        } else {
          err := Some(ZeroVolume);
        }
      }
    }

    method ApplyMass(e: Option<ModificationType>, mass0: real)
      requires link.Valid() && link.inertial != null
      modifies link.inertial
      ensures link.State() == MassStep(old(link.State()), e, mass0)
    {
      if e.Some? {
        if e.value.absolute {
          SetMass(e.value.value);
        } else {
          assert Target(e.value, Some(mass0)) == mass0 * e.value.value;
          SetMass(mass0 * e.value.value);
        }
      }
    }

    /** modify: applies the request as ModifySpec says. */
    method Modify(req: Modification) returns (err: Option<LinkError>)
      requires link.Valid()
      modifies link.Repr()
      ensures Outcome(link.State(), err) == ModifySpec(old(link.State()), dimension, req.Value())
    {
      var r := req.Value();
      if link.inertial == null {
        return Some(MissingInertial);
      }
      if Volume(link.visual) == 0.0 && !link.visual.Box? {
        return Some(ZeroVolume);
      }
      var density0 := DensityOf(link.inertial.mass, link.visual);
      var radius0 := Radius(link.visual);
      var length0 := SignificantLength(link.visual, dimension);
      if length0.Failure? {
        return Some(length0.error);
      }
      var mass0 := link.inertial.mass;
      err := ApplyRadius(r.radius, radius0);
      if err.Some? {
        return;
      }
      err := ApplyLength(r.dimension, length0.value);
      if err.Some? {
        return;
      }
      err := ApplyDensity(r.density, density0);
      if err.Some? {
        return;
      }
      ApplyMass(r.mass, mass0);
      UpdateInertia();
    }

    /** An absolute position edit on the modifier's axis (see the field `axis`). */
    method ModifyPosition(v: real)
      requires link.Valid()
      modifies link
      ensures link.State() == old(link.State()).(visualOrigin := old(link.visualOrigin).WritePosition(axis, v))
    {
      link.visualOrigin := link.visualOrigin.WritePosition(axis, v);
    }
  }

  // ---------------------------------------------------------------------------
  // What a call to modify does

  /** The pre-edit length a dimension edit is relative to. */
  function LengthBefore(st: LinkState, dim: Option<Axis>): Option<real> {
    match SignificantLength(st.visual, dim)
    case Failure(_) => None
    case Success(l) => l
  }

  /** modify raises exactly in these cases: no inertial record; a cylinder or
      sphere of zero volume; a box modifier without a dimension; a radius edit of
      a box; a dimension edit of a sphere; a relative density edit when the volume
      was zero. */
  lemma ModifyRaises(st: LinkState, dim: Option<Axis>, req: Request)
    ensures ModifySpec(st, dim, req).error.None? <==>
      st.inertial.Some? &&
      !(Volume(st.visual) == 0.0 && !st.visual.Box?) &&
      !(st.visual.Box? && dim.None?) &&
      !(req.radius.Some? && st.visual.Box?) &&
      !(req.dimension.Some? && st.visual.Sphere?) &&
      !(req.density.Some? && !req.density.value.absolute && Volume(st.visual) == 0.0)
  {
  }

  /** A box modifier built without a dimension raises on every request, before
      anything is changed. */
  lemma BoxWithoutDimensionRaises(st: LinkState, req: Request)
    requires st.visual.Box? && st.inertial.Some?
    ensures ModifySpec(st, None, req) == Outcome(st, Some(BoxWithoutDimension))
  {
  }

  /** A radius edit of a box raises before anything is changed. */
  lemma RadiusOfBoxRaises(st: LinkState, dim: Option<Axis>, req: Request)
    requires st.visual.Box? && st.inertial.Some? && dim.Some? && req.radius.Some?
    ensures ModifySpec(st, dim, req) == Outcome(st, Some(RadiusOfBox))
  {
  }

  /** A dimension edit of a sphere raises, and a radius edit made earlier in the
      same call stays applied. */
  lemma LengthOfSphereKeepsRadius(st: LinkState, dim: Option<Axis>, req: Request)
    requires st.visual.Sphere? && st.inertial.Some? && st.visual.radius != 0.0
    requires req.dimension.Some?
    ensures ModifySpec(st, dim, req).error == Some(LengthOfSphere)
    ensures ModifySpec(st, dim, req).state ==
      if req.radius.Some? then SetRadiusSpec(st, Target(req.radius.value, Some(st.visual.radius))) else st
  {
  }

  /** After a call that raises nothing, the radius of the visual is the requested
      one: set exactly when absolute, the pre-edit radius scaled when relative; the
      collision, when it has a radius, has the same one. Without a radius edit the
      radius is unchanged. */
  lemma ModifyRadius(st: LinkState, dim: Option<Axis>, req: Request)
    requires ModifySpec(st, dim, req).error.None?
    ensures var t := ModifySpec(st, dim, req).state;
      Radius(t.visual) == if req.radius.Some? then Some(Target(req.radius.value, Radius(st.visual))) else Radius(st.visual)
    ensures var t := ModifySpec(st, dim, req).state;
      req.radius.Some? && st.collision.Some? && !st.collision.value.Box? ==> Radius(t.collision.value) == Radius(t.visual)
  {
  }

  /** After a call that raises nothing, the significant length of the visual is
      the requested one (exact or the pre-edit length scaled), and a box keeps its
      two other extents. Without a dimension edit the length is unchanged. */
  lemma ModifyLength(st: LinkState, dim: Option<Axis>, req: Request)
    requires ModifySpec(st, dim, req).error.None?
    ensures var t := ModifySpec(st, dim, req).state;
      LengthBefore(t, dim) ==
        if req.dimension.Some? then Some(Target(req.dimension.value, LengthBefore(st, dim))) else LengthBefore(st, dim)
    ensures var t := ModifySpec(st, dim, req).state;
      st.visual.Box? ==> forall b :: b != dim.value ==> t.visual.size.Get(b) == st.visual.size.Get(b)
    ensures var t := ModifySpec(st, dim, req).state;
      req.dimension.Some? && st.collision.Some? && st.collision.value.Cylinder? ==>
        t.collision.value.length == Target(req.dimension.value, LengthBefore(st, dim))
    ensures var t := ModifySpec(st, dim, req).state;
      req.dimension.Some? && dim.Some? && st.collision.Some? && st.collision.value.Box? ==>
        t.collision.value.size.Get(dim.value) == Target(req.dimension.value, LengthBefore(st, dim)) &&
        forall b :: b != dim.value ==> t.collision.value.size.Get(b) == st.collision.value.size.Get(b)
  {
  }

  /** Whatever the outcome, modify keeps the visual origin, the kind of each shape
      and the absence of a collision. */
  lemma ModifyKeepsFrame(st: LinkState, dim: Option<Axis>, req: Request)
    ensures SameFrame(st, ModifySpec(st, dim, req).state)
  {
  }

  /** After a call that raises nothing, the mass is the mass edit (exact or the
      pre-edit mass scaled) when there is one, even when a density was also
      edited; otherwise the density edit times the volume of the edited geometry,
      the density being exact or the pre-edit density scaled; otherwise the
      pre-edit mass. */
  lemma ModifyMass(st: LinkState, dim: Option<Axis>, req: Request)
    requires ModifySpec(st, dim, req).error.None?
    ensures var t := ModifySpec(st, dim, req).state;
      var mass0 := st.inertial.value.mass;
      t.inertial.value.mass ==
        if req.mass.Some? then Target(req.mass.value, Some(mass0))
        else if req.density.Some? then Volume(t.visual) * Target(req.density.value, DensityOf(mass0, st.visual))
        else mass0
  {
    var mass0 := st.inertial.value.mass;
    var o1 := RadiusStep(st, req.radius, Radius(st.visual));
    var o2 := LengthStep(o1.state, dim, req.dimension, SignificantLength(st.visual, dim).value);
    var o3 := DensityStep(o2.state, req.density, DensityOf(mass0, st.visual));
    var t3 := MassStep(o3.state, req.mass, mass0);
    assert ModifySpec(st, dim, req).state == UpdateInertiaSpec(t3);
    assert t3.visual == o2.state.visual && t3.inertial.value.mass == UpdateInertiaSpec(t3).inertial.value.mass;
    if req.mass.None? {
      assert t3 == o3.state;
      if req.density.None? {
        assert o3.state == o2.state && o2.state.inertial == st.inertial;
      }
    }
  }

  /** After a call that raises nothing, the tensor is diagonal and holds the
      floored moments of the edited shape and the final mass, each at least 0.01. */
  lemma ModifyInertia(st: LinkState, dim: Option<Axis>, req: Request)
    requires ModifySpec(st, dim, req).error.None?
    ensures var t := ModifySpec(st, dim, req).state;
      forall i, j :: 0 <= i < 3 && 0 <= j < 3 ==>
        t.inertial.value.inertia.Entry(i, j) ==
          if i == j then Floor(InertiaDiagonal(t.visual, t.inertial.value.mass).At(i)) else 0.0
    ensures var t := ModifySpec(st, dim, req).state;
      forall i :: 0 <= i < 3 ==> InertiaFloor <= t.inertial.value.inertia.Entry(i, i)
  {
  }
}
