/** The robot structure the modifiers borrow from an external parser: links with
    one visual shape, an optional collision shape and an inertial record, and
    joints with a parent link name, a child link name and an origin. Only the
    fields the modifiers read or write are kept. */
module Urdf {
  import opened Wrappers
  import opened Geometry

  /** A link's mass and its 3×3 inertia tensor (a fixed-size buffer written in place). */
  class Inertial {
    var mass: real
    const inertia: array2<real>

    constructor (mass: real, inertia: array2<real>)
      ensures this.mass == mass && this.inertia == inertia
    {
      this.mass := mass;
      this.inertia := inertia;
    }
  }

  /** The value of a link's inertial record at one moment. */
  datatype InertialState = InertialState(mass: real, inertia: Mat3)

  /** The value of every link field the modifiers touch, at one moment. */
  datatype LinkState = LinkState(
    visual: Shape,
    visualOrigin: Origin,
    collision: Option<Shape>,
    inertial: Option<InertialState>)

  /** The 3×3 matrix held in a 3×3 array. */
  ghost function MatrixOf(a: array2<real>): Mat3
    reads a
    requires a.Length0 == 3 && a.Length1 == 3
  {
    Mat3(Vec3(a[0, 0], a[0, 1], a[0, 2]),
         Vec3(a[1, 0], a[1, 1], a[1, 2]),
         Vec3(a[2, 0], a[2, 1], a[2, 2]))
  }

  class Link {
    const name: string
    /** The geometry of the first visual element. */
    var visual: Shape
    /** The origin of the first visual element, relative to the link frame. */
    var visualOrigin: Origin
    /** The geometry of the first collision element, if the link has one. */
    var collision: Option<Shape>
    const inertial: Inertial?

    constructor (name: string, visual: Shape, visualOrigin: Origin, collision: Option<Shape>, inertial: Inertial?)
      ensures this.name == name && this.visual == visual && this.visualOrigin == visualOrigin
      ensures this.collision == collision && this.inertial == inertial
    {
      this.name := name;
      this.visual := visual;
      this.visualOrigin := visualOrigin;
      this.collision := collision;
      this.inertial := inertial;
    }

    /** The inertia tensor, when there is one, is 3×3. */
    predicate Valid() {
      inertial != null ==> inertial.inertia.Length0 == 3 && inertial.inertia.Length1 == 3
    }

    ghost function InertialRepr(): set<object> {
      if inertial == null then {} else {inertial, inertial.inertia}
    }

    /** Every object whose fields make up the link's state. */
    ghost function Repr(): set<object> {
      {this} + InertialRepr()
    }

    ghost function State(): LinkState
      reads Repr()
      requires Valid()
    {
      LinkState(visual, visualOrigin, collision,
        if inertial == null then None
        else Some(InertialState(inertial.mass, MatrixOf(inertial.inertia))))
    }
  }

  class Joint {
    const name: string
    /** The name of the parent link. */
    const parent: string
    /** The name of the child link. */
    const child: string
    /** The child frame relative to the parent frame. */
    var origin: Origin

    constructor (name: string, parent: string, child: string, origin: Origin)
      ensures this.name == name && this.parent == parent && this.child == child && this.origin == origin
    {
      this.name := name;
      this.parent := parent;
      this.child := child;
      this.origin := origin;
    }
  }

  /** The parsed robot: its links and joints, in file order. */
  datatype Robot = Robot(links: seq<Link>, joints: seq<Joint>)
}
