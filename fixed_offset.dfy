/** Resizing a link while keeping its joints in place
    (urdfModifiers/core/fixedOffsetModifier.py). The offset of the parent joint
    from the start of the link's visual is s = t − (L/2)·R·u, and the offset of a
    child joint from its end is e = t + (L/2)·R·u − j, where R and t are the
    rotation and translation of the visual origin, L the significant length, u the
    direction of elongation and j the child joint's translation. After the link is
    resized to L', the link origin and every child joint origin are rewritten,
    component by component under a mask, so that s and e are unchanged.
    The derivation in the source's class comment carries a factor sign(j_o); the
    code uses none, and neither does this model. */
module FixedOffset {
  import opened Wrappers
  import opened Geometry
  import opened Sequences
  import opened Urdf
  import opened Requests
  import Links
  import Joints

  /** Which translation components an origin rewrite may change. */
  datatype Mask = Mask(x: bool, y: bool, z: bool) {
    function Get(a: Axis): bool {
      match a
      case X => x
      case Y => y
      case Z => z
    }
  }

  /** The default mask [1, 1, 1]. */
  const AllAxes: Mask := Mask(true, true, true)

  /** An offset between a joint and an end of the link: a vector, and the joint it belongs to. */
  datatype Offset = Offset(joint: Joint?, x: real, y: real, z: real) {
    function ToVector(): Vec3 {
      Vec3(x, y, z)
    }

    /** Offsets compare by their three components only, never by their joint
        (exactly, in place of a floating-point tolerance). */
    predicate Equals(other: Offset) {
      x == other.x && y == other.y && z == other.z
    }
  }

  function FromVector(v: Vec3, joint: Joint?): (o: Offset)
    ensures o.ToVector() == v && o.joint == joint
  {
    Offset(joint, v.x, v.y, v.z)
  }

  /** Two offsets are equal exactly when their vectors are. */
  lemma EqualsIsVectorEquality(a: Offset, b: Offset)
    ensures a.Equals(b) <==> a.ToVector() == b.ToVector()
  {
  }

  /** What a robot element looked up by name can be. */
  datatype Element = LinkElement(link: Link) | JointElement(joint: Joint)

  /** get_element_by_name: the first link with that name, else the first joint with it, else None. */
  function GetElementByName(robot: Robot, name: string): (r: Option<Element>)
    ensures Links.GetElementByName(robot, name).Some? ==> r == Some(LinkElement(Links.GetElementByName(robot, name).value))
    ensures Links.GetElementByName(robot, name).None? && Joints.GetElementByName(robot, name).Some? ==>
      r == Some(JointElement(Joints.GetElementByName(robot, name).value))
    ensures r.None? <==> Links.GetElementByName(robot, name).None? && Joints.GetElementByName(robot, name).None?
  {
    match Links.GetElementByName(robot, name)
    case Some(l) => Some(LinkElement(l))
    case None =>
      match Joints.GetElementByName(robot, name)
      case Some(j) => Some(JointElement(j))
      case None => None
  }

  /** The dimension of the link modifier built with `axis=`.
      ASSUMPTION: LinkModifier's constructor has a `dimension` parameter and no
      `axis` one, and refuses a dimension for a cylinder or a sphere. The model
      reads `axis=` as the dimension of a box and as no dimension otherwise, so
      that construction succeeds. */
  function LinkDimension(s: Shape, axis: Axis): (d: Option<Axis>)
    ensures d.Some? <==> s.Box?
    ensures d.Some? ==> d.value == axis
    ensures Links.ConstructionCheck(s, d).None?
  {
    if s.Box? then Some(axis) else None
  }

  /** get_direction_vector: Z for a sphere, a cylinder or axis Z; X for axis X; Y otherwise. */
  function DirectionVector(s: Shape, axis: Axis): (u: Vec3)
    ensures u == if s.Box? then Unit(axis) else Unit(Z)
  {
    if s.Sphere? || s.Cylinder? || axis == Z then Vec3(0.0, 0.0, 1.0)
    else if axis == X then Vec3(1.0, 0.0, 0.0)
    else Vec3(0.0, 1.0, 0.0)
  }

  /** get_significant_length as the source writes it: the link modifier's length,
      doubled for a sphere. The link modifier has no length for a sphere, and
      doubling that absent value raises (None here). */
  function SignificantLengthAsWritten(s: Shape, axis: Axis): (r: Option<real>)
    ensures s.Sphere? ==> r.None?
  {
    match Links.SignificantLength(s, LinkDimension(s, axis)).value
    case None => None
    case Some(l) => if s.Sphere? then Some(2.0 * l) else Some(l)
  }

  /** get_significant_length as its documentation and the resize code intend: the
      extent along the axis for a box, the length for a cylinder, and the
      diameter for a sphere. */
  function SignificantLength(s: Shape, axis: Axis): (l: real)
    ensures s.Box? ==> l == s.size.Get(axis)
    ensures s.Cylinder? ==> l == s.length
    ensures s.Sphere? ==> l == 2.0 * s.radius
  {
    var l := Links.SignificantLength(s, LinkDimension(s, axis));
    if s.Sphere? then 2.0 * s.radius else l.value.value
  }

  /** The two agree except on spheres, where the source raises. */
  lemma SignificantLengthFinding(s: Shape, axis: Axis)
    ensures !s.Sphere? ==> SignificantLengthAsWritten(s, axis) == Some(SignificantLength(s, axis))
    ensures s.Sphere? ==> SignificantLengthAsWritten(s, axis).None? && SignificantLength(s, axis) == 2.0 * s.radius
  {
  }

  /** A sphere of radius 1 has no significant length as written, but diameter 2 as intended. */
  lemma UnitSphereLength()
    ensures SignificantLengthAsWritten(Sphere(1.0), Z).None?
    ensures SignificantLength(Sphere(1.0), Z) == 2.0
  {
  }

  /** The parent offset s = t − (L/2)·R·u of a link with visual origin `o`. */
  function ParentOffsetVec(o: Origin, length: real, u: Vec3): Vec3 {
    o.t.Minus(o.R.Apply(u).Times(length / 2.0))
  }

  /** The child offset e = t + (L/2)·R·u − j of a child joint at translation `j`. */
  function ChildOffsetVec(o: Origin, length: real, u: Vec3, j: Vec3): Vec3 {
    o.t.Plus(o.R.Apply(u).Times(length / 2.0)).Minus(j)
  }

  /** The origin with translation component a set to p[a] for each axis a the
      mask enables (modify_origin_three_dimensions); the rotation is kept. */
  function WriteMasked(o: Origin, p: Vec3, mask: Mask): (r: Origin)
    ensures r.R == o.R
    ensures forall a :: r.t.Get(a) == if mask.Get(a) then p.Get(a) else o.t.Get(a)
  {
    var o1 := if mask.x then o.WritePosition(X, p.x) else o;
    var o2 := if mask.y then o1.WritePosition(Y, p.y) else o1;
    if mask.z then o2.WritePosition(Z, p.z) else o2
  }

  /** Vectors with the same components are equal. */
  lemma VecEquality(a: Vec3, b: Vec3)
    requires forall c :: a.Get(c) == b.Get(c)
    ensures a == b
  {
    assert a.Get(X) == b.Get(X) && a.Get(Y) == b.Get(Y) && a.Get(Z) == b.Get(Z);
  }

  /** Writing the link origin at s + (L'/2)·R·u gives a link whose parent offset at
      length L' is s on every enabled component; the other components keep the
      old translation. */
  lemma ParentOffsetRestored(o: Origin, s: Vec3, length: real, u: Vec3, mask: Mask)
    ensures var o' := WriteMasked(o, s.Plus(o.R.Apply(u).Times(length / 2.0)), mask);
      forall a :: mask.Get(a) ==> ParentOffsetVec(o', length, u).Get(a) == s.Get(a)
  {
    var p := s.Plus(o.R.Apply(u).Times(length / 2.0));
    var o' := WriteMasked(o, p, mask);
    forall a | mask.Get(a)
      ensures ParentOffsetVec(o', length, u).Get(a) == s.Get(a)
    {
      assert o'.t.Get(a) == p.Get(a);
      assert o'.R.Apply(u) == o.R.Apply(u);
      match a
      case X => assert p.x == s.x + length / 2.0 * o.R.Apply(u).x;
      case Y => assert p.y == s.y + length / 2.0 * o.R.Apply(u).y;
      case Z => assert p.z == s.z + length / 2.0 * o.R.Apply(u).z;
    }
  }

  /** Writing a child joint origin at t + (L'/2)·R·u − e gives a child offset at
      length L' equal to e on every enabled component. */
  lemma ChildOffsetRestored(o: Origin, j: Origin, e: Vec3, length: real, u: Vec3, mask: Mask)
    ensures var j' := WriteMasked(j, o.t.Plus(o.R.Apply(u).Times(length / 2.0)).Minus(e), mask);
      forall a :: mask.Get(a) ==> ChildOffsetVec(o, length, u, j'.t).Get(a) == e.Get(a)
  {
    var q := o.t.Plus(o.R.Apply(u).Times(length / 2.0)).Minus(e);
    var j' := WriteMasked(j, q, mask);
    forall a | mask.Get(a)
      ensures ChildOffsetVec(o, length, u, j'.t).Get(a) == e.Get(a)
    {
      assert j'.t.Get(a) == q.Get(a);
    }
  }

  /** With every axis enabled, both offsets come back whole. */
  lemma OffsetsRestoredAllAxes(o: Origin, j: Origin, s: Vec3, e: Vec3, length: real, u: Vec3)
    ensures var o' := WriteMasked(o, s.Plus(o.R.Apply(u).Times(length / 2.0)), AllAxes);
      ParentOffsetVec(o', length, u) == s
    ensures var j' := WriteMasked(j, o.t.Plus(o.R.Apply(u).Times(length / 2.0)).Minus(e), AllAxes);
      ChildOffsetVec(o, length, u, j'.t) == e
  {
    var o' := WriteMasked(o, s.Plus(o.R.Apply(u).Times(length / 2.0)), AllAxes);
    ParentOffsetRestored(o, s, length, u, AllAxes);
    VecEquality(ParentOffsetVec(o', length, u), s);
    var j' := WriteMasked(j, o.t.Plus(o.R.Apply(u).Times(length / 2.0)).Minus(e), AllAxes);
    ChildOffsetRestored(o, j, e, length, u, AllAxes);
    VecEquality(ChildOffsetVec(o, length, u, j'.t), e);
  }

  /** The request that resizes the link to significant length `length`: radius
      length/2 for a sphere, dimension `length` otherwise, both absolute. */
  function ResizeRequest(s: Shape, length: real): (r: Request)
    ensures r.mass.None? && r.density.None? && r.position.None?
    ensures s.Sphere? ==> r.dimension.None? && r.radius == Some(ModificationType(length / 2.0, true))
    ensures !s.Sphere? ==> r.radius.None? && r.dimension == Some(ModificationType(length, true))
  {
    if s.Sphere? then NoEdits.(radius := Some(ModificationType(length / 2.0, true)))
    else NoEdits.(dimension := Some(ModificationType(length, true)))
  }

  /** A resize raises only for a missing inertial record or a zero cylinder or
      sphere volume, before anything changes; otherwise the link has the requested
      significant length and keeps its visual origin. */
  lemma ResizeSetsLength(st: LinkState, axis: Axis, length: real)
    ensures var o := Links.ModifySpec(st, LinkDimension(st.visual, axis), ResizeRequest(st.visual, length));
      o.error.Some? <==> st.inertial.None? || (Links.Volume(st.visual) == 0.0 && !st.visual.Box?)
    ensures var o := Links.ModifySpec(st, LinkDimension(st.visual, axis), ResizeRequest(st.visual, length));
      o.error.Some? ==> o.state == st
    ensures var o := Links.ModifySpec(st, LinkDimension(st.visual, axis), ResizeRequest(st.visual, length));
      o.error.None? ==> SignificantLength(o.state.visual, axis) == length
    ensures var o := Links.ModifySpec(st, LinkDimension(st.visual, axis), ResizeRequest(st.visual, length));
      Links.SameFrame(st, o.state)
  {
    var dim := LinkDimension(st.visual, axis);
    var req := ResizeRequest(st.visual, length);
    var o := Links.ModifySpec(st, dim, req);
    Links.ModifyRaises(st, dim, req);
    Links.ModifyKeepsFrame(st, dim, req);
    if o.error.None? {
      if st.visual.Sphere? {
        Links.ModifyRadius(st, dim, req);
        assert Links.Radius(o.state.visual) == Some(length / 2.0);
      } else {
        Links.ModifyLength(st, dim, req);
        assert Links.LengthBefore(o.state, dim) == Some(length);
      }
    }
  }

  /** The request modify sends to the link modifier first: the radius, density
      and mass edits of `r`, and nothing else. */
  function TrivialRequest(r: Request): (t: Request)
    ensures t.radius == r.radius && t.density == r.density && t.mass == r.mass
    ensures t.dimension.None? && t.position.None?
  {
    NoEdits.(radius := r.radius, density := r.density, mass := r.mass)
  }

  /** A link modifier or a joint modifier, the two kinds of modifier whose origin
      modify_origin_three_dimensions rewrites. */
  datatype OriginModifier = OfLink(lm: Links.LinkModifier) | OfJoint(jm: Joints.JointModifier) {
    ghost function Frame(): set<object> {
      match this
      case OfLink(lm) => {lm, lm.link}
      case OfJoint(jm) => {jm, jm.joint}
    }

    function CurrentAxis(): Axis
      reads Frame()
    {
      match this
      case OfLink(lm) => lm.axis
      case OfJoint(jm) => jm.axis
    }

    /** The origin the modifier's position edits write. */
    function Target(): Origin
      reads Frame()
    {
      match this
      case OfLink(lm) => lm.link.visualOrigin
      case OfJoint(jm) => jm.joint.origin
    }

    predicate Ready() {
      OfLink? ==> lm.link.Valid()
    }
  }

  /** modifier.axis := a. */
  method SetAxis(m: OriginModifier, a: Axis)
    modifies m.Frame()
    ensures m.CurrentAxis() == a && m.Target() == old(m.Target())
    ensures m.OfLink? ==> m.lm.link.visual == old(m.lm.link.visual) && m.lm.link.collision == old(m.lm.link.collision)
  {
    match m
    case OfLink(lm) => lm.axis := a;
    case OfJoint(jm) => jm.axis := a;
  }

  /** An absolute position edit through the modifier, on its current axis. */
  method ModifyPosition(m: OriginModifier, v: real)
    requires m.Ready()
    modifies m.Frame()
    ensures m.Target() == old(m.Target()).WritePosition(old(m.CurrentAxis()), v)
    ensures m.CurrentAxis() == old(m.CurrentAxis())
    ensures m.OfLink? ==> m.lm.link.visual == old(m.lm.link.visual) && m.lm.link.collision == old(m.lm.link.collision)
  {
    match m
    case OfLink(lm) => lm.ModifyPosition(v);
    case OfJoint(jm) => jm.ModifyPosition(v);
  }

  /** modify_origin_three_dimensions: for each axis the mask enables, in the order
      X, Y, Z, points the modifier at that axis and writes that component of
      `p`; then gives the modifier back its original axis. */
  method ModifyOriginThreeDimensions(m: OriginModifier, p: Vec3, mask: Mask := AllAxes)
    requires m.Ready()
    modifies m.Frame()
    ensures m.Target() == WriteMasked(old(m.Target()), p, mask)
    ensures m.CurrentAxis() == old(m.CurrentAxis())
    ensures m.OfLink? ==> m.lm.link.visual == old(m.lm.link.visual) && m.lm.link.collision == old(m.lm.link.collision)
  {
    var originalAxis := m.CurrentAxis();
    if mask.x {
      SetAxis(m, X);
      ModifyPosition(m, p.x);
    }
    if mask.y {
      SetAxis(m, Y);
      ModifyPosition(m, p.y);
    }
    if mask.z {
      SetAxis(m, Z);
      ModifyPosition(m, p.z);
    }
    SetAxis(m, originalAxis);
  }

  /** The modification object modify builds from a request: its radius, density
      and mass edits, each added when present. */
  method TrivialModifications(r: Request) returns (m: Modification)
    ensures fresh(m) && m.Value() == TrivialRequest(r)
  {
    m := new Modification();
    if r.radius.Some? {
      m.AddRadius(r.radius.value.value, r.radius.value.absolute);
    }
    if r.density.Some? {
      m.AddDensity(r.density.value.value, r.density.value.absolute);
    }
    if r.mass.Some? {
      m.AddMass(r.mass.value.value, r.mass.value.absolute);
    }
  }

  /** The modification object the resize builds: an absolute radius of half the
      length for a sphere, an absolute dimension otherwise. */
  method ResizeModification(s: Shape, newLength: real) returns (m: Modification)
    ensures fresh(m) && m.Value() == ResizeRequest(s, newLength)
  {
    m := new Modification();
    if s.Sphere? {
      m.AddRadius(newLength / 2.0, true);
    } else {
      m.AddDimension(newLength, true);
    }
  }

  /** The first joint of the robot whose child is the named link, or null. */
  function ParentJointOf(robot: Robot, name: string): (r: Joint?)
    ensures r != null ==>
      exists k :: 0 <= k < |robot.joints| && robot.joints[k] == r && r.child == name && (forall i :: 0 <= i < k ==> robot.joints[i].child != name)
    ensures r == null <==> forall i :: 0 <= i < |robot.joints| ==> robot.joints[i].child != name
  {
    match FirstIndex(robot.joints, (j: Joint) => j.child == name)
    case None => null
    case Some(k) => robot.joints[k]
  }

  /** Every joint of the robot whose parent is the named link, in the robot's
      order (ChildJointsInOrder below states the order). */
  function ChildJointsOf(robot: Robot, name: string): (r: seq<Joint>)
    ensures forall i :: 0 <= i < |r| ==> r[i] in robot.joints && r[i].parent == name
    ensures forall i :: 0 <= i < |robot.joints| && robot.joints[i].parent == name ==> robot.joints[i] in r
  {
    Filter(robot.joints, (j: Joint) => j.parent == name)
  }

  /** The child joints are listed in the robot's order: taking one more joint
      of the robot appends it to the children exactly when its parent is the link. */
  lemma ChildJointsInOrder(robot: Robot, name: string, k: nat)
    requires k < |robot.joints|
    ensures ChildJointsOf(Robot(robot.links, robot.joints[..k + 1]), name) ==
      ChildJointsOf(Robot(robot.links, robot.joints[..k]), name) +
        if robot.joints[k].parent == name then [robot.joints[k]] else []
  {
    assert robot.joints[..k + 1] == robot.joints[..k] + [robot.joints[k]];
    FilterSnoc(robot.joints[..k], robot.joints[k], (j: Joint) => j.parent == name);
  }

  class FixedOffsetModifier {
    const link: Link
    const linkModifier: Links.LinkModifier
    const parentJoint: Joint?
    const childJoints: seq<Joint>
    /** One joint modifier per child joint, in the same order. */
    const jointModifiers: seq<Joints.JointModifier>

    ghost predicate Valid()
      reads link, linkModifier
    {
      link.Valid() && linkModifier.link == link &&
      linkModifier.dimension == LinkDimension(link.visual, linkModifier.axis) &&
      |jointModifiers| == |childJoints| &&
      (forall k :: 0 <= k < |childJoints| ==> jointModifiers[k].joint == childJoints[k]) &&
      Distinct(childJoints)
    }

    /** Everything the resize may change: the link, the link modifier, the child
        joints and their modifiers. The parent joint is not part of it. */
    ghost function Repr(): set<object> {
      link.Repr() + {linkModifier} + (set j | j in childJoints :: j as object) + (set m | m in jointModifiers :: m as object)
    }

    /** The significant length of the link. */
    function Length(): real
      reads link, linkModifier
    {
      SignificantLength(link.visual, linkModifier.axis)
    }

    /** The direction of elongation. */
    function Direction(): Vec3
      reads link, linkModifier
    {
      DirectionVector(link.visual, linkModifier.axis)
    }

    /** The offset of the parent joint from the start of the visual. */
    function ParentOffset(): Vec3
      reads link, linkModifier
    {
      ParentOffsetVec(link.visualOrigin, Length(), Direction())
    }

    /** The offset of child joint `k` from the end of the visual. */
    function ChildOffset(k: nat): Vec3
      requires k < |childJoints|
      reads link, linkModifier, childJoints[k]
    {
      ChildOffsetVec(link.visualOrigin, Length(), Direction(), childJoints[k].origin.t)
    }

    /** FixedOffsetModifier(link, robot, axis=Z): the parent joint is the first
        joint whose child is the link, the children are the joints whose parent is
        the link, each with a joint modifier of its own. The robot lists each joint
        object once. */
    constructor (link: Link, robot: Robot, axis: Axis := Z)
      requires link.Valid() && Distinct(robot.joints)
      ensures Valid()
      ensures this.link == link && linkModifier.axis == axis && fresh(linkModifier)
      ensures parentJoint == ParentJointOf(robot, link.name)
      ensures childJoints == ChildJointsOf(robot, link.name)
      ensures forall k :: 0 <= k < |jointModifiers| ==> fresh(jointModifiers[k])
    {
      var lm := new Links.LinkModifier(link, LinkDimension(link.visual, axis), axis);
      var children := ChildJointsOf(robot, link.name);
      FilterDistinct(robot.joints, (j: Joint) => j.parent == link.name);
      var modifiers: seq<Joints.JointModifier> := [];
      for k := 0 to |children|
        invariant |modifiers| == k
        invariant forall i :: 0 <= i < k ==> modifiers[i].joint == children[i] && fresh(modifiers[i])
        invariant lm.axis == axis
      {
        var jm := new Joints.JointModifier.ForAxis(children[k], Z);
        modifiers := modifiers + [jm];
      }
      this.link := link;
      this.linkModifier := lm;
      this.parentJoint := ParentJointOf(robot, link.name);
      this.childJoints := children;
      this.jointModifiers := modifiers;
    }

    /** from_name: the name must be a link's. */
    static method FromName(name: string, robot: Robot, axis: Axis := Z) returns (m: FixedOffsetModifier?)
      requires Distinct(robot.joints)
      requires forall i :: 0 <= i < |robot.links| ==> robot.links[i].Valid()
      ensures Links.GetElementByName(robot, name).None? <==> m == null
      ensures m != null ==> m.Valid() && m.link == Links.GetElementByName(robot, name).value && fresh(m)
    {
      match GetElementByName(robot, name)
      case Some(LinkElement(l)) =>
        m := new FixedOffsetModifier(l, robot, axis);
      case _ =>
        m := null;
    }

    /** calculate_offsets: the parent offset when there is a parent joint, and one
        child offset per child joint, in order. Nothing is changed. */
    method CalculateOffsets() returns (parentOffset: Option<Offset>, childOffsets: seq<Offset>)
      requires Valid()
      ensures parentOffset.Some? <==> parentJoint != null
      ensures parentOffset.Some? ==> parentOffset.value == FromVector(ParentOffset(), parentJoint)
      ensures |childOffsets| == |childJoints|
      ensures forall k :: 0 <= k < |childJoints| ==> childOffsets[k] == FromVector(ChildOffset(k), childJoints[k])
    {
      var linkLength := Length();
      var o := link.visualOrigin;
      var unitVector := Direction();
      parentOffset := None;
      childOffsets := [];
      if parentJoint != null {
        parentOffset := Some(FromVector(o.t.Minus(o.R.Apply(unitVector).Times(linkLength / 2.0)), parentJoint));
      }
      for k := 0 to |childJoints|
        invariant |childOffsets| == k
        invariant forall i :: 0 <= i < k ==> childOffsets[i] == FromVector(ChildOffset(i), childJoints[i])
      {
        var j := childJoints[k].origin.t;
        childOffsets := childOffsets + [FromVector(o.t.Plus(o.R.Apply(unitVector).Times(linkLength / 2.0)).Minus(j), childJoints[k])];
      }
    }

    /** The link part of the resize: one call of the link modifier with ResizeRequest. */
    method ResizeLink(newLength: real) returns (err: Option<Links.LinkError>)
      requires Valid()
      modifies link.Repr()
      ensures Valid()
      ensures Links.Outcome(link.State(), err) ==
        Links.ModifySpec(old(link.State()), linkModifier.dimension, ResizeRequest(old(link.visual), newLength))
      ensures err.None? ==> Length() == newLength
      ensures Links.SameFrame(old(link.State()), link.State())
      ensures err.Some? ==> link.State() == old(link.State())
      ensures linkModifier.axis == old(linkModifier.axis)
      ensures forall k :: 0 <= k < |jointModifiers| ==> jointModifiers[k].axis == old(jointModifiers[k].axis)
      ensures forall k :: 0 <= k < |childJoints| ==> childJoints[k].origin == old(childJoints[k].origin)
    {
      var linkModification := ResizeModification(link.visual, newLength);
      ResizeSetsLength(link.State(), linkModifier.axis, newLength);
      err := linkModifier.Modify(linkModification);
    }

    /** The parent part of the resize: when there is a parent offset s, the link
        origin is rewritten at s + (L'/2)·R·u under the mask, through the link
        modifier; otherwise nothing changes (the source then stores an offset
        Offset(z = -L'/2) that it never reads). */
    method KeepParentOffset(parentOffset: Option<Offset>, newLength: real, unitVector: Vec3, mask: Mask)
      requires Valid() && Length() == newLength && Direction() == unitVector
      modifies link, linkModifier
      ensures Valid() && Length() == newLength && Direction() == unitVector
      ensures linkModifier.axis == old(linkModifier.axis)
      ensures link.State() == old(link.State()).(visualOrigin := link.visualOrigin)
      ensures parentOffset.None? ==> link.visualOrigin == old(link.visualOrigin)
      ensures parentOffset.Some? ==> link.visualOrigin == WriteMasked(old(link.visualOrigin),
        parentOffset.value.ToVector().Plus(old(link.visualOrigin).R.Apply(unitVector).Times(newLength / 2.0)), mask)
      ensures parentOffset.Some? ==> forall a :: mask.Get(a) ==> ParentOffset().Get(a) == parentOffset.value.ToVector().Get(a)
      ensures forall k :: 0 <= k < |childJoints| ==> childJoints[k].origin == old(childJoints[k].origin)
    {
      if parentOffset.Some? {
        var s := parentOffset.value.ToVector();
        var linkRotation := link.visualOrigin.R;
        var newParentOriginPosition := s.Plus(linkRotation.Apply(unitVector).Times(newLength / 2.0));
        ModifyOriginThreeDimensions(OfLink(linkModifier), newParentOriginPosition, mask);
        ParentOffsetRestored(old(link.visualOrigin), s, newLength, unitVector, mask);
      }
    }

    /** The child part of the resize: each child joint origin is rewritten at
        t + (L'/2)·R·u − e under the mask, through its own joint modifier. */
    method KeepChildOffsets(childOffsets: seq<Offset>, newLength: real, unitVector: Vec3, mask: Mask)
      requires Valid() && Length() == newLength && Direction() == unitVector
      requires |childOffsets| == |childJoints|
      requires forall k :: 0 <= k < |childJoints| ==> childOffsets[k].joint == childJoints[k]
      modifies (set j | j in childJoints :: j as object) + (set m | m in jointModifiers :: m as object)
      ensures forall k :: 0 <= k < |childJoints| ==>
        childJoints[k].origin == WriteMasked(old(childJoints[k].origin),
          link.visualOrigin.t.Plus(link.visualOrigin.R.Apply(unitVector).Times(newLength / 2.0)).Minus(childOffsets[k].ToVector()), mask)
      ensures forall k, a :: 0 <= k < |childJoints| && mask.Get(a) ==> ChildOffset(k).Get(a) == childOffsets[k].ToVector().Get(a)
      ensures forall k :: 0 <= k < |jointModifiers| ==> jointModifiers[k].axis == old(jointModifiers[k].axis)
    {
      var o := link.visualOrigin;
      for k := 0 to |childOffsets|
        invariant forall i :: 0 <= i < k ==>
          childJoints[i].origin == WriteMasked(old(childJoints[i].origin),
            o.t.Plus(o.R.Apply(unitVector).Times(newLength / 2.0)).Minus(childOffsets[i].ToVector()), mask)
        invariant forall i :: k <= i < |childJoints| ==> childJoints[i].origin == old(childJoints[i].origin)
        invariant forall i :: 0 <= i < |jointModifiers| ==> jointModifiers[i].axis == old(jointModifiers[i].axis)
      {
        var newChildOriginPosition := o.t.Plus(o.R.Apply(unitVector).Times(newLength / 2.0)).Minus(childOffsets[k].ToVector());
        var item := childOffsets[k];
        var index := FirstIndex(jointModifiers, (jm: Joints.JointModifier) => jm.joint == item.joint);
        assert index == Some(k) by {
          assert jointModifiers[k].joint == item.joint;
          assert index.Some? && index.value <= k;
          assert childJoints[index.value] == childJoints[k];
        }
        var correspondingModifier := jointModifiers[index.value];
        assert correspondingModifier in jointModifiers && correspondingModifier.joint in childJoints;
        ModifyOriginThreeDimensions(OfJoint(correspondingModifier), newChildOriginPosition, mask);
      }
      forall k | 0 <= k < |childJoints|
        ensures forall a :: mask.Get(a) ==> ChildOffset(k).Get(a) == childOffsets[k].ToVector().Get(a)
      {
        ChildOffsetRestored(o, old(childJoints[k].origin), childOffsets[k].ToVector(), newLength, unitVector, mask);
      }
    }

    /** The second part of the resize: the parent and child offsets measured before
        it are written back under the mask; the rest of each frame is kept. */
    method RestoreOffsets(parentOffset: Option<Offset>, childOffsets: seq<Offset>, newLength: real, unitVector: Vec3, mask: Mask)
      requires Valid() && Length() == newLength && Direction() == unitVector
      requires |childOffsets| == |childJoints|
      requires forall k :: 0 <= k < |childJoints| ==> childOffsets[k].joint == childJoints[k]
      modifies Repr()
      ensures Valid() && Length() == newLength
      ensures linkModifier.axis == old(linkModifier.axis)
      ensures link.State() == old(link.State()).(visualOrigin := link.visualOrigin)
      ensures link.visualOrigin.R == old(link.visualOrigin.R)
      ensures parentOffset.None? ==> link.visualOrigin == old(link.visualOrigin)
      ensures parentOffset.Some? ==> forall a :: mask.Get(a) ==> ParentOffset().Get(a) == parentOffset.value.ToVector().Get(a)
      ensures forall a :: !mask.Get(a) ==> link.visualOrigin.t.Get(a) == old(link.visualOrigin.t.Get(a))
      ensures forall k, a :: 0 <= k < |childJoints| && mask.Get(a) ==> ChildOffset(k).Get(a) == childOffsets[k].ToVector().Get(a)
      ensures forall k, a :: 0 <= k < |childJoints| && !mask.Get(a) ==>
        childJoints[k].origin.t.Get(a) == old(childJoints[k].origin.t.Get(a))
      ensures forall k :: 0 <= k < |childJoints| ==> childJoints[k].origin.R == old(childJoints[k].origin.R)
      ensures parentJoint != null && parentJoint !in childJoints ==> parentJoint.origin == old(parentJoint.origin)
      ensures forall k :: 0 <= k < |jointModifiers| ==> jointModifiers[k].axis == old(jointModifiers[k].axis)
    {
      KeepParentOffset(parentOffset, newLength, unitVector, mask);
      KeepChildOffsets(childOffsets, newLength, unitVector, mask);
    }

    /** change_dimension_and_keep_offsets: resizes the link to significant length
        `newLength` and rewrites, under the mask, the link origin (when there is a
        parent joint) and every child joint origin so that the parent and child
        offsets are what they were before. */
    method ChangeDimensionAndKeepOffsets(newLength: real, mask: Mask := AllAxes) returns (err: Option<Links.LinkError>)
      requires Valid()
      modifies Repr()
      ensures Valid()
      ensures linkModifier.axis == old(linkModifier.axis)
      ensures err == Links.ModifySpec(old(link.State()), linkModifier.dimension, ResizeRequest(old(link.visual), newLength)).error
      ensures err.Some? ==> link.State() == old(link.State())
      ensures err.Some? ==> forall k :: 0 <= k < |childJoints| ==> childJoints[k].origin == old(childJoints[k].origin)
      ensures err.None? ==> Length() == newLength
      ensures err.None? ==>
        link.State() == Links.ModifySpec(old(link.State()), linkModifier.dimension, ResizeRequest(old(link.visual), newLength)).state.(visualOrigin := link.visualOrigin)
      ensures link.visualOrigin.R == old(link.visualOrigin.R)
      ensures err.None? && parentJoint != null ==>
        forall a :: mask.Get(a) ==> ParentOffset().Get(a) == old(ParentOffset()).Get(a)
      ensures parentJoint != null ==>
        forall a :: !mask.Get(a) ==> link.visualOrigin.t.Get(a) == old(link.visualOrigin.t.Get(a))
      ensures parentJoint == null ==> link.visualOrigin == old(link.visualOrigin)
      ensures err.None? ==> forall k, a :: 0 <= k < |childJoints| && mask.Get(a) ==>
        ChildOffset(k).Get(a) == old(ChildOffset(k)).Get(a)
      ensures forall k, a :: 0 <= k < |childJoints| && !mask.Get(a) ==>
        childJoints[k].origin.t.Get(a) == old(childJoints[k].origin.t.Get(a))
      ensures forall k :: 0 <= k < |childJoints| ==> childJoints[k].origin.R == old(childJoints[k].origin.R)
      ensures parentJoint != null && parentJoint !in childJoints ==> parentJoint.origin == old(parentJoint.origin)
      ensures forall k :: 0 <= k < |jointModifiers| ==> jointModifiers[k].axis == old(jointModifiers[k].axis)
    {
      var parentJointOffset, childJointOffset := CalculateOffsets();
      var unitVector := Direction();
      assert parentJointOffset.Some? ==> parentJointOffset.value.ToVector() == ParentOffset();
      assert forall k :: 0 <= k < |childJoints| ==> childJointOffset[k].ToVector() == ChildOffset(k);
      err := ResizeLink(newLength);
      if err.Some? {
        return;
      }
      assert Direction() == unitVector;
      RestoreOffsets(parentJointOffset, childJointOffset, newLength, unitVector, mask);
    }

    /** The second part of modify, for a dimension edit `e`: the link is resized
        to the length `e` asks for, relative to the significant length it has now,
        keeping the offsets of the joints. */
    method ApplyDimension(e: ModificationType, mask: Mask) returns (err: Option<Links.LinkError>)
      requires Valid()
      modifies Repr()
      ensures Valid()
      ensures linkModifier.axis == old(linkModifier.axis)
      ensures err == Links.ModifySpec(old(link.State()), linkModifier.dimension, ResizeRequest(old(link.visual), Links.Target(e, Some(old(Length()))))).error
      ensures err.Some? ==> link.State() == old(link.State())
      ensures err.Some? ==> forall k :: 0 <= k < |childJoints| ==> childJoints[k].origin == old(childJoints[k].origin)
      ensures err.None? ==> Length() == Links.Target(e, Some(old(Length())))
      ensures err.None? ==>
        link.State() == Links.ModifySpec(old(link.State()), linkModifier.dimension, ResizeRequest(old(link.visual), Links.Target(e, Some(old(Length()))))).state.(visualOrigin := link.visualOrigin)
      ensures link.visualOrigin.R == old(link.visualOrigin.R)
      ensures err.None? && parentJoint != null ==>
        forall a :: mask.Get(a) ==> ParentOffset().Get(a) == old(ParentOffset()).Get(a)
      ensures parentJoint != null ==>
        forall a :: !mask.Get(a) ==> link.visualOrigin.t.Get(a) == old(link.visualOrigin.t.Get(a))
      ensures parentJoint == null ==> link.visualOrigin == old(link.visualOrigin)
      ensures err.None? ==> forall k, a :: 0 <= k < |childJoints| && mask.Get(a) ==>
        ChildOffset(k).Get(a) == old(ChildOffset(k)).Get(a)
      ensures forall k, a :: 0 <= k < |childJoints| && !mask.Get(a) ==>
        childJoints[k].origin.t.Get(a) == old(childJoints[k].origin.t.Get(a))
      ensures forall k :: 0 <= k < |childJoints| ==> childJoints[k].origin.R == old(childJoints[k].origin.R)
      ensures parentJoint != null && parentJoint !in childJoints ==> parentJoint.origin == old(parentJoint.origin)
      ensures forall k :: 0 <= k < |jointModifiers| ==> jointModifiers[k].axis == old(jointModifiers[k].axis)
    {
      var newLength := Links.Target(e, Some(Length()));
      err := ChangeDimensionAndKeepOffsets(newLength, mask);
    }

    /** The first part of modify: the radius, density and mass edits go to the
        link modifier in one call, made even when there are none. */
    method ApplyTrivial(r: Request) returns (err: Option<Links.LinkError>, ghost mid: Links.Outcome)
      requires Valid()
      modifies link.Repr()
      ensures Valid()
      ensures mid == Links.ModifySpec(old(link.State()), linkModifier.dimension, TrivialRequest(r))
      ensures link.State() == mid.state && err == mid.error
      ensures link.visualOrigin == old(link.visualOrigin) && Direction() == old(Direction())
      ensures linkModifier.axis == old(linkModifier.axis)
      ensures forall k :: 0 <= k < |jointModifiers| ==> jointModifiers[k].axis == old(jointModifiers[k].axis)
      ensures forall k :: 0 <= k < |childJoints| ==> childJoints[k].origin == old(childJoints[k].origin)
    {
      var trivialModifications := TrivialModifications(r);
      ghost var st := link.State();
      mid := Links.ModifySpec(st, linkModifier.dimension, TrivialRequest(r));
      err := linkModifier.Modify(trivialModifications);
      Links.ModifyKeepsFrame(st, linkModifier.dimension, TrivialRequest(r));
    }

    /** modify: the radius, density and mass edits first (ApplyTrivial); then,
        when there is a dimension edit, the link is resized to it, a relative edit
        scaling the significant length measured after the first part, keeping the
        offsets of the joints. */
    method Modify(req: Modification, mask: Mask := AllAxes) returns (err: Option<Links.LinkError>, ghost mid: Links.Outcome)
      requires Valid()
      modifies Repr()
      ensures Valid()
      ensures mid == Links.ModifySpec(old(link.State()), linkModifier.dimension, TrivialRequest(old(req.Value())))
      ensures mid.error.Some? ==> err == mid.error && link.State() == mid.state
      ensures mid.error.None? && old(req.Value()).dimension.None? ==> err.None? && link.State() == mid.state
      ensures mid.error.Some? || old(req.Value()).dimension.None? ==>
        forall k :: 0 <= k < |childJoints| ==> childJoints[k].origin == old(childJoints[k].origin)
      ensures mid.error.None? && old(req.Value()).dimension.Some? && err.None? ==>
        Length() == Links.Target(old(req.Value()).dimension.value, Some(SignificantLength(mid.state.visual, linkModifier.axis)))
      ensures mid.error.None? && old(req.Value()).dimension.Some? && err.None? && parentJoint != null ==>
        forall a :: mask.Get(a) ==>
          ParentOffset().Get(a) == ParentOffsetVec(old(link.visualOrigin), SignificantLength(mid.state.visual, linkModifier.axis), old(Direction())).Get(a)
      ensures mid.error.None? && old(req.Value()).dimension.Some? && err.None? ==>
        forall k, a :: 0 <= k < |childJoints| && mask.Get(a) ==>
          ChildOffset(k).Get(a) == ChildOffsetVec(old(link.visualOrigin), SignificantLength(mid.state.visual, linkModifier.axis), old(Direction()), old(childJoints[k].origin.t)).Get(a)
      ensures mid.error.None? && old(req.Value()).dimension.Some? && err.None? ==>
        link.State() == Links.ModifySpec(mid.state, linkModifier.dimension,
          ResizeRequest(mid.state.visual, Links.Target(old(req.Value()).dimension.value, Some(SignificantLength(mid.state.visual, linkModifier.axis))))).state.(visualOrigin := link.visualOrigin)
      ensures mid.error.None? && old(req.Value()).dimension.Some? ==>
        err == Links.ModifySpec(mid.state, linkModifier.dimension,
          ResizeRequest(mid.state.visual, Links.Target(old(req.Value()).dimension.value, Some(SignificantLength(mid.state.visual, linkModifier.axis))))).error
      ensures mid.error.None? && old(req.Value()).dimension.Some? && err.Some? ==>
        link.State() == mid.state && forall k :: 0 <= k < |childJoints| ==> childJoints[k].origin == old(childJoints[k].origin)
      ensures parentJoint == null ==> link.visualOrigin == old(link.visualOrigin)
      ensures link.visualOrigin.R == old(link.visualOrigin.R)
      ensures forall a :: !mask.Get(a) ==> link.visualOrigin.t.Get(a) == old(link.visualOrigin.t.Get(a))
      ensures forall k, a :: 0 <= k < |childJoints| && !mask.Get(a) ==>
        childJoints[k].origin.t.Get(a) == old(childJoints[k].origin.t.Get(a))
      ensures forall k :: 0 <= k < |childJoints| ==> childJoints[k].origin.R == old(childJoints[k].origin.R)
      ensures parentJoint != null && parentJoint !in childJoints ==> parentJoint.origin == old(parentJoint.origin)
      ensures linkModifier.axis == old(linkModifier.axis)
      ensures forall k :: 0 <= k < |jointModifiers| ==> jointModifiers[k].axis == old(jointModifiers[k].axis)
    {
      var r := req.Value();
      err, mid := ApplyTrivial(r);
      if err.Some? || r.dimension.None? {
        return;
      }
      label Mid:
      assert Length() == SignificantLength(mid.state.visual, linkModifier.axis);
      assert ParentOffset() == ParentOffsetVec(old(link.visualOrigin), Length(), old(Direction()));
      assert forall k :: 0 <= k < |childJoints| ==>
        ChildOffset(k) == ChildOffsetVec(old(link.visualOrigin), Length(), old(Direction()), old(childJoints[k].origin.t));
      err := ApplyDimension(r.dimension.value, mask);
      assert forall k :: 0 <= k < |childJoints| ==> old@Mid(childJoints[k].origin) == old(childJoints[k].origin);
    }
  }
}
