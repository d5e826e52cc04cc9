/** Joint editing (urdfModifiers/core/jointModifier.py): a joint's translation z
    is recomputed from the significant length of its parent link and two flags. */
module Joints {
  import opened Wrappers
  import opened Geometry
  import opened Sequences
  import opened Urdf
  import opened Requests
  import Links

  /** The exceptions a joint modifier raises. */
  datatype JointError =
    | JointNotFound   // building a modifier from a name no joint has
    | MissingParent   // reading the visual of a parent link that was not found

  /** The first joint of the robot with that name, or None. */
  function GetElementByName(robot: Robot, name: string): (r: Option<Joint>)
    ensures r.Some? ==> r.value in robot.joints && r.value.name == name
    ensures r.Some? ==>
      exists k :: 0 <= k < |robot.joints| && robot.joints[k] == r.value && (forall i :: 0 <= i < k ==> robot.joints[i].name != name)
    ensures r.None? <==> forall i :: 0 <= i < |robot.joints| ==> robot.joints[i].name != name
  {
    match FirstIndex(robot.joints, (j: Joint) => j.name == name)
    case None => None
    case Some(k) => Some(robot.joints[k])
  }

  /** The largest component of a vector. */
  function MaxExtent(v: Vec3): (m: real)
    ensures m == v.x || m == v.y || m == v.z
    ensures v.x <= m && v.y <= m && v.z <= m
  {
    var xy := if v.x < v.y then v.y else v.x;
    if xy < v.z then v.z else xy
  }

  /** The length of a parent link that places its child joint: a cylinder's
      length, a box's largest extent, and 0 for any other shape. */
  function ParentSignificantLength(s: Shape): (l: real)
    ensures s.Cylinder? ==> l == s.length
    ensures s.Box? ==> (l == s.size.x || l == s.size.y || l == s.size.z)
    ensures s.Box? ==> s.size.x <= l && s.size.y <= l && s.size.z <= l
    ensures s.Sphere? ==> l == 0.0
  {
    match s
    case Cylinder(_, length) => length
    case Box(size) => MaxExtent(size)
    case Sphere(_) => 0.0
  }

  /** modify_origin: translation z becomes `length`, halved when `takeHalf`,
      negated when `flip`, plus `originModifier`; the rest of the frame is kept. */
  function ModifyOriginSpec(o: Origin, length: real, takeHalf: bool, flip: bool, originModifier: real): (r: Origin)
    ensures r.R == o.R && r.t.x == o.t.x && r.t.y == o.t.y
    ensures !takeHalf && !flip ==> r.t.z == length + originModifier
    ensures !takeHalf && flip ==> r.t.z == originModifier - length
    ensures takeHalf && !flip ==> r.t.z == length / 2.0 + originModifier
    ensures takeHalf && flip ==> r.t.z == originModifier - length / 2.0
  {
    var z := length / (if takeHalf then 2.0 else 1.0);
    var z' := if flip then -z else z;
    o.WritePosition(Z, z' + originModifier)
  }

  /** The new z does not depend on the old one: it is assigned, not accumulated. */
  lemma ModifyOriginForgetsZ(o1: Origin, o2: Origin, length: real, takeHalf: bool, flip: bool, originModifier: real)
    ensures ModifyOriginSpec(o1, length, takeHalf, flip, originModifier).t.z ==
            ModifyOriginSpec(o2, length, takeHalf, flip, originModifier).t.z
  {
  }

  /** Applying modify_origin twice with the same length is applying it once. */
  lemma ModifyOriginIdempotent(o: Origin, length: real, takeHalf: bool, flip: bool, originModifier: real)
    ensures var once := ModifyOriginSpec(o, length, takeHalf, flip, originModifier);
      ModifyOriginSpec(once, length, takeHalf, flip, originModifier) == once
  {
  }

  class JointModifier {
    const joint: Joint
    const originModifier: real
    /** The parent link, null when the joint's parent name matches no link. */
    const parent: Link?
    const takeHalfLength: bool
    const flipDirection: bool
    /** The axis a position edit acts on.
        ASSUMPTION: jointModifier.py has no axis and no position edit, yet
        fixedOffsetModifier.py builds joint modifiers with `axis=`, rebinds
        `axis` and issues absolute position edits through them. The model gives
        the modifier this field and the writer ModifyPosition, which sets one
        component of the joint origin's translation. */
    var axis: Axis

    /** JointModifier(joint, origin_modifier, parent, take_half_length=False, flip_direction=True). */
    constructor (joint: Joint, originModifier: real, parent: Link?, takeHalfLength: bool := false, flipDirection: bool := true)
      ensures this.joint == joint && this.originModifier == originModifier && this.parent == parent
      ensures this.takeHalfLength == takeHalfLength && this.flipDirection == flipDirection && this.axis == Z
    {
      this.joint := joint;
      this.originModifier := originModifier;
      this.parent := parent;
      this.takeHalfLength := takeHalfLength;
      this.flipDirection := flipDirection;
      this.axis := Z;
    }

    /** The modifier fixedOffsetModifier.py builds for each child joint.
        ASSUMPTION: the source passes only the joint and `axis=`; the model gives
        the other fields their defaults (no origin modifier, no parent link). */
    constructor ForAxis(joint: Joint, axis: Axis)
      ensures this.joint == joint && this.axis == axis && this.parent == null
      ensures originModifier == 0.0 && !takeHalfLength && flipDirection
    {
      this.joint := joint;
      this.originModifier := 0.0;
      this.parent := null;
      this.takeHalfLength := false;
      this.flipDirection := true;
      this.axis := axis;
    }

    /** from_name: a name no joint has fails; a parent name no link has gives a
        modifier without a parent. */
    static method FromName(name: string, robot: Robot, originModifier: real, takeHalfLength: bool := false, flipDirection: bool := true)
      returns (m: JointModifier?, err: Option<JointError>)
      ensures GetElementByName(robot, name).None? ==> m == null && err == Some(JointNotFound)
      ensures GetElementByName(robot, name).Some? ==> err.None? && m != null && fresh(m)
      ensures m != null ==>
        m.joint == GetElementByName(robot, name).value &&
        m.parent == (var p := Links.GetElementByName(robot, m.joint.parent); if p.Some? then p.value else null) &&
        m.originModifier == originModifier && m.takeHalfLength == takeHalfLength && m.flipDirection == flipDirection
    {
      var joint := GetElementByName(robot, name);
      if joint.None? {
        return null, Some(JointNotFound);
      }
      var parent := Links.GetElementByName(robot, joint.value.parent);
      m := new JointModifier(joint.value, originModifier, if parent.Some? then parent.value else null, takeHalfLength, flipDirection);
      err := None;
    }

    method ModifyOrigin(length: real)
      modifies joint
      ensures joint.origin == ModifyOriginSpec(old(joint.origin), length, takeHalfLength, flipDirection, originModifier)
    {
      var z := length / (if takeHalfLength then 2.0 else 1.0);
      if flipDirection {
        z := -z;
      }
      z := z + originModifier;
      joint.origin := joint.origin.WritePosition(Z, z);
    }

    /** modify: the request is ignored; the origin is recomputed from the parent
        link's significant length. */
    method Modify(req: Modification?) returns (err: Option<JointError>)
      modifies joint
      ensures parent == null ==> err == Some(MissingParent) && joint.origin == old(joint.origin)
      ensures parent != null ==> err.None?
      ensures parent != null ==>
        joint.origin == ModifyOriginSpec(old(joint.origin), ParentSignificantLength(parent.visual), takeHalfLength, flipDirection, originModifier)
    {
      if parent == null {
        return Some(MissingParent);
      }
      var length := ParentSignificantLength(parent.visual);
      ModifyOrigin(length);
      err := None;
    }

    /** An absolute position edit on the modifier's axis (see the field `axis`). */
    method ModifyPosition(v: real)
      modifies joint
      ensures joint.origin == old(joint.origin).WritePosition(axis, v)
    {
      joint.origin := joint.origin.WritePosition(axis, v);
    }
  }

  /** Two calls of modify leave the joint as one call does. */
  method ModifyTwice(m: JointModifier, req1: Modification?, req2: Modification?) returns (err: Option<JointError>)
    requires m.parent != null
    modifies m.joint
    ensures err.None?
    ensures m.joint.origin == ModifyOriginSpec(old(m.joint.origin), ParentSignificantLength(m.parent.visual),
      m.takeHalfLength, m.flipDirection, m.originModifier)
  {
    err := m.Modify(req1);
    ModifyOriginIdempotent(old(m.joint.origin), ParentSignificantLength(m.parent.visual), m.takeHalfLength, m.flipDirection, m.originModifier);
    err := m.Modify(req2);
  }
}
