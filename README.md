# urdf-modifiers, modelled in Dafny

urdf-modifiers edits the robot description of a URDF file in place. It builds
**modification requests** from configuration sections
(`urdfModifiers/core/modification.py`): up to five edits of mass, density,
dimension, radius and position, each one absolute or relative. It applies them
with three kinds of modifier:

- the **link modifier** (`linkModifier.py`) changes a link's box, cylinder or
  sphere. It edits the visual shape and the collision shape, and the mass. It
  then rebuilds a diagonal inertia tensor with a floor of 0.01;
- the **joint modifier** (`jointModifier.py`) places a joint along z. The
  position comes from the significant length of the parent link;
- the **fixed-offset modifier** (`fixedOffsetModifier.py`) resizes a link while
  keeping its joints in place. It first measures the offset of the parent joint
  from the start of the visual and of each child joint from its end. After the
  resize it rewrites the link origin and each child joint origin, under an
  axis mask, so that these offsets are what they were.

The utilities (`urdfModifiers/utils/utils.py`) split the lines of a URDF file
into robot lines and Gazebo plugin blocks. They can also splice plugin lines
back in before the file's last line.

The model has these modules:

| module | file | models |
|---|---|---|
| `Wrappers` | wrappers.dfy | `Option` and `Result` |
| `Sequences` | sequences.dfy | first match and filter over lists |
| `Geometry` | geometry.dfy | axes, vectors, 3×3 matrices, frames, shapes |
| `Urdf` | urdf.dfy | mutable links, joints and inertial records |
| `Requests` | requests.dfy | `ModificationType` and `Modification` |
| `Links` | link_modifier.dfy | `LinkModifier` |
| `Joints` | joint_modifier.dfy | `JointModifier` |
| `FixedOffset` | fixed_offset.dfy | `Offset` and `FixedOffsetModifier` |
| `GazeboPlugins` | gazebo.dfy | the plugin split and splice |

How the three modifiers are modelled:

- **Classes and state.** The modifiers are classes. Links and joints are
  objects whose fields the modifiers assign. The inertia tensor is a 3×3 array,
  written in place by a double loop.
- **Specification functions.** Every edit of the link modifier is also a pure
  function on a snapshot of the link (`Urdf.LinkState`). For example,
  `Links.ModifySpec` is a whole call of `modify`. Each method is proved to
  leave the link in the state its function gives.
- **Lemmas.** What a call of `modify` means is proved about these functions:
  - when it raises;
  - the new radius, length, mass and tensor;
  - what it never changes.
- **Fixed-offset modifier.** Its methods are proved to restore both offsets on
  every enabled axis. They are also proved to keep:
  - every translation component on a disabled axis;
  - the rotation of the link frame and of each child joint;
  - the parent joint, unless it is also a child joint;
  - the axes of the modifiers.

  The new link state is given through `Links.ModifySpec` in every outcome. The
  only exception is the link origin, which is rewritten to restore the parent
  offset. Without a parent joint the link origin is kept too.

Where the code and its documentation disagree, the model follows the code:

- the class comment of `fixedOffsetModifier.py` derives the offsets with a
  factor sign(j_o); the code uses none, and neither does the model;
- `FixedOffsetModifier.modify` reads `modifications.offset_mask`, which
  `Modification` never defines. The model takes the mask as a parameter
  defaulting to `[1, 1, 1]`, as `modify_origin_three_dimensions` does.

Four places where the code cannot run as written are modelled by explicit
ASSUMPTION comments in the code:

- **Geometry.Axis.** `Side` names its members WIDTH, HEIGHT and DEPTH, but
  the modifiers use `Side.X`, `Side.Y` and `Side.Z`. The model takes the
  X/Y/Z reading.
- **FixedOffset.LinkDimension.** `LinkModifier(link, axis=axis)` passes an
  `axis` keyword that the constructor does not have. The model reads it as the
  dimension of a box and as no dimension otherwise.
- **axis field and ModifyPosition.** The fixed-offset modifier rebinds
  `modifier.axis` and sends absolute position edits to link and joint
  modifiers, but neither of them handles one.
  - The model gives both modifiers an `axis` field.
  - It also gives them a `ModifyPosition` writer, which sets one component of
    the origin they own.
- **Joints.JointModifier.ForAxis.** The fixed-offset constructor builds
  `JointModifier(item, axis = Side.Z)` (`fixedOffsetModifier.py:117`). This
  leaves out the required `origin_modifier` and `parent` and passes an `axis`
  keyword the constructor does not have. The model reads it as origin modifier
  0, no parent, the default flags and that axis.

The joint modifier's constructor calls `super().__init__(joint, origin_modifier,
RobotElement.JOINT)` (`jointModifier.py:9`). That is three arguments, but
`Modifier.__init__` takes `element` and `element_type`
(`modifier.py:5-7`), so building a joint modifier as written raises a
TypeError. The model reads the intent: `JointModifier` stores the joint, the
origin modifier, the parent and the two flags.

## Model

| member | source | states |
|---|---|---|
| `Requests.Modification.constructor` | urdfModifiers/core/modification.py:16-21 | a new modification holds no edit |
| `Requests.Modification.AddDensity` | urdfModifiers/core/modification.py:66-68 | density becomes the given edit; the other four fields are kept |
| `Requests.Modification.AddDimension` | urdfModifiers/core/modification.py:70-72 | dimension becomes the given edit; the other four fields are kept |
| `Requests.Modification.AddMass` | urdfModifiers/core/modification.py:74-76 | mass becomes the given edit; the other four fields are kept |
| `Requests.Modification.AddRadius` | urdfModifiers/core/modification.py:78-80 | radius becomes the given edit; the other four fields are kept |
| `Requests.Modification.AddPosition` | urdfModifiers/core/modification.py:82-84 | position becomes the given edit; the other four fields are kept |
| `Requests.Modification.Add` | urdfModifiers/core/modification.py:66-84 | the named field becomes the edit, every other field is kept |
| `Requests.Modification.AddFromSection` | urdfModifiers/core/modification.py:29-34 | one block of from_config_section: the field becomes the section's edit for it when there is one, else stays; other fields kept |
| `Requests.Modification.FromConfigSection` | urdfModifiers/core/modification.py:24-64 | the built request is the one the section describes, field by field |
| `Requests.SectionFieldCases` | urdfModifiers/core/modification.py:29-62 | a scale key alone gives a relative edit, a plain key an absolute edit even beside a scale key, no key no edit |
| `Requests.SectionFieldLocal` | urdfModifiers/core/modification.py:29-62 | each field of the request depends only on its own two keys |
| `Requests.AddMassTwice` | urdfModifiers/core/modification.py:74-76 | adding the same field twice keeps only the second edit |
| `Sequences.FirstIndex` | urdfModifiers/core/linkModifier.py:26-32 | the index of the first match, every earlier element failing; None exactly when nothing matches |
| `Sequences.Filter` | urdfModifiers/core/fixedOffsetModifier.py:116 | the result holds only matching elements of the list and every matching element of it |
| `Sequences.FilterAppend` | urdfModifiers/core/fixedOffsetModifier.py:116 | filtering a concatenation is concatenating the filtered pieces, so the input order is kept |
| `Sequences.FilterSnoc` | urdfModifiers/core/fixedOffsetModifier.py:116 | one more element at the end is appended to the result exactly when it matches |
| `Sequences.FilterDistinct` | urdfModifiers/core/fixedOffsetModifier.py:116 | filtering a list without repetitions gives a list without repetitions |
| `Geometry.Origin.WritePosition` | urdfModifiers/core/jointModifier.py:49-54 | one translation component is set; the rotation and the other two components are kept |
| `Links.Volume` | urdfModifiers/core/linkModifier.py:158-165 | a cylinder's volume is zero exactly when its radius or length is, a sphere's exactly when its radius is, a box's exactly when one of its extents is |
| `Links.Radius` | urdfModifiers/core/linkModifier.py:97-100 | the radius of a cylinder or sphere; none exactly for a box |
| `Links.SignificantLength` | urdfModifiers/core/linkModifier.py:79-95 | the box extent along the dimension, the cylinder length, none for a sphere; raises exactly for a box without dimension |
| `Links.DensityOf` | urdfModifiers/core/linkModifier.py:175-178 | density times volume is the mass; none exactly when the volume is zero |
| `Links.WithRadius` | urdfModifiers/core/linkModifier.py:102-109 | the kind of shape is kept, its radius becomes the new one where it has one, a box is unchanged |
| `Links.WithLength` | urdfModifiers/core/linkModifier.py:111-138 | the box extent along the dimension or the cylinder length becomes the new one, other extents and the radius kept; a sphere, or a box without dimension, unchanged |
| `Links.InertiaDiagonal` | urdfModifiers/core/linkModifier.py:211-225 | a sphere's three moments are equal, a cylinder's first two are |
| `Links.InertiaDiagonalNonNegative` | urdfModifiers/core/linkModifier.py:211-225 | a non-negative mass gives non-negative moments |
| `Links.Floor` | urdfModifiers/core/linkModifier.py:232 | the result is at least 0.01 and is the input unless the input was below 0.01 |
| `Links.FloorAll` | urdfModifiers/core/linkModifier.py:232 | each component is floored |
| `Links.DiagonalMatrix` | urdfModifiers/core/linkModifier.py:233-238 | entry (i, i) is component i, every other entry is 0 |
| `Links.Target` | urdfModifiers/core/linkModifier.py:44-67 | an absolute edit asks for its value, a relative one for the pre-edit value times it |
| `Links.SetRadiusSpec` | urdfModifiers/core/linkModifier.py:102-109 | visual and, when present, collision get the radius independently; origin and inertial kept |
| `Links.SetLengthSpec` | urdfModifiers/core/linkModifier.py:111-138 | visual and, when present, collision get the length independently by their own shape; origin and inertial kept |
| `Links.SetMassSpec` | urdfModifiers/core/linkModifier.py:171-173 | the mass is set; tensor, shapes and origin kept |
| `Links.SetDensitySpec` | urdfModifiers/core/linkModifier.py:205-209 | the mass becomes visual volume times density; a density already matching changes nothing |
| `Links.UpdateInertiaSpec` | urdfModifiers/core/linkModifier.py:227-238 | with an inertial record the tensor becomes diagonal with floored moments of the current shape and mass; without one nothing changes |
| `Links.RadiusStep` | urdfModifiers/core/linkModifier.py:40-48 | raises exactly for a radius edit of a box, leaving the link as it was; keeps frame and inertial |
| `Links.LengthStep` | urdfModifiers/core/linkModifier.py:49-57 | raises exactly for a dimension edit of a sphere, leaving the link as it was; keeps frame and inertial |
| `Links.DensityStep` | urdfModifiers/core/linkModifier.py:58-62 | raises exactly for a relative edit with no pre-edit density; otherwise the mass is volume times the requested density |
| `Links.MassStep` | urdfModifiers/core/linkModifier.py:63-67 | with a mass edit the mass is the requested one; without one nothing changes |
| `Links.ConstructionCheck` | urdfModifiers/core/linkModifier.py:11-18 | construction fails exactly for a cylinder or sphere given a dimension, with the matching error |
| `Links.GetElementByName` | urdfModifiers/core/linkModifier.py:25-32 | the first link of that name; none exactly when no link has it |
| `Links.LinkModifier.constructor` | urdfModifiers/core/linkModifier.py:11-18 | requires the construction check to pass and stores link and dimension |
| `Links.LinkModifier.Create` | urdfModifiers/core/linkModifier.py:11-18 | fails with the construction check's error and no modifier, else gives a fresh modifier of that link and dimension |
| `Links.LinkModifier.FromName` | urdfModifiers/core/linkModifier.py:20-23 | a name no link has fails with LinkNotFound; otherwise as Create on the found link |
| `Links.LinkModifier.SetRadius` | urdfModifiers/core/linkModifier.py:102-109 | the new link state is SetRadiusSpec of the old one |
| `Links.LinkModifier.SetLength` | urdfModifiers/core/linkModifier.py:111-138 | the new link state is SetLengthSpec of the old one |
| `Links.LinkModifier.SetMass` | urdfModifiers/core/linkModifier.py:171-173 | the new link state is SetMassSpec of the old one |
| `Links.LinkModifier.SetDensity` | urdfModifiers/core/linkModifier.py:205-209 | the new link state is SetDensitySpec of the old one |
| `Links.LinkModifier.UpdateInertia` | urdfModifiers/core/linkModifier.py:227-238 | the tensor array is rewritten so that the new state is UpdateInertiaSpec of the old one |
| `Links.LinkModifier.ApplyRadius` | urdfModifiers/core/linkModifier.py:40-48 | state and error are those of RadiusStep |
| `Links.LinkModifier.ApplyLength` | urdfModifiers/core/linkModifier.py:49-57 | state and error are those of LengthStep |
| `Links.LinkModifier.ApplyDensity` | urdfModifiers/core/linkModifier.py:58-62 | state and error are those of DensityStep |
| `Links.LinkModifier.ApplyMass` | urdfModifiers/core/linkModifier.py:63-67 | the state is that of MassStep |
| `Links.LinkModifier.Modify` | urdfModifiers/core/linkModifier.py:34-69 | state and error are those of ModifySpec, the whole call as a function |
| `Links.LinkModifier.ModifyPosition` | urdfModifiers/core/fixedOffsetModifier.py:280-293 | one component of the visual origin's translation is set, on the modifier's axis; nothing else changes |
| `Links.ModifyRaises` | urdfModifiers/core/linkModifier.py:34-69 | modify raises if and only if: no inertial; a zero-volume cylinder or sphere; a box without dimension; a radius edit of a box; a dimension edit of a sphere; a relative density edit at zero volume |
| `Links.BoxWithoutDimensionRaises` | urdfModifiers/core/linkModifier.py:79-91 | a box modifier without a dimension raises on every request and changes nothing |
| `Links.RadiusOfBoxRaises` | urdfModifiers/core/linkModifier.py:40-43 | a radius edit of a box raises and changes nothing |
| `Links.LengthOfSphereKeepsRadius` | urdfModifiers/core/linkModifier.py:40-52 | a dimension edit of a sphere raises, and the radius edit made before it stays applied |
| `Links.ModifyRadius` | urdfModifiers/core/linkModifier.py:40-48 | after a call without error the radius is the requested one (or unchanged with no edit) and a round collision has the same radius |
| `Links.ModifyLength` | urdfModifiers/core/linkModifier.py:49-57 | after a call without error the significant length is the requested one (or unchanged), other box extents kept; a cylinder collision gets the same length, a box collision the same extent along the dimension with its other extents kept |
| `Links.ModifyKeepsFrame` | urdfModifiers/core/linkModifier.py:34-69 | every outcome keeps the visual origin, each shape's kind and whether collision and inertial exist |
| `Links.ModifyMass` | urdfModifiers/core/linkModifier.py:58-67 | after a call without error the mass is the mass edit if any, else new volume times the requested density if any, else the old mass |
| `Links.ModifyInertia` | urdfModifiers/core/linkModifier.py:227-238 | after a call without error the tensor is diagonal with the floored moments of the new shape and mass, each at least 0.01 |
| `Joints.GetElementByName` | urdfModifiers/core/jointModifier.py:22-29 | the first joint of that name; none exactly when no joint has it |
| `Joints.MaxExtent` | urdfModifiers/core/jointModifier.py:43 | the result is one of the components and no component exceeds it |
| `Joints.ParentSignificantLength` | urdfModifiers/core/jointModifier.py:36-45 | a cylinder's length, a box's largest extent, 0 for a sphere |
| `Joints.ModifyOriginSpec` | urdfModifiers/core/jointModifier.py:47-54 | z becomes the length, halved or negated as flagged, plus the origin modifier, in all four flag cases; rotation, x and y kept |
| `Joints.ModifyOriginForgetsZ` | urdfModifiers/core/jointModifier.py:47-54 | the new z does not depend on the old one |
| `Joints.ModifyOriginIdempotent` | urdfModifiers/core/jointModifier.py:47-54 | applying modify_origin twice with the same length is applying it once |
| `Joints.JointModifier.constructor` | urdfModifiers/core/jointModifier.py:8-12 | stores joint, origin modifier, parent and both flags |
| `Joints.JointModifier.ForAxis` | urdfModifiers/core/fixedOffsetModifier.py:117 | a modifier of that joint on that axis, without a parent, with origin modifier 0 and the default flags |
| `Joints.JointModifier.FromName` | urdfModifiers/core/jointModifier.py:15-20 | a name no joint has fails with JointNotFound; otherwise a fresh modifier of the first such joint whose parent is the first link named as the joint's parent |
| `Joints.JointModifier.ModifyOrigin` | urdfModifiers/core/jointModifier.py:47-54 | the joint origin becomes ModifyOriginSpec of the old one |
| `Joints.JointModifier.Modify` | urdfModifiers/core/jointModifier.py:31-34 | without a parent it fails with nothing changed; otherwise the origin is recomputed from the parent's significant length |
| `Joints.JointModifier.ModifyPosition` | urdfModifiers/core/fixedOffsetModifier.py:280-293 | one component of the joint origin's translation is set, on the modifier's axis |
| `Joints.ModifyTwice` | urdfModifiers/core/jointModifier.py:31-34 | two calls of modify leave the joint as one call does |
| `FixedOffset.FromVector` | urdfModifiers/core/fixedOffsetModifier.py:20-22 | the offset's vector is the given vector and its joint the given joint |
| `FixedOffset.EqualsIsVectorEquality` | urdfModifiers/core/fixedOffsetModifier.py:31-36 | two offsets are equal exactly when their vectors are, whatever their joints |
| `FixedOffset.GetElementByName` | urdfModifiers/core/fixedOffsetModifier.py:124-134 | the first link of that name, else the first joint of that name, else none exactly when neither exists |
| `FixedOffset.LinkDimension` | urdfModifiers/core/fixedOffsetModifier.py:113 | a box gets the axis as dimension, other shapes none, and the construction check passes |
| `FixedOffset.DirectionVector` | urdfModifiers/core/fixedOffsetModifier.py:148-158 | the unit vector of the axis for a box, of Z for a cylinder or sphere |
| `FixedOffset.SignificantLengthAsWritten` | urdfModifiers/core/fixedOffsetModifier.py:160-166 | as written: a sphere has no significant length (the doubling raises) |
| `FixedOffset.SignificantLength` | urdfModifiers/core/fixedOffsetModifier.py:160-166 | the box extent along the axis, the cylinder length, the sphere diameter |
| `FixedOffset.SignificantLengthFinding` | urdfModifiers/core/fixedOffsetModifier.py:160-166 | the two agree except on spheres, where the code as written raises |
| `FixedOffset.UnitSphereLength` | urdfModifiers/core/fixedOffsetModifier.py:160-166 | for a sphere of radius 1 the code as written gives nothing, the intended value is 2 |
| `FixedOffset.WriteMasked` | urdfModifiers/core/fixedOffsetModifier.py:273-295 | each enabled component is the new one, each other the old one, the rotation kept |
| `FixedOffset.ParentOffsetRestored` | urdfModifiers/core/fixedOffsetModifier.py:249-256 | writing the link origin at s + (L'/2)·R·u makes the parent offset at the new length s on every enabled axis |
| `FixedOffset.ChildOffsetRestored` | urdfModifiers/core/fixedOffsetModifier.py:263-271 | writing a child joint at t + (L'/2)·R·u − e makes its child offset at the new length e on every enabled axis |
| `FixedOffset.OffsetsRestoredAllAxes` | urdfModifiers/core/fixedOffsetModifier.py:233-271 | with the default mask both offsets come back whole |
| `FixedOffset.ResizeRequest` | urdfModifiers/core/fixedOffsetModifier.py:239-244 | an absolute radius of half the length for a sphere, an absolute dimension otherwise, nothing else |
| `FixedOffset.ResizeSetsLength` | urdfModifiers/core/fixedOffsetModifier.py:238-246 | the resize raises exactly without inertial or at zero round volume, changing nothing; otherwise the significant length is the requested one; the frame is always kept |
| `FixedOffset.TrivialRequest` | urdfModifiers/core/fixedOffsetModifier.py:216-222 | the radius, density and mass edits of the request, no dimension or position edit |
| `FixedOffset.SetAxis` | urdfModifiers/core/fixedOffsetModifier.py:281 | the modifier's axis is set, its origin and shapes kept |
| `FixedOffset.ModifyPosition` | urdfModifiers/core/fixedOffsetModifier.py:282-283 | the origin component on the current axis is set, the axis and shapes kept |
| `FixedOffset.ModifyOriginThreeDimensions` | urdfModifiers/core/fixedOffsetModifier.py:273-295 | the origin becomes WriteMasked of the old one and the modifier's axis is restored |
| `FixedOffset.TrivialModifications` | urdfModifiers/core/fixedOffsetModifier.py:216-222 | a fresh modification holding TrivialRequest of the request |
| `FixedOffset.ResizeModification` | urdfModifiers/core/fixedOffsetModifier.py:239-244 | a fresh modification holding ResizeRequest |
| `FixedOffset.ParentJointOf` | urdfModifiers/core/fixedOffsetModifier.py:114-115 | the first joint whose child is the link; null exactly when there is none |
| `FixedOffset.ChildJointsOf` | urdfModifiers/core/fixedOffsetModifier.py:116 | exactly the robot's joints whose parent is the link |
| `FixedOffset.ChildJointsInOrder` | urdfModifiers/core/fixedOffsetModifier.py:116 | the child joints of the first k+1 joints are those of the first k, then joint k if its parent is the link: the robot's order is kept |
| `FixedOffset.FixedOffsetModifier.constructor` | urdfModifiers/core/fixedOffsetModifier.py:111-117 | the parent joint, the child joints and one joint modifier per child, in order |
| `FixedOffset.FixedOffsetModifier.FromName` | urdfModifiers/core/fixedOffsetModifier.py:119-122 | a modifier of the first link of that name; null exactly when no link has it |
| `FixedOffset.FixedOffsetModifier.CalculateOffsets` | urdfModifiers/core/fixedOffsetModifier.py:187-211 | a parent offset exactly when there is a parent joint, and one child offset per child in order, each with its joint |
| `FixedOffset.FixedOffsetModifier.ResizeLink` | urdfModifiers/core/fixedOffsetModifier.py:238-246 | the link state is ModifySpec of ResizeRequest; without error the significant length is the new one; joints untouched |
| `FixedOffset.FixedOffsetModifier.KeepParentOffset` | urdfModifiers/core/fixedOffsetModifier.py:248-260 | with a parent offset the link origin is rewritten under the mask and the offset holds on enabled axes; without one nothing changes |
| `FixedOffset.FixedOffsetModifier.KeepChildOffsets` | urdfModifiers/core/fixedOffsetModifier.py:263-271 | each child joint is rewritten under the mask through its own modifier, each child offset holds on enabled axes, and every modifier's axis is restored |
| `FixedOffset.FixedOffsetModifier.RestoreOffsets` | urdfModifiers/core/fixedOffsetModifier.py:248-271 | both offsets hold on enabled axes; other components, rotations, shapes, modifier axes and the parent joint are kept |
| `FixedOffset.FixedOffsetModifier.ChangeDimensionAndKeepOffsets` | urdfModifiers/core/fixedOffsetModifier.py:233-271 | on error nothing is changed; otherwise the link state is ModifySpec of ResizeRequest apart from the rewritten origin, and the offsets measured before hold on enabled axes; disabled axes, rotations, modifier axes and the parent joint are kept |
| `FixedOffset.FixedOffsetModifier.ApplyTrivial` | urdfModifiers/core/fixedOffsetModifier.py:216-224 | the link state is ModifySpec of TrivialRequest; origin, direction, joints and modifier axes kept |
| `FixedOffset.FixedOffsetModifier.ApplyDimension` | urdfModifiers/core/fixedOffsetModifier.py:226-231 | the dimension edit's target length, relative to the current significant length, is set while both offsets hold on enabled axes; on error nothing changes |
| `FixedOffset.FixedOffsetModifier.Modify` | urdfModifiers/core/fixedOffsetModifier.py:213-231 | the trivial edits first; with a dimension edit the error is the resize's error and the link state is ModifySpec of ResizeRequest of the state after them (relative to the length then), apart from the rewritten origin, and both offsets measured then hold on enabled axes; a failed resize leaves the state after the trivial edits; disabled axes, rotations, modifier axes, the parent joint, and without a parent joint the link origin, are kept |
| `GazeboPlugins.Contains` | urdfModifiers/utils/utils.py:27 | true exactly when the pattern occurs at some index of the line |
| `GazeboPlugins.Next` | urdfModifiers/utils/utils.py:27-34 | after a line the block is open exactly when the line is a Gazebo line and does not close |
| `GazeboPlugins.Split` | urdfModifiers/utils/utils.py:26-32 | the two parts together have as many lines as the input |
| `GazeboPlugins.SplitPartition` | urdfModifiers/utils/utils.py:26-32 | the two parts together hold exactly the input lines, with repetitions |
| `GazeboPlugins.SplitAppend` | urdfModifiers/utils/utils.py:26-34 | the split of a concatenation is the splits of the two pieces, the second read from the state the first leaves |
| `GazeboPlugins.SeparateGazeboPlugins` | urdfModifiers/utils/utils.py:19-35 | the loop's two lists are the robot and Gazebo parts of Split from outside a block |
| `GazeboPlugins.SplitPosition` | urdfModifiers/utils/utils.py:26-32 | order is kept: a prefix splits into prefixes, and each line is the next line of its part |
| `GazeboPlugins.GazeboSpan` | urdfModifiers/utils/utils.py:27-34 | an opening line and every line after it up to and including the first closing one are Gazebo lines |
| `GazeboPlugins.GazeboLineOpened` | urdfModifiers/utils/utils.py:27-34 | from the file start, a Gazebo line has an opening line at or before it and no closing line in between |
| `GazeboPlugins.CloseEndsBlock` | urdfModifiers/utils/utils.py:33-34 | the line after a closing line is a robot line unless it opens a block |
| `GazeboPlugins.NoMarkers` | urdfModifiers/utils/utils.py:26-32 | lines without an opening marker all go to the robot part |
| `GazeboPlugins.OpenWithoutClose` | urdfModifiers/utils/utils.py:27-32 | a block opened and never closed takes every later line |
| `GazeboPlugins.AllGazebo` | urdfModifiers/utils/utils.py:26-32 | lines that are all Gazebo lines all go to the Gazebo part |
| `GazeboPlugins.SpliceGazeboPlugins` | urdfModifiers/utils/utils.py:9-14 | an empty file fails the pop; otherwise all lines but the last, then the plugins, then the last line |
| `GazeboPlugins.SpliceThenSplit` | urdfModifiers/utils/utils.py:6-35 | splicing a closed plugin block into marker-free lines and splitting again gives back the lines and the block |

## Left out

- File input and output are left out. This covers `urdf.save`, reading and writing the file, the dummy files and `URDF.load`. The plugin routines work on the list of lines, so `write_urdf_to_file`, `create_dummy_file`, `erase_dummy_file` and `load_robot_and_gazebo_plugins` are modelled only by their list steps.
- The conversions between 4×4 transforms and xyz/rpy (urdfpy) are left out. A frame is a rotation matrix and a translation, and a position edit writes only the translation.
- Floating point is modelled by exact reals.
  - `Offset.__eq__` compares with exact equality, where the code uses `isclose`.
  - π is a positive constant with no value.
  - The float parsing in `from_config_section` is taken as done: the model's section maps keys to reals.
- Links.DensityOf: dividing by a zero box volume gives a numpy infinity in the source, not an exception. The model returns no density, and `modify` raises ZeroVolume for a relative density edit of such a box. Dividing by a zero cylinder or sphere volume raises in both.
- Links.LinkModifier.Modify: a shape without box, cylinder or sphere data is not modelled. Every link has one visual shape, so the getters' `None` cases for a missing visual are not modelled.
- `LinkModifier.modify_origin` is left out: the only call to it is commented out.
- The `__str__` methods and printed messages are left out. `set_length` on a box without dimension prints an error and goes on, and the model keeps only the going on.
- `modifier.py` (the base class) is not modelled as a class. It holds only `element` and `element_type`. The model stores the element as each modifier's `link` or `joint` field, and the element type follows from the class.
- FixedOffset.FixedOffsetModifier.constructor requires that the robot lists each joint object once. This lets each child offset be matched to its own joint modifier.
- FixedOffset.FixedOffsetModifier.KeepParentOffset: the `Offset(z = -L'/2)` the source stores when there is no parent joint is never read again. The model does not build it.
- FixedOffset.ModifyOriginThreeDimensions: the modification object the source builds and hands to `modifier.modify` is replaced by a direct absolute position edit on the current axis (see the `axis` ASSUMPTION).
- FixedOffset.FixedOffsetModifier.Modify: the mask is a parameter, because `Modification` has no `offset_mask`.

## Findings

| source | as written | input that shows it | evidently intended | confidence | as-written member | corrected member |
|---|---|---|---|---|---|---|
| urdfModifiers/core/fixedOffsetModifier.py:160-166 | the significant length is the link modifier's significant length, doubled for a sphere; for a sphere the link modifier returns None and `None *= 2` raises | a fixed-offset modifier on a sphere link of radius 1 | the sphere's diameter (2 here), as the documentation says and as the resize, which sets radius L'/2, assumes | not executed | `FixedOffset.SignificantLengthAsWritten`, `FixedOffset.UnitSphereLength` | `FixedOffset.SignificantLength`, `FixedOffset.ResizeSetsLength` |
