/** Modification requests (urdfModifiers/core/modification.py): up to five
    optional edits, each a value tagged absolute or relative. */
module Requests {
  import opened Wrappers

  /** One requested edit: set the quantity to `value` (absolute) or multiply it by `value` (relative). */
  datatype ModificationType = ModificationType(value: real, absolute: bool)

  /** The value of a Modification object's five fields. */
  datatype Request = Request(
    mass: Option<ModificationType>,
    density: Option<ModificationType>,
    dimension: Option<ModificationType>,
    radius: Option<ModificationType>,
    position: Option<ModificationType>)

  const NoEdits: Request := Request(None, None, None, None, None)

  class Modification {
    var mass: Option<ModificationType>
    var density: Option<ModificationType>
    var dimension: Option<ModificationType>
    var radius: Option<ModificationType>
    var position: Option<ModificationType>

    function Value(): Request
      reads this
    {
      Request(mass, density, dimension, radius, position)
    }

    /** A new request asks for nothing. */
    constructor ()
      ensures Value() == NoEdits
    {
      mass, density, dimension, radius, position := None, None, None, None, None;
    }

    method AddDensity(value: real, absolute: bool)
      modifies this`density
      ensures density == Some(ModificationType(value, absolute))
      ensures mass == old(mass) && dimension == old(dimension) && radius == old(radius) && position == old(position)
    {
      density := Some(ModificationType(value, absolute));
    }

    method AddDimension(value: real, absolute: bool)
      modifies this`dimension
      ensures dimension == Some(ModificationType(value, absolute))
      ensures mass == old(mass) && density == old(density) && radius == old(radius) && position == old(position)
    {
      dimension := Some(ModificationType(value, absolute));
    }

    method AddMass(value: real, absolute: bool)
      modifies this`mass
      ensures mass == Some(ModificationType(value, absolute))
      ensures density == old(density) && dimension == old(dimension) && radius == old(radius) && position == old(position)
    {
      mass := Some(ModificationType(value, absolute));
    }

    method AddRadius(value: real, absolute: bool)
      modifies this`radius
      ensures radius == Some(ModificationType(value, absolute))
      ensures mass == old(mass) && density == old(density) && dimension == old(dimension) && position == old(position)
    {
      radius := Some(ModificationType(value, absolute));
    }

    method AddPosition(value: real, absolute: bool)
      modifies this`position
      ensures position == Some(ModificationType(value, absolute))
      ensures mass == old(mass) && density == old(density) && dimension == old(dimension) && radius == old(radius)
    {
      position := Some(ModificationType(value, absolute));
    }

    /** The edit currently held for `f`. */
    function Edit(f: Field): Option<ModificationType>
      reads this
    {
      match f
      case MassField => mass
      case DensityField => density
      case DimensionField => dimension
      case RadiusField => radius
      case PositionField => position
    }

    /** Calls the setter of `f` (add_mass, add_density, ...). */
    method Add(f: Field, value: real, absolute: bool)
      modifies this
      ensures Edit(f) == Some(ModificationType(value, absolute))
      ensures forall g :: g != f ==> Edit(g) == old(Edit(g))
    {
      match f
      case MassField => AddMass(value, absolute);
      case DensityField => AddDensity(value, absolute);
      case DimensionField => AddDimension(value, absolute);
      case RadiusField => AddRadius(value, absolute);
      case PositionField => AddPosition(value, absolute);
    }

    /** One block of from_config_section: the `<field>_scale` key, if present,
        adds a relative edit; then the `<field>` key, if present, adds an
        absolute edit, which overwrites the relative one. */
    method AddFromSection(section: map<string, real>, f: Field)
      modifies this
      ensures Edit(f) == (if SectionField(section, f).Some? then SectionField(section, f) else old(Edit(f)))
      ensures forall g :: g != f ==> Edit(g) == old(Edit(g))
    {
      if ScaleKey(f) in section { Add(f, section[ScaleKey(f)], false); }
      if Key(f) in section { Add(f, section[Key(f)], true); }
    }

    /** Builds a request from a configuration section whose values are already
        parsed to reals, field by field in the order dimension, density, mass,
        radius, position. */
    static method FromConfigSection(section: map<string, real>) returns (m: Modification)
      ensures fresh(m)
      ensures m.Value() == SectionRequest(section)
    {
      m := new Modification();
      m.AddFromSection(section, DimensionField);
      m.AddFromSection(section, DensityField);
      m.AddFromSection(section, MassField);
      m.AddFromSection(section, RadiusField);
      m.AddFromSection(section, PositionField);
      assert m.Edit(MassField) == m.mass && m.Edit(DensityField) == m.density;
      assert m.Edit(DimensionField) == m.dimension && m.Edit(RadiusField) == m.radius;
      assert m.Edit(PositionField) == m.position;
    }
  }

  /** The five fields of a request. */
  datatype Field = MassField | DensityField | DimensionField | RadiusField | PositionField

  /** The configuration key of an absolute edit of `f`. */
  function Key(f: Field): string {
    match f
    case MassField => "mass"
    case DensityField => "density"
    case DimensionField => "dimension"
    case RadiusField => "radius"
    case PositionField => "position"
  }

  /** The configuration key of a relative edit of `f`. */
  function ScaleKey(f: Field): string {
    Key(f) + "_scale"
  }

  /** The edit a configuration section asks for on field `f`: the value of its
      plain key as an absolute edit if that key is present, otherwise the value of
      its scale key as a relative edit if that key is present. */
  function SectionField(section: map<string, real>, f: Field): Option<ModificationType> {
    if Key(f) in section then Some(ModificationType(section[Key(f)], true))
    else if ScaleKey(f) in section then Some(ModificationType(section[ScaleKey(f)], false))
    else None
  }

  /** The request a configuration section describes. */
  function SectionRequest(section: map<string, real>): Request {
    Request(
      SectionField(section, MassField),
      SectionField(section, DensityField),
      SectionField(section, DimensionField),
      SectionField(section, RadiusField),
      SectionField(section, PositionField))
  }

  /** A scale key alone gives a relative edit with its value; a plain key gives an
      absolute edit, also when the scale key is present; neither key leaves the
      field absent. */
  lemma SectionFieldCases(section: map<string, real>, f: Field)
    ensures Key(f) !in section && ScaleKey(f) in section ==>
      SectionField(section, f) == Some(ModificationType(section[ScaleKey(f)], false))
    ensures Key(f) in section ==>
      SectionField(section, f) == Some(ModificationType(section[Key(f)], true))
    ensures Key(f) !in section && ScaleKey(f) !in section ==> SectionField(section, f).None?
  {
  }

  /** Each field depends only on its own two keys. */
  lemma SectionFieldLocal(s1: map<string, real>, s2: map<string, real>, f: Field)
    requires (Key(f) in s1 <==> Key(f) in s2) && (Key(f) in s1 ==> s1[Key(f)] == s2[Key(f)])
    requires (ScaleKey(f) in s1 <==> ScaleKey(f) in s2) && (ScaleKey(f) in s1 ==> s1[ScaleKey(f)] == s2[ScaleKey(f)])
    ensures SectionField(s1, f) == SectionField(s2, f)
  {
  }

  /** Adding the same field twice keeps only the second edit. */
  method AddMassTwice(m: Modification, v1: real, a1: bool, v2: real, a2: bool)
    modifies m
    ensures m.Value() == old(m.Value()).(mass := Some(ModificationType(v2, a2)))
  {
    m.AddMass(v1, a1);
    m.AddMass(v2, a2);
  }
}
