/** Material description of a medium and of a slab of it with a thickness:
    the value type that every bin of a surface material holds. */
module Materials {

  /** Physical constants of a medium: radiation length `x0`, nuclear interaction
      length `l0`, relative atomic mass `ar`, atomic number `z` and density `rho`. */
  datatype Material = Material(x0: real, l0: real, ar: real, z: real, rho: real)

  /** The default-constructed material: every constant zero. */
  const Vacuum := Material(0.0, 0.0, 0.0, 0.0, 0.0)

  /** The material's own truth value: true for a medium, false for vacuum. */
  predicate IsMaterial(m: Material) {
    0.0 < m.x0 && 0.0 < m.l0 && 0.0 < m.rho
  }

  /** `num / den` for a positive denominator and zero otherwise; a thickness over
      a length that vacuum does not have is a zero fraction. */
  function Quotient(num: real, den: real): real {
    if 0.0 < den then num / den else 0.0
  }

  /** A material with a thickness, and the thickness expressed in radiation
      lengths and in interaction lengths, cached when the value is built. */
  datatype MaterialProperties = MaterialProperties(
    material: Material,
    thickness: real,
    thicknessInX0: real,
    thicknessInL0: real)

  /** The invariant every constructor establishes: the cached fractions agree
      with the stored material and thickness. */
  predicate Consistent(p: MaterialProperties) {
    p.thicknessInX0 == Quotient(p.thickness, p.material.x0) &&
    p.thicknessInL0 == Quotient(p.thickness, p.material.l0)
  }

  /** `MaterialProperties()`: vacuum without thickness. */
  function Default(): (r: MaterialProperties)
    ensures Consistent(r) && !IsValid(r)
    ensures r.material == Vacuum
    ensures r.thickness == 0.0 && r.thicknessInX0 == 0.0 && r.thicknessInL0 == 0.0
  {
    MaterialProperties(Vacuum, 0.0, 0.0, 0.0)
  }

  /** `MaterialProperties(thickness)`: vacuum with a thickness. */
  function VacuumWithThickness(thickness: real): (r: MaterialProperties)
    ensures Consistent(r) && !IsValid(r)
    ensures r.material == Vacuum && r.thickness == thickness
    ensures r.thicknessInX0 == 0.0 && r.thicknessInL0 == 0.0
  {
    MaterialProperties(Vacuum, thickness, 0.0, 0.0)
  }

  /** `MaterialProperties(material, thickness)`. */
  function FromMaterial(material: Material, thickness: real): (r: MaterialProperties)
    ensures Consistent(r)
    ensures r.material == material && r.thickness == thickness
    ensures IsValid(r) <==> IsMaterial(material)
    ensures IsMaterial(material) ==>
              r.thicknessInX0 == thickness / material.x0 &&
              r.thicknessInL0 == thickness / material.l0
  {
    MaterialProperties(material, thickness,
                       Quotient(thickness, material.x0),
                       Quotient(thickness, material.l0))
  }

  /** `MaterialProperties(X0, L0, A, Z, rho, thickness)`. */
  function FromParameters(x0: real, l0: real, ar: real, z: real, rho: real,
                          thickness: real): (r: MaterialProperties)
    ensures Consistent(r)
    ensures r.material == Material(x0, l0, ar, z, rho) && r.thickness == thickness
    ensures IsValid(r) <==> (0.0 < x0 && 0.0 < l0 && 0.0 < rho)
    ensures 0.0 < x0 ==> r.thicknessInX0 == thickness / x0
    ensures 0.0 < l0 ==> r.thicknessInL0 == thickness / l0
  {
    FromMaterial(Material(x0, l0, ar, z, rho), thickness)
  }

  /** `operator bool`: true exactly when the material is not vacuum. A true
      value is never the default vacuum, and its fractions then times the two
      lengths give back the thickness. */
  predicate IsValid(p: MaterialProperties)
    ensures IsValid(p) ==> p.material != Vacuum
    ensures IsValid(p) && Consistent(p) ==>
              p.thicknessInX0 * p.material.x0 == p.thickness &&
              p.thicknessInL0 * p.material.l0 == p.thickness
  {
    IsMaterial(p.material)
  }

  /** `operator*=`: scale the thickness, and the two cached fractions with it. */
  function Scaled(p: MaterialProperties, scale: real): (r: MaterialProperties)
    ensures r.material == p.material
    ensures r.thickness == p.thickness * scale
    ensures Consistent(p) ==> Consistent(r)
    ensures IsValid(r) == IsValid(p)
  {
    MaterialProperties(p.material, p.thickness * scale,
                       p.thicknessInX0 * scale, p.thicknessInL0 * scale)
  }

  /** `operator==`: the material and the thickness agree; the cached fractions
      are not compared. On consistent values it is equality of the whole
      values. */
  predicate Equal(a: MaterialProperties, b: MaterialProperties)
    ensures Consistent(a) && Consistent(b) ==> (Equal(a, b) <==> a == b)
  {
    a.material == b.material && a.thickness == b.thickness
  }

  /** `operator!=`: the negation of `operator==`. */
  function NotEqual(a: MaterialProperties, b: MaterialProperties): (r: bool)
    ensures r <==> a.material != b.material || a.thickness != b.thickness
  {
    !Equal(a, b)
  }

  /** The truth value never looks at the thickness: vacuum stays false however
      thick, and any thickness of a medium is true. */
  lemma TruthIgnoresThickness(m: Material, t1: real, t2: real)
    ensures IsValid(FromMaterial(m, t1)) == IsValid(FromMaterial(m, t2))
    ensures !IsValid(VacuumWithThickness(t1))
  {
  }

  /** Because the fractions depend on the other two fields, comparing only the
      material and the thickness decides equality of whole values. */
  lemma EqualIsIdentity(a: MaterialProperties, b: MaterialProperties)
    requires Consistent(a) && Consistent(b)
    ensures Equal(a, b) <==> a == b
  {
  }

  /** Two values that differ only in their cached fractions compare equal. */
  lemma EqualIgnoresFractions(a: MaterialProperties, inX0: real, inL0: real)
    ensures Equal(a, a.(thicknessInX0 := inX0, thicknessInL0 := inL0))
    ensures !NotEqual(a, a.(thicknessInX0 := inX0, thicknessInL0 := inL0))
  {
  }

  /** Scaling by one changes nothing, fractions included. */
  lemma ScaleByOne(p: MaterialProperties)
    ensures Scaled(p, 1.0) == p
  {
  }

  /** Scaling is multiplicative: by `s1` and then by `s2` is by `s1 * s2`. */
  lemma ScaleTwice(p: MaterialProperties, s1: real, s2: real)
    ensures Scaled(Scaled(p, s1), s2) == Scaled(p, s1 * s2)
  {
    assert p.thickness * s1 * s2 == p.thickness * (s1 * s2);
    assert p.thicknessInX0 * s1 * s2 == p.thicknessInX0 * (s1 * s2);
    assert p.thicknessInL0 * s1 * s2 == p.thicknessInL0 * (s1 * s2);
  }

  /** Scaling a value built from a material gives the value built from the
      same material with the scaled thickness. */
  lemma ScaleFromMaterial(m: Material, t: real, s: real)
    ensures Scaled(FromMaterial(m, t), s) == FromMaterial(m, t * s)
  {
  }

  /** Running sums over layers: the thickness and the two fractions add up,
      and the mass per unit area weighs the atomic mass and number. */
  datatype Totals = Totals(thickness: real, thicknessInX0: real, thicknessInL0: real,
                           mass: real, arMass: real, zMass: real)

  const NoLayers := Totals(0.0, 0.0, 0.0, 0.0, 0.0, 0.0)

  /** The sums with one more layer of unit area. */
  function AddLayer(acc: Totals, layer: MaterialProperties): Totals {
    var mass := layer.material.rho * layer.thickness;
    Totals(acc.thickness + layer.thickness,
           acc.thicknessInX0 + layer.thicknessInX0,
           acc.thicknessInL0 + layer.thicknessInL0,
           acc.mass + mass,
           acc.arMass + layer.material.ar * mass,
           acc.zMass + layer.material.z * mass)
  }

  /** The sums over all layers, taken in order. */
  function Sum(layers: seq<MaterialProperties>): Totals {
    if layers == [] then NoLayers
    else AddLayer(Sum(layers[..|layers| - 1]), layers[|layers| - 1])
  }

  /** The mixture the sums describe, at the summed thickness: its radiation and
      interaction lengths are those in which the total thickness makes up the
      summed fractions (the inverse lengths mix weighted by thickness), its
      density is mass over thickness, and its atomic mass and number are
      mass-weighted means. Layers without thickness mix to vacuum. */
  function Mixture(tot: Totals): MaterialProperties {
    if tot.thickness <= 0.0 then Default()
    else
      FromMaterial(Material(Quotient(tot.thickness, tot.thicknessInX0),
                            Quotient(tot.thickness, tot.thicknessInL0),
                            Quotient(tot.arMass, tot.mass),
                            Quotient(tot.zMass, tot.mass),
                            Quotient(tot.mass, tot.thickness)),
                   tot.thickness)
  }

  /** The same amount of material at unit thickness: both lengths shrink and the
      density grows by the thickness. */
  function ToUnitThickness(p: MaterialProperties): (r: MaterialProperties)
    requires 0.0 < p.thickness
    ensures Consistent(r) && r.thickness == 1.0
    ensures r.material.ar == p.material.ar && r.material.z == p.material.z
    ensures r.material.rho == p.material.rho * p.thickness
    ensures Consistent(p) ==>
              r.thicknessInX0 == p.thicknessInX0 && r.thicknessInL0 == p.thicknessInL0
    ensures IsValid(r) == IsValid(p)
  {
    var t := p.thickness;
    var m := p.material;
    assert 0.0 < m.x0 ==> 1.0 / (m.x0 / t) == t / m.x0;
    assert 0.0 < m.l0 ==> 1.0 / (m.l0 / t) == t / m.l0;
    FromMaterial(m.(x0 := m.x0 / t, l0 := m.l0 / t, rho := m.rho * t), 1.0)
  }

  /** The averaging constructor's result: the mixture of the layers, brought to
      unit thickness when `normalize` is set. */
  function Average(layers: seq<MaterialProperties>, normalize: bool): (r: MaterialProperties)
    ensures Consistent(r)
    ensures 0.0 < Sum(layers).thickness ==>
              r.thickness == if normalize then 1.0 else Sum(layers).thickness
    ensures Sum(layers).thickness <= 0.0 ==> r == Default()
  {
    var mixed := Mixture(Sum(layers));
    if normalize && 0.0 < mixed.thickness then ToUnitThickness(mixed) else mixed
  }

  /** `MaterialProperties(layers, normalize)`: one pass over the layers
      accumulating the sums, then the mixture. */
  method AverageLayers(layers: seq<MaterialProperties>, normalize: bool := true)
    returns (r: MaterialProperties)
    ensures r == Average(layers, normalize)
  {
    var thickness, inX0, inL0 := 0.0, 0.0, 0.0;
    var mass, arMass, zMass := 0.0, 0.0, 0.0;
    for i := 0 to |layers|
      invariant Totals(thickness, inX0, inL0, mass, arMass, zMass) == Sum(layers[..i])
    {
      var layer := layers[i];
      var layerMass := layer.material.rho * layer.thickness;
      thickness := thickness + layer.thickness;
      inX0 := inX0 + layer.thicknessInX0;
      inL0 := inL0 + layer.thicknessInL0;
      mass := mass + layerMass;
      arMass := arMass + layer.material.ar * layerMass;
      zMass := zMass + layer.material.z * layerMass;
      assert layers[..i + 1][..i] == layers[..i];
    }
    assert layers[..|layers|] == layers;
    var mixed := Mixture(Totals(thickness, inX0, inL0, mass, arMass, zMass));
    r := if normalize && 0.0 < mixed.thickness then ToUnitThickness(mixed) else mixed;
  }

  /** A length recovered from a thickness and its fraction of it. */
  lemma LengthFromFraction(t: real, len: real)
    requires 0.0 < t && 0.0 < len
    ensures 0.0 < t / len && t / (t / len) == len
  {
  }

  /** Sums over one layer and over two layers, written out. */
  lemma SumOfOne(p: MaterialProperties)
    ensures Sum([p]) == AddLayer(NoLayers, p)
  {
  }

  lemma SumOfTwo(p: MaterialProperties, q: MaterialProperties)
    ensures Sum([p, q]) == AddLayer(AddLayer(NoLayers, p), q)
  {
    assert [p, q][..1] == [p];
    SumOfOne(p);
  }

  /** The material budget is additive: when the layers have thickness and
      non-vacuum lengths, the average's fractions are the sums of the layers'
      fractions, whether or not it is normalised. */
  lemma AverageKeepsBudget(layers: seq<MaterialProperties>, normalize: bool)
    requires 0.0 < Sum(layers).thickness
    ensures 0.0 <= Sum(layers).thicknessInX0 ==>
              Average(layers, normalize).thicknessInX0 == Sum(layers).thicknessInX0
    ensures 0.0 <= Sum(layers).thicknessInL0 ==>
              Average(layers, normalize).thicknessInL0 == Sum(layers).thicknessInL0
  {
    var tot := Sum(layers);
    if 0.0 < tot.thicknessInX0 {
      LengthFromFraction(tot.thickness, tot.thicknessInX0);
    }
    if 0.0 < tot.thicknessInL0 {
      LengthFromFraction(tot.thickness, tot.thicknessInL0);
    }
  }

  /** Averaging a single layer of a medium gives that layer back. */
  lemma AverageOfOne(p: MaterialProperties)
    requires Consistent(p) && IsValid(p) && 0.0 < p.thickness
    ensures Average([p], false) == p
  {
    var t, m := p.thickness, p.material;
    SumOfOne(p);
    var tot := Sum([p]);
    assert tot == Totals(t, t / m.x0, t / m.l0, m.rho * t, m.ar * (m.rho * t), m.z * (m.rho * t));
    LengthFromFraction(t, m.x0);
    LengthFromFraction(t, m.l0);
    assert 0.0 < m.rho * t;
    assert m.ar * (m.rho * t) / (m.rho * t) == m.ar;
    assert m.z * (m.rho * t) / (m.rho * t) == m.z;
    assert m.rho * t / t == m.rho;
  }

  /** Averaging two equal layers of a medium keeps the material and doubles
      the thickness; normalised, it is unit thickness with twice the fractions. */
  lemma AverageOfTwoEqual(p: MaterialProperties)
    requires Consistent(p) && IsValid(p) && 0.0 < p.thickness
    ensures Average([p, p], false) == FromMaterial(p.material, 2.0 * p.thickness)
    ensures Average([p, p], true).thickness == 1.0
    ensures Average([p, p], true).thicknessInX0 == 2.0 * p.thicknessInX0
    ensures Average([p, p], true).thicknessInL0 == 2.0 * p.thicknessInL0
  {
    var t, m := p.thickness, p.material;
    SumOfTwo(p, p);
    var tot := Sum([p, p]);
    var mass := m.rho * t;
    assert tot == Totals(2.0 * t, 2.0 * (t / m.x0), 2.0 * (t / m.l0),
                         2.0 * mass, 2.0 * (m.ar * mass), 2.0 * (m.z * mass));
    LengthFromFraction(t, m.x0);
    LengthFromFraction(t, m.l0);
    assert 2.0 * t / (2.0 * (t / m.x0)) == t / (t / m.x0);
    assert 2.0 * t / (2.0 * (t / m.l0)) == t / (t / m.l0);
    assert 0.0 < mass;
    assert 2.0 * (m.ar * mass) / (2.0 * mass) == m.ar;
    assert 2.0 * (m.z * mass) / (2.0 * mass) == m.z;
    assert 2.0 * mass / (2.0 * t) == m.rho;
    AverageKeepsBudget([p, p], true);
  }
}
