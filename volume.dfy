/**
 * The standard volume update: each compartment relaxes towards its target
 * at its own rate, negative volumes are clamped to zero, and the derived
 * totals are recomputed from the parts.
 */
module VolumeModel {
  import opened RealArithmetic

  /** The small constant added to a denominator so that it is never zero for a cell of volume zero. */
  const Epsilon: real := 0.0000000000000001

  /** The volume record of a cell's phenotype, with its targets and rates. */
  datatype VolumeState = VolumeState(
    total: real,
    solid: real,
    fluid: real,
    fluidFraction: real,
    nuclear: real,
    nuclearFluid: real,
    nuclearSolid: real,
    cytoplasmic: real,
    cytoplasmicFluid: real,
    cytoplasmicSolid: real,
    calcifiedFraction: real,
    targetSolidCytoplasmic: real,
    targetSolidNuclear: real,
    targetFluidFraction: real,
    targetCytoplasmicToNuclearRatio: real,
    fluidChangeRate: real,
    nuclearBiomassChangeRate: real,
    cytoplasmicBiomassChangeRate: real,
    calcificationRate: real)

  function ClampNonNegative(x: real): real
  {
    if x < 0.0 then 0.0 else x
  }

  /** One relaxation step of `x` towards `target` at `rate` over `dt`. */
  function Relax(x: real, target: real, rate: real, dt: real): real
  {
    x + dt * rate * (target - x)
  }

  /** Only a total of exactly minus Epsilon makes the nuclear share divide by zero. */
  predicate NuclearShareDefined(v: VolumeState)
  {
    v.total + Epsilon != 0.0
  }

  /** The fluid relaxes towards its target share of the total and splits between nucleus and cytoplasm. */
  function FluidStep(v: VolumeState, dt: real): VolumeState
    requires NuclearShareDefined(v)
  {
    var fluid := ClampNonNegative(Relax(v.fluid, v.targetFluidFraction * v.total, v.fluidChangeRate, dt));
    var nuclearFluid := (v.nuclear / (v.total + Epsilon)) * fluid;
    v.(fluid := fluid, nuclearFluid := nuclearFluid, cytoplasmicFluid := fluid - nuclearFluid)
  }

  /** Each solid relaxes towards its target; the cytoplasmic target follows the nuclear one. */
  function SolidStep(v: VolumeState, dt: real): VolumeState
  {
    var nuclearSolid := ClampNonNegative(Relax(v.nuclearSolid, v.targetSolidNuclear,
                                               v.nuclearBiomassChangeRate, dt));
    var targetSolidCytoplasmic := v.targetCytoplasmicToNuclearRatio * v.targetSolidNuclear;
    var cytoplasmicSolid := ClampNonNegative(Relax(v.cytoplasmicSolid, targetSolidCytoplasmic,
                                                   v.cytoplasmicBiomassChangeRate, dt));
    v.(nuclearSolid := nuclearSolid, targetSolidCytoplasmic := targetSolidCytoplasmic,
       cytoplasmicSolid := cytoplasmicSolid, solid := nuclearSolid + cytoplasmicSolid)
  }

  /** The compartment totals are recomputed from the parts, and calcification advances. */
  function TotalsStep(v: VolumeState, dt: real): VolumeState
    requires v.nuclearSolid >= 0.0 && v.cytoplasmicSolid >= 0.0 && v.nuclearFluid + v.cytoplasmicFluid >= 0.0
  {
    var nuclear := v.nuclearSolid + v.nuclearFluid;
    var cytoplasmic := v.cytoplasmicSolid + v.cytoplasmicFluid;
    var total := cytoplasmic + nuclear;
    v.(nuclear := nuclear, cytoplasmic := cytoplasmic,
       calcifiedFraction := Relax(v.calcifiedFraction, 1.0, v.calcificationRate, dt),
       total := total, fluidFraction := v.fluid / (Epsilon + total))
  }

  /** The state after one volume update of length `dt`. */
  function VolumeStep(v: VolumeState, dt: real): VolumeState
    requires NuclearShareDefined(v)
  {
    TotalsStep(SolidStep(FluidStep(v, dt), dt), dt)
  }

  /** The compartments add up: solid plus fluid, nucleus plus cytoplasm, each non-negative where clamped. */
  predicate Consistent(v: VolumeState)
  {
    && v.fluid >= 0.0 && v.nuclearSolid >= 0.0 && v.cytoplasmicSolid >= 0.0
    && v.solid == v.nuclearSolid + v.cytoplasmicSolid
    && v.fluid == v.nuclearFluid + v.cytoplasmicFluid
    && v.nuclear == v.nuclearSolid + v.nuclearFluid
    && v.cytoplasmic == v.cytoplasmicSolid + v.cytoplasmicFluid
    && v.total == v.solid + v.fluid
  }

  /**
   * Whatever the state before, one update leaves the compartments adding up,
   * the total non-negative and the fluid fraction in [0, 1).
   */
  lemma VolumeStepIsConsistent(v: VolumeState, dt: real)
    requires NuclearShareDefined(v)
    ensures var r := VolumeStep(v, dt);
      && Consistent(r)
      && r.total >= 0.0
      && 0.0 <= r.fluidFraction < 1.0
  {
    var r := VolumeStep(v, dt);
    assert r.total == r.solid + r.fluid;
    assert 0.0 <= r.fluid <= r.total;
    FractionBelowOne(r.fluid, r.total);
  }

  /** A non-negative part over Epsilon plus a whole at least as large lies in [0, 1). */
  lemma FractionBelowOne(part: real, whole: real)
    requires 0.0 <= part <= whole
    ensures 0.0 <= part / (Epsilon + whole) < 1.0
  {
    var d := Epsilon + whole;
    assert d > 0.0;
    assert part < d;
    assert part / d * d == part;
  }

  /**
   * When the nucleus is a non-negative share of the whole cell before the
   * update, the new fluid splits into non-negative nuclear and cytoplasmic parts.
   */
  lemma FluidSplitIsNonNegative(v: VolumeState, dt: real)
    requires 0.0 <= v.nuclear <= v.total
    ensures NuclearShareDefined(v)
    ensures var r := VolumeStep(v, dt);
      0.0 <= r.nuclearFluid <= r.fluid && r.cytoplasmicFluid >= 0.0
  {
    var f := FluidStep(v, dt);
    var share := v.nuclear / (v.total + Epsilon);
    FractionBelowOne(v.nuclear, v.total);
    assert v.total + Epsilon == Epsilon + v.total;
    assert f.fluid >= 0.0;
    MultiplyMonotone(share, 1.0, f.fluid);
    MultiplyMonotone(0.0, share, f.fluid);
    assert 0.0 <= f.nuclearFluid <= f.fluid && f.cytoplasmicFluid >= 0.0;
    var r := VolumeStep(v, dt);
    assert r.fluid == f.fluid && r.nuclearFluid == f.nuclearFluid && r.cytoplasmicFluid == f.cytoplasmicFluid;
  }

  /**
   * A relaxation step whose rate times step is in [0, 1] never overshoots:
   * the new value lies between the old value and the target.
   */
  lemma RelaxStaysBetween(x: real, target: real, rate: real, dt: real)
    requires 0.0 <= dt * rate <= 1.0
    ensures x <= target ==> x <= Relax(x, target, rate, dt) <= target
    ensures target <= x ==> target <= Relax(x, target, rate, dt) <= x
  {
    var k := dt * rate;
    var d := target - x;
    assert Relax(x, target, rate, dt) == x + k * d;
    if x <= target {
      MultiplyMonotone(0.0, k, d);
      MultiplyMonotone(k, 1.0, d);
      assert 0.0 <= k * d <= d;
    } else {
      MultiplyMonotone(0.0, k, -d);
      MultiplyMonotone(k, 1.0, -d);
      assert 0.0 <= k * -d <= -d;
      assert k * d == -(k * -d);
    }
  }

  /**
   * With non-negative rate times step no greater than one, a calcified
   * fraction in [0, 1] stays in [0, 1], and it never decreases.
   */
  lemma CalcificationStaysAFraction(v: VolumeState, dt: real)
    requires NuclearShareDefined(v)
    requires 0.0 <= dt * v.calcificationRate <= 1.0
    requires 0.0 <= v.calcifiedFraction <= 1.0
    ensures var r := VolumeStep(v, dt);
      v.calcifiedFraction <= r.calcifiedFraction <= 1.0
  {
    RelaxStaysBetween(v.calcifiedFraction, 1.0, v.calcificationRate, dt);
  }

  /**
   * A consistent cell already at its targets (fluid at its target share of
   * the total, each solid at its target) keeps its fluid, solids and total.
   */
  lemma TargetStateIsFixed(v: VolumeState, dt: real)
    requires Consistent(v)
    requires v.fluid == v.targetFluidFraction * v.total
    requires v.nuclearSolid == v.targetSolidNuclear
    requires v.cytoplasmicSolid == v.targetCytoplasmicToNuclearRatio * v.targetSolidNuclear
    ensures v.total >= 0.0 && NuclearShareDefined(v)
    ensures var r := VolumeStep(v, dt);
      r.fluid == v.fluid && r.nuclearSolid == v.nuclearSolid
      && r.cytoplasmicSolid == v.cytoplasmicSolid && r.total == v.total
  {
    var r := VolumeStep(v, dt);
    assert r.fluid == v.fluid;
    assert r.total == r.solid + r.fluid;
  }

  /** The volume record of a cell, updated in place by the standard volume update. */
  class Volume {
    var total: real
    var solid: real
    var fluid: real
    var fluidFraction: real
    var nuclear: real
    var nuclearFluid: real
    var nuclearSolid: real
    var cytoplasmic: real
    var cytoplasmicFluid: real
    var cytoplasmicSolid: real
    var calcifiedFraction: real
    var targetSolidCytoplasmic: real
    var targetSolidNuclear: real
    var targetFluidFraction: real
    var targetCytoplasmicToNuclearRatio: real
    var fluidChangeRate: real
    var nuclearBiomassChangeRate: real
    var cytoplasmicBiomassChangeRate: real
    var calcificationRate: real

    /** The record's fields as a value. */
    function State(): VolumeState
      reads this
    {
      VolumeState(total, solid, fluid, fluidFraction, nuclear, nuclearFluid, nuclearSolid,
                  cytoplasmic, cytoplasmicFluid, cytoplasmicSolid, calcifiedFraction,
                  targetSolidCytoplasmic, targetSolidNuclear, targetFluidFraction,
                  targetCytoplasmicToNuclearRatio, fluidChangeRate, nuclearBiomassChangeRate,
                  cytoplasmicBiomassChangeRate, calcificationRate)
    }

    /**
     * The standard volume update in the source's order: fluid, then solids,
     * then totals. The new record is one `VolumeStep` of the old, so it is
     * consistent.
     */
    method StandardVolumeUpdate(dt: real)
      requires NuclearShareDefined(State())
      modifies this
      ensures State() == VolumeStep(old(State()), dt)
      ensures Consistent(State())
    {
      UpdateFluid(dt);
      UpdateSolids(dt);
      UpdateTotals(dt);
      VolumeStepIsConsistent(old(State()), dt);
    }

    method UpdateFluid(dt: real)
      requires NuclearShareDefined(State())
      modifies this
      ensures State() == FluidStep(old(State()), dt)
    {
      fluid := Relax(fluid, targetFluidFraction * total, fluidChangeRate, dt);
      if fluid < 0.0 {
        fluid := 0.0;
      }
      nuclearFluid := (nuclear / (total + Epsilon)) * fluid;
      cytoplasmicFluid := fluid - nuclearFluid;
    }

    method UpdateSolids(dt: real)
      modifies this
      ensures State() == SolidStep(old(State()), dt)
    {
      nuclearSolid := Relax(nuclearSolid, targetSolidNuclear, nuclearBiomassChangeRate, dt);
      if nuclearSolid < 0.0 {
        nuclearSolid := 0.0;
      }
      targetSolidCytoplasmic := targetCytoplasmicToNuclearRatio * targetSolidNuclear;
      cytoplasmicSolid := Relax(cytoplasmicSolid, targetSolidCytoplasmic, cytoplasmicBiomassChangeRate, dt);
      if cytoplasmicSolid < 0.0 {
        cytoplasmicSolid := 0.0;
      }
      solid := nuclearSolid + cytoplasmicSolid;
    }

    method UpdateTotals(dt: real)
      requires nuclearSolid >= 0.0 && cytoplasmicSolid >= 0.0 && nuclearFluid + cytoplasmicFluid >= 0.0
      modifies this
      ensures State() == TotalsStep(old(State()), dt)
    {
      nuclear := nuclearSolid + nuclearFluid;
      cytoplasmic := cytoplasmicSolid + cytoplasmicFluid;
      calcifiedFraction := Relax(calcifiedFraction, 1.0, calcificationRate, dt);
      total := cytoplasmic + nuclear;
      fluidFraction := fluid / (Epsilon + total);
    }
  }
}
