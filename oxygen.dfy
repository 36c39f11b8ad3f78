/**
 * The oxygen-dependent phenotype update: proliferation is throttled and
 * necrosis switched on as the oxygen partial pressure at the cell falls.
 */
module OxygenModel {
  import opened PhaseGraphs
  import opened Optional
  import opened StandardModels
  import opened RealArithmetic

  /** A necrosis death rate large enough to be immediate. */
  const ImmediateNecrosisRate: real :=
    9000000000000000000000000000000000000000000000000000000000000000000000000000000000000000000000000000.0

  /** The smallest necrosis multiplier that triggers deterministic necrosis. */
  const DeterministicNecrosisCutoff: real := 0.0000000000000001

  datatype NecrosisType = StochasticNecrosis | DeterministicNecrosis

  /** The oxygen-related cell parameters, with pressures in mmHg and rates in 1/min. */
  datatype OxygenParameters = OxygenParameters(
    o2ProliferationSaturation: real,
    o2ProliferationThreshold: real,
    o2NecrosisThreshold: real,
    o2NecrosisMax: real,
    maxNecrosisRate: real,
    necrosisType: NecrosisType)

  /**
   * What the update does to a cell: nothing, or scale the rate of the link
   * from the `startPhase` phase to the `endPhase` phase by `proliferationMultiplier`
   * and set the necrosis death rate.
   */
  datatype O2Update =
    | NoUpdate
    | Update(startPhase: PhaseCode, endPhase: PhaseCode, proliferationMultiplier: real, necrosisRate: real)

  /**
   * The proliferation multiplier: zero below the threshold, one at or above
   * saturation, linear in between. (Where saturation does not exceed the
   * threshold, the interpolated value is always overwritten by zero.)
   */
  function ProliferationMultiplier(pO2: real, saturation: real, threshold: real): (r: real)
    ensures 0.0 <= r <= 1.0
    ensures pO2 < threshold ==> r == 0.0
    ensures pO2 >= saturation && pO2 >= threshold ==> r == 1.0
  {
    if pO2 < threshold then 0.0
    else if pO2 < saturation then (pO2 - threshold) / (saturation - threshold)
    else 1.0
  }

  /**
   * The necrosis multiplier: one below the maximum-necrosis pressure, zero at
   * or above the threshold, linear in between.
   */
  function NecrosisMultiplier(pO2: real, threshold: real, max: real): (r: real)
    ensures 0.0 <= r <= 1.0
    ensures pO2 < max ==> r == 1.0
    ensures pO2 >= threshold && pO2 >= max ==> r == 0.0
  {
    if pO2 < max then 1.0
    else if pO2 < threshold then (threshold - pO2) / (threshold - max)
    else 0.0
  }

  function Clamp01(x: real): real
  {
    if x < 0.0 then 0.0 else if x > 1.0 then 1.0 else x
  }

  /** With a proper interval, the proliferation multiplier is the clamped linear ramp. */
  lemma ProliferationIsClampedRamp(pO2: real, saturation: real, threshold: real)
    requires threshold < saturation
    ensures ProliferationMultiplier(pO2, saturation, threshold)
         == Clamp01((pO2 - threshold) / (saturation - threshold))
  {
    DivideCompareOne(pO2 - threshold, saturation - threshold);
  }

  /** With a proper interval, the necrosis multiplier is the clamped falling ramp. */
  lemma NecrosisIsClampedRamp(pO2: real, threshold: real, max: real)
    requires max < threshold
    ensures NecrosisMultiplier(pO2, threshold, max) == Clamp01((threshold - pO2) / (threshold - max))
  {
    DivideCompareOne(threshold - pO2, threshold - max);
  }

  /** More oxygen never lowers the proliferation multiplier. */
  lemma ProliferationIsMonotone(lo: real, hi: real, saturation: real, threshold: real)
    requires lo <= hi
    ensures ProliferationMultiplier(lo, saturation, threshold)
         <= ProliferationMultiplier(hi, saturation, threshold)
  {
    if threshold <= lo && hi < saturation {
      var d := saturation - threshold;
      DivideMonotone(lo - threshold, hi - threshold, d);
    }
  }

  /** More oxygen never raises the necrosis multiplier. */
  lemma NecrosisIsAntitone(lo: real, hi: real, threshold: real, max: real)
    requires lo <= hi
    ensures NecrosisMultiplier(hi, threshold, max) <= NecrosisMultiplier(lo, threshold, max)
  {
    if max <= lo && hi < threshold {
      var d := threshold - max;
      DivideMonotone(threshold - hi, threshold - lo, d);
    }
  }

  /** The phases whose link the update throttles, for the cycle models it supports. */
  function ThrottledLink(code: CycleCode): (r: Option<(PhaseCode, PhaseCode)>)
    ensures r.Some? <==> code in {AdvancedKi67, BasicKi67, LiveCells, FlowCytometry,
                                  FlowCytometrySeparated, CyclingQuiescent}
  {
    match code
    case AdvancedKi67 => Some((Ki67Negative, Ki67PositivePremitotic))
    case BasicKi67 => Some((Ki67Negative, Ki67Positive))
    case LiveCells => Some((Live, Live))
    case FlowCytometry => Some((G0G1, S))
    case FlowCytometrySeparated => Some((G0G1, S))
    case CyclingQuiescent => Some((Quiescent, Cycling))
    case _ => None
  }

  /** The necrosis death rate for a given necrosis multiplier. */
  function NecrosisRate(multiplier: real, p: OxygenParameters): real
  {
    if p.necrosisType == DeterministicNecrosis && multiplier > DeterministicNecrosisCutoff
    then ImmediateNecrosisRate
    else multiplier * p.maxNecrosisRate
  }

  /**
   * The oxygen-based update of a cell with cycle model `code` at pressure
   * `pO2`: a dead cell, or one whose cycle model is not supported, is left
   * alone.
   */
  function O2BasedUpdate(dead: bool, code: CycleCode, pO2: real, p: OxygenParameters): (r: O2Update)
    ensures r.NoUpdate? <==> dead || ThrottledLink(code).None?
    ensures r.Update? ==> (r.startPhase, r.endPhase) == ThrottledLink(code).value
    ensures r.Update? ==> 0.0 <= r.proliferationMultiplier <= 1.0
  {
    if dead then NoUpdate
    else match ThrottledLink(code)
      case None => NoUpdate
      case Some((start, end)) =>
        var necrosis := NecrosisMultiplier(pO2, p.o2NecrosisThreshold, p.o2NecrosisMax);
        Update(start, end,
               ProliferationMultiplier(pO2, p.o2ProliferationSaturation, p.o2ProliferationThreshold),
               NecrosisRate(necrosis, p))
  }

  /**
   * A living, supported cell: well oxygenated (at or above both necrosis
   * pressures) it gets necrosis rate zero; starved (below the
   * maximum-necrosis pressure) it gets the maximum rate, or the immediate
   * rate under deterministic necrosis.
   */
  lemma NecrosisRateByOxygen(code: CycleCode, pO2: real, p: OxygenParameters)
    requires ThrottledLink(code).Some?
    ensures var r := O2BasedUpdate(false, code, pO2, p);
      && (pO2 >= p.o2NecrosisThreshold && pO2 >= p.o2NecrosisMax ==> r.necrosisRate == 0.0)
      && (pO2 < p.o2NecrosisMax && p.necrosisType == StochasticNecrosis ==> r.necrosisRate == p.maxNecrosisRate)
      && (pO2 < p.o2NecrosisMax && p.necrosisType == DeterministicNecrosis ==> r.necrosisRate == ImmediateNecrosisRate)
  {
  }

  /** Deterministic necrosis never yields a rate below the stochastic one, given a rate cap below the immediate rate. */
  lemma DeterministicDominatesStochastic(multiplier: real, p: OxygenParameters)
    requires 0.0 <= multiplier <= 1.0
    requires 0.0 <= p.maxNecrosisRate <= ImmediateNecrosisRate
    ensures NecrosisRate(multiplier, p.(necrosisType := StochasticNecrosis))
         <= NecrosisRate(multiplier, p.(necrosisType := DeterministicNecrosis))
  {
    var stochastic := p.(necrosisType := StochasticNecrosis);
    if multiplier > DeterministicNecrosisCutoff {
      MultiplyMonotone(multiplier, 1.0, p.maxNecrosisRate);
      assert NecrosisRate(multiplier, stochastic) == multiplier * p.maxNecrosisRate <= p.maxNecrosisRate;
    }
  }

  /**
   * For every supported cycle model, the throttled link exists in that
   * model's standard graph, so the update always scales a real transition.
   */
  lemma ThrottledLinkExistsInStandardModel(code: CycleCode)
    requires ThrottledLink(code).Some?
    ensures var (start, end) := ThrottledLink(code).value;
      HasLinkBetween(StandardCycleModel(code).value, start, end)
  {
    match code
    case AdvancedKi67 => FirstLinkJoinsFirstPhases(StandardAdvancedKi67, Ki67Negative, Ki67PositivePremitotic);
    case BasicKi67 => FirstLinkJoinsFirstPhases(StandardBasicKi67, Ki67Negative, Ki67Positive);
    case LiveCells => FirstLinkJoinsFirstPhases(StandardLive, Live, Live);
    case FlowCytometry => FirstLinkJoinsFirstPhases(StandardFlowCytometry, G0G1, S);
    case FlowCytometrySeparated => FirstLinkJoinsFirstPhases(StandardFlowCytometrySeparated, G0G1, S);
    case CyclingQuiescent => FirstLinkJoinsFirstPhases(StandardCyclingQuiescent, Quiescent, Cycling);
  }

  /** A model whose first link joins its first phase to its second (or, with one phase, to itself). */
  lemma FirstLinkJoinsFirstPhases(m: CycleModel, start: PhaseCode, end: PhaseCode)
    requires |m.phases| >= 1 && m.phases[0].code == start && |m.links| >= 1 && m.links[0].start == 0
    requires start == end ==> m.links[0].end == 0
    requires start != end ==> |m.phases| >= 2 && m.phases[1].code == end && m.links[0].end == 1
    ensures HasLinkBetween(m, start, end)
  {
    assert FindPhaseIndex(m, start) == Some(0);
    assert Edges(m)[0] == (m.links[0].start, m.links[0].end);
    if start != end {
      assert FindPhaseIndex(m, end) == Some(1);
    }
  }
}
