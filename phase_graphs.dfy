/**
 * Cycle models as directed graphs of phases: the data, the construction
 * steps the standard models are built from, and what it means for a graph
 * to be well formed.
 */
module PhaseGraphs {
  import opened Optional

  /** The family a cycle model belongs to. */
  datatype CycleCode =
    | AdvancedKi67 | BasicKi67 | FlowCytometry | LiveCells | FlowCytometrySeparated
    | CyclingQuiescent | ApoptosisDeath | NecrosisDeath
    | Unassigned
    | OtherCode(code: int)

  /** What a phase stands for. */
  datatype PhaseCode =
    | Ki67Negative | Ki67Positive | Ki67PositivePremitotic | Ki67PositivePostmitotic
    | Live | G0G1 | S | G2M | G2 | M | Quiescent | Cycling
    | Apoptotic | NecroticSwelling | NecroticLysed | Debris

  /** The function run when a cell enters a phase, if any. */
  datatype Entry =
    | NoEntry | Ki67PositiveEntry | LiveEntry | SPhaseEntry | CyclingEntry
    | ApoptosisEntry | NecrosisEntry | LysisEntry

  /** The predicate that may veto a transition, if any. */
  datatype Arrest = NoArrest | NecrosisArrest

  datatype Phase = Phase(code: PhaseCode, name: string, divisionAtExit: bool,
                         removalAtExit: bool, entry: Entry)

  /** A directed edge between two phase indices, with its rate in 1/min. */
  datatype PhaseLink = PhaseLink(start: nat, end: nat, rate: real, fixedDuration: bool,
                                 arrest: Arrest)

  datatype CycleModel = CycleModel(name: string, code: CycleCode, phases: seq<Phase>,
                                   links: seq<PhaseLink>)

  /** A freshly allocated model: no phases, no links. */
  const EmptyCycleModel := CycleModel("unnamed", Unassigned, [], [])

  /** Appends a phase with no flags and no entry function. */
  function AddPhase(m: CycleModel, code: PhaseCode, name: string): CycleModel
  {
    m.(phases := m.phases + [Phase(code, name, false, false, NoEntry)])
  }

  /** Appends a stochastic link of rate zero from `start` to `end`. */
  function AddPhaseLink(m: CycleModel, start: nat, end: nat, arrest: Arrest): CycleModel
  {
    m.(links := m.links + [PhaseLink(start, end, 0.0, false, arrest)])
  }

  /** Sets the rate of the link from `start` to `end`. */
  function SetTransitionRate(m: CycleModel, start: nat, end: nat, rate: real): CycleModel
  {
    m.(links := seq(|m.links|, i requires 0 <= i < |m.links| =>
                      if m.links[i].start == start && m.links[i].end == end
                      then m.links[i].(rate := rate) else m.links[i]))
  }

  /** Makes the link from `start` to `end` deterministic (fires after 1/rate). */
  function SetFixedDuration(m: CycleModel, start: nat, end: nat): CycleModel
  {
    m.(links := seq(|m.links|, i requires 0 <= i < |m.links| =>
                      if m.links[i].start == start && m.links[i].end == end
                      then m.links[i].(fixedDuration := true) else m.links[i]))
  }

  function SetDivisionAtExit(m: CycleModel, i: nat): CycleModel
    requires i < |m.phases|
  {
    m.(phases := m.phases[i := m.phases[i].(divisionAtExit := true)])
  }

  function SetRemovalAtExit(m: CycleModel, i: nat): CycleModel
    requires i < |m.phases|
  {
    m.(phases := m.phases[i := m.phases[i].(removalAtExit := true)])
  }

  function SetEntry(m: CycleModel, i: nat, entry: Entry): CycleModel
    requires i < |m.phases|
  {
    m.(phases := m.phases[i := m.phases[i].(entry := entry)])
  }

  /** The edges of a model, as (start, end) pairs in declaration order. */
  function Edges(m: CycleModel): seq<(nat, nat)>
  {
    seq(|m.links|, i requires 0 <= i < |m.links| => (m.links[i].start, m.links[i].end))
  }

  function Rates(m: CycleModel): seq<real>
  {
    seq(|m.links|, i requires 0 <= i < |m.links| => m.links[i].rate)
  }

  function FixedDurations(m: CycleModel): seq<bool>
  {
    seq(|m.links|, i requires 0 <= i < |m.links| => m.links[i].fixedDuration)
  }

  function Arrests(m: CycleModel): seq<Arrest>
  {
    seq(|m.links|, i requires 0 <= i < |m.links| => m.links[i].arrest)
  }

  function PhaseCodes(m: CycleModel): seq<PhaseCode>
  {
    seq(|m.phases|, i requires 0 <= i < |m.phases| => m.phases[i].code)
  }

  function Entries(m: CycleModel): seq<Entry>
  {
    seq(|m.phases|, i requires 0 <= i < |m.phases| => m.phases[i].entry)
  }

  /** The index of the first phase of `m` with the given code, if any. */
  function FindPhaseIndex(m: CycleModel, code: PhaseCode): (r: Option<nat>)
    ensures r.Some? ==> r.value < |m.phases| && m.phases[r.value].code == code
    ensures r.Some? ==> forall i :: 0 <= i < r.value ==> m.phases[i].code != code
    ensures r.None? <==> forall i :: 0 <= i < |m.phases| ==> m.phases[i].code != code
  {
    FindPhaseIndexFrom(m.phases, code, 0)
  }

  function FindPhaseIndexFrom(phases: seq<Phase>, code: PhaseCode, from: nat): (r: Option<nat>)
    requires from <= |phases|
    requires forall i :: 0 <= i < from ==> phases[i].code != code
    ensures r.Some? ==> from <= r.value < |phases| && phases[r.value].code == code
    ensures r.Some? ==> forall i :: 0 <= i < r.value ==> phases[i].code != code
    ensures r.None? <==> forall i :: 0 <= i < |phases| ==> phases[i].code != code
    decreases |phases| - from
  {
    if from == |phases| then None
    else if phases[from].code == code then Some(from)
    else FindPhaseIndexFrom(phases, code, from + 1)
  }

  /** `m` has a link from the phase coded `start` to the phase coded `end`. */
  predicate HasLinkBetween(m: CycleModel, start: PhaseCode, end: PhaseCode)
  {
    var i := FindPhaseIndex(m, start);
    var j := FindPhaseIndex(m, end);
    i.Some? && j.Some? && (i.value, j.value) in Edges(m)
  }

  /**
   * Every link joins two existing phases with a non-negative rate, and no
   * ordered pair of phases is joined twice.
   */
  predicate WellFormed(m: CycleModel)
  {
    (forall i :: 0 <= i < |m.links| ==>
       m.links[i].start < |m.phases| && m.links[i].end < |m.phases| && m.links[i].rate >= 0.0) &&
    (forall i, j :: 0 <= i < j < |m.links| ==>
       m.links[i].start != m.links[j].start || m.links[i].end != m.links[j].end)
  }

  /** Phase `k` is the only phase that ends in division. */
  predicate DivisionOnlyAt(m: CycleModel, k: nat)
  {
    k < |m.phases| && forall i :: 0 <= i < |m.phases| ==> (m.phases[i].divisionAtExit <==> i == k)
  }

  /** Phase `k` is the only phase that ends in removal. */
  predicate RemovalOnlyAt(m: CycleModel, k: nat)
  {
    k < |m.phases| && forall i :: 0 <= i < |m.phases| ==> (m.phases[i].removalAtExit <==> i == k)
  }

  predicate NoDivision(m: CycleModel)
  {
    forall i :: 0 <= i < |m.phases| ==> !m.phases[i].divisionAtExit
  }

  predicate NoRemoval(m: CycleModel)
  {
    forall i :: 0 <= i < |m.phases| ==> !m.phases[i].removalAtExit
  }

  /** A well-formed life-cycle graph that divides at phase `k` and never removes. */
  predicate IsCycleGraph(m: CycleModel, k: nat)
  {
    WellFormed(m) && DivisionOnlyAt(m, k) && NoRemoval(m)
  }

  /** A well-formed death graph that removes at phase `k` and never divides. */
  predicate IsDeathGraph(m: CycleModel, k: nat)
  {
    WellFormed(m) && RemovalOnlyAt(m, k) && NoDivision(m)
  }
}
