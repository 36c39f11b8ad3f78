/**
 * The library of standard cycle and death models: the builders, which follow
 * the construction steps of the source one for one, and the once-only
 * initialisation of the shared library.
 */
module StandardModels {
  import opened Optional
  import opened PhaseGraphs

  /** Volume-change parameters of a death model. */
  datatype DeathParameters = DeathParameters(
    timeUnits: string,
    cytoplasmicBiomassChangeRate: real,
    nuclearBiomassChangeRate: real,
    unlysedFluidChangeRate: real,
    lysedFluidChangeRate: real,
    calcificationRate: real,
    relativeRuptureVolume: real)

  /** Stand-in for freshly allocated death parameters, before a builder sets them. */
  const UnsetDeathParameters := DeathParameters("", 0.0, 0.0, 0.0, 0.0, 0.0, 0.0)

  // ---------------------------------------------------------------------
  // The standard graphs the builders produce, written out

  const StandardApoptosis := CycleModel("Apoptosis", ApoptosisDeath,
    [Phase(Apoptotic, "Apoptotic", false, true, ApoptosisEntry),
     Phase(Debris, "Debris", false, false, NoEntry)],
    [PhaseLink(0, 1, 1.0 / (8.6 * 60.0), true, NoArrest)])

  const StandardNecrosis := CycleModel("Necrosis", NecrosisDeath,
    [Phase(NecroticSwelling, "Necrotic (swelling)", false, false, NecrosisEntry),
     Phase(NecroticLysed, "Necrotic (lysed)", false, true, LysisEntry),
     Phase(Debris, "Debris", false, false, NoEntry)],
    [PhaseLink(0, 1, 9000000000.0, false, NecrosisArrest),
     PhaseLink(1, 2, 1.0 / (60.0 * 24.0 * 60.0), true, NoArrest)])

  const StandardAdvancedKi67 := CycleModel("Ki67 (advanced)", AdvancedKi67,
    [Phase(Ki67Negative, "Ki67-", false, false, NoEntry),
     Phase(Ki67PositivePremitotic, "Ki67+ (premitotic)", true, false, Ki67PositiveEntry),
     Phase(Ki67PositivePostmitotic, "Ki67+ (postmitotic)", false, false, NoEntry)],
    [PhaseLink(0, 1, 1.0 / (3.62 * 60.0), false, NoArrest),
     PhaseLink(1, 2, 1.0 / (13.0 * 60.0), true, NoArrest),
     PhaseLink(2, 0, 1.0 / (2.5 * 60.0), true, NoArrest)])

  const StandardBasicKi67 := CycleModel("Ki67 (basic)", BasicKi67,
    [Phase(Ki67Negative, "Ki67-", false, false, NoEntry),
     Phase(Ki67Positive, "Ki67+", true, false, Ki67PositiveEntry)],
    [PhaseLink(0, 1, 1.0 / (4.59 * 60.0), false, NoArrest),
     PhaseLink(1, 0, 1.0 / (15.5 * 60.0), true, NoArrest)])

  const StandardLive := CycleModel("Live", LiveCells,
    [Phase(Live, "Live", true, false, LiveEntry)],
    [PhaseLink(0, 0, 0.0432 / 60.0, false, NoArrest)])

  const StandardFlowCytometry := CycleModel("Flow cytometry model (basic)", FlowCytometry,
    [Phase(G0G1, "G0/G1", false, false, NoEntry),
     Phase(S, "S", false, false, SPhaseEntry),
     Phase(G2M, "G2/M", true, false, NoEntry)],
    [PhaseLink(0, 1, 0.00324, false, NoArrest),
     PhaseLink(1, 2, 0.00208, false, NoArrest),
     PhaseLink(2, 0, 0.00333, false, NoArrest)])

  const StandardFlowCytometrySeparated := CycleModel("Flow cytometry model (separated)", FlowCytometrySeparated,
    [Phase(G0G1, "G0/G1", false, false, NoEntry),
     Phase(S, "S", false, false, SPhaseEntry),
     Phase(G2, "G2", false, false, NoEntry),
     Phase(M, "M", true, false, NoEntry)],
    [PhaseLink(0, 1, 0.00335, false, NoArrest),
     PhaseLink(1, 2, 0.00208, false, NoArrest),
     PhaseLink(2, 3, 0.00417, false, NoArrest),
     PhaseLink(3, 0, 0.0167, false, NoArrest)])

  const StandardCyclingQuiescent := CycleModel("Cycling-Quiescent model", CyclingQuiescent,
    [Phase(Quiescent, "Quiescent", false, false, NoEntry),
     Phase(Cycling, "Cycling", true, false, CyclingEntry)],
    [PhaseLink(0, 1, 1.0 / (4.59 * 60.0), false, NoArrest),
     PhaseLink(1, 0, 1.0 / (15.5 * 60.0), true, NoArrest)])

  /** The standard graph of a cycle-model family, for the families the library builds. */
  function StandardCycleModel(code: CycleCode): Option<CycleModel>
  {
    match code
    case AdvancedKi67 => Some(StandardAdvancedKi67)
    case BasicKi67 => Some(StandardBasicKi67)
    case LiveCells => Some(StandardLive)
    case FlowCytometry => Some(StandardFlowCytometry)
    case FlowCytometrySeparated => Some(StandardFlowCytometrySeparated)
    case CyclingQuiescent => Some(StandardCyclingQuiescent)
    case _ => None
  }

  // ---------------------------------------------------------------------
  // Death models

  /** Apoptosis: an apoptotic phase removed at exit, then debris. */
  function ApoptosisModel(): (m: CycleModel)
    ensures m == StandardApoptosis
  {
    var m0 := EmptyCycleModel.(name := "Apoptosis", code := ApoptosisDeath);
    var m1 := AddPhase(m0, Apoptotic, "Apoptotic");
    var m2 := SetEntry(m1, 0, ApoptosisEntry);
    var m3 := SetRemovalAtExit(m2, 0);
    var m4 := AddPhase(m3, Debris, "Debris");
    var m5 := AddPhaseLink(m4, 0, 1, NoArrest);
    var m6 := SetTransitionRate(m5, 0, 1, 1.0 / (8.6 * 60.0));
    SetFixedDuration(m6, 0, 1)
  }

  function ApoptosisParameters(): DeathParameters
  {
    DeathParameters("min", 1.0 / 60.0, 0.35 / 60.0, 3.0 / 60.0, 0.0, 0.0, 2.0)
  }

  /**
   * Necrosis: swelling, then lysed (removed at exit), then debris. Swelling
   * leaves for lysis at a near-certain rate gated by the necrosis arrest
   * function; lysis lasts a fixed 60 days.
   */
  function NecrosisModel(): (m: CycleModel)
    ensures m == StandardNecrosis
  {
    var m0 := EmptyCycleModel.(name := "Necrosis", code := NecrosisDeath);
    var m1 := AddPhase(m0, NecroticSwelling, "Necrotic (swelling)");
    var m2 := SetEntry(m1, 0, NecrosisEntry);
    var m3 := AddPhase(m2, NecroticLysed, "Necrotic (lysed)");
    var m4 := SetEntry(m3, 1, LysisEntry);
    var m5 := SetRemovalAtExit(m4, 1);
    var m6 := AddPhase(m5, Debris, "Debris");
    var m7 := AddPhaseLink(m6, 0, 1, NecrosisArrest);
    var m8 := AddPhaseLink(m7, 1, 2, NoArrest);
    var m9 := SetTransitionRate(m8, 0, 1, 9000000000.0);
    var m10 := SetTransitionRate(m9, 1, 2, 1.0 / (60.0 * 24.0 * 60.0));
    SetFixedDuration(m10, 1, 2)
  }

  function NecrosisParameters(): DeathParameters
  {
    DeathParameters("min", 0.0032 / 60.0, 0.013 / 60.0, 0.67 / 60.0, 0.050 / 60.0, 0.0042 / 60.0, 2.0)
  }

  // ---------------------------------------------------------------------
  // Cycle models

  /** Ki67 (advanced): Ki67-, Ki67+ premitotic (divides at exit), Ki67+ postmitotic. */
  function AdvancedKi67Model(): (m: CycleModel)
    ensures m == StandardAdvancedKi67
  {
    var m0 := EmptyCycleModel.(code := AdvancedKi67, name := "Ki67 (advanced)");
    var m1 := AddPhase(m0, Ki67Negative, "Ki67-");
    var m2 := AddPhase(m1, Ki67PositivePremitotic, "Ki67+ (premitotic)");
    var m3 := AddPhase(m2, Ki67PositivePostmitotic, "Ki67+ (postmitotic)");
    var m4 := SetDivisionAtExit(m3, 1);
    var m5 := AddPhaseLink(m4, 0, 1, NoArrest);
    var m6 := AddPhaseLink(m5, 1, 2, NoArrest);
    var m7 := AddPhaseLink(m6, 2, 0, NoArrest);
    var m8 := SetFixedDuration(m7, 1, 2);
    var m9 := SetFixedDuration(m8, 2, 0);
    var m10 := SetTransitionRate(m9, 0, 1, 1.0 / (3.62 * 60.0));
    var m11 := SetTransitionRate(m10, 1, 2, 1.0 / (13.0 * 60.0));
    var m12 := SetTransitionRate(m11, 2, 0, 1.0 / (2.5 * 60.0));
    var m13 := SetEntry(m12, 0, NoEntry);
    SetEntry(m13, 1, Ki67PositiveEntry)
  }

  /** Ki67 (basic): Ki67- and Ki67+ (divides at exit, fixed duration). */
  function BasicKi67Model(): (m: CycleModel)
    ensures m == StandardBasicKi67
  {
    var m0 := EmptyCycleModel.(code := BasicKi67, name := "Ki67 (basic)");
    var m1 := AddPhase(m0, Ki67Negative, "Ki67-");
    var m2 := AddPhase(m1, Ki67Positive, "Ki67+");
    var m3 := SetDivisionAtExit(m2, 1);
    var m4 := AddPhaseLink(m3, 0, 1, NoArrest);
    var m5 := AddPhaseLink(m4, 1, 0, NoArrest);
    var m6 := SetTransitionRate(m5, 0, 1, 1.0 / (4.59 * 60.0));
    var m7 := SetTransitionRate(m6, 1, 0, 1.0 / (15.5 * 60.0));
    var m8 := SetFixedDuration(m7, 1, 0);
    var m9 := SetEntry(m8, 0, NoEntry);
    SetEntry(m9, 1, Ki67PositiveEntry)
  }

  /** Live: one phase that divides at exit, with a stochastic self-loop. */
  function LiveModel(): (m: CycleModel)
    ensures m == StandardLive
  {
    var m0 := EmptyCycleModel.(code := LiveCells, name := "Live");
    var m1 := AddPhase(m0, Live, "Live");
    var m2 := SetDivisionAtExit(m1, 0);
    var m3 := AddPhaseLink(m2, 0, 0, NoArrest);
    var m4 := SetTransitionRate(m3, 0, 0, 0.0432 / 60.0);
    SetEntry(m4, 0, LiveEntry)
  }

  /**
   * Flow cytometry (basic): G0/G1, S, G2/M (divides at exit) in a stochastic
   * 3-cycle. The builder adds to the model it is given rather than to a new
   * one; from an empty model it yields the standard graph.
   */
  function BuildFlowCytometry(base: CycleModel): (m: CycleModel)
    ensures |m.phases| == |base.phases| + 3 && |m.links| == |base.links| + 3
    ensures base == EmptyCycleModel ==> m == StandardFlowCytometry
  {
    var m0 := base.(code := FlowCytometry, name := "Flow cytometry model (basic)");
    var m1 := AddPhase(m0, G0G1, "G0/G1");
    var m2 := AddPhase(m1, S, "S");
    var m3 := AddPhase(m2, G2M, "G2/M");
    var m4 := SetDivisionAtExit(m3, 2);
    var m5 := AddPhaseLink(m4, 0, 1, NoArrest);
    var m6 := AddPhaseLink(m5, 1, 2, NoArrest);
    var m7 := AddPhaseLink(m6, 2, 0, NoArrest);
    var m8 := SetTransitionRate(m7, 0, 1, 0.00324);
    var m9 := SetTransitionRate(m8, 1, 2, 0.00208);
    var m10 := SetTransitionRate(m9, 2, 0, 0.00333);
    var m11 := SetEntry(m10, 0, NoEntry);
    var m12 := SetEntry(m11, 1, SPhaseEntry);
    SetEntry(m12, 2, NoEntry)
  }

  /**
   * Flow cytometry (separated): G0/G1, S, G2, M (divides at exit) in a
   * stochastic 4-cycle; like the basic variant it adds to the given model.
   */
  function BuildFlowCytometrySeparated(base: CycleModel): (m: CycleModel)
    ensures |m.phases| == |base.phases| + 4 && |m.links| == |base.links| + 4
    ensures base == EmptyCycleModel ==> m == StandardFlowCytometrySeparated
  {
    var m0 := base.(code := FlowCytometrySeparated, name := "Flow cytometry model (separated)");
    var m1 := AddPhase(m0, G0G1, "G0/G1");
    var m2 := AddPhase(m1, S, "S");
    var m3 := AddPhase(m2, G2, "G2");
    var m4 := AddPhase(m3, M, "M");
    var m5 := SetDivisionAtExit(m4, 3);
    var m6 := AddPhaseLink(m5, 0, 1, NoArrest);
    var m7 := AddPhaseLink(m6, 1, 2, NoArrest);
    var m8 := AddPhaseLink(m7, 2, 3, NoArrest);
    var m9 := AddPhaseLink(m8, 3, 0, NoArrest);
    var m10 := SetTransitionRate(m9, 0, 1, 0.00335);
    var m11 := SetTransitionRate(m10, 1, 2, 0.00208);
    var m12 := SetTransitionRate(m11, 2, 3, 0.00417);
    var m13 := SetTransitionRate(m12, 3, 0, 0.0167);
    var m14 := SetEntry(m13, 0, NoEntry);
    var m15 := SetEntry(m14, 1, SPhaseEntry);
    var m16 := SetEntry(m15, 2, NoEntry);
    SetEntry(m16, 3, NoEntry)
  }

  /**
   * Cycling-quiescent: quiescent and cycling (divides at exit, fixed
   * duration); like the flow-cytometry builders it adds to the given model.
   */
  function BuildCyclingQuiescent(base: CycleModel): (m: CycleModel)
    ensures |m.phases| == |base.phases| + 2 && |m.links| == |base.links| + 2
    ensures base == EmptyCycleModel ==> m == StandardCyclingQuiescent
  {
    var m0 := base.(code := CyclingQuiescent, name := "Cycling-Quiescent model");
    var m1 := AddPhase(m0, Quiescent, "Quiescent");
    var m2 := AddPhase(m1, Cycling, "Cycling");
    var m3 := SetDivisionAtExit(m2, 1);
    var m4 := AddPhaseLink(m3, 0, 1, NoArrest);
    var m5 := AddPhaseLink(m4, 1, 0, NoArrest);
    var m6 := SetTransitionRate(m5, 0, 1, 1.0 / (4.59 * 60.0));
    var m7 := SetTransitionRate(m6, 1, 0, 1.0 / (15.5 * 60.0));
    var m8 := SetFixedDuration(m7, 1, 0);
    var m9 := SetEntry(m8, 0, NoEntry);
    SetEntry(m9, 1, CyclingEntry)
  }

  /** The standard Ki67 graphs divide only on leaving the premitotic or Ki67+ phase. */
  lemma Ki67GraphsAreCycleGraphs()
    ensures IsCycleGraph(StandardAdvancedKi67, 1) && IsCycleGraph(StandardBasicKi67, 1)
  {
  }

  lemma LiveGraphIsCycleGraph()
    ensures IsCycleGraph(StandardLive, 0)
  {
  }

  /** The basic flow-cytometry graph divides only on leaving G2/M. */
  lemma FlowCytometryGraphIsCycleGraph()
    ensures IsCycleGraph(StandardFlowCytometry, 2)
  {
  }

  /** The separated flow-cytometry graph divides only on leaving M. */
  lemma FlowCytometrySeparatedGraphIsCycleGraph()
    ensures IsCycleGraph(StandardFlowCytometrySeparated, 3)
  {
  }

  lemma CyclingQuiescentGraphIsCycleGraph()
    ensures IsCycleGraph(StandardCyclingQuiescent, 1)
  {
  }

  /** The death graphs remove the cell on leaving the apoptotic, respectively lysed, phase. */
  lemma DeathGraphsAreDeathGraphs()
    ensures IsDeathGraph(StandardApoptosis, 0) && IsDeathGraph(StandardNecrosis, 1)
  {
  }

  /**
   * The flow-cytometry builder appends to the model it is given, so running
   * it a second time on the shared model would join G0/G1 to S twice: the
   * once-only flag of the library is what keeps the shared graph well formed.
   */
  lemma FlowCytometryIsNotReentrant()
    ensures !WellFormed(BuildFlowCytometry(StandardFlowCytometry))
  {
    var twice := BuildFlowCytometry(StandardFlowCytometry);
    assert twice.links[0] == StandardFlowCytometry.links[0];
    assert twice.links[3].start == 0 && twice.links[3].end == 1;
  }

  // ---------------------------------------------------------------------
  // The shared library

  /**
   * The shared standard models and the flags that make their creation
   * happen once. The flags are only ever raised.
   */
  class StandardModelLibrary {
    var modelsInitialized: bool
    var deathModelsInitialized: bool
    var cycleModelsInitialized: bool

    var ki67Advanced: CycleModel
    var ki67Basic: CycleModel
    var live: CycleModel
    var apoptosis: CycleModel
    var necrosis: CycleModel
    var cyclingQuiescent: CycleModel
    var flowCytometry: CycleModel
    var flowCytometrySeparated: CycleModel

    var apoptosisParameters: DeathParameters
    var necrosisParameters: DeathParameters

    /**
     * The overall flag is the conjunction of the other two; once a family is
     * created its models are the standard ones, and before that the models
     * that are appended to rather than replaced are still empty.
     */
    ghost predicate Valid()
      reads this
    {
      && (modelsInitialized <==> cycleModelsInitialized && deathModelsInitialized)
      && (cycleModelsInitialized ==> CycleModelsStandard())
      && (!cycleModelsInitialized ==> AppendedModelsEmpty())
      && (deathModelsInitialized ==> DeathModelsStandard())
    }

    ghost predicate CycleModelsStandard()
      reads this
    {
      && ki67Advanced == StandardAdvancedKi67
      && ki67Basic == StandardBasicKi67
      && live == StandardLive
      && flowCytometry == StandardFlowCytometry
      && flowCytometrySeparated == StandardFlowCytometrySeparated
      && cyclingQuiescent == StandardCyclingQuiescent
    }

    /** The models that are appended to rather than replaced are still empty. */
    ghost predicate AppendedModelsEmpty()
      reads this
    {
      && flowCytometry == EmptyCycleModel
      && flowCytometrySeparated == EmptyCycleModel
      && cyclingQuiescent == EmptyCycleModel
    }

    ghost predicate DeathModelsStandard()
      reads this
    {
      && apoptosis == StandardApoptosis
      && necrosis == StandardNecrosis
      && apoptosisParameters == ApoptosisParameters()
      && necrosisParameters == NecrosisParameters()
    }

    /** Before any creation: every flag down, every model freshly allocated. */
    constructor ()
      ensures Valid()
      ensures !modelsInitialized && !deathModelsInitialized && !cycleModelsInitialized
      ensures ki67Advanced == ki67Basic == live == apoptosis == necrosis == EmptyCycleModel
      ensures cyclingQuiescent == flowCytometry == flowCytometrySeparated == EmptyCycleModel
      ensures apoptosisParameters == necrosisParameters == UnsetDeathParameters
    {
      modelsInitialized, deathModelsInitialized, cycleModelsInitialized := false, false, false;
      ki67Advanced, ki67Basic, live := EmptyCycleModel, EmptyCycleModel, EmptyCycleModel;
      apoptosis, necrosis := EmptyCycleModel, EmptyCycleModel;
      cyclingQuiescent := EmptyCycleModel;
      flowCytometry, flowCytometrySeparated := EmptyCycleModel, EmptyCycleModel;
      apoptosisParameters, necrosisParameters := UnsetDeathParameters, UnsetDeathParameters;
    }

    /** Creates both families; each is created at most once. */
    method CreateStandardCycleAndDeathModels()
      requires Valid()
      modifies this
      ensures Valid()
      ensures modelsInitialized && cycleModelsInitialized && deathModelsInitialized
      ensures old(modelsInitialized) ==> unchanged(this)
    {
      var _ := CreateStandardCellCycleModels();
      var _ := CreateStandardCellDeathModels();
    }

    /**
     * Creates the cycle models unless they already exist; `created` reports
     * whether anything was done, and a repeated call changes nothing.
     */
    method CreateStandardCellCycleModels() returns (created: bool)
      requires Valid()
      modifies this
      ensures Valid()
      ensures created <==> !old(cycleModelsInitialized)
      ensures cycleModelsInitialized
      ensures modelsInitialized <==> deathModelsInitialized
      ensures !created ==> unchanged(this)
      ensures apoptosis == old(apoptosis) && necrosis == old(necrosis)
      ensures apoptosisParameters == old(apoptosisParameters)
      ensures necrosisParameters == old(necrosisParameters)
      ensures deathModelsInitialized == old(deathModelsInitialized)
    {
      if cycleModelsInitialized {
        return false;
      }
      CreateCycleModels();
      cycleModelsInitialized := true;
      if deathModelsInitialized {
        modelsInitialized := true;
      }
      return true;
    }

    /**
     * Creates the death models and their parameters unless they already
     * exist; a repeated call changes nothing.
     */
    method CreateStandardCellDeathModels() returns (created: bool)
      requires Valid()
      modifies this
      ensures Valid()
      ensures created <==> !old(deathModelsInitialized)
      ensures deathModelsInitialized
      ensures modelsInitialized <==> cycleModelsInitialized
      ensures !created ==> unchanged(this)
      ensures ki67Advanced == old(ki67Advanced) && ki67Basic == old(ki67Basic) && live == old(live)
      ensures cyclingQuiescent == old(cyclingQuiescent)
      ensures flowCytometry == old(flowCytometry)
      ensures flowCytometrySeparated == old(flowCytometrySeparated)
      ensures cycleModelsInitialized == old(cycleModelsInitialized)
    {
      if deathModelsInitialized {
        return false;
      }
      CreateDeathModels();
      deathModelsInitialized := true;
      if cycleModelsInitialized {
        modelsInitialized := true;
      }
      return true;
    }

    /** The creation steps of the cycle family, in order, from empty appended models. */
    method CreateCycleModels()
      requires AppendedModelsEmpty()
      modifies this
      ensures CycleModelsStandard()
      ensures apoptosis == old(apoptosis) && necrosis == old(necrosis)
      ensures apoptosisParameters == old(apoptosisParameters)
      ensures necrosisParameters == old(necrosisParameters)
      ensures modelsInitialized == old(modelsInitialized)
      ensures cycleModelsInitialized == old(cycleModelsInitialized)
      ensures deathModelsInitialized == old(deathModelsInitialized)
    {
      CreateKi67Models();
      CreateLiveModel();
      CreateCytometryCycleModels();
      CreateCyclingQuiescentModel();
    }

    /** The creation steps of the death family, in order. */
    method CreateDeathModels()
      modifies this
      ensures DeathModelsStandard()
      ensures ki67Advanced == old(ki67Advanced) && ki67Basic == old(ki67Basic) && live == old(live)
      ensures cyclingQuiescent == old(cyclingQuiescent) && flowCytometry == old(flowCytometry)
      ensures flowCytometrySeparated == old(flowCytometrySeparated)
      ensures modelsInitialized == old(modelsInitialized)
      ensures cycleModelsInitialized == old(cycleModelsInitialized)
      ensures deathModelsInitialized == old(deathModelsInitialized)
    {
      CreateStandardApoptosisModel();
      CreateStandardNecrosisModel();
    }

    /** Sets the apoptosis parameters and replaces the apoptosis model. */
    method CreateStandardApoptosisModel()
      modifies this
      ensures apoptosis == ApoptosisModel() && apoptosisParameters == ApoptosisParameters()
      ensures ki67Advanced == old(ki67Advanced) && ki67Basic == old(ki67Basic) && live == old(live)
      ensures cyclingQuiescent == old(cyclingQuiescent) && flowCytometry == old(flowCytometry)
      ensures flowCytometrySeparated == old(flowCytometrySeparated)
      ensures necrosis == old(necrosis) && necrosisParameters == old(necrosisParameters)
      ensures modelsInitialized == old(modelsInitialized)
      ensures cycleModelsInitialized == old(cycleModelsInitialized)
      ensures deathModelsInitialized == old(deathModelsInitialized)
    {
      apoptosisParameters := ApoptosisParameters();
      apoptosis := ApoptosisModel();
    }

    /** Sets the necrosis parameters and replaces the necrosis model. */
    method CreateStandardNecrosisModel()
      modifies this
      ensures necrosis == NecrosisModel() && necrosisParameters == NecrosisParameters()
      ensures ki67Advanced == old(ki67Advanced) && ki67Basic == old(ki67Basic) && live == old(live)
      ensures cyclingQuiescent == old(cyclingQuiescent) && flowCytometry == old(flowCytometry)
      ensures flowCytometrySeparated == old(flowCytometrySeparated)
      ensures apoptosis == old(apoptosis) && apoptosisParameters == old(apoptosisParameters)
      ensures modelsInitialized == old(modelsInitialized)
      ensures cycleModelsInitialized == old(cycleModelsInitialized)
      ensures deathModelsInitialized == old(deathModelsInitialized)
    {
      necrosisParameters := NecrosisParameters();
      necrosis := NecrosisModel();
    }

    /** Creates the basic, then the advanced Ki67 model. */
    method CreateKi67Models()
      modifies this
      ensures ki67Basic == BasicKi67Model() && ki67Advanced == AdvancedKi67Model()
      ensures live == old(live) && apoptosis == old(apoptosis) && necrosis == old(necrosis)
      ensures cyclingQuiescent == old(cyclingQuiescent) && flowCytometry == old(flowCytometry)
      ensures flowCytometrySeparated == old(flowCytometrySeparated)
      ensures apoptosisParameters == old(apoptosisParameters)
      ensures necrosisParameters == old(necrosisParameters)
      ensures modelsInitialized == old(modelsInitialized)
      ensures cycleModelsInitialized == old(cycleModelsInitialized)
      ensures deathModelsInitialized == old(deathModelsInitialized)
    {
      var _ := CreateBasicKi67();
      var _ := CreateAdvancedKi67();
    }

    /** Replaces the advanced Ki67 model with a freshly built one and returns it. */
    method CreateAdvancedKi67() returns (m: CycleModel)
      modifies this
      ensures m == ki67Advanced == AdvancedKi67Model()
      ensures ki67Basic == old(ki67Basic) && live == old(live)
      ensures apoptosis == old(apoptosis) && necrosis == old(necrosis)
      ensures cyclingQuiescent == old(cyclingQuiescent) && flowCytometry == old(flowCytometry)
      ensures flowCytometrySeparated == old(flowCytometrySeparated)
      ensures apoptosisParameters == old(apoptosisParameters)
      ensures necrosisParameters == old(necrosisParameters)
      ensures modelsInitialized == old(modelsInitialized)
      ensures cycleModelsInitialized == old(cycleModelsInitialized)
      ensures deathModelsInitialized == old(deathModelsInitialized)
    {
      ki67Advanced := AdvancedKi67Model();
      m := ki67Advanced;
    }

    /** Replaces the basic Ki67 model with a freshly built one and returns it. */
    method CreateBasicKi67() returns (m: CycleModel)
      modifies this
      ensures m == ki67Basic == BasicKi67Model()
      ensures ki67Advanced == old(ki67Advanced) && live == old(live)
      ensures apoptosis == old(apoptosis) && necrosis == old(necrosis)
      ensures cyclingQuiescent == old(cyclingQuiescent) && flowCytometry == old(flowCytometry)
      ensures flowCytometrySeparated == old(flowCytometrySeparated)
      ensures apoptosisParameters == old(apoptosisParameters)
      ensures necrosisParameters == old(necrosisParameters)
      ensures modelsInitialized == old(modelsInitialized)
      ensures cycleModelsInitialized == old(cycleModelsInitialized)
      ensures deathModelsInitialized == old(deathModelsInitialized)
    {
      ki67Basic := BasicKi67Model();
      m := ki67Basic;
    }

    /** Replaces the live model with a freshly built one. */
    method CreateLiveModel()
      modifies this
      ensures live == LiveModel()
      ensures ki67Advanced == old(ki67Advanced) && ki67Basic == old(ki67Basic)
      ensures apoptosis == old(apoptosis) && necrosis == old(necrosis)
      ensures cyclingQuiescent == old(cyclingQuiescent) && flowCytometry == old(flowCytometry)
      ensures flowCytometrySeparated == old(flowCytometrySeparated)
      ensures apoptosisParameters == old(apoptosisParameters)
      ensures necrosisParameters == old(necrosisParameters)
      ensures modelsInitialized == old(modelsInitialized)
      ensures cycleModelsInitialized == old(cycleModelsInitialized)
      ensures deathModelsInitialized == old(deathModelsInitialized)
    {
      live := LiveModel();
    }

    /** Builds both flow-cytometry models onto the shared ones, without reallocating them. */
    method CreateCytometryCycleModels()
      modifies this
      ensures flowCytometry == BuildFlowCytometry(old(flowCytometry))
      ensures flowCytometrySeparated == BuildFlowCytometrySeparated(old(flowCytometrySeparated))
      ensures ki67Advanced == old(ki67Advanced) && ki67Basic == old(ki67Basic) && live == old(live)
      ensures apoptosis == old(apoptosis) && necrosis == old(necrosis)
      ensures cyclingQuiescent == old(cyclingQuiescent)
      ensures apoptosisParameters == old(apoptosisParameters)
      ensures necrosisParameters == old(necrosisParameters)
      ensures modelsInitialized == old(modelsInitialized)
      ensures cycleModelsInitialized == old(cycleModelsInitialized)
      ensures deathModelsInitialized == old(deathModelsInitialized)
    {
      flowCytometry := BuildFlowCytometry(flowCytometry);
      flowCytometrySeparated := BuildFlowCytometrySeparated(flowCytometrySeparated);
    }

    /** Builds the cycling-quiescent model onto the shared one, without reallocating it. */
    method CreateCyclingQuiescentModel()
      modifies this
      ensures cyclingQuiescent == BuildCyclingQuiescent(old(cyclingQuiescent))
      ensures ki67Advanced == old(ki67Advanced) && ki67Basic == old(ki67Basic) && live == old(live)
      ensures apoptosis == old(apoptosis) && necrosis == old(necrosis)
      ensures flowCytometry == old(flowCytometry)
      ensures flowCytometrySeparated == old(flowCytometrySeparated)
      ensures apoptosisParameters == old(apoptosisParameters)
      ensures necrosisParameters == old(necrosisParameters)
      ensures modelsInitialized == old(modelsInitialized)
      ensures cycleModelsInitialized == old(cycleModelsInitialized)
      ensures deathModelsInitialized == old(deathModelsInitialized)
    {
      cyclingQuiescent := BuildCyclingQuiescent(cyclingQuiescent);
    }
  }
}
