# PhysiCell (Java port): the cell container and the standard models

This project models two parts of the Java port of PhysiCell, the agent-based
multicellular simulator, and proves properties of them. The first is the cell
container. The second is the library of standard cell models.

**The cell container** (`container.dfy`, module `Containers`)
- It keeps a voxel-indexed registry of agents, plus six buckets for agents that left the domain through each face.
- It keeps the deferred sets of cells waiting to divide and to be removed.
- It runs the multi-rate scheduler behind `updateAllCells`. Phenotype and mechanics blocks each run when their own interval is due, within a tolerance of one thousandth of that interval. On the first call they always run, with the elapsed time forced to the nominal interval.
- `CellContainer` is a class whose methods update its fields in place. `Cell` is a class with the flags that gate the per-agent passes.

**The standard models** (`StandardModels.java`), in several modules:
- `phase_graphs.dfy` (`PhaseGraphs`): cycle models as directed phase graphs, and the construction steps they are built from.
- `standard_models.dfy` (`StandardModels`):
  - the apoptosis, necrosis, Ki67 (basic and advanced), live, flow-cytometry (basic and separated) and cycling-quiescent graphs, each written as a constant;
  - a builder per graph that follows the source's construction steps one for one;
  - the class `StandardModelLibrary`: the shared models and the once-only initialisation flags.
- `volume.dfy` (`VolumeModel`): the standard volume update. It is a class `Volume` whose methods update the record in place, checked against the value function `VolumeStep`.
- `oxygen.dfy` (`OxygenModel`): the oxygen-based update of the proliferation and necrosis rates.
- `springs.dfy` (`SpringModel`): dynamic spring attachments. `SpringNetwork` holds every cell's spring partners.
- `interactions.dfy` (`CellInteractions`):
  - the cell–cell interaction pass (dead and live phagocytosis, attack, fusion) with its one-per-call flags;
  - the cell-transformation pass.

`optional.dfy` holds the `Option` type. `arithmetic.dfy` holds three monotonicity facts about real multiplication and division.

**Randomness** is a parameter. `draw: nat -> real` gives the k-th uniform draw of the call. Each member states which draw decides what, and how many draws it takes.

**Where PhysiCell's documented behaviour and this code differ, the model follows the code:**
- Dead phagocytosis has no once-per-call cap. Only live phagocytosis, attack and fusion are capped.
- The cell–cell interaction pass, like the spring-attachment pass, is invoked on every agent of the mechanics population, out-of-domain ones included (`MechanicsBlock` ensures `interacting` and `springAttaching` are that whole population).
- A neighbour is a candidate for a new spring only while it is below its own attachment cap.

## Model

All source paths are under `src/main/java/ru/biosoft/physicell/core/`.

| member | source | states |
|---|---|---|
| Containers.FindEscapingFace | src/main/java/ru/biosoft/physicell/core/CellContainer.java:401-428 | The faces are tested in the order −x, +x, −y, +y, −z, +z, each comparison inclusive. The result is the first violated face: it is violated, and no earlier face is. There is no face (the source's −1) exactly when the point is strictly inside all six bounds. |
| Containers.FaceIndex | src/main/java/ru/biosoft/physicell/core/CellContainer.java:401-428 | A face's index, its rank in the test order, is one of the six outer-bucket indices. |
| Containers.FlushOrder | src/main/java/ru/biosoft/physicell/core/CellContainer.java:196-200 | A flush of a deferred set visits every member exactly once. The visiting order is a permutation of the set. |
| Containers.CellContainer.constructor | src/main/java/ru/biosoft/physicell/core/CellContainer.java:98-103 | A new container has empty deferred sets, zero counters and zero last-run times, and is not initialized. |
| Containers.CellContainer.Initialize | src/main/java/ru/biosoft/physicell/core/CellContainer.java:110-131 | Afterwards there is one empty set per mesh voxel and six empty outer buckets. Both deferred sets are empty, and the per-voxel interaction distances are zero. Counters, times and the initialized flag are unchanged. |
| Containers.CellContainer.ContainAnyCell | src/main/java/ru/biosoft/physicell/core/CellContainer.java:395-399 | True iff voxel i holds some agent. |
| Containers.CellContainer.RegisterAgent | src/main/java/ru/biosoft/physicell/core/CellContainer.java:343-348 | The agent is added to the set of its current voxel and to no other. The voxel then contains a cell. Registering an agent that is already there changes nothing. Buckets, deferred sets and per-voxel interaction distances are unchanged. The bounding box, the initialized flag, both step counters and both last-run times are unchanged. |
| Containers.CellContainer.AddAgentToVoxel | src/main/java/ru/biosoft/physicell/core/CellContainer.java:390-393 | Only the named voxel's set gains the agent. A repeated call changes nothing. Buckets, deferred sets and per-voxel interaction distances are unchanged. The bounding box, the initialized flag, both step counters and both last-run times are unchanged. |
| Containers.CellContainer.RemoveAgent | src/main/java/ru/biosoft/physicell/core/CellContainer.java:352-356 | Removes the agent from the voxel it currently occupies. A negative voxel index changes nothing. Buckets, deferred sets and per-voxel interaction distances are unchanged. The bounding box, the initialized flag, both step counters and both last-run times are unchanged. |
| Containers.CellContainer.RemoveAgentFromVoxel | src/main/java/ru/biosoft/physicell/core/CellContainer.java:368-387 | A negative index changes nothing. Otherwise only that voxel's set loses the agent, which is no longer in it, and every other set is unchanged. Buckets, deferred sets and per-voxel interaction distances are unchanged. The bounding box, the initialized flag, both step counters and both last-run times are unchanged. |
| Containers.CellContainer.AddAgentToOuterVoxel | src/main/java/ru/biosoft/physicell/core/CellContainer.java:359-365 | The agent joins exactly the bucket of its escaping face and is marked out of domain. The other five buckets, the grid, the deferred sets, the per-voxel interaction distances and the agent's other fields are unchanged. The bounding box, the initialized flag, both step counters and both last-run times are unchanged. |
| Containers.CellContainer.FlagCellForDivision | src/main/java/ru/biosoft/physicell/core/CellContainer.java:430-440 | The cell is in the division set afterwards. The set grows by one only if the cell was absent, so a cell is queued at most once however often it is flagged. The removal set, the registry, the buckets and the per-voxel interaction distances are unchanged. The bounding box, the initialized flag, both step counters and both last-run times are unchanged. |
| Containers.CellContainer.FlagCellForRemoval | src/main/java/ru/biosoft/physicell/core/CellContainer.java:442-452 | The same for the removal set; the division set is unchanged. |
| Containers.CellContainer.PhenotypeBlock | src/main/java/ru/biosoft/physicell/core/CellContainer.java:148-208 | The block runs iff the container is not initialized or the interval is due; the elapsed time is forced to the nominal one on the first call. When it runs: every in-domain agent is advanced; every queued cell divides and every cell queued for removal dies, each once; the counters grow by the set sizes; both sets are emptied; the registry and buckets become what the divisions and deaths leave; the last cycle time becomes t. The agents may change only when it runs. When it does not run, nothing changes. |
| Containers.CellContainer.ProcessDividesAndRemoves | src/main/java/ru/biosoft/physicell/core/CellContainer.java:195-206 | Every cell queued for division (including the ones just queued) divides once and every cell queued for removal dies once, each flush visiting its set in some order. The counters grow by the two set sizes, both sets end empty, and the registry and buckets become what the divisions and deaths leave. The times, the initialized flag, the bounding box and the per-voxel interaction distances are unchanged. |
| Containers.CellContainer.MechanicsBlock | src/main/java/ru/biosoft/physicell/core/CellContainer.java:210-336 | The block is gated in the same way by its own last-run time. When it runs, the contact, custom-rule, velocity and elastic-spring passes visit exactly the agents of its starting population that their flags select, and the spring-attachment and interaction passes visit that whole population, out-of-domain agents included. After the interaction pass, every cell queued for removal dies once and the removal set is emptied; the death counter does not change. The position update and re-registration visit the in-domain movable agents of the population those deaths leave. The registry and buckets become what those deaths and the re-registration leave. The last mechanics time becomes t only when the block runs. Agents may change. |
| Containers.CellContainer.UpdateAllCells | src/main/java/ru/biosoft/physicell/core/CellContainer.java:133-340 | One step is composed as follows. The secretion pass covers the in-domain agents. The intracellular pass is skipped on the first call. Then the phenotype block runs, then the mechanics block on the population the phenotype block leaves: the spring-attachment and interaction passes visit all of it, and every gated mechanics pass visits part of it. When the phenotype block did not run, each gated pass visits exactly the agents its flags select at the start of the step. The container is initialized afterwards. The registry and buckets end as the last block that ran leaves them, and are unchanged when neither ran; the container stays well formed. The deferred sets, counters and times end as the two blocks determine. Nothing is promised about the agents' own fields. |
| PhaseGraphs.FindPhaseIndex | src/main/java/ru/biosoft/physicell/core/StandardModels.java:618-656 | The index of the first phase with the given code. It is absent exactly when no phase has that code. |
| StandardModels.ApoptosisModel | src/main/java/ru/biosoft/physicell/core/StandardModels.java:187-208 | The construction steps yield the apoptosis graph: two phases, removal at exit from phase 0, and a single fixed-duration link 0→1 at rate 1/(8.6·60). |
| StandardModels.NecrosisModel | src/main/java/ru/biosoft/physicell/core/StandardModels.java:226-251 | The steps yield the necrosis graph: three phases, removal at exit from phase 1, an arrested stochastic link 0→1 at rate 9e9, and a fixed-duration link 1→2 at rate 1/(60·24·60). |
| StandardModels.AdvancedKi67Model | src/main/java/ru/biosoft/physicell/core/StandardModels.java:260-287 | The steps yield the Ki67 (advanced) graph: three phases, division at phase 1, links 0→1, 1→2 (fixed) and 2→0 (fixed), with the source's rates and entry functions. |
| StandardModels.BasicKi67Model | src/main/java/ru/biosoft/physicell/core/StandardModels.java:289-310 | The steps yield the Ki67 (basic) graph: two phases, division at phase 1, link 1→0 fixed. |
| StandardModels.LiveModel | src/main/java/ru/biosoft/physicell/core/StandardModels.java:312-323 | The steps yield the live graph: one phase that divides at exit, with a stochastic self-loop at rate 0.0432/60. |
| StandardModels.BuildFlowCytometry | src/main/java/ru/biosoft/physicell/core/StandardModels.java:327-354 | The builder appends three phases and three links to the model it is given. From an empty model it yields the basic flow-cytometry 3-cycle, dividing at phase 2. |
| StandardModels.BuildFlowCytometrySeparated | src/main/java/ru/biosoft/physicell/core/StandardModels.java:358-388 | The builder appends four phases and four links. From an empty model it yields the separated 4-cycle, dividing at phase 3. |
| StandardModels.BuildCyclingQuiescent | src/main/java/ru/biosoft/physicell/core/StandardModels.java:391-416 | The builder appends two phases and two links. From an empty model it yields the cycling-quiescent graph: division at phase 1, link 1→0 fixed. |
| StandardModels.Ki67GraphsAreCycleGraphs | src/main/java/ru/biosoft/physicell/core/StandardModels.java:260-310 | Both Ki67 graphs are well formed: every link joins existing phases with a non-negative rate, and no pair is linked twice. Each divides only at phase 1 and never removes. |
| StandardModels.LiveGraphIsCycleGraph | src/main/java/ru/biosoft/physicell/core/StandardModels.java:312-323 | The live graph is well formed, divides only at phase 0 and never removes. |
| StandardModels.FlowCytometryGraphIsCycleGraph | src/main/java/ru/biosoft/physicell/core/StandardModels.java:327-354 | The basic flow-cytometry graph is well formed, divides only at phase 2 and never removes. |
| StandardModels.FlowCytometrySeparatedGraphIsCycleGraph | src/main/java/ru/biosoft/physicell/core/StandardModels.java:358-388 | The separated graph is well formed, divides only at phase 3 and never removes. |
| StandardModels.CyclingQuiescentGraphIsCycleGraph | src/main/java/ru/biosoft/physicell/core/StandardModels.java:391-416 | The cycling-quiescent graph is well formed, divides only at phase 1 and never removes. |
| StandardModels.DeathGraphsAreDeathGraphs | src/main/java/ru/biosoft/physicell/core/StandardModels.java:172-252 | Both death graphs are well formed and never divide. Apoptosis removes only at phase 0, necrosis only at phase 1. |
| StandardModels.FlowCytometryIsNotReentrant | src/main/java/ru/biosoft/physicell/core/StandardModels.java:325-355 | Because the builder appends to the shared model, running it a second time would link G0/G1 to S twice and break well-formedness. Only the once-only flag prevents that. |
| StandardModels.StandardModelLibrary.constructor | src/main/java/ru/biosoft/physicell/core/StandardModels.java:75-91 | Every flag starts down and every shared model is empty. |
| StandardModels.StandardModelLibrary.CreateStandardCycleAndDeathModels | src/main/java/ru/biosoft/physicell/core/StandardModels.java:134-138 | Afterwards all three flags are up. If everything was already initialized, nothing changes. |
| StandardModels.StandardModelLibrary.CreateStandardCellCycleModels | src/main/java/ru/biosoft/physicell/core/StandardModels.java:140-154 | Returns true iff the cycle family did not exist yet. A second call returns false and changes nothing. Afterwards the cycle models are the standard graphs. The overall flag is up iff the death flag is too. The death models are untouched. |
| StandardModels.StandardModelLibrary.CreateStandardCellDeathModels | src/main/java/ru/biosoft/physicell/core/StandardModels.java:156-170 | The same for the death family and its parameters. The cycle models are untouched. |
| StandardModels.StandardModelLibrary.CreateCycleModels | src/main/java/ru/biosoft/physicell/core/StandardModels.java:145-148 | Starting from empty appended models, the four creation steps leave the six standard cycle graphs. |
| StandardModels.StandardModelLibrary.CreateDeathModels | src/main/java/ru/biosoft/physicell/core/StandardModels.java:161-162 | The two creation steps leave the standard death graphs and parameters. |
| StandardModels.StandardModelLibrary.CreateStandardApoptosisModel | src/main/java/ru/biosoft/physicell/core/StandardModels.java:172-209 | Sets the apoptosis parameters (rates 1/60, 0.35/60, 3/60, 0, 0; rupture volume 2) and replaces the apoptosis model. Nothing else changes. |
| StandardModels.StandardModelLibrary.CreateStandardNecrosisModel | src/main/java/ru/biosoft/physicell/core/StandardModels.java:211-252 | Sets the necrosis parameters and replaces the necrosis model. Nothing else changes. |
| StandardModels.StandardModelLibrary.CreateKi67Models | src/main/java/ru/biosoft/physicell/core/StandardModels.java:254-258 | Builds the basic, then the advanced, Ki67 model. |
| StandardModels.StandardModelLibrary.CreateAdvancedKi67 | src/main/java/ru/biosoft/physicell/core/StandardModels.java:260-287 | Replaces the shared advanced Ki67 model and returns it. |
| StandardModels.StandardModelLibrary.CreateBasicKi67 | src/main/java/ru/biosoft/physicell/core/StandardModels.java:289-310 | Replaces the shared basic Ki67 model and returns it. |
| StandardModels.StandardModelLibrary.CreateLiveModel | src/main/java/ru/biosoft/physicell/core/StandardModels.java:312-323 | Replaces the shared live model. |
| StandardModels.StandardModelLibrary.CreateCytometryCycleModels | src/main/java/ru/biosoft/physicell/core/StandardModels.java:325-389 | Builds both flow-cytometry models onto the shared ones, without reallocating them. |
| StandardModels.StandardModelLibrary.CreateCyclingQuiescentModel | src/main/java/ru/biosoft/physicell/core/StandardModels.java:391-416 | Builds the cycling-quiescent model onto the shared one. |
| VolumeModel.Volume.StandardVolumeUpdate | src/main/java/ru/biosoft/physicell/core/StandardModels.java:421-451 | The record afterwards is one `VolumeStep` of the record before: fluid, then solids, then totals. The compartments then add up. |
| VolumeModel.Volume.UpdateFluid | src/main/java/ru/biosoft/physicell/core/StandardModels.java:424-429 | The fluid relaxes towards its target share of the total, clamped at zero. It splits into nuclear and cytoplasmic parts in the nucleus's share of the total. |
| VolumeModel.Volume.UpdateSolids | src/main/java/ru/biosoft/physicell/core/StandardModels.java:431-441 | Each solid relaxes towards its target, clamped at zero. The cytoplasmic target follows the nuclear one. The solid is their sum. |
| VolumeModel.Volume.UpdateTotals | src/main/java/ru/biosoft/physicell/core/StandardModels.java:443-450 | Nuclear, cytoplasmic and total volumes are recomputed from the parts. Calcification relaxes towards one. The fluid fraction is the fluid over the total. |
| VolumeModel.VolumeStepIsConsistent | src/main/java/ru/biosoft/physicell/core/StandardModels.java:424-450 | From any state, one update leaves fluid and both solids non-negative. It leaves cytoplasmic fluid = fluid − nuclear fluid, solid = the sum of the solids, nuclear and cytoplasmic = their parts, total = cytoplasmic + nuclear = solid + fluid, and the fluid fraction in [0, 1). |
| VolumeModel.FluidSplitIsNonNegative | src/main/java/ru/biosoft/physicell/core/StandardModels.java:428-429 | When the nucleus is a non-negative part of the whole cell, the new fluid splits into non-negative nuclear and cytoplasmic parts. |
| VolumeModel.RelaxStaysBetween | src/main/java/ru/biosoft/physicell/core/StandardModels.java:424 | A relaxation step whose rate times step is in [0, 1] lands between the old value and the target. |
| VolumeModel.CalcificationStaysAFraction | src/main/java/ru/biosoft/physicell/core/StandardModels.java:446 | Under the same condition, a calcified fraction in [0, 1] stays in [0, 1] and never decreases. |
| VolumeModel.TargetStateIsFixed | src/main/java/ru/biosoft/physicell/core/StandardModels.java:424-448 | A consistent cell already at its targets keeps its fluid, solids and total. |
| OxygenModel.ProliferationMultiplier | src/main/java/ru/biosoft/physicell/core/StandardModels.java:671-680 | The multiplier is in [0, 1]. It is 0 below the threshold and 1 at or above saturation. |
| OxygenModel.NecrosisMultiplier | src/main/java/ru/biosoft/physicell/core/StandardModels.java:688-697 | The multiplier is in [0, 1]. It is 1 below the maximum-necrosis pressure and 0 at or above the threshold. |
| OxygenModel.ProliferationIsClampedRamp | src/main/java/ru/biosoft/physicell/core/StandardModels.java:671-680 | With threshold < saturation, the proliferation multiplier is the linear ramp clamped to [0, 1]. |
| OxygenModel.NecrosisIsClampedRamp | src/main/java/ru/biosoft/physicell/core/StandardModels.java:688-697 | With max < threshold, the necrosis multiplier is the falling linear ramp clamped to [0, 1]. |
| OxygenModel.ProliferationIsMonotone | src/main/java/ru/biosoft/physicell/core/StandardModels.java:671-680 | More oxygen never lowers the proliferation multiplier. |
| OxygenModel.NecrosisIsAntitone | src/main/java/ru/biosoft/physicell/core/StandardModels.java:688-697 | More oxygen never raises the necrosis multiplier. |
| OxygenModel.ThrottledLink | src/main/java/ru/biosoft/physicell/core/StandardModels.java:612-664 | Only the Ki67 (both), live, flow-cytometry (both) and cycling-quiescent models have a throttled link; every other cycle code has none. |
| OxygenModel.O2BasedUpdate | src/main/java/ru/biosoft/physicell/core/StandardModels.java:601-709 | A dead cell, or one with an unrecognised cycle code, is left untouched. Otherwise the link of its model is scaled by a multiplier in [0, 1]. |
| OxygenModel.NecrosisRateByOxygen | src/main/java/ru/biosoft/physicell/core/StandardModels.java:688-709 | Well oxygenated, the necrosis rate is 0. Starved, it is the maximum rate under stochastic necrosis and 9e99 under deterministic necrosis. |
| OxygenModel.DeterministicDominatesStochastic | src/main/java/ru/biosoft/physicell/core/StandardModels.java:702-709 | With a maximum rate of at most 9e99, the deterministic override never gives a lower rate than the stochastic one. |
| OxygenModel.ThrottledLinkExistsInStandardModel | src/main/java/ru/biosoft/physicell/core/StandardModels.java:615-658 | For each supported model, the standard graph links the two phases the update looks up, so the update always scales an existing transition. |
| SpringModel.AttachCells | src/main/java/ru/biosoft/physicell/core/StandardModels.java:558 | Attaching joins the pair in both directions. Attaching a joined pair changes nothing. No other cell's partners change. |
| SpringModel.DetachCells | src/main/java/ru/biosoft/physicell/core/StandardModels.java:523 | Detaching removes the pair in both directions. No other cell's partners change. |
| SpringModel.AttachKeepsSymmetry | src/main/java/ru/biosoft/physicell/core/StandardModels.java:558 | Attachment preserves symmetry (A attached to B iff B attached to A). It touches no spring between two other cells. |
| SpringModel.DetachKeepsSymmetry | src/main/java/ru/biosoft/physicell/core/StandardModels.java:523 | Detachment preserves symmetry and touches no spring between two other cells. |
| SpringModel.DetachPrefixRemoves | src/main/java/ru/biosoft/physicell/core/StandardModels.java:519-525 | After the detachment pass has visited k partners, the cell's partners are its old partners minus those whose draw succeeded. |
| SpringModel.DetachedByExactly | src/main/java/ru/biosoft/physicell/core/StandardModels.java:519-525 | For an enumeration without repeats, the k-th listed partner is detached iff its own draw is ≤ the probability; unvisited partners and cells not listed are never detached. |
| SpringModel.DetachPrefixKeepsSymmetry | src/main/java/ru/biosoft/physicell/core/StandardModels.java:519-525 | Whatever the draws, the detachment pass keeps the partner map symmetric and changes only springs of this cell. |
| SpringModel.AttachStopsAtCap | src/main/java/ru/biosoft/physicell/core/StandardModels.java:559-563 | Once the cell is at its cap, the remaining neighbours change nothing: the pass has stopped. |
| SpringModel.AttachVisitGains | src/main/java/ru/biosoft/physicell/core/StandardModels.java:545-558 | One neighbour's visit adds to the cell exactly the partner it records as gained, gains at most that neighbour, and takes at most one draw. |
| SpringModel.AttachVisitWithinCaps | src/main/java/ru/biosoft/physicell/core/StandardModels.java:545-558 | One neighbour's visit never takes the cell past its cap nor a gained partner past its own. |
| SpringModel.AttachPrefixKeepsSymmetry | src/main/java/ru/biosoft/physicell/core/StandardModels.java:545-566 | Whatever the draws, the attachment pass keeps the partner map symmetric and changes only springs of this cell. |
| SpringModel.AttachPrefixGains | src/main/java/ru/biosoft/physicell/core/StandardModels.java:545-566 | Whatever the draws, the cell gains exactly the recorded partners, none of them an old partner and all of them neighbours, with at most one draw per neighbour. |
| SpringModel.AttachPrefixWithinCaps | src/main/java/ru/biosoft/physicell/core/StandardModels.java:545-566 | Started within its cap, the attachment pass never takes the cell past its cap nor a gained partner past its own. |
| SpringModel.Enumerate | src/main/java/ru/biosoft/physicell/core/StandardModels.java:519 | Lists the partner set once each: as many entries as members, exactly the members, no repeats. |
| SpringModel.SpringNetwork.DynamicSpringAttachments | src/main/java/ru/biosoft/physicell/core/StandardModels.java:514-589 | The k-th old partner is detached iff draw k ≤ detachment rate·dt. If the cell is then at its cap, nothing is attached and no further draw is taken. Otherwise the attachment pass runs on the neighbours in list order with the following draws, each at probability attachment rate·dt·affinity. The new partner map, the gained partners and the draw count are exactly those of the detachment specification followed by the attachment specification. As a consequence, the new partners come from the neighbours, the cell ends at most at its cap, each new partner is within its own cap, symmetry is preserved, and only springs of this cell change. |
| SpringModel.SpringNetwork.DetachPass | src/main/java/ru/biosoft/physicell/core/StandardModels.java:517-525 | Every old partner is visited once, in an enumeration returned as `order`, and takes draw k. The new partner map is exactly that of the detachment specification on this order. The detached partners are exactly those whose draw is ≤ the probability, the cell keeps the rest, symmetry is preserved and only springs of this cell change. |
| SpringModel.SpringNetwork.AttachPass | src/main/java/ru/biosoft/physicell/core/StandardModels.java:541-566 | The partner map, gained partners and draw count are exactly those of the attachment specification on the neighbour list: a neighbour at its own cap is skipped without a draw; otherwise it is attached iff its draw is ≤ its chance; the pass stops at the cell's cap. Starting below its cap, the cell gains only neighbours that were not already partners, never passes its cap, and each new partner stays within its own cap. |
| CellInteractions.VisitTarget | src/main/java/ru/biosoft/physicell/core/StandardModels.java:806-849 | A dead neighbour takes one draw; a living one takes three. |
| CellInteractions.Reach | src/main/java/ru/biosoft/physicell/core/StandardModels.java:801-804 | The index of the first neighbour with total volume below 1e-15. Every neighbour before it is at least that large. |
| CellInteractions.Interactions | src/main/java/ru/biosoft/physicell/core/StandardModels.java:779-782 | A dead cell has no interactions and takes no draws. |
| CellInteractions.CellCellInteractions | src/main/java/ru/biosoft/physicell/core/StandardModels.java:777-851 | The loop, with its three local flags and its `break`, yields exactly the interactions and draw count of the scan specification. |
| CellInteractions.VisitNeighbour | src/main/java/ru/biosoft/physicell/core/StandardModels.java:806-849 | The loop body for one neighbour agrees with the visit specification. |
| CellInteractions.VisitRaisesFlag | src/main/java/ru/biosoft/physicell/core/StandardModels.java:817-848 | A visit never lowers a flag. It yields one interaction of a capped kind iff it raises that kind's flag, and none otherwise. |
| CellInteractions.ScanCountsMatchFlags | src/main/java/ru/biosoft/physicell/core/StandardModels.java:789-850 | After any number of neighbours, the count of each capped kind is 1 if its flag is set and 0 otherwise. |
| CellInteractions.InteractionsAtMostOnce | src/main/java/ru/biosoft/physicell/core/StandardModels.java:817-848 | Live phagocytosis, attack and fusion each happen at most once per call. |
| CellInteractions.DeadPhagocytosisIsUncapped | src/main/java/ru/biosoft/physicell/core/StandardModels.java:806-814 | When every one of the first k neighbours is dead and its draw succeeds, all k are ingested, in order. |
| CellInteractions.ScanDrawsAreFixed | src/main/java/ru/biosoft/physicell/core/StandardModels.java:810-844 | The number of draws depends only on the neighbours: a draw is taken for each rule even when its flag is already set. |
| CellInteractions.ScanPrefixIgnoresRest | src/main/java/ru/biosoft/physicell/core/StandardModels.java:796-850 | The scan after k neighbours depends only on those k neighbours. |
| CellInteractions.ScanStopsAtSmallTarget | src/main/java/ru/biosoft/physicell/core/StandardModels.java:801-804 | Nothing from the first too-small neighbour onwards has any effect on the outcome. |
| CellInteractions.CellTransformation | src/main/java/ru/biosoft/physicell/core/StandardModels.java:853-871 | A dead cell is never transformed and takes no draws. Otherwise the definitions are tried in index order, one draw each. The result is the first index whose draw is ≤ rate·dt, and no further draws are taken. With no success, every definition has been tried. |

## Left out

- Agent callbacks are not modelled. These are secretion, intracellular update, the bundled phenotype functions, contact functions, custom rules, velocity update, position update, voxel re-registration, division and death. Their effect is taken as parameters (`Effects`), one per block: the cells the passes queue for division and removal, the registry and outer buckets as the divisions, deaths and re-registrations of that block leave them, and the population after that block's divisions and deaths. What the callbacks do to an agent's own fields (position, voxel index, out-of-domain flag, the gating flags) is not modelled: the step may change any of them and promises nothing about them. The scheduler reports which agents each pass is invoked on, and in what order the deferred sets are flushed.
- Containers.CellContainer.UpdateAllCells: assumes that the secretion and intracellular callbacks touch neither the container nor the out-of-domain flags the phenotype block reads, and that the callbacks never resize the grid or the bucket list (`Fits`). Which agents a division or death adds to or removes from the registry is not derived: it is the `Effects` parameter. The mechanics passes iterate the agent set after the phenotype block's divisions and deaths, as if `Microenvironment.getAgents` returned the live set; `Microenvironment` is not part of this model.
- Containers.CellContainer.UpdateAllCells: when the phenotype block ran, the gated mechanics passes are only promised to visit part of the post-phenotype population, because the flags they read are the ones the phenotype functions leave, and the model does not compute those.
- Containers.CellContainer.MechanicsBlock: every gate reads the flags as they stand when the block starts. In the source, the contact, custom-rule, velocity and interaction callbacks of the same block run first and may change the flags that the later passes and the position update read; the model does not capture that. Which agents the post-interaction deaths remove from the population is an input (`effects.population`), not derived.
- Containers.CellContainer.RegisterAgent: requires the agent's voxel index to be within the grid. The source throws `IndexOutOfBoundsException` for any other index (CellContainer.java:346); that error path is not modelled.
- Containers.CellContainer.AddAgentToVoxel: requires the index to be within the grid. The source throws `IndexOutOfBoundsException` otherwise (CellContainer.java:392); that error path is not modelled.
- Containers.CellContainer.RemoveAgent: requires the agent's voxel index to be below the grid size. The source throws `IndexOutOfBoundsException` for an index past the end (CellContainer.java:374, through `remove_agent_from_voxel`); that error path is not modelled.
- Containers.CellContainer.RemoveAgentFromVoxel: requires the index to be below the grid size. The source throws `IndexOutOfBoundsException` for an index past the end (CellContainer.java:374); that error path is not modelled.
- Containers.CellContainer.AddAgentToOuterVoxel: requires the agent to be on or beyond some face of the domain. For an agent strictly inside, the face index is −1 and the source throws `IndexOutOfBoundsException` (CellContainer.java:362); that error path is not modelled.
- Containers.CellContainer.ContainAnyCell: requires the index to be within the grid. The source throws `IndexOutOfBoundsException` otherwise (CellContainer.java:398); that error path is not modelled.
- `CartesianMesh`: only its bounding box and voxel count enter. `initialize` takes both directly, and the mesh resizing is not part of this model.
- `PhysiCellConstants` is not part of this model. Face, cycle and phase codes are enumerations, and the outer buckets are numbered in the escape-test order.
- `createCellContainer` and `createDefaultCellDefinition` are not modelled: they are wiring into a microenvironment and into cell definitions, neither of which is part of this model.
- The two-argument overload of `initialize`, which forwards to the per-axis one, is not modelled separately.
- `standard_update_cell_velocity`, the elastic contact functions and `evaluate_interactions` are not modelled. They forward to force laws and vector arithmetic that are not part of this model.
- Floating point is not modelled. All quantities are real numbers, so the model makes no claim about rounding, NaN or infinities. Examples are the 1e-16 and 1e-15 guards and the 0.001·dt tolerance.
- Concurrency and iteration order are not modelled: agent sets are unordered. A flush visits a deferred set in an order that is only known to be a permutation of it.
- `PhysiCellUtilities.UniformRandom` is replaced by the draw parameter.
- `Cell.attach_cells_as_spring` and `Cell.detach_cells_as_spring` are not part of this model. `AttachCells` and `DetachCells` give them the symmetric behaviour that PhysiCell documents and that the source relies on. Attaching an already attached pair changes nothing.
- SpringModel.SpringNetwork.DetachPass: visits a snapshot of the partner set. The source iterates the live attachment list while detaching from it, and that in-place interaction is not captured.
- SpringModel.SpringNetwork.DynamicSpringAttachments: partners are a set of cell ids. The list order of the source's attachments is not modelled, and neither are the neighbour list's duplicates of existing partners beyond "attaching twice changes nothing". The detachment visiting order is any enumeration of the old partners.
- The effects of ingestion, attack, fusion and transformation are recorded as events or as the chosen definition index, not carried out: `ingest_cell`, `attack_cell`, `fuse_cell` and `convert_to_cell_definition` are not part of this model. Rate lookups by type name are functions.
- VolumeModel.Volume.StandardVolumeUpdate: requires the total to differ from −1e-16, the one value at which the source divides by zero. The final `geometry.update` call is not part of this model.
- OxygenModel.O2BasedUpdate: returns the link to scale and the multiplier, not the cycle data. `modifyTransitionRate`, the death-model index lookup and sampling the microenvironment are not part of this model.
- The `time_units` field of the cycle data is not modelled. The death parameters keep their `"min"` unit.
- `CycleModel` operations (`add_phase`, `add_phase_link`, `setTransitionRate`, `phase_link`) are modelled as value functions on the graph, from how the builders use them; `CycleModel.java` is not part of this model.
