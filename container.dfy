/**
 * The cell container: a voxel-indexed registry of agents, six buckets for
 * agents that left the domain, the deferred division and removal sets, and
 * the multi-rate scheduler that drives one simulation step.
 */
module Containers {
  import opened Optional

  /** A position in the simulation domain. */
  datatype Point = Point(x: real, y: real, z: real)

  /** The bounding box of the mechanics mesh. */
  datatype BoundingBox = BoundingBox(minX: real, minY: real, minZ: real,
                                     maxX: real, maxY: real, maxZ: real)

  /** The six faces of the domain. */
  datatype Face = LowerX | UpperX | LowerY | UpperY | LowerZ | UpperZ

  /**
   * The rank of a face in the order in which the escape test examines the
   * faces; it is also the index of the face's outer bucket.
   */
  function FaceIndex(f: Face): (k: nat)
    ensures k < 6
  {
    match f
    case LowerX => 0
    case UpperX => 1
    case LowerY => 2
    case UpperY => 3
    case LowerZ => 4
    case UpperZ => 5
  }

  /** A point lies on or beyond face `f` (the comparisons are inclusive). */
  predicate Violates(p: Point, box: BoundingBox, f: Face)
  {
    match f
    case LowerX => p.x <= box.minX
    case UpperX => p.x >= box.maxX
    case LowerY => p.y <= box.minY
    case UpperY => p.y >= box.maxY
    case LowerZ => p.z <= box.minZ
    case UpperZ => p.z >= box.maxZ
  }

  /** A point lies strictly inside all six bounds. */
  predicate StrictlyInside(p: Point, box: BoundingBox)
  {
    box.minX < p.x < box.maxX && box.minY < p.y < box.maxY && box.minZ < p.z < box.maxZ
  }

  /**
   * The face through which a point has left the domain: the first violated
   * face in the order -x, +x, -y, +y, -z, +z, or None (the source's -1) when
   * the point is strictly inside.
   */
  function FindEscapingFace(p: Point, box: BoundingBox): (r: Option<Face>)
    ensures r.None? <==> StrictlyInside(p, box)
    ensures r.Some? ==> Violates(p, box, r.value)
    ensures r.Some? ==> forall g :: FaceIndex(g) < FaceIndex(r.value) ==> !Violates(p, box, g)
  {
    if p.x <= box.minX then Some(LowerX)
    else if p.x >= box.maxX then Some(UpperX)
    else if p.y <= box.minY then Some(LowerY)
    else if p.y >= box.maxY then Some(UpperY)
    else if p.z <= box.minZ then Some(LowerZ)
    else if p.z >= box.maxZ then Some(UpperZ)
    else None
  }

  function Abs(x: real): real { if x < 0.0 then -x else x }

  /**
   * A scheduler interval is due when the time since its last run is within
   * a tolerance of one thousandth of the nominal interval.
   */
  predicate IntervalDue(elapsed: real, interval: real)
  {
    Abs(elapsed - interval) < 0.001 * interval
  }

  /**
   * An agent as the container sees it: its position, its current mechanics
   * voxel, and the flags that gate the per-agent passes of a step.
   */
  class Cell {
    var position: Point
    var voxelIndex: int
    var isOutOfDomain: bool
    var isMovable: bool
    /** It has an intracellular model that reports it needs updating. */
    var needsIntracellularUpdate: bool
    var hasContactFunction: bool
    var hasCustomRule: bool
    var hasVelocityUpdate: bool
  }

  /** The agents the secretion and phenotype passes visit: those in the domain. */
  function InDomain(agents: set<Cell>): set<Cell>
    reads agents
  {
    set a | a in agents && !a.isOutOfDomain
  }

  /** In-domain agents whose intracellular model asks to be updated. */
  function NeedingIntracellularUpdate(agents: set<Cell>): set<Cell>
    reads agents
  {
    set a | a in agents && !a.isOutOfDomain && a.needsIntracellularUpdate
  }

  /** In-domain agents with a contact function. */
  function WithContactFunction(agents: set<Cell>): set<Cell>
    reads agents
  {
    set a | a in agents && a.hasContactFunction && !a.isOutOfDomain
  }

  /** In-domain agents with a custom rule. */
  function WithCustomRule(agents: set<Cell>): set<Cell>
    reads agents
  {
    set a | a in agents && a.hasCustomRule && !a.isOutOfDomain
  }

  /** In-domain, movable agents with a velocity update function. */
  function WithVelocityUpdate(agents: set<Cell>): set<Cell>
    reads agents
  {
    set a | a in agents && a.hasVelocityUpdate && !a.isOutOfDomain && a.isMovable
  }

  /** Movable agents (the elastic spring pass). */
  function MovableAgents(agents: set<Cell>): set<Cell>
    reads agents
  {
    set a | a in agents && a.isMovable
  }

  /** In-domain, movable agents (position update and re-registration). */
  function MovableInDomain(agents: set<Cell>): set<Cell>
    reads agents
  {
    set a | a in agents && !a.isOutOfDomain && a.isMovable
  }

  /**
   * What the per-agent callbacks of one block do to the container and to
   * the population: the cells they queue for division and for removal, the
   * voxel registry and outer buckets as the division, death and
   * re-registration callbacks leave them, and the population of agents
   * after the block's divisions and deaths.
   */
  datatype Effects = Effects(divide: set<Cell>, die: set<Cell>,
                             grid: seq<set<Cell>>, outer: seq<set<Cell>>,
                             population: set<Cell>)

  /**
   * What one step did: the agents each per-agent pass was invoked on,
   * whether each block ran and with which elapsed time, and the order in
   * which the deferred sets were flushed.
   */
  datatype Tick = Tick(
    secreting: set<Cell>,
    intracellular: set<Cell>,
    phenotypeRan: bool,
    phenotypeElapsed: real,
    phenotypeAdvanced: set<Cell>,
    divided: seq<Cell>,
    died: seq<Cell>,
    mechanicsRan: bool,
    mechanicsElapsed: real,
    contacts: set<Cell>,
    customRules: set<Cell>,
    velocities: set<Cell>,
    springAttaching: set<Cell>,
    elasticSprings: set<Cell>,
    interacting: set<Cell>,
    clearedAfterInteractions: seq<Cell>,
    moved: set<Cell>)

  /**
   * The order in which a flush visits a deferred set and invokes the
   * division or removal callback: every member exactly once.
   */
  method FlushOrder(cells: set<Cell>) returns (order: seq<Cell>)
    ensures multiset(order) == multiset(cells)
    ensures |order| == |cells|
  {
    order := [];
    var rest := cells;
    while rest != {}
      invariant rest <= cells
      invariant multiset(order) + multiset(rest) == multiset(cells)
      decreases rest
    {
      var c :| c in rest;
      assert multiset(rest) == multiset(rest - {c}) + multiset{c};
      order := order + [c];
      rest := rest - {c};
    }
    assert |multiset(order)| == |multiset(cells)|;
  }

  class CellContainer {
    var agentGrid: seq<set<Cell>>
    var agentsInOuterVoxels: seq<set<Cell>>
    var cellsReadyToDivide: set<Cell>
    var cellsReadyToDie: set<Cell>
    var initialized: bool
    var boundingBox: BoundingBox
    var maxCellInteractiveDistanceInVoxel: seq<real>
    var numDivisionsInCurrentStep: nat
    var numDeathsInCurrentStep: nat
    var lastCellCycleTime: real
    var lastMechanicsTime: real

    /** The container has been laid out over a mesh. */
    ghost predicate Valid()
      reads this
    {
      |agentsInOuterVoxels| == 6 &&
      |maxCellInteractiveDistanceInVoxel| == |agentGrid|
    }

    /** A block's callbacks leave a registry of the container's own shape. */
    ghost predicate Fits(effects: Effects)
      reads this
    {
      |effects.grid| == |agentGrid| && |effects.outer| == |agentsInOuterVoxels|
    }

    constructor ()
      ensures agentGrid == [] && agentsInOuterVoxels == []
      ensures cellsReadyToDivide == {} && cellsReadyToDie == {}
      ensures !initialized
      ensures numDivisionsInCurrentStep == 0 && numDeathsInCurrentStep == 0
      ensures lastCellCycleTime == 0.0 && lastMechanicsTime == 0.0
    {
      agentGrid := [];
      agentsInOuterVoxels := [];
      cellsReadyToDivide := {};
      cellsReadyToDie := {};
      initialized := false;
      boundingBox := BoundingBox(0.0, 0.0, 0.0, 0.0, 0.0, 0.0);
      maxCellInteractiveDistanceInVoxel := [];
      numDivisionsInCurrentStep := 0;
      numDeathsInCurrentStep := 0;
      lastCellCycleTime := 0.0;
      lastMechanicsTime := 0.0;
    }

    /**
     * Lays the container out over a mesh with bounding box `box` and
     * `voxelCount` voxels: one empty set per voxel, six empty outer buckets,
     * empty deferred sets.
     */
    method Initialize(box: BoundingBox, voxelCount: nat)
      modifies this
      ensures Valid()
      ensures |agentGrid| == voxelCount
      ensures forall i :: 0 <= i < voxelCount ==> agentGrid[i] == {}
      ensures |agentsInOuterVoxels| == 6
      ensures forall k :: 0 <= k < 6 ==> agentsInOuterVoxels[k] == {}
      ensures maxCellInteractiveDistanceInVoxel == seq(voxelCount, _ => 0.0)
      ensures cellsReadyToDivide == {} && cellsReadyToDie == {}
      ensures boundingBox == box
      ensures initialized == old(initialized)
      ensures numDivisionsInCurrentStep == old(numDivisionsInCurrentStep)
      ensures numDeathsInCurrentStep == old(numDeathsInCurrentStep)
      ensures lastCellCycleTime == old(lastCellCycleTime)
      ensures lastMechanicsTime == old(lastMechanicsTime)
    {
      cellsReadyToDivide := {};
      cellsReadyToDie := {};
      boundingBox := box;
      var grid: seq<set<Cell>> := [];
      for i := 0 to voxelCount
        invariant |grid| == i
        invariant forall k :: 0 <= k < i ==> grid[k] == {}
      {
        grid := grid + [{}];
      }
      agentGrid := grid;
      maxCellInteractiveDistanceInVoxel := seq(voxelCount, _ => 0.0);
      var outer: seq<set<Cell>> := [];
      for i := 0 to 6
        invariant |outer| == i
        invariant forall k :: 0 <= k < i ==> outer[k] == {}
      {
        outer := outer + [{}];
      }
      agentsInOuterVoxels := outer;
    }

    /** Voxel `i` holds at least one agent. */
    function ContainAnyCell(i: nat): (r: bool)
      reads this
      requires i < |agentGrid|
      ensures r <==> exists a :: a in agentGrid[i]
    {
      |agentGrid[i]| != 0
    }

    /** Files an agent under the voxel it currently occupies. */
    method RegisterAgent(agent: Cell)
      requires Valid()
      requires 0 <= agent.voxelIndex < |agentGrid|
      modifies this
      ensures Valid()
      ensures agentGrid == old(agentGrid)[agent.voxelIndex := old(agentGrid)[agent.voxelIndex] + {agent}]
      ensures ContainAnyCell(agent.voxelIndex)
      ensures old(agent in agentGrid[agent.voxelIndex]) ==> agentGrid == old(agentGrid)
      ensures agentsInOuterVoxels == old(agentsInOuterVoxels)
      ensures maxCellInteractiveDistanceInVoxel == old(maxCellInteractiveDistanceInVoxel)
      ensures cellsReadyToDivide == old(cellsReadyToDivide) && cellsReadyToDie == old(cellsReadyToDie)
      ensures initialized == old(initialized) && boundingBox == old(boundingBox)
      ensures numDivisionsInCurrentStep == old(numDivisionsInCurrentStep)
      ensures numDeathsInCurrentStep == old(numDeathsInCurrentStep)
      ensures lastCellCycleTime == old(lastCellCycleTime) && lastMechanicsTime == old(lastMechanicsTime)
    {
      AddAgentToVoxel(agent, agent.voxelIndex);
    }

    /** Files an agent under voxel `voxelIndex`; filing it twice changes nothing. */
    method AddAgentToVoxel(agent: Cell, voxelIndex: int)
      requires Valid()
      requires 0 <= voxelIndex < |agentGrid|
      modifies this
      ensures Valid()
      ensures agentGrid == old(agentGrid)[voxelIndex := old(agentGrid)[voxelIndex] + {agent}]
      ensures agent in agentGrid[voxelIndex]
      ensures old(agent in agentGrid[voxelIndex]) ==> agentGrid == old(agentGrid)
      ensures agentsInOuterVoxels == old(agentsInOuterVoxels)
      ensures maxCellInteractiveDistanceInVoxel == old(maxCellInteractiveDistanceInVoxel)
      ensures cellsReadyToDivide == old(cellsReadyToDivide) && cellsReadyToDie == old(cellsReadyToDie)
      ensures initialized == old(initialized) && boundingBox == old(boundingBox)
      ensures numDivisionsInCurrentStep == old(numDivisionsInCurrentStep)
      ensures numDeathsInCurrentStep == old(numDeathsInCurrentStep)
      ensures lastCellCycleTime == old(lastCellCycleTime) && lastMechanicsTime == old(lastMechanicsTime)
    {
      if agent in agentGrid[voxelIndex] {
        assert agentGrid[voxelIndex] + {agent} == agentGrid[voxelIndex];
      }
      agentGrid := agentGrid[voxelIndex := agentGrid[voxelIndex] + {agent}];
    }

    /** Removes an agent from the voxel it currently occupies. */
    method RemoveAgent(agent: Cell)
      requires Valid()
      requires agent.voxelIndex < |agentGrid|
      modifies this
      ensures Valid()
      ensures agent.voxelIndex < 0 ==> agentGrid == old(agentGrid)
      ensures 0 <= agent.voxelIndex ==>
        agentGrid == old(agentGrid)[agent.voxelIndex := old(agentGrid)[agent.voxelIndex] - {agent}]
      ensures agentsInOuterVoxels == old(agentsInOuterVoxels)
      ensures maxCellInteractiveDistanceInVoxel == old(maxCellInteractiveDistanceInVoxel)
      ensures cellsReadyToDivide == old(cellsReadyToDivide) && cellsReadyToDie == old(cellsReadyToDie)
      ensures initialized == old(initialized) && boundingBox == old(boundingBox)
      ensures numDivisionsInCurrentStep == old(numDivisionsInCurrentStep)
      ensures numDeathsInCurrentStep == old(numDeathsInCurrentStep)
      ensures lastCellCycleTime == old(lastCellCycleTime) && lastMechanicsTime == old(lastMechanicsTime)
    {
      RemoveAgentFromVoxel(agent, agent.voxelIndex);
    }

    /**
     * Removes an agent from voxel `voxelIndex`; a negative index (an agent
     * that is in no voxel) changes nothing.
     */
    method RemoveAgentFromVoxel(agent: Cell, voxelIndex: int)
      requires Valid()
      requires voxelIndex < |agentGrid|
      modifies this
      ensures Valid()
      ensures voxelIndex < 0 ==> agentGrid == old(agentGrid)
      ensures 0 <= voxelIndex ==>
        agentGrid == old(agentGrid)[voxelIndex := old(agentGrid)[voxelIndex] - {agent}]
      ensures 0 <= voxelIndex ==> agent !in agentGrid[voxelIndex]
      ensures agentsInOuterVoxels == old(agentsInOuterVoxels)
      ensures maxCellInteractiveDistanceInVoxel == old(maxCellInteractiveDistanceInVoxel)
      ensures cellsReadyToDivide == old(cellsReadyToDivide) && cellsReadyToDie == old(cellsReadyToDie)
      ensures initialized == old(initialized) && boundingBox == old(boundingBox)
      ensures numDivisionsInCurrentStep == old(numDivisionsInCurrentStep)
      ensures numDeathsInCurrentStep == old(numDeathsInCurrentStep)
      ensures lastCellCycleTime == old(lastCellCycleTime) && lastMechanicsTime == old(lastMechanicsTime)
    {
      if voxelIndex < 0 {
        return;
      }
      agentGrid := agentGrid[voxelIndex := agentGrid[voxelIndex] - {agent}];
    }

    /**
     * Files an agent that has left the domain under the bucket of the face it
     * escaped through and marks it out of domain. The source indexes the
     * bucket list with the face index, so an agent strictly inside the domain
     * must not be passed.
     */
    method AddAgentToOuterVoxel(agent: Cell)
      requires Valid()
      requires FindEscapingFace(agent.position, boundingBox).Some?
      modifies this, agent
      ensures Valid()
      ensures
        var k := FaceIndex(old(FindEscapingFace(agent.position, boundingBox)).value);
        agentsInOuterVoxels == old(agentsInOuterVoxels)[k := old(agentsInOuterVoxels)[k] + {agent}]
      ensures agent.isOutOfDomain
      ensures agent.position == old(agent.position) && agent.voxelIndex == old(agent.voxelIndex)
      ensures agent.isMovable == old(agent.isMovable)
      ensures agent.needsIntracellularUpdate == old(agent.needsIntracellularUpdate)
      ensures agent.hasContactFunction == old(agent.hasContactFunction)
      ensures agent.hasCustomRule == old(agent.hasCustomRule)
      ensures agent.hasVelocityUpdate == old(agent.hasVelocityUpdate)
      ensures agentGrid == old(agentGrid) && boundingBox == old(boundingBox)
      ensures maxCellInteractiveDistanceInVoxel == old(maxCellInteractiveDistanceInVoxel)
      ensures cellsReadyToDivide == old(cellsReadyToDivide) && cellsReadyToDie == old(cellsReadyToDie)
      ensures initialized == old(initialized)
      ensures numDivisionsInCurrentStep == old(numDivisionsInCurrentStep)
      ensures numDeathsInCurrentStep == old(numDeathsInCurrentStep)
      ensures lastCellCycleTime == old(lastCellCycleTime) && lastMechanicsTime == old(lastMechanicsTime)
    {
      var k := FaceIndex(FindEscapingFace(agent.position, boundingBox).value);
      agentsInOuterVoxels := agentsInOuterVoxels[k := agentsInOuterVoxels[k] + {agent}];
      agent.isOutOfDomain := true;
    }

    /** Queues a cell for division; a cell is queued at most once. */
    method FlagCellForDivision(cell: Cell)
      modifies this
      ensures cellsReadyToDivide == old(cellsReadyToDivide) + {cell}
      ensures |cellsReadyToDivide| == |old(cellsReadyToDivide)| + (if cell in old(cellsReadyToDivide) then 0 else 1)
      ensures cellsReadyToDie == old(cellsReadyToDie)
      ensures agentGrid == old(agentGrid) && agentsInOuterVoxels == old(agentsInOuterVoxels)
      ensures maxCellInteractiveDistanceInVoxel == old(maxCellInteractiveDistanceInVoxel)
      ensures initialized == old(initialized) && boundingBox == old(boundingBox)
      ensures numDivisionsInCurrentStep == old(numDivisionsInCurrentStep)
      ensures numDeathsInCurrentStep == old(numDeathsInCurrentStep)
      ensures lastCellCycleTime == old(lastCellCycleTime) && lastMechanicsTime == old(lastMechanicsTime)
    {
      AddOneCardinality(cellsReadyToDivide, cell);
      cellsReadyToDivide := cellsReadyToDivide + {cell};
    }

    /** Queues a cell for removal; a cell is queued at most once. */
    method FlagCellForRemoval(cell: Cell)
      modifies this
      ensures cellsReadyToDie == old(cellsReadyToDie) + {cell}
      ensures |cellsReadyToDie| == |old(cellsReadyToDie)| + (if cell in old(cellsReadyToDie) then 0 else 1)
      ensures cellsReadyToDivide == old(cellsReadyToDivide)
      ensures agentGrid == old(agentGrid) && agentsInOuterVoxels == old(agentsInOuterVoxels)
      ensures maxCellInteractiveDistanceInVoxel == old(maxCellInteractiveDistanceInVoxel)
      ensures initialized == old(initialized) && boundingBox == old(boundingBox)
      ensures numDivisionsInCurrentStep == old(numDivisionsInCurrentStep)
      ensures numDeathsInCurrentStep == old(numDeathsInCurrentStep)
      ensures lastCellCycleTime == old(lastCellCycleTime) && lastMechanicsTime == old(lastMechanicsTime)
    {
      AddOneCardinality(cellsReadyToDie, cell);
      cellsReadyToDie := cellsReadyToDie + {cell};
    }

    /**
     * The phenotype block of a step. It runs on the first call or when its
     * interval is due; the elapsed time handed to the agents is forced to the
     * nominal interval on the first call. The bundled phenotype functions
     * queue cells through the flag methods (`effects.divide`, `effects.die`);
     * then every queued cell is divided, every cell queued for removal dies,
     * the step counters grow by the sizes of the two sets, and both sets are
     * cleared. The divisions and deaths register and unregister agents; the
     * registry they leave is `effects.grid` and `effects.outer`.
     */
    method PhenotypeBlock(agents: set<Cell>, t: real, phenotypeDt: real, effects: Effects)
      returns (ran: bool, elapsed: real, advanced: set<Cell>, divided: seq<Cell>, died: seq<Cell>)
      modifies this, agents
      ensures ran == (!initialized || IntervalDue(t - old(lastCellCycleTime), phenotypeDt))
      ensures elapsed == if initialized then t - old(lastCellCycleTime) else phenotypeDt
      ensures advanced == if ran then old(InDomain(agents)) else {}
      ensures ran ==> multiset(divided) == multiset(old(cellsReadyToDivide) + effects.divide)
      ensures ran ==> multiset(died) == multiset(old(cellsReadyToDie) + effects.die)
      ensures !ran ==> divided == [] && died == []
      ensures numDivisionsInCurrentStep == old(numDivisionsInCurrentStep) +
        (if ran then |old(cellsReadyToDivide) + effects.divide| else 0)
      ensures numDeathsInCurrentStep == old(numDeathsInCurrentStep) +
        (if ran then |old(cellsReadyToDie) + effects.die| else 0)
      ensures cellsReadyToDivide == if ran then {} else old(cellsReadyToDivide)
      ensures cellsReadyToDie == if ran then {} else old(cellsReadyToDie)
      ensures lastCellCycleTime == if ran then t else old(lastCellCycleTime)
      ensures lastMechanicsTime == old(lastMechanicsTime) && initialized == old(initialized)
      ensures !ran ==> unchanged(agents)
      ensures agentGrid == if ran then effects.grid else old(agentGrid)
      ensures agentsInOuterVoxels == if ran then effects.outer else old(agentsInOuterVoxels)
      ensures boundingBox == old(boundingBox)
      ensures maxCellInteractiveDistanceInVoxel == old(maxCellInteractiveDistanceInVoxel)
    {
      elapsed := t - lastCellCycleTime;
      ran := IntervalDue(elapsed, phenotypeDt) || !initialized;
      advanced, divided, died := {}, [], [];
      if ran {
        if !initialized {
          elapsed := phenotypeDt;
        }
        advanced := InDomain(agents);
        divided, died := ProcessDividesAndRemoves(effects);
        lastCellCycleTime := t;
      }
    }

    /**
     * The end of the phenotype block: the cells queued by the bundled
     * phenotype functions join the deferred sets; every cell queued for
     * division divides and every cell queued for removal dies, each once;
     * the step counters grow by the sizes of the two sets, and both sets are
     * cleared. The registry becomes what the divisions and deaths leave.
     */
    method ProcessDividesAndRemoves(effects: Effects) returns (divided: seq<Cell>, died: seq<Cell>)
      modifies this
      ensures multiset(divided) == multiset(old(cellsReadyToDivide) + effects.divide)
      ensures multiset(died) == multiset(old(cellsReadyToDie) + effects.die)
      ensures numDivisionsInCurrentStep == old(numDivisionsInCurrentStep) + |old(cellsReadyToDivide) + effects.divide|
      ensures numDeathsInCurrentStep == old(numDeathsInCurrentStep) + |old(cellsReadyToDie) + effects.die|
      ensures cellsReadyToDivide == {} && cellsReadyToDie == {}
      ensures agentGrid == effects.grid && agentsInOuterVoxels == effects.outer
      ensures lastCellCycleTime == old(lastCellCycleTime) && lastMechanicsTime == old(lastMechanicsTime)
      ensures initialized == old(initialized) && boundingBox == old(boundingBox)
      ensures maxCellInteractiveDistanceInVoxel == old(maxCellInteractiveDistanceInVoxel)
    {
      var toDivide := cellsReadyToDivide + effects.divide;
      var toDie := cellsReadyToDie + effects.die;
      divided := FlushOrder(toDivide);
      died := FlushOrder(toDie);
      numDivisionsInCurrentStep := numDivisionsInCurrentStep + |toDivide|;
      numDeathsInCurrentStep := numDeathsInCurrentStep + |toDie|;
      agentGrid, agentsInOuterVoxels := effects.grid, effects.outer;
      cellsReadyToDivide, cellsReadyToDie := {}, {};
    }

    /**
     * The mechanics block of a step, gated like the phenotype block by its
     * own interval and last-run time. The contact, custom-rule, velocity,
     * spring and interaction passes queue cells through the flag methods
     * (`effects.divide`, `effects.die`); after the interaction pass every cell
     * queued for removal dies and the removal set is cleared, without touching
     * the counters. Those deaths and the re-registration of every moved agent
     * leave the registry `effects.grid` and `effects.outer`.
     *
     * `agents` is the population when the block starts; the spring-attachment
     * and interaction passes visit all of it. The position update and the
     * re-registration visit the population after the removals,
     * `effects.population`. Each gate reads the agents' flags as they stand
     * when the block starts.
     */
    method MechanicsBlock(agents: set<Cell>, t: real, mechanicsDt: real, effects: Effects)
      returns (ran: bool, elapsed: real, contacts: set<Cell>, customRules: set<Cell>,
               velocities: set<Cell>, springAttaching: set<Cell>, elasticSprings: set<Cell>,
               interacting: set<Cell>, cleared: seq<Cell>, moved: set<Cell>)
      modifies this, agents, effects.population
      ensures ran == (!initialized || IntervalDue(t - old(lastMechanicsTime), mechanicsDt))
      ensures elapsed == if initialized then t - old(lastMechanicsTime) else mechanicsDt
      ensures contacts == if ran then old(WithContactFunction(agents)) else {}
      ensures customRules == if ran then old(WithCustomRule(agents)) else {}
      ensures velocities == if ran
        then old(WithVelocityUpdate(agents)) else {}
      ensures springAttaching == if ran then agents else {}
      ensures elasticSprings == if ran then old(MovableAgents(agents)) else {}
      ensures interacting == if ran then agents else {}
      ensures moved == if ran then old(MovableInDomain(effects.population)) else {}
      ensures ran ==> multiset(cleared) == multiset(old(cellsReadyToDie) + effects.die)
      ensures !ran ==> cleared == []
      ensures cellsReadyToDivide == old(cellsReadyToDivide) + (if ran then effects.divide else {})
      ensures cellsReadyToDie == if ran then {} else old(cellsReadyToDie)
      ensures lastMechanicsTime == if ran then t else old(lastMechanicsTime)
      ensures lastCellCycleTime == old(lastCellCycleTime) && initialized == old(initialized)
      ensures numDivisionsInCurrentStep == old(numDivisionsInCurrentStep)
      ensures numDeathsInCurrentStep == old(numDeathsInCurrentStep)
      ensures agentGrid == if ran then effects.grid else old(agentGrid)
      ensures agentsInOuterVoxels == if ran then effects.outer else old(agentsInOuterVoxels)
      ensures boundingBox == old(boundingBox)
      ensures maxCellInteractiveDistanceInVoxel == old(maxCellInteractiveDistanceInVoxel)
    {
      elapsed := t - lastMechanicsTime;
      ran := IntervalDue(elapsed, mechanicsDt) || !initialized;
      contacts, customRules, velocities, springAttaching, elasticSprings, interacting, cleared, moved :=
        {}, {}, {}, {}, {}, {}, [], {};
      if ran {
        if !initialized {
          elapsed := mechanicsDt;
        }
        contacts := WithContactFunction(agents);
        customRules := WithCustomRule(agents);
        velocities := WithVelocityUpdate(agents);
        springAttaching := agents;
        elasticSprings := MovableAgents(agents);
        interacting := agents;
        var toDie := cellsReadyToDie + effects.die;
        if |toDie| > 0 {
          cleared := FlushOrder(toDie);
        }
        moved := MovableInDomain(effects.population);
        cellsReadyToDivide, cellsReadyToDie := cellsReadyToDivide + effects.divide, {};
        agentGrid, agentsInOuterVoxels := effects.grid, effects.outer;
        lastMechanicsTime := t;
      }
    }

    /**
     * One simulation step at time `t` over the population `agents`: the
     * secretion pass on every in-domain agent, the intracellular pass (from
     * the second call on), the phenotype block and the mechanics block; the
     * container is marked initialized afterwards.
     *
     * The per-agent callbacks are not part of this model; what they do to the
     * container is given as `phenotypeEffects` (the cells the bundled phenotype
     * pass queues, and the registry after the divisions and deaths) and
     * `mechanicsEffects` (the cells the mechanics and interaction passes
     * queue, and the registry after the deaths and re-registrations). The
     * callbacks move agents between voxels and buckets but never resize them.
     * The secretion and intracellular passes do not touch the container.
     *
     * The mechanics block runs over the population the phenotype block
     * leaves. The callbacks may change any agent, so the step promises
     * nothing about agents' fields afterwards; the mechanics gates read the
     * flags as they stand when that block starts, which are the flags at the
     * start of the step only when the phenotype block did not run.
     */
    method UpdateAllCells(agents: set<Cell>, t: real, phenotypeDt: real, mechanicsDt: real,
                          phenotypeEffects: Effects, mechanicsEffects: Effects)
      returns (tick: Tick)
      requires Valid()
      requires Fits(phenotypeEffects) && Fits(mechanicsEffects)
      modifies this, agents, phenotypeEffects.population, mechanicsEffects.population
      ensures Valid()
      ensures agentGrid ==
        if tick.mechanicsRan then mechanicsEffects.grid
        else if tick.phenotypeRan then phenotypeEffects.grid
        else old(agentGrid)
      ensures agentsInOuterVoxels ==
        if tick.mechanicsRan then mechanicsEffects.outer
        else if tick.phenotypeRan then phenotypeEffects.outer
        else old(agentsInOuterVoxels)
      ensures boundingBox == old(boundingBox)
      ensures maxCellInteractiveDistanceInVoxel == old(maxCellInteractiveDistanceInVoxel)
      ensures initialized
      ensures tick.secreting == old(InDomain(agents))
      ensures tick.intracellular ==
        if old(initialized) then old(NeedingIntracellularUpdate(agents)) else {}
      // the phenotype block
      ensures tick.phenotypeRan ==
        (!old(initialized) || IntervalDue(t - old(lastCellCycleTime), phenotypeDt))
      ensures tick.phenotypeElapsed ==
        if old(initialized) then t - old(lastCellCycleTime) else phenotypeDt
      ensures tick.phenotypeAdvanced ==
        if tick.phenotypeRan then old(InDomain(agents)) else {}
      ensures tick.phenotypeRan ==>
        multiset(tick.divided) == multiset(old(cellsReadyToDivide) + phenotypeEffects.divide)
      ensures tick.phenotypeRan ==>
        multiset(tick.died) == multiset(old(cellsReadyToDie) + phenotypeEffects.die)
      ensures !tick.phenotypeRan ==> tick.divided == [] && tick.died == []
      ensures numDivisionsInCurrentStep == old(numDivisionsInCurrentStep) +
        (if tick.phenotypeRan then |old(cellsReadyToDivide) + phenotypeEffects.divide| else 0)
      ensures numDeathsInCurrentStep == old(numDeathsInCurrentStep) +
        (if tick.phenotypeRan then |old(cellsReadyToDie) + phenotypeEffects.die| else 0)
      ensures lastCellCycleTime == if tick.phenotypeRan then t else old(lastCellCycleTime)
      // the mechanics block
      ensures tick.mechanicsRan ==
        (!old(initialized) || IntervalDue(t - old(lastMechanicsTime), mechanicsDt))
      ensures tick.mechanicsElapsed ==
        if old(initialized) then t - old(lastMechanicsTime) else mechanicsDt
      ensures var population := if tick.phenotypeRan then phenotypeEffects.population else agents;
        && tick.springAttaching == (if tick.mechanicsRan then population else {})
        && tick.interacting == (if tick.mechanicsRan then population else {})
      ensures tick.contacts <= tick.springAttaching && tick.customRules <= tick.springAttaching
      ensures tick.velocities <= tick.springAttaching && tick.elasticSprings <= tick.springAttaching
      ensures tick.moved <= if tick.mechanicsRan then mechanicsEffects.population else {}
      ensures !tick.phenotypeRan ==>
        tick.contacts == if tick.mechanicsRan then old(WithContactFunction(agents)) else {}
      ensures !tick.phenotypeRan ==>
        tick.customRules == if tick.mechanicsRan then old(WithCustomRule(agents)) else {}
      ensures !tick.phenotypeRan ==>
        tick.velocities == if tick.mechanicsRan then old(WithVelocityUpdate(agents)) else {}
      ensures !tick.phenotypeRan ==>
        tick.elasticSprings == if tick.mechanicsRan then old(MovableAgents(agents)) else {}
      ensures !tick.phenotypeRan ==>
        tick.moved == if tick.mechanicsRan then old(MovableInDomain(mechanicsEffects.population)) else {}
      ensures tick.mechanicsRan ==>
        multiset(tick.clearedAfterInteractions) ==
        multiset((if tick.phenotypeRan then {} else old(cellsReadyToDie)) + mechanicsEffects.die)
      ensures !tick.mechanicsRan ==> tick.clearedAfterInteractions == []
      ensures lastMechanicsTime == if tick.mechanicsRan then t else old(lastMechanicsTime)
      // the deferred sets afterwards
      ensures cellsReadyToDivide ==
        (if tick.phenotypeRan then {} else old(cellsReadyToDivide)) +
        (if tick.mechanicsRan then mechanicsEffects.divide else {})
      ensures cellsReadyToDie ==
        if tick.phenotypeRan || tick.mechanicsRan then {} else old(cellsReadyToDie)
    {
      var secreting := InDomain(agents);
      var intracellular := if initialized then NeedingIntracellularUpdate(agents) else {};
      var phenotypeRan, phenotypeElapsed, advanced, divided, died :=
        PhenotypeBlock(agents, t, phenotypeDt, phenotypeEffects);
      var population := if phenotypeRan then phenotypeEffects.population else agents;
      var mechanicsRan, mechanicsElapsed, contacts, customRules, velocities, springAttaching, elasticSprings,
          interacting, cleared, moved := MechanicsBlock(population, t, mechanicsDt, mechanicsEffects);
      tick := Tick(secreting, intracellular, phenotypeRan, phenotypeElapsed, advanced, divided, died,
                   mechanicsRan, mechanicsElapsed, contacts, customRules, velocities, springAttaching,
                   elasticSprings, interacting, cleared, moved);
      initialized := true;
    }
  }

  /** Adding an element grows a set by one exactly when it was absent. */
  lemma AddOneCardinality<T>(s: set<T>, x: T)
    ensures |s + {x}| == |s| + (if x in s then 0 else 1)
  {
    if x in s {
      assert s + {x} == s;
    } else {
      assert (s + {x}) - {x} == s;
    }
  }
}
