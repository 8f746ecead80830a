/** The economy wired from the engine's nodes: nine commodities, the
    electric, water and agri industries, their demand lines and the
    fulfillments read from the electric and water distributions, the initial
    bindings, and the module state that `optimize` replaces. */
module Economy {
  import opened WaterFill
  import opened Graph
  import opened Engine
  import opened Optimizer

  /** The three nodes `commodity` creates. */
  datatype Commodity = Commodity(availability: nat, efficiency: nat, potential: nat)

  /** The four nodes `industry` creates, with the potential-production node
      it was given. */
  datatype Industry = Industry(demand: nat, production: nat, distribution: nat, demandMet: nat, potential: nat)

  /** The nodes `commodity` appends when the graph holds `first` nodes. */
  function CommodityNodes(first: nat): seq<Node> {
    [Variable(true), Variable(true), Multiply(true, first, first + 1)]
  }

  /** `commodity(name)`: two Variables and their product. */
  method NewCommodity(arena: Arena) returns (c: Commodity)
    requires arena.Valid()
    modifies arena
    ensures arena.Valid()
    ensures c == Commodity(|old(arena.nodes)|, |old(arena.nodes)| + 1, |old(arena.nodes)| + 2)
    ensures arena.nodes == old(arena.nodes) + CommodityNodes(|old(arena.nodes)|)
    ensures arena.rank == old(arena.rank) + [0, 0, 1]
  {
    var availability := arena.New(Variable(true), 0);
    var efficiency := arena.New(Variable(true), 0);
    var potential := arena.New(Multiply(true, availability, efficiency), 1);
    c := Commodity(availability, efficiency, potential);
  }

  /** The nodes `industry` appends when the graph holds `demand` nodes. */
  function IndustryNodes(demand: nat, potential: nat): seq<Node> {
    [Add(true, []), Min(true, demand, potential), Distribution(true, demand + 1, demand), Divide(true, potential, demand)]
  }

  /** `industry(name, potential)`: an empty demand Add, production as the
      smaller of demand and potential, the Distribution of production over the
      demand lines, and demandMet as potential/demand. `level` is the rank the
      demand node will hold once its lines are included. */
  method NewIndustry(arena: Arena, potential: nat, ghost level: nat) returns (ind: Industry)
    requires arena.Valid() && potential < |arena.nodes| && arena.rank[potential] <= level
    modifies arena
    ensures arena.Valid()
    ensures var n := |old(arena.nodes)|; ind == Industry(n, n + 1, n + 2, n + 3, potential)
    ensures arena.nodes == old(arena.nodes) + IndustryNodes(ind.demand, potential)
    ensures arena.rank == old(arena.rank) + [level, level + 1, level + 2, level + 1]
  {
    var demand := arena.New(Add(true, []), level);
    var production := arena.New(Min(true, demand, potential), level + 1);
    var distribution := arena.New(Distribution(true, production, demand), level + 2);
    var demandMet := arena.New(Divide(true, potential, demand), level + 1);
    ind := Industry(demand, production, distribution, demandMet, potential);
  }

  /* The economy's nodes, built in the order of the module's top level.
     Ids:  0 population; 1-27 coal, grain, meat, nuclear, oil, solar, water,
     waterrecycle and wind (availability, efficiency, potential each);
     28 ElectricPotentialProduction, 29-32 the electric industry; 33
     WaterPotentialProduction, 34-37 the water industry, 38-42 the water lines
     from population and AI; 43-46 the electric lines from water and
     population; 47 AgriPotentialProduction, 48-51 the agri industry, 52-53 its
     line from population; 54-55 the water line from agriculture; 56-58 the
     electric fulfillments and their total; 59-62 the water fulfillments and
     their total. Each constant below is the graph after one block of the
     source; an `include` is an update of the demand Add. */

  const CommodityLayer: seq<Node> :=
    [Variable(true)] + CommodityNodes(1) + CommodityNodes(4) + CommodityNodes(7) + CommodityNodes(10)
    + CommodityNodes(13) + CommodityNodes(16) + CommodityNodes(19) + CommodityNodes(22) + CommodityNodes(25)
  const CommodityRanks: seq<nat> :=
    [0] + [0, 0, 1] + [0, 0, 1] + [0, 0, 1] + [0, 0, 1] + [0, 0, 1] + [0, 0, 1] + [0, 0, 1] + [0, 0, 1] + [0, 0, 1]

  const ElectricLayer: seq<Node> := CommodityLayer + [Add(true, [27, 18, 12, 15, 3])] + IndustryNodes(29, 28)
  const ElectricRanks: seq<nat> := CommodityRanks + [2] + [6, 7, 8, 7]

  const WaterIndustryLayer: seq<Node> := ElectricLayer + [Add(true, [21, 24])] + IndustryNodes(34, 33)
  const WaterIndustryRanks: seq<nat> := ElectricRanks + [2] + [4, 5, 6, 5]

  const WaterLayer: seq<Node> := (WaterIndustryLayer
    + [Constant(true, 2.0)] + [Multiply(true, 0, 38)]
    + [Constant(true, 10.0)] + [Constant(true, 2.0)] + [Multiply(true, 40, 41)])[34 := Add(true, [39, 42])]
  const WaterRanks: seq<nat> := WaterIndustryRanks + [0] + [1] + [0] + [0] + [1]

  const ElectricLineLayer: seq<Node> := (WaterLayer
    + [Constant(true, 5.0)] + [Multiply(true, 34, 43)]
    + [Constant(true, 3.0)] + [Multiply(true, 0, 45)])[29 := Add(true, [44, 46])]
  const ElectricLineRanks: seq<nat> := WaterRanks + [0] + [5] + [0] + [1]

  const AgriLayer: seq<Node> := (ElectricLineLayer + [Add(true, [9, 6])] + IndustryNodes(48, 47)
    + [Constant(true, 5.0)] + [Multiply(true, 0, 52)])[48 := Add(true, [53])]
  const AgriRanks: seq<nat> := ElectricLineRanks + [2] + [2, 3, 4, 3] + [0] + [1]

  const AgriWaterLayer: seq<Node> :=
    (AgriLayer + [Constant(true, 2.0)] + [Multiply(true, 48, 54)])[34 := Add(true, [39, 42, 55])]
  const AgriWaterRanks: seq<nat> := AgriRanks + [0] + [3]

  const ElectricFulfillmentLayer: seq<Node> := AgriWaterLayer
    + [Fulfillment(true, 44, 31)] + [Fulfillment(true, 46, 31)] + [Add(true, [56, 57])]
  const ElectricFulfillmentRanks: seq<nat> := AgriWaterRanks + [9] + [9] + [10]

  const EconomyNodes: seq<Node> := ElectricFulfillmentLayer
    + [Fulfillment(true, 39, 36)] + [Fulfillment(true, 42, 36)] + [Fulfillment(true, 55, 36)]
    + [Add(true, [59, 60, 61])]
  const EconomyRanks: seq<nat> := ElectricFulfillmentRanks + [7] + [7] + [7] + [8]

  const Population: nat := 0
  const Coal := Commodity(1, 2, 3)
  const Grain := Commodity(4, 5, 6)
  const Meat := Commodity(7, 8, 9)
  const Nuclear := Commodity(10, 11, 12)
  const Oil := Commodity(13, 14, 15)
  const Solar := Commodity(16, 17, 18)
  const Water := Commodity(19, 20, 21)
  const WaterRecycle := Commodity(22, 23, 24)
  const Wind := Commodity(25, 26, 27)
  const Electric := Industry(29, 30, 31, 32, 28)
  const WaterSupply := Industry(34, 35, 36, 37, 33)
  const Agri := Industry(48, 49, 50, 51, 47)
  const WaterDemandFromPopulation: nat := 39
  const WaterDemandFromAI: nat := 42
  const ElectricDemandFromWater: nat := 44
  const ElectricDemandFromPopulation: nat := 46
  const AgriDemandFromPopulation: nat := 53
  const WaterDemandFromAgriculture: nat := 55
  const TotalElectricFulfillment: nat := 58
  const TotalWaterFulfillment: nat := 62

  /** `population` and the `commodities` object, in key order. */
  method BuildCommodities(arena: Arena)
    requires arena.Valid() && arena.nodes == []
    modifies arena
    ensures arena.Valid()
    ensures arena.nodes == CommodityLayer
    ensures arena.rank == CommodityRanks
  {
    var population := arena.New(Variable(true), 0);
    var coal := NewCommodity(arena);
    var grain := NewCommodity(arena);
    var meat := NewCommodity(arena);
    var nuclear := NewCommodity(arena);
    var oil := NewCommodity(arena);
    var solar := NewCommodity(arena);
    var water := NewCommodity(arena);
    var waterrecycle := NewCommodity(arena);
    var wind := NewCommodity(arena);
  }

  /** The electric industry over wind, solar, nuclear, oil and coal. */
  method ConfigureElectric(arena: Arena)
    requires arena.Valid() && arena.nodes == CommodityLayer && arena.rank == CommodityRanks
    modifies arena
    ensures arena.Valid()
    ensures arena.nodes == ElectricLayer
    ensures arena.rank == ElectricRanks
  {
    var potential := arena.New(Add(true, [Wind.potential, Solar.potential, Nuclear.potential,
                                          Oil.potential, Coal.potential]), 2);
    var electric := NewIndustry(arena, potential, 6);
  }

  /** The water industry over water and waterrecycle. */
  method ConfigureWater(arena: Arena)
    requires arena.Valid() && arena.nodes == ElectricLayer && arena.rank == ElectricRanks
    modifies arena
    ensures arena.Valid()
    ensures arena.nodes == WaterIndustryLayer
    ensures arena.rank == WaterIndustryRanks
  {
    var potential := arena.New(Add(true, [Water.potential, WaterRecycle.potential]), 2);
    var water := NewIndustry(arena, potential, 4);
  }

  /** The water demand lines from population (coefficient 2) and from AI
      (10 times 2). */
  method WireWaterDemand(arena: Arena)
    requires arena.Valid() && arena.nodes == WaterIndustryLayer && arena.rank == WaterIndustryRanks
    modifies arena
    ensures arena.Valid()
    ensures arena.nodes == WaterLayer
    ensures arena.rank == WaterRanks
  {
    var coefficient := arena.New(Constant(true, 2.0), 0);
    var fromPopulation := arena.New(Multiply(true, Population, coefficient), 1);
    var ai := arena.New(Constant(true, 10.0), 0);
    var aiCoefficient := arena.New(Constant(true, 2.0), 0);
    var fromAI := arena.New(Multiply(true, ai, aiCoefficient), 1);
    assert arena.nodes[WaterSupply.demand] == Add(true, []);
    arena.Include(WaterSupply.demand, [fromPopulation, fromAI]);
    assert [] + [fromPopulation, fromAI] == [39, 42];
  }

  /** The electric demand lines: water demand times 5, population times 3. */
  method WireElectricDemand(arena: Arena)
    requires arena.Valid() && arena.nodes == WaterLayer && arena.rank == WaterRanks
    modifies arena
    ensures arena.Valid()
    ensures arena.nodes == ElectricLineLayer
    ensures arena.rank == ElectricLineRanks
  {
    var coefficient := arena.New(Constant(true, 5.0), 0);
    var fromWater := arena.New(Multiply(true, WaterSupply.demand, coefficient), 5);
    var populationCoefficient := arena.New(Constant(true, 3.0), 0);
    var fromPopulation := arena.New(Multiply(true, Population, populationCoefficient), 1);
    assert arena.nodes[Electric.demand] == Add(true, []);
    arena.Include(Electric.demand, [fromWater, fromPopulation]);
    assert [] + [fromWater, fromPopulation] == [44, 46];
  }

  /** The agri industry over meat and grain, and its line from population
      (coefficient 5). */
  method ConfigureAgri(arena: Arena)
    requires arena.Valid() && arena.nodes == ElectricLineLayer && arena.rank == ElectricLineRanks
    modifies arena
    ensures arena.Valid()
    ensures arena.nodes == AgriLayer
    ensures arena.rank == AgriRanks
  {
    var potential := arena.New(Add(true, [Meat.potential, Grain.potential]), 2);
    var agri := NewIndustry(arena, potential, 2);
    var coefficient := arena.New(Constant(true, 5.0), 0);
    var fromPopulation := arena.New(Multiply(true, Population, coefficient), 1);
    assert arena.nodes[agri.demand] == Add(true, []);
    arena.Include(agri.demand, [fromPopulation]);
    assert [] + [fromPopulation] == [53];
  }

  /** Water demand from agriculture: agri demand times 2. */
  method WireWaterFromAgriculture(arena: Arena)
    requires arena.Valid() && arena.nodes == AgriLayer && arena.rank == AgriRanks
    modifies arena
    ensures arena.Valid()
    ensures arena.nodes == AgriWaterLayer
    ensures arena.rank == AgriWaterRanks
  {
    var coefficient := arena.New(Constant(true, 2.0), 0);
    var fromAgriculture := arena.New(Multiply(true, Agri.demand, coefficient), 3);
    assert arena.nodes[WaterSupply.demand] == Add(true, [39, 42]);
    arena.Include(WaterSupply.demand, [fromAgriculture]);
    assert [39, 42] + [fromAgriculture] == [39, 42, 55];
  }

  /** The fulfillment of each electric line, and their total. */
  method WireElectricFulfillment(arena: Arena)
    requires arena.Valid() && arena.nodes == AgriWaterLayer && arena.rank == AgriWaterRanks
    modifies arena
    ensures arena.Valid()
    ensures arena.nodes == ElectricFulfillmentLayer
    ensures arena.rank == ElectricFulfillmentRanks
  {
    var waterElectric := arena.New(Fulfillment(true, ElectricDemandFromWater, Electric.distribution), 9);
    var populationElectric := arena.New(Fulfillment(true, ElectricDemandFromPopulation, Electric.distribution), 9);
    var totalElectric := arena.New(Add(true, [waterElectric, populationElectric]), 10);
  }

  /** The fulfillment of each water line, and their total. */
  method WireWaterFulfillment(arena: Arena)
    requires arena.Valid() && arena.nodes == ElectricFulfillmentLayer && arena.rank == ElectricFulfillmentRanks
    modifies arena
    ensures arena.Valid()
    ensures arena.nodes == EconomyNodes
    ensures arena.rank == EconomyRanks
  {
    var populationWater := arena.New(Fulfillment(true, WaterDemandFromPopulation, WaterSupply.distribution), 7);
    var aiWater := arena.New(Fulfillment(true, WaterDemandFromAI, WaterSupply.distribution), 7);
    var agricultureWater := arena.New(Fulfillment(true, WaterDemandFromAgriculture, WaterSupply.distribution), 7);
    var totalWater := arena.New(Add(true, [populationWater, aiWater, agricultureWater]), 8);
  }

  /** The module's top level, in source order. */
  method Build(arena: Arena)
    requires arena.Valid() && arena.nodes == []
    modifies arena
    ensures arena.Valid()
    ensures arena.nodes == EconomyNodes
    ensures arena.rank == EconomyRanks
  {
    BuildCommodities(arena);
    ConfigureElectric(arena);
    ConfigureWater(arena);
    WireWaterDemand(arena);
    WireElectricDemand(arena);
    ConfigureAgri(arena);
    WireWaterFromAgriculture(arena);
    WireElectricFulfillment(arena);
    WireWaterFulfillment(arena);
  }

  /** The ids of the economy's Variables: population and every commodity's
      availability and efficiency. */
  const EconomyVariables: set<nat> :=
    {0, 1, 2, 4, 5, 7, 8, 10, 11, 13, 14, 16, 17, 19, 20, 22, 23, 25, 26}

  /** The bindings the module starts with: one person, and each commodity's
      availability and efficiency. */
  function InitialVariables(): (vars: map<nat, real>)
    ensures vars.Keys == EconomyVariables
  {
    map[Population := 1.0,
        Coal.availability := 5000.0, Coal.efficiency := 1.0,
        Nuclear.availability := 1000.0, Nuclear.efficiency := 1.0,
        Oil.availability := 2000.0, Oil.efficiency := 1.0,
        Solar.availability := 100.0, Solar.efficiency := 1.0,
        Water.availability := 1000.0, Water.efficiency := 1.0,
        WaterRecycle.availability := 0.0, WaterRecycle.efficiency := 0.1,
        Wind.availability := 1000.0, Wind.efficiency := 1.0,
        Grain.availability := 1000.0, Grain.efficiency := 1.0,
        Meat.availability := 1000.0, Meat.efficiency := 1.0]
  }

  /** The module itself: the graph built at load time and the bindings
      `optimize` replaces. */
  class Simulation {
    const arena: Arena
    var variables: map<nat, real>

    /** The graph is the economy, and exactly its Variables are bound. */
    ghost predicate Valid()
      reads this, arena
    {
      arena.Valid() && arena.nodes == EconomyNodes && variables.Keys == EconomyVariables
    }

    /** Loading the module: build the graph, bind the initial values. */
    constructor ()
      ensures Valid() && fresh(arena) && variables == InitialVariables()
    {
      arena := new Arena();
      variables := InitialVariables();
      new;
      Build(arena);
    }

    /** `execute`: a fresh Execution of `node` run forward; the caller passes
        `variables` for the default argument. Nothing of the module changes. */
    method Execute(node: nat, vars: map<nat, real>) returns (r: Result<real>)
      requires Valid() && node < |arena.nodes|
      ensures r == Eval(EconomyNodes, vars, node)
    {
      var execution := new Execution(arena, node, vars);
      r := execution.Forward();
    }

    /** `optimize`: one optimization step from the current bindings, which
        then replace them; a step that fails leaves them as they were. */
    method Optimize(operation: nat, target: real, costs: map<nat, real>, maxCost: real)
      returns (r: Result<map<nat, real>>)
      requires Valid() && operation < |arena.nodes| && RankedCosts(arena.nodes, variables, operation, costs)
      modifies this
      ensures Valid()
      ensures r == Step(EconomyNodes, old(variables), operation, target, costs, maxCost)
      ensures variables == if r.Ok? then r.value else old(variables)
    {
      r := Optimizer.Optimize(arena, operation, target, variables, costs, maxCost);
      if r.Ok? {
        StepMovesBest(arena.nodes, variables, operation, target, costs, maxCost);
        variables := r.value;
      }
    }
  }
}
