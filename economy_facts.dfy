/** What the economy's graph computes: each commodity's potential, each
    industry's production and demandMet, and the balance between an
    industry's fulfillments and its production. */
module EconomyFacts {
  import opened WaterFill
  import opened Graph
  import opened Facts
  import opened Economy

  /* The same layers, ranked: the economy graph has no cycle. */

  lemma CommodityStep(g: seq<Node>, rank: seq<nat>)
    requires Ranked(g, rank)
    ensures Ranked(g + CommodityNodes(|g|), rank + [0, 0, 1])
  {
    RankedConcat(g, rank, CommodityNodes(|g|), [0, 0, 1]);
  }

  lemma IndustryStep(g: seq<Node>, rank: seq<nat>, potential: nat, level: nat)
    requires Ranked(g, rank) && potential < |g| && rank[potential] <= level
    ensures Ranked(g + IndustryNodes(|g|, potential), rank + [level, level + 1, level + 2, level + 1])
  {
    RankedConcat(g, rank, IndustryNodes(|g|, potential), [level, level + 1, level + 2, level + 1]);
  }

  lemma CommodityRanked()
    ensures Ranked(CommodityLayer, CommodityRanks)
  {
    RankedConcat([], [], [Variable(true)], [0]);
    var g: seq<Node>, rank: seq<nat> := [Variable(true)], [0];
    CommodityStep(g, rank);
    g, rank := g + CommodityNodes(1), rank + [0, 0, 1];
    CommodityStep(g, rank);
    g, rank := g + CommodityNodes(4), rank + [0, 0, 1];
    CommodityStep(g, rank);
    g, rank := g + CommodityNodes(7), rank + [0, 0, 1];
    CommodityStep(g, rank);
    g, rank := g + CommodityNodes(10), rank + [0, 0, 1];
    CommodityStep(g, rank);
    g, rank := g + CommodityNodes(13), rank + [0, 0, 1];
    CommodityStep(g, rank);
    g, rank := g + CommodityNodes(16), rank + [0, 0, 1];
    CommodityStep(g, rank);
    g, rank := g + CommodityNodes(19), rank + [0, 0, 1];
    CommodityStep(g, rank);
    g, rank := g + CommodityNodes(22), rank + [0, 0, 1];
    CommodityStep(g, rank);
  }

  lemma ElectricRanked()
    ensures Ranked(ElectricLayer, ElectricRanks)
  {
    CommodityRanked();
    RankedConcat(CommodityLayer, CommodityRanks, [Add(true, [27, 18, 12, 15, 3])], [2]);
    IndustryStep(CommodityLayer + [Add(true, [27, 18, 12, 15, 3])], CommodityRanks + [2], 28, 6);
  }

  lemma WaterIndustryRanked()
    ensures Ranked(WaterIndustryLayer, WaterIndustryRanks)
  {
    ElectricRanked();
    RankedConcat(ElectricLayer, ElectricRanks, [Add(true, [21, 24])], [2]);
    IndustryStep(ElectricLayer + [Add(true, [21, 24])], ElectricRanks + [2], 33, 4);
  }

  lemma WaterRanked()
    ensures Ranked(WaterLayer, WaterRanks)
  {
    WaterIndustryRanked();
    var g, rank := WaterIndustryLayer, WaterIndustryRanks;
    RankedConcat(g, rank, [Constant(true, 2.0)], [0]);
    g, rank := g + [Constant(true, 2.0)], rank + [0];
    RankedConcat(g, rank, [Multiply(true, 0, 38)], [1]);
    g, rank := g + [Multiply(true, 0, 38)], rank + [1];
    RankedConcat(g, rank, [Constant(true, 10.0)], [0]);
    g, rank := g + [Constant(true, 10.0)], rank + [0];
    RankedConcat(g, rank, [Constant(true, 2.0)], [0]);
    g, rank := g + [Constant(true, 2.0)], rank + [0];
    RankedConcat(g, rank, [Multiply(true, 40, 41)], [1]);
    g, rank := g + [Multiply(true, 40, 41)], rank + [1];
    assert g[34] == Add(true, []) && [] + [39, 42] == [39, 42];
    RankedInclude(g, rank, 34, [39, 42]);
  }

  lemma ElectricLineRanked()
    ensures Ranked(ElectricLineLayer, ElectricLineRanks)
  {
    WaterRanked();
    var g, rank := WaterLayer, WaterRanks;
    RankedConcat(g, rank, [Constant(true, 5.0)], [0]);
    g, rank := g + [Constant(true, 5.0)], rank + [0];
    RankedConcat(g, rank, [Multiply(true, 34, 43)], [5]);
    g, rank := g + [Multiply(true, 34, 43)], rank + [5];
    RankedConcat(g, rank, [Constant(true, 3.0)], [0]);
    g, rank := g + [Constant(true, 3.0)], rank + [0];
    RankedConcat(g, rank, [Multiply(true, 0, 45)], [1]);
    g, rank := g + [Multiply(true, 0, 45)], rank + [1];
    assert g[29] == Add(true, []) && [] + [44, 46] == [44, 46];
    RankedInclude(g, rank, 29, [44, 46]);
  }

  lemma AgriRanked()
    ensures Ranked(AgriLayer, AgriRanks)
  {
    ElectricLineRanked();
    var g, rank := ElectricLineLayer, ElectricLineRanks;
    RankedConcat(g, rank, [Add(true, [9, 6])], [2]);
    g, rank := g + [Add(true, [9, 6])], rank + [2];
    IndustryStep(g, rank, 47, 2);
    g, rank := g + IndustryNodes(48, 47), rank + [2, 3, 4, 3];
    RankedConcat(g, rank, [Constant(true, 5.0)], [0]);
    g, rank := g + [Constant(true, 5.0)], rank + [0];
    RankedConcat(g, rank, [Multiply(true, 0, 52)], [1]);
    g, rank := g + [Multiply(true, 0, 52)], rank + [1];
    assert g[48] == Add(true, []) && [] + [53] == [53];
    RankedInclude(g, rank, 48, [53]);
  }

  lemma AgriWaterRanked()
    ensures Ranked(AgriWaterLayer, AgriWaterRanks)
  {
    AgriRanked();
    var g, rank := AgriLayer, AgriRanks;
    RankedConcat(g, rank, [Constant(true, 2.0)], [0]);
    g, rank := g + [Constant(true, 2.0)], rank + [0];
    RankedConcat(g, rank, [Multiply(true, 48, 54)], [3]);
    g, rank := g + [Multiply(true, 48, 54)], rank + [3];
    assert g[34] == Add(true, [39, 42]) && [39, 42] + [55] == [39, 42, 55];
    RankedInclude(g, rank, 34, [55]);
  }

  lemma ElectricFulfillmentRanked()
    ensures Ranked(ElectricFulfillmentLayer, ElectricFulfillmentRanks)
  {
    AgriWaterRanked();
    var g, rank := AgriWaterLayer, AgriWaterRanks;
    RankedConcat(g, rank, [Fulfillment(true, 44, 31)], [9]);
    g, rank := g + [Fulfillment(true, 44, 31)], rank + [9];
    RankedConcat(g, rank, [Fulfillment(true, 46, 31)], [9]);
    g, rank := g + [Fulfillment(true, 46, 31)], rank + [9];
    RankedConcat(g, rank, [Add(true, [56, 57])], [10]);
  }

  /** The economy graph has no cycle. */
  lemma EconomyAcyclic()
    ensures Ranked(EconomyNodes, EconomyRanks) && Acyclic(EconomyNodes)
  {
    ElectricFulfillmentRanked();
    var g, rank := ElectricFulfillmentLayer, ElectricFulfillmentRanks;
    RankedConcat(g, rank, [Fulfillment(true, 39, 36)], [7]);
    g, rank := g + [Fulfillment(true, 39, 36)], rank + [7];
    RankedConcat(g, rank, [Fulfillment(true, 42, 36)], [7]);
    g, rank := g + [Fulfillment(true, 42, 36)], rank + [7];
    RankedConcat(g, rank, [Fulfillment(true, 55, 36)], [7]);
    g, rank := g + [Fulfillment(true, 55, 36)], rank + [7];
    RankedConcat(g, rank, [Add(true, [59, 60, 61])], [8]);
  }

  /* What a commodity and an industry compute, in any graph wired the way
     `commodity` and `industry` wire them. */

  predicate CommodityShape(g: seq<Node>, c: Commodity) {
    && c.availability < |g| && c.efficiency < |g| && c.potential < |g|
    && g[c.availability].Variable? && g[c.efficiency].Variable?
    && g[c.potential].Multiply? && g[c.potential].a == c.availability && g[c.potential].b == c.efficiency
  }

  predicate IndustryShape(g: seq<Node>, ind: Industry) {
    && ind.demand < |g| && ind.production < |g| && ind.distribution < |g|
    && ind.demandMet < |g| && ind.potential < |g|
    && g[ind.demand].Add?
    && g[ind.production].Min? && g[ind.production].a == ind.demand && g[ind.production].b == ind.potential
    && g[ind.distribution].Distribution?
    && g[ind.distribution].production == ind.production && g[ind.distribution].demand == ind.demand
    && g[ind.demandMet].Divide? && g[ind.demandMet].a == ind.potential && g[ind.demandMet].b == ind.demand
  }

  /** A commodity's potential production is availability times efficiency;
      an unbound availability is reported first. */
  lemma CommodityPotential(g: seq<Node>, vars: map<nat, real>, c: Commodity)
    requires Acyclic(g) && CommodityShape(g, c)
    ensures Eval(g, vars, c.potential) ==
      if c.availability !in vars then Err(Unbound(c.availability))
      else if c.efficiency !in vars then Err(Unbound(c.efficiency))
      else Ok(vars[c.availability] * vars[c.efficiency])
  {
    assert Eval(g, vars, c.availability) == if c.availability in vars then Ok(vars[c.availability]) else Err(Unbound(c.availability));
    assert Eval(g, vars, c.efficiency) == if c.efficiency in vars then Ok(vars[c.efficiency]) else Err(Unbound(c.efficiency));
    assert Eval(g, vars, c.potential) == EvalBinary(g, vars, c.potential);
    if c.availability in vars && c.efficiency in vars {
      var x, y := vars[c.availability], vars[c.efficiency];
      assert EvalBinary(g, vars, c.potential) == Combine(g[c.potential], c.potential, x, y);
    }
  }

  /** Production is the smaller of demand and potential, and fails exactly
      when one of them does; demandMet is potential over demand, an error
      when demand is zero. */
  lemma IndustryOutputs(g: seq<Node>, vars: map<nat, real>, ind: Industry)
    requires Acyclic(g) && IndustryShape(g, ind)
    ensures Eval(g, vars, ind.production).Ok? <==>
      Eval(g, vars, ind.demand).Ok? && Eval(g, vars, ind.potential).Ok?
    ensures Eval(g, vars, ind.demand).Ok? && Eval(g, vars, ind.potential).Ok? ==>
      var demand, potential := Eval(g, vars, ind.demand).value, Eval(g, vars, ind.potential).value;
      && Eval(g, vars, ind.production) == Ok(MinReal(demand, potential))
      && Eval(g, vars, ind.demandMet) ==
           if demand == 0.0 then Err(DivisionByZero(ind.demandMet)) else Ok(potential / demand)
  {
    assert Eval(g, vars, ind.production) == EvalBinary(g, vars, ind.production);
    assert Eval(g, vars, ind.demandMet) == EvalBinary(g, vars, ind.demandMet);
  }

  /** The demand node sums its lines. */
  lemma DemandTotal(g: seq<Node>, vars: map<nat, real>, demand: nat, amounts: seq<real>)
    requires Acyclic(g) && demand < |g| && g[demand].Add? && |amounts| == |g[demand].inputs|
    requires forall j :: 0 <= j < |amounts| ==>
      g[demand].inputs[j] < |g| && Eval(g, vars, g[demand].inputs[j]) == Ok(amounts[j])
    ensures Eval(g, vars, demand) == Ok(Sum(amounts))
  {
    InputsBelow(g, demand);
    ValuesOk(g, vars, g[demand].inputs, RankOf(g)[demand], amounts);
  }

  /** With non-negative lines and potential, the Fulfillment of line k gets
      the k-th share of min(demand, potential): never below zero, never above
      the line, and the whole line whenever total demand fits the potential. */
  lemma LineServed(g: seq<Node>, vars: map<nat, real>, ind: Industry, f: nat, k: nat, amounts: seq<real>, potential: real)
    requires Acyclic(g) && IndustryShape(g, ind)
    requires |amounts| == |g[ind.demand].inputs| && NonNegative(amounts)
    requires forall j :: 0 <= j < |amounts| ==>
      g[ind.demand].inputs[j] < |g| && Eval(g, vars, g[ind.demand].inputs[j]) == Ok(amounts[j])
    requires forall i, j :: 0 <= i < j < |amounts| ==> g[ind.demand].inputs[i] != g[ind.demand].inputs[j]
    requires Eval(g, vars, ind.potential) == Ok(potential) && 0.0 <= potential
    requires f < |g| && g[f].Fulfillment? && g[f].distribution == ind.distribution
    requires k < |amounts| && g[ind.demand].inputs[k] == g[f].line
    ensures Eval(g, vars, f) == Ok(Shares(MinReal(Sum(amounts), potential), amounts)[k])
    ensures 0.0 <= Eval(g, vars, f).value <= amounts[k]
    ensures Sum(amounts) <= potential ==> Eval(g, vars, f).value == amounts[k]
  {
    var lines := g[ind.demand].inputs;
    InputsBelow(g, ind.demand);
    DemandTotal(g, vars, ind.demand, amounts);
    IndustryOutputs(g, vars, ind);
    SumNonNegative(amounts);
    var available := MinReal(Sum(amounts), potential);
    AllocationsOfLines(g, vars, ind.distribution, available, amounts);
    FulfillmentShare(g, vars, f, ind.distribution, k, available, amounts);
    SharesBounded(available, amounts);
    if Sum(amounts) <= potential {
      FullyServed(available, amounts);
    }
  }

  /** An Add over one Fulfillment per line, in line order, totals the
      industry's production: the walk hands out all of min(demand, potential). */
  lemma IndustryBalance(g: seq<Node>, vars: map<nat, real>, ind: Industry, total: nat, amounts: seq<real>, potential: real)
    requires Acyclic(g) && IndustryShape(g, ind)
    requires |amounts| == |g[ind.demand].inputs| && NonNegative(amounts)
    requires forall j :: 0 <= j < |amounts| ==>
      g[ind.demand].inputs[j] < |g| && Eval(g, vars, g[ind.demand].inputs[j]) == Ok(amounts[j])
    requires forall i, j :: 0 <= i < j < |amounts| ==> g[ind.demand].inputs[i] != g[ind.demand].inputs[j]
    requires Eval(g, vars, ind.potential) == Ok(potential) && 0.0 <= potential
    requires total < |g| && g[total].Add? && |g[total].inputs| == |amounts|
    requires forall j :: 0 <= j < |amounts| ==>
      var f := g[total].inputs[j];
      f < |g| && g[f].Fulfillment? && g[f].distribution == ind.distribution && g[f].line == g[ind.demand].inputs[j]
    ensures Eval(g, vars, total) == Eval(g, vars, ind.production) == Ok(MinReal(Sum(amounts), potential))
  {
    var available := MinReal(Sum(amounts), potential);
    var shares := Shares(available, amounts);
    forall j | 0 <= j < |amounts| ensures Eval(g, vars, g[total].inputs[j]) == Ok(shares[j]) {
      LineServed(g, vars, ind, g[total].inputs[j], j, amounts, potential);
    }
    DemandTotal(g, vars, total, shares);
    DemandTotal(g, vars, ind.demand, amounts);
    IndustryOutputs(g, vars, ind);
    SumNonNegative(amounts);
    SharesTotal(available, amounts);
  }

  /* The economy graph itself. */

  lemma CommodityVariables()
    ensures |CommodityLayer| == 28
    ensures forall k :: 0 <= k < 28 ==> (CommodityLayer[k].Variable? <==> k in EconomyVariables)
  {
  }

  lemma EconomyPrefix()
    ensures |EconomyNodes| == 63
    ensures forall k :: 0 <= k < 28 ==> EconomyNodes[k] == CommodityLayer[k]
  {
    IndustriesKeepCommodities();
    WiringKeepsCommodities();
    AgricultureKeepsCommodities();
    FulfillmentsKeepCommodities();
  }

  lemma IndustriesKeepCommodities()
    ensures |WaterIndustryLayer| == 38
    ensures forall k :: 0 <= k < 28 ==> WaterIndustryLayer[k] == CommodityLayer[k]
  {
  }

  lemma WiringKeepsCommodities()
    ensures |ElectricLineLayer| == 47
    ensures forall k :: 0 <= k < 28 ==> ElectricLineLayer[k] == WaterIndustryLayer[k]
  {
  }

  lemma AgricultureKeepsCommodities()
    ensures |AgriWaterLayer| == 56
    ensures forall k :: 0 <= k < 28 ==> AgriWaterLayer[k] == ElectricLineLayer[k]
  {
  }

  lemma FulfillmentsKeepCommodities()
    ensures |EconomyNodes| == 63
    ensures forall k :: 0 <= k < 28 ==> EconomyNodes[k] == AgriWaterLayer[k]
  {
  }

  lemma WaterLayerNoVariables()
    ensures forall k :: 28 <= k < |WaterLayer| ==> !WaterLayer[k].Variable?
  {
  }

  lemma LaterNoVariables()
    ensures forall k :: 28 <= k < |EconomyNodes| ==> !EconomyNodes[k].Variable?
  {
    WaterLayerNoVariables();
  }

  /** The Variables of the economy are exactly population and the
      commodities' availabilities and efficiencies. */
  lemma VariableIds()
    ensures forall k :: 0 <= k < |EconomyNodes| ==> (EconomyNodes[k].Variable? <==> k in EconomyVariables)
  {
    CommodityVariables();
    EconomyPrefix();
    LaterNoVariables();
  }

  /** The nine commodities sit where `commodity` put them. */
  lemma CommodityShapes()
    ensures CommodityShape(EconomyNodes, Coal) && CommodityShape(EconomyNodes, Grain)
    ensures CommodityShape(EconomyNodes, Meat) && CommodityShape(EconomyNodes, Nuclear)
    ensures CommodityShape(EconomyNodes, Oil) && CommodityShape(EconomyNodes, Solar)
    ensures CommodityShape(EconomyNodes, Water) && CommodityShape(EconomyNodes, WaterRecycle)
    ensures CommodityShape(EconomyNodes, Wind)
  {
    EconomyPrefix();
  }

  /** The three industries sit where `industry` put them. */
  lemma IndustryShapes()
    ensures IndustryShape(EconomyNodes, Electric)
    ensures IndustryShape(EconomyNodes, WaterSupply)
    ensures IndustryShape(EconomyNodes, Agri)
  {
    ElectricShape();
    WaterShape();
    AgriShape();
  }

  lemma ElectricShape()
    ensures IndustryShape(EconomyNodes, Electric)
  {
  }

  lemma WaterShape()
    ensures IndustryShape(EconomyNodes, WaterSupply)
  {
  }

  lemma AgriShape()
    ensures IndustryShape(EconomyNodes, Agri)
  {
  }

  /** The potential productions add up the commodities' potentials. */
  lemma EconomyPotentials()
    ensures EconomyNodes[Electric.potential] ==
      Add(true, [Wind.potential, Solar.potential, Nuclear.potential, Oil.potential, Coal.potential])
    ensures EconomyNodes[WaterSupply.potential] == Add(true, [Water.potential, WaterRecycle.potential])
    ensures EconomyNodes[Agri.potential] == Add(true, [Meat.potential, Grain.potential])
  {
  }

  /** Each demand Add holds the lines included into it, in order. */
  lemma EconomyDemands()
    ensures EconomyNodes[Electric.demand] == Add(true, [ElectricDemandFromWater, ElectricDemandFromPopulation])
    ensures EconomyNodes[WaterSupply.demand] ==
      Add(true, [WaterDemandFromPopulation, WaterDemandFromAI, WaterDemandFromAgriculture])
    ensures EconomyNodes[Agri.demand] == Add(true, [AgriDemandFromPopulation])
    ensures EconomyNodes[Population] == Variable(true)
  {
  }

  /** Each demand line is a product with a constant coefficient. */
  lemma EconomyLines()
    ensures var g := EconomyNodes;
      && g[WaterDemandFromPopulation] == Multiply(true, Population, 38) && g[38] == Constant(true, 2.0)
      && g[WaterDemandFromAI] == Multiply(true, 40, 41) && g[40] == Constant(true, 10.0) && g[41] == Constant(true, 2.0)
    ensures var g := EconomyNodes;
      && g[ElectricDemandFromWater] == Multiply(true, WaterSupply.demand, 43) && g[43] == Constant(true, 5.0)
      && g[ElectricDemandFromPopulation] == Multiply(true, Population, 45) && g[45] == Constant(true, 3.0)
    ensures var g := EconomyNodes;
      && g[AgriDemandFromPopulation] == Multiply(true, Population, 52) && g[52] == Constant(true, 5.0)
      && g[WaterDemandFromAgriculture] == Multiply(true, Agri.demand, 54) && g[54] == Constant(true, 2.0)
  {
    WaterLines();
    ElectricLines();
    AgriLines();
  }

  lemma WaterLines()
    ensures var g := EconomyNodes;
      && g[WaterDemandFromPopulation] == Multiply(true, Population, 38) && g[38] == Constant(true, 2.0)
      && g[WaterDemandFromAI] == Multiply(true, 40, 41) && g[40] == Constant(true, 10.0) && g[41] == Constant(true, 2.0)
  {
  }

  lemma ElectricLines()
    ensures var g := EconomyNodes;
      && g[ElectricDemandFromWater] == Multiply(true, WaterSupply.demand, 43) && g[43] == Constant(true, 5.0)
      && g[ElectricDemandFromPopulation] == Multiply(true, Population, 45) && g[45] == Constant(true, 3.0)
  {
  }

  lemma AgriLines()
    ensures var g := EconomyNodes;
      && g[AgriDemandFromPopulation] == Multiply(true, Population, 52) && g[52] == Constant(true, 5.0)
      && g[WaterDemandFromAgriculture] == Multiply(true, Agri.demand, 54) && g[54] == Constant(true, 2.0)
  {
  }

  /** The fulfillment of each line and the two totals. */
  lemma EconomyFulfillments()
    ensures var g := EconomyNodes;
      && g[TotalElectricFulfillment] == Add(true, [56, 57])
      && g[56] == Fulfillment(true, ElectricDemandFromWater, Electric.distribution)
      && g[57] == Fulfillment(true, ElectricDemandFromPopulation, Electric.distribution)
      && g[TotalWaterFulfillment] == Add(true, [59, 60, 61])
      && g[59] == Fulfillment(true, WaterDemandFromPopulation, WaterSupply.distribution)
      && g[60] == Fulfillment(true, WaterDemandFromAI, WaterSupply.distribution)
      && g[61] == Fulfillment(true, WaterDemandFromAgriculture, WaterSupply.distribution)
  {
  }

  /* Non-negative bindings: every demand and potential is non-negative, and
     the fulfillments of each industry add up to its production. */

  ghost predicate NonNegativeAt(g: seq<Node>, vars: map<nat, real>, id: nat)
    requires Acyclic(g)
  {
    id < |g| && Eval(g, vars, id).Ok? && 0.0 <= Eval(g, vars, id).value
  }

  /** Every Variable of the economy is bound, to a non-negative amount. */
  ghost predicate Feasible(vars: map<nat, real>) {
    forall k :: k in EconomyVariables ==> k in vars && 0.0 <= vars[k]
  }

  /** A Multiply node's value is the product of its operands' values. */
  lemma ProductValue(g: seq<Node>, vars: map<nat, real>, id: nat, x: real, y: real)
    requires Acyclic(g) && id < |g| && g[id].Multiply? && g[id].a < |g| && g[id].b < |g|
    requires Eval(g, vars, g[id].a) == Ok(x) && Eval(g, vars, g[id].b) == Ok(y)
    ensures Eval(g, vars, id) == Ok(x * y)
  {
    assert Eval(g, vars, id) == EvalBinary(g, vars, id) == Combine(g[id], id, x, y);
  }

  lemma ProductNonNegative(g: seq<Node>, vars: map<nat, real>, id: nat)
    requires Acyclic(g) && id < |g| && g[id].Multiply? && g[id].a < |g| && g[id].b < |g|
    requires NonNegativeAt(g, vars, g[id].a) && NonNegativeAt(g, vars, g[id].b)
    ensures NonNegativeAt(g, vars, id)
  {
    var x, y := Eval(g, vars, g[id].a).value, Eval(g, vars, g[id].b).value;
    ProductValue(g, vars, id, x, y);
    ProductOfNonNegatives(x, y);
  }

  lemma SumNonNegativeAt(g: seq<Node>, vars: map<nat, real>, id: nat)
    requires Acyclic(g) && id < |g| && g[id].Add?
    requires forall k :: 0 <= k < |g[id].inputs| ==> g[id].inputs[k] < |g| && NonNegativeAt(g, vars, g[id].inputs[k])
    ensures NonNegativeAt(g, vars, id)
  {
    var inputs := g[id].inputs;
    var amounts := seq(|inputs|, j requires 0 <= j < |inputs| => Eval(g, vars, inputs[j]).value);
    DemandTotal(g, vars, id, amounts);
    SumNonNegative(amounts);
  }

  lemma ProductOfNonNegatives(x: real, y: real)
    requires 0.0 <= x && 0.0 <= y
    ensures 0.0 <= x * y
  {
  }

  lemma CommodityNonNegative(g: seq<Node>, vars: map<nat, real>, c: Commodity)
    requires Acyclic(g) && CommodityShape(g, c)
    requires c.availability in vars && c.efficiency in vars
    requires 0.0 <= vars[c.availability] && 0.0 <= vars[c.efficiency]
    ensures NonNegativeAt(g, vars, c.potential)
  {
    CommodityPotential(g, vars, c);
    ProductOfNonNegatives(vars[c.availability], vars[c.efficiency]);
  }

  /** A Constant with a non-negative value, or the population Variable. */
  lemma LeafNonNegative(g: seq<Node>, vars: map<nat, real>, id: nat)
    requires Acyclic(g) && Feasible(vars) && id < |g|
    requires (g[id].Constant? && 0.0 <= g[id].value) || (id == Population && g[id].Variable?)
    ensures NonNegativeAt(g, vars, id)
  {
  }

  /** The electric potential as `economy.js` wires it: the sum of the wind,
      solar, nuclear, oil and coal potentials. */
  ghost predicate ElectricPotentialWired(g: seq<Node>)
    requires |g| == 63
  {
    && CommodityShape(g, Wind) && CommodityShape(g, Solar) && CommodityShape(g, Nuclear)
    && CommodityShape(g, Oil) && CommodityShape(g, Coal)
    && g[Electric.potential] == Add(true, [Wind.potential, Solar.potential, Nuclear.potential, Oil.potential, Coal.potential])
  }

  /** The water potential: water plus recycled water. */
  ghost predicate WaterPotentialWired(g: seq<Node>)
    requires |g| == 63
  {
    && CommodityShape(g, Water) && CommodityShape(g, WaterRecycle)
    && g[WaterSupply.potential] == Add(true, [Water.potential, WaterRecycle.potential])
  }

  /** The water lines: population times 2, AI times 2 (10 times 2) and agri
      demand times 2, where agri demand is population times 5. */
  ghost predicate WaterLinesWired(g: seq<Node>)
    requires |g| == 63
  {
    && g[Population].Variable?
    && g[WaterDemandFromPopulation] == Multiply(true, Population, 38) && g[38] == Constant(true, 2.0)
    && g[WaterDemandFromAI] == Multiply(true, 40, 41) && g[40] == Constant(true, 10.0) && g[41] == Constant(true, 2.0)
    && g[AgriDemandFromPopulation] == Multiply(true, Population, 52) && g[52] == Constant(true, 5.0)
    && g[Agri.demand] == Add(true, [AgriDemandFromPopulation])
    && g[WaterDemandFromAgriculture] == Multiply(true, Agri.demand, 54) && g[54] == Constant(true, 2.0)
  }

  /** The electric lines: water demand times 5 and population times 3. */
  ghost predicate ElectricLinesWired(g: seq<Node>)
    requires |g| == 63
  {
    && g[WaterSupply.demand] == Add(true, [WaterDemandFromPopulation, WaterDemandFromAI, WaterDemandFromAgriculture])
    && g[ElectricDemandFromWater] == Multiply(true, WaterSupply.demand, 43) && g[43] == Constant(true, 5.0)
    && g[ElectricDemandFromPopulation] == Multiply(true, Population, 45) && g[45] == Constant(true, 3.0)
  }

  /** The electric industry, its demand over its two lines, and one
      Fulfillment per line summed into TotalElectricFulfillment. */
  ghost predicate ElectricFulfillmentsWired(g: seq<Node>)
    requires |g| == 63
  {
    && IndustryShape(g, Electric)
    && g[Electric.demand] == Add(true, [ElectricDemandFromWater, ElectricDemandFromPopulation])
    && g[TotalElectricFulfillment] == Add(true, [56, 57])
    && g[56] == Fulfillment(true, ElectricDemandFromWater, Electric.distribution)
    && g[57] == Fulfillment(true, ElectricDemandFromPopulation, Electric.distribution)
  }

  /** The water industry, its demand over its three lines, and one
      Fulfillment per line summed into TotalWaterFulfillment. */
  ghost predicate WaterFulfillmentsWired(g: seq<Node>)
    requires |g| == 63
  {
    && IndustryShape(g, WaterSupply)
    && g[WaterSupply.demand] == Add(true, [WaterDemandFromPopulation, WaterDemandFromAI, WaterDemandFromAgriculture])
    && g[TotalWaterFulfillment] == Add(true, [59, 60, 61])
    && g[59] == Fulfillment(true, WaterDemandFromPopulation, WaterSupply.distribution)
    && g[60] == Fulfillment(true, WaterDemandFromAI, WaterSupply.distribution)
    && g[61] == Fulfillment(true, WaterDemandFromAgriculture, WaterSupply.distribution)
  }

  /** Electric potential: wind, solar, nuclear, oil and coal potentials. */
  lemma ElectricPotentialNonNegative(g: seq<Node>, vars: map<nat, real>)
    requires Acyclic(g) && Feasible(vars) && |g| == 63 && ElectricPotentialWired(g)
    ensures NonNegativeAt(g, vars, Electric.potential)
  {
    CommodityNonNegative(g, vars, Wind);
    CommodityNonNegative(g, vars, Solar);
    CommodityNonNegative(g, vars, Nuclear);
    CommodityNonNegative(g, vars, Oil);
    CommodityNonNegative(g, vars, Coal);
    SumNonNegativeAt(g, vars, Electric.potential);
  }

  /** Water potential: water and recycled water potentials. */
  lemma WaterPotentialNonNegative(g: seq<Node>, vars: map<nat, real>)
    requires Acyclic(g) && Feasible(vars) && |g| == 63 && WaterPotentialWired(g)
    ensures NonNegativeAt(g, vars, WaterSupply.potential)
  {
    CommodityNonNegative(g, vars, Water);
    CommodityNonNegative(g, vars, WaterRecycle);
    SumNonNegativeAt(g, vars, WaterSupply.potential);
  }

  /** The water lines: population times 2, AI times 2, agri demand times 2;
      the agri demand is population times 5. */
  lemma WaterLinesNonNegative(g: seq<Node>, vars: map<nat, real>)
    requires Acyclic(g) && Feasible(vars) && |g| == 63 && WaterLinesWired(g)
    ensures NonNegativeAt(g, vars, WaterDemandFromPopulation)
    ensures NonNegativeAt(g, vars, WaterDemandFromAI)
    ensures NonNegativeAt(g, vars, WaterDemandFromAgriculture)
  {
    LeafNonNegative(g, vars, Population);
    LeafNonNegative(g, vars, 38);
    ProductNonNegative(g, vars, WaterDemandFromPopulation);
    LeafNonNegative(g, vars, 40);
    LeafNonNegative(g, vars, 41);
    ProductNonNegative(g, vars, WaterDemandFromAI);
    LeafNonNegative(g, vars, 52);
    ProductNonNegative(g, vars, AgriDemandFromPopulation);
    SumNonNegativeAt(g, vars, Agri.demand);
    LeafNonNegative(g, vars, 54);
    ProductNonNegative(g, vars, WaterDemandFromAgriculture);
  }

  /** The electric lines: water demand times 5, population times 3. */
  lemma ElectricLinesNonNegative(g: seq<Node>, vars: map<nat, real>)
    requires Acyclic(g) && Feasible(vars) && |g| == 63 && g[Population].Variable? && ElectricLinesWired(g)
    requires NonNegativeAt(g, vars, WaterDemandFromPopulation) && NonNegativeAt(g, vars, WaterDemandFromAI)
    requires NonNegativeAt(g, vars, WaterDemandFromAgriculture)
    ensures NonNegativeAt(g, vars, ElectricDemandFromWater)
    ensures NonNegativeAt(g, vars, ElectricDemandFromPopulation)
  {
    SumNonNegativeAt(g, vars, WaterSupply.demand);
    LeafNonNegative(g, vars, 43);
    ProductNonNegative(g, vars, ElectricDemandFromWater);
    LeafNonNegative(g, vars, Population);
    LeafNonNegative(g, vars, 45);
    ProductNonNegative(g, vars, ElectricDemandFromPopulation);
  }

  /** With its lines and potential non-negative, TotalElectricFulfillment
      equals the electric production: min(electric demand, electric potential). */
  lemma ElectricBalance(g: seq<Node>, vars: map<nat, real>)
    requires Acyclic(g) && |g| == 63 && ElectricFulfillmentsWired(g)
    requires NonNegativeAt(g, vars, Electric.potential)
    requires NonNegativeAt(g, vars, ElectricDemandFromWater) && NonNegativeAt(g, vars, ElectricDemandFromPopulation)
    ensures Eval(g, vars, Electric.production).Ok?
    ensures Eval(g, vars, TotalElectricFulfillment) == Eval(g, vars, Electric.production)
  {
    var amounts := [Eval(g, vars, ElectricDemandFromWater).value, Eval(g, vars, ElectricDemandFromPopulation).value];
    IndustryBalance(g, vars, Electric, TotalElectricFulfillment, amounts, Eval(g, vars, Electric.potential).value);
  }

  /** With its lines and potential non-negative, TotalWaterFulfillment equals
      the water production: min(water demand, water potential). */
  lemma WaterBalance(g: seq<Node>, vars: map<nat, real>)
    requires Acyclic(g) && |g| == 63 && WaterFulfillmentsWired(g)
    requires NonNegativeAt(g, vars, WaterSupply.potential)
    requires NonNegativeAt(g, vars, WaterDemandFromPopulation) && NonNegativeAt(g, vars, WaterDemandFromAI)
    requires NonNegativeAt(g, vars, WaterDemandFromAgriculture)
    ensures Eval(g, vars, WaterSupply.production).Ok?
    ensures Eval(g, vars, TotalWaterFulfillment) == Eval(g, vars, WaterSupply.production)
  {
    var amounts := [Eval(g, vars, WaterDemandFromPopulation).value, Eval(g, vars, WaterDemandFromAI).value,
                    Eval(g, vars, WaterDemandFromAgriculture).value];
    IndustryBalance(g, vars, WaterSupply, TotalWaterFulfillment, amounts, Eval(g, vars, WaterSupply.potential).value);
  }

  /** In a graph wired like the electric side of the economy, with every
      Variable bound to a non-negative amount, TotalElectricFulfillment is the
      electric production. */
  lemma ElectricSide(g: seq<Node>, vars: map<nat, real>)
    requires Acyclic(g) && Feasible(vars) && |g| == 63
    requires ElectricPotentialWired(g) && WaterLinesWired(g) && ElectricLinesWired(g) && ElectricFulfillmentsWired(g)
    ensures Eval(g, vars, Electric.production).Ok?
    ensures Eval(g, vars, TotalElectricFulfillment) == Eval(g, vars, Electric.production)
  {
    ElectricPotentialNonNegative(g, vars);
    WaterLinesNonNegative(g, vars);
    ElectricLinesNonNegative(g, vars);
    ElectricBalance(g, vars);
  }

  /** The economy the module builds: its electric side balances for every
      non-negative binding. */
  lemma EconomyElectricBalance(vars: map<nat, real>)
    requires Feasible(vars)
    ensures Acyclic(EconomyNodes) && |EconomyNodes| == 63
    ensures Eval(EconomyNodes, vars, Electric.production).Ok?
    ensures Eval(EconomyNodes, vars, TotalElectricFulfillment) == Eval(EconomyNodes, vars, Electric.production)
  {
    EconomyAcyclic();
    EconomyPrefix();
    CommodityShapes();
    ElectricShape();
    EconomyPotentials();
    EconomyLines();
    EconomyDemands();
    EconomyFulfillments();
    ElectricSide(EconomyNodes, vars);
  }

  /** In a graph wired like the water side of the economy, with every
      Variable bound to a non-negative amount, TotalWaterFulfillment is the
      water production. */
  lemma WaterSide(g: seq<Node>, vars: map<nat, real>)
    requires Acyclic(g) && Feasible(vars) && |g| == 63
    requires WaterPotentialWired(g) && WaterLinesWired(g) && WaterFulfillmentsWired(g)
    ensures Eval(g, vars, WaterSupply.production).Ok?
    ensures Eval(g, vars, TotalWaterFulfillment) == Eval(g, vars, WaterSupply.production)
  {
    WaterPotentialNonNegative(g, vars);
    WaterLinesNonNegative(g, vars);
    WaterBalance(g, vars);
  }

  /** The economy the module builds: its water side balances for every
      non-negative binding. */
  lemma EconomyWaterBalance(vars: map<nat, real>)
    requires Feasible(vars)
    ensures Acyclic(EconomyNodes) && |EconomyNodes| == 63
    ensures Eval(EconomyNodes, vars, WaterSupply.production).Ok?
    ensures Eval(EconomyNodes, vars, TotalWaterFulfillment) == Eval(EconomyNodes, vars, WaterSupply.production)
  {
    EconomyAcyclic();
    EconomyPrefix();
    CommodityShapes();
    WaterShape();
    EconomyPotentials();
    EconomyLines();
    EconomyDemands();
    EconomyFulfillments();
    WaterSide(EconomyNodes, vars);
  }

  /* The economy at its initial bindings. */

  lemma SumOfTwo(x: real, y: real)
    ensures Sum([x, y]) == x + y
  {
    SumSnoc([x], y);
  }

  lemma SumOfThree(x: real, y: real, z: real)
    ensures Sum([x, y, z]) == x + y + z
  {
    SumOfTwo(x, y);
    SumSnoc([x, y], z);
    assert [x, y] + [z] == [x, y, z];
  }

  lemma SumOfFive(v: real, w: real, x: real, y: real, z: real)
    ensures Sum([v, w, x, y, z]) == v + w + x + y + z
  {
    SumOfThree(v, w, x);
    SumSnoc([v, w, x], y);
    assert [v, w, x] + [y] == [v, w, x, y];
    SumSnoc([v, w, x, y], z);
    assert [v, w, x, y] + [z] == [v, w, x, y, z];
  }

  /** Commodity `c` is bound to the given availability and efficiency. */
  ghost predicate Binds(vars: map<nat, real>, c: Commodity, availability: real, efficiency: real) {
    && c.availability in vars && vars[c.availability] == availability
    && c.efficiency in vars && vars[c.efficiency] == efficiency
  }

  /** The initial bindings of the electric commodities. */
  lemma InitialElectricBindings()
    ensures var v := InitialVariables();
      && Binds(v, Wind, 1000.0, 1.0) && Binds(v, Solar, 100.0, 1.0) && Binds(v, Nuclear, 1000.0, 1.0)
      && Binds(v, Oil, 2000.0, 1.0) && Binds(v, Coal, 5000.0, 1.0)
  {
  }

  /** The initial bindings of population and the other commodities. */
  lemma InitialOtherBindings()
    ensures var v := InitialVariables();
      && Population in v && v[Population] == 1.0
      && Binds(v, Water, 1000.0, 1.0) && Binds(v, WaterRecycle, 0.0, 0.1)
      && Binds(v, Grain, 1000.0, 1.0) && Binds(v, Meat, 1000.0, 1.0)
  {
  }

  /** One person: two units of water for the person, ten AIs at two each,
      and two per unit of agri demand, itself five per person. */
  lemma InitialWaterDemand(g: seq<Node>, vars: map<nat, real>)
    requires Acyclic(g) && |g| == 63 && g[Population].Variable? && Population in vars && vars[Population] == 1.0
    requires g[WaterDemandFromPopulation] == Multiply(true, Population, 38) && g[38] == Constant(true, 2.0)
    requires g[WaterDemandFromAI] == Multiply(true, 40, 41) && g[40] == Constant(true, 10.0) && g[41] == Constant(true, 2.0)
    requires g[AgriDemandFromPopulation] == Multiply(true, Population, 52) && g[52] == Constant(true, 5.0)
    requires g[Agri.demand] == Add(true, [AgriDemandFromPopulation])
    requires g[WaterDemandFromAgriculture] == Multiply(true, Agri.demand, 54) && g[54] == Constant(true, 2.0)
    requires g[WaterSupply.demand] == Add(true, [WaterDemandFromPopulation, WaterDemandFromAI, WaterDemandFromAgriculture])
    ensures Eval(g, vars, WaterDemandFromPopulation) == Ok(2.0)
    ensures Eval(g, vars, WaterDemandFromAI) == Ok(20.0)
    ensures Eval(g, vars, WaterDemandFromAgriculture) == Ok(10.0)
    ensures Eval(g, vars, Agri.demand) == Ok(5.0)
    ensures Eval(g, vars, WaterSupply.demand) == Ok(32.0)
  {
    assert Eval(g, vars, Population) == Ok(1.0);
    ProductValue(g, vars, WaterDemandFromPopulation, 1.0, 2.0);
    ProductValue(g, vars, WaterDemandFromAI, 10.0, 2.0);
    ProductValue(g, vars, AgriDemandFromPopulation, 1.0, 5.0);
    DemandTotal(g, vars, Agri.demand, [5.0]);
    assert Sum([5.0]) == Sum([]) + 5.0;
    ProductValue(g, vars, WaterDemandFromAgriculture, 5.0, 2.0);
    DemandTotal(g, vars, WaterSupply.demand, [2.0, 20.0, 10.0]);
    SumOfThree(2.0, 20.0, 10.0);
  }

  /** Five units of electricity per unit of water demand, three per person. */
  lemma InitialElectricDemand(g: seq<Node>, vars: map<nat, real>)
    requires Acyclic(g) && |g| == 63 && g[Population].Variable? && Population in vars && vars[Population] == 1.0
    requires Eval(g, vars, WaterSupply.demand) == Ok(32.0)
    requires g[ElectricDemandFromWater] == Multiply(true, WaterSupply.demand, 43) && g[43] == Constant(true, 5.0)
    requires g[ElectricDemandFromPopulation] == Multiply(true, Population, 45) && g[45] == Constant(true, 3.0)
    requires g[Electric.demand] == Add(true, [ElectricDemandFromWater, ElectricDemandFromPopulation])
    ensures Eval(g, vars, ElectricDemandFromWater) == Ok(160.0)
    ensures Eval(g, vars, ElectricDemandFromPopulation) == Ok(3.0)
    ensures Eval(g, vars, Electric.demand) == Ok(163.0)
  {
    assert Eval(g, vars, Population) == Ok(1.0);
    ProductValue(g, vars, ElectricDemandFromWater, 32.0, 5.0);
    ProductValue(g, vars, ElectricDemandFromPopulation, 1.0, 3.0);
    DemandTotal(g, vars, Electric.demand, [160.0, 3.0]);
    SumOfTwo(160.0, 3.0);
  }

  /** The electric potential at the initial bindings: 1000 wind, 100 solar,
      1000 nuclear, 2000 oil and 5000 coal, all at efficiency 1, add up to 9100. */
  lemma InitialElectricPotential(g: seq<Node>, vars: map<nat, real>)
    requires Acyclic(g) && |g| == 63
    requires CommodityShape(g, Wind) && CommodityShape(g, Solar) && CommodityShape(g, Nuclear)
    requires CommodityShape(g, Oil) && CommodityShape(g, Coal)
    requires Binds(vars, Wind, 1000.0, 1.0) && Binds(vars, Solar, 100.0, 1.0) && Binds(vars, Nuclear, 1000.0, 1.0)
    requires Binds(vars, Oil, 2000.0, 1.0) && Binds(vars, Coal, 5000.0, 1.0)
    requires g[Electric.potential] == Add(true, [Wind.potential, Solar.potential, Nuclear.potential, Oil.potential, Coal.potential])
    ensures Eval(g, vars, Electric.potential) == Ok(9100.0)
  {
    CommodityPotential(g, vars, Wind);
    CommodityPotential(g, vars, Solar);
    CommodityPotential(g, vars, Nuclear);
    CommodityPotential(g, vars, Oil);
    CommodityPotential(g, vars, Coal);
    DemandTotal(g, vars, Electric.potential, [1000.0, 100.0, 1000.0, 2000.0, 5000.0]);
    SumOfFive(1000.0, 100.0, 1000.0, 2000.0, 5000.0);
  }

  /** The water potential at the initial bindings: 1000 water at efficiency
      1 and no recycled water at efficiency 0.1 make 1000. */
  lemma InitialWaterPotential(g: seq<Node>, vars: map<nat, real>)
    requires Acyclic(g) && |g| == 63
    requires CommodityShape(g, Water) && CommodityShape(g, WaterRecycle)
    requires Binds(vars, Water, 1000.0, 1.0) && Binds(vars, WaterRecycle, 0.0, 0.1)
    requires g[WaterSupply.potential] == Add(true, [Water.potential, WaterRecycle.potential])
    ensures Eval(g, vars, WaterSupply.potential) == Ok(1000.0)
  {
    CommodityPotential(g, vars, Water);
    CommodityPotential(g, vars, WaterRecycle);
    DemandTotal(g, vars, WaterSupply.potential, [1000.0, 0.0]);
    SumOfTwo(1000.0, 0.0);
  }

  /** With 163 units of electric demand (160 for water, 3 for the person)
      against 9100 of potential, every line is served in full. */
  lemma InitialElectricSupply(g: seq<Node>, vars: map<nat, real>)
    requires Acyclic(g) && |g| == 63 && ElectricFulfillmentsWired(g)
    requires Eval(g, vars, ElectricDemandFromWater) == Ok(160.0)
    requires Eval(g, vars, ElectricDemandFromPopulation) == Ok(3.0)
    requires Eval(g, vars, Electric.potential) == Ok(9100.0)
    ensures Eval(g, vars, 56) == Ok(160.0) && Eval(g, vars, 57) == Ok(3.0)
    ensures Eval(g, vars, TotalElectricFulfillment) == Ok(163.0)
    ensures Eval(g, vars, Electric.demandMet) == Ok(9100.0 / 163.0)
  {
    var amounts := [160.0, 3.0];
    SumOfTwo(160.0, 3.0);
    LineServed(g, vars, Electric, 56, 0, amounts, 9100.0);
    LineServed(g, vars, Electric, 57, 1, amounts, 9100.0);
    IndustryBalance(g, vars, Electric, TotalElectricFulfillment, amounts, 9100.0);
    DemandTotal(g, vars, Electric.demand, amounts);
    IndustryOutputs(g, vars, Electric);
  }

  /** With 32 units of water demand against 1000 of potential, every line is
      served in full. */
  lemma InitialWaterLines(g: seq<Node>, vars: map<nat, real>)
    requires Acyclic(g) && |g| == 63 && IndustryShape(g, WaterSupply)
    requires g[WaterSupply.demand] == Add(true, [WaterDemandFromPopulation, WaterDemandFromAI, WaterDemandFromAgriculture])
    requires g[59] == Fulfillment(true, WaterDemandFromPopulation, WaterSupply.distribution)
    requires g[60] == Fulfillment(true, WaterDemandFromAI, WaterSupply.distribution)
    requires g[61] == Fulfillment(true, WaterDemandFromAgriculture, WaterSupply.distribution)
    requires Eval(g, vars, WaterDemandFromPopulation) == Ok(2.0)
    requires Eval(g, vars, WaterDemandFromAI) == Ok(20.0)
    requires Eval(g, vars, WaterDemandFromAgriculture) == Ok(10.0)
    requires Eval(g, vars, WaterSupply.potential) == Ok(1000.0)
    ensures Eval(g, vars, 59) == Ok(2.0) && Eval(g, vars, 60) == Ok(20.0) && Eval(g, vars, 61) == Ok(10.0)
  {
    var amounts := [2.0, 20.0, 10.0];
    SumOfThree(2.0, 20.0, 10.0);
    LineServed(g, vars, WaterSupply, 59, 0, amounts, 1000.0);
    LineServed(g, vars, WaterSupply, 60, 1, amounts, 1000.0);
    LineServed(g, vars, WaterSupply, 61, 2, amounts, 1000.0);
  }

  /** All 32 units are handed out, and demand is met 1000 / 32 times over. */
  lemma InitialWaterSupply(g: seq<Node>, vars: map<nat, real>)
    requires Acyclic(g) && |g| == 63 && WaterFulfillmentsWired(g)
    requires Eval(g, vars, WaterDemandFromPopulation) == Ok(2.0)
    requires Eval(g, vars, WaterDemandFromAI) == Ok(20.0)
    requires Eval(g, vars, WaterDemandFromAgriculture) == Ok(10.0)
    requires Eval(g, vars, WaterSupply.potential) == Ok(1000.0)
    ensures Eval(g, vars, TotalWaterFulfillment) == Ok(32.0)
    ensures Eval(g, vars, WaterSupply.demandMet) == Ok(31.25)
  {
    var amounts := [2.0, 20.0, 10.0];
    SumOfThree(2.0, 20.0, 10.0);
    IndustryBalance(g, vars, WaterSupply, TotalWaterFulfillment, amounts, 1000.0);
    IndustryOutputs(g, vars, WaterSupply);
  }

  /** The economy as loaded: 32 units of water demand, all of it served from
      1000 of potential, so water demand is met 31.25 times over. */
  lemma InitialWater()
    ensures Acyclic(EconomyNodes) && |EconomyNodes| == 63
    ensures Eval(EconomyNodes, InitialVariables(), WaterSupply.demand) == Ok(32.0)
    ensures Eval(EconomyNodes, InitialVariables(), 59) == Ok(2.0)
    ensures Eval(EconomyNodes, InitialVariables(), 60) == Ok(20.0)
    ensures Eval(EconomyNodes, InitialVariables(), 61) == Ok(10.0)
    ensures Eval(EconomyNodes, InitialVariables(), TotalWaterFulfillment) == Ok(32.0)
    ensures Eval(EconomyNodes, InitialVariables(), WaterSupply.demandMet) == Ok(31.25)
  {
    var g, vars := EconomyNodes, InitialVariables();
    EconomyAcyclic();
    EconomyPrefix();
    CommodityShapes();
    WaterShape();
    EconomyPotentials();
    EconomyLines();
    EconomyDemands();
    EconomyFulfillments();
    InitialOtherBindings();
    InitialWaterDemand(g, vars);
    InitialWaterPotential(g, vars);
    InitialWaterLines(g, vars);
    InitialWaterSupply(g, vars);
  }

  /** The economy as loaded: 163 units of electric demand, all of it served
      from 9100 of potential. */
  lemma InitialElectric()
    ensures Acyclic(EconomyNodes) && |EconomyNodes| == 63
    ensures Eval(EconomyNodes, InitialVariables(), Electric.demand) == Ok(163.0)
    ensures Eval(EconomyNodes, InitialVariables(), 56) == Ok(160.0)
    ensures Eval(EconomyNodes, InitialVariables(), 57) == Ok(3.0)
    ensures Eval(EconomyNodes, InitialVariables(), TotalElectricFulfillment) == Ok(163.0)
    ensures Eval(EconomyNodes, InitialVariables(), Electric.demandMet) == Ok(9100.0 / 163.0)
  {
    var g, vars := EconomyNodes, InitialVariables();
    EconomyAcyclic();
    EconomyPrefix();
    CommodityShapes();
    ElectricShape();
    EconomyPotentials();
    EconomyLines();
    EconomyDemands();
    EconomyFulfillments();
    InitialOtherBindings();
    InitialElectricBindings();
    InitialWaterDemand(g, vars);
    InitialElectricDemand(g, vars);
    InitialElectricPotential(g, vars);
    InitialElectricSupply(g, vars);
  }

  /** Bindings that cover the economy's Variables (as the module's own always
      do) never make a node fail for an unbound Variable. */
  lemma EconomyBound(vars: map<nat, real>, id: nat)
    requires EconomyVariables <= vars.Keys && id < 63
    ensures Acyclic(EconomyNodes) && id < |EconomyNodes|
    ensures Eval(EconomyNodes, vars, id).Err? ==> !Eval(EconomyNodes, vars, id).error.Unbound?
  {
    EconomyAcyclic();
    EconomyPrefix();
    VariableIds();
  }
}
