# imho economy engine in Dafny

This project models the expression-graph engine of `imho.js` and the economy
that `economy.js` wires from it. The models are:

- **Node kinds.** `Constant`, `Variable`, `Add`, `Min`, `Multiply`, `Divide`,
  `Distribution` and `Fulfillment`. They live in an arena (`Graph.Arena`): a
  sequence of `Graph.Node` values whose operands are ids. Node identity in
  the source is object identity, so the values, allocations and gradients of
  an execution are keyed by id. `Add.include`, which updates a node in place,
  is `Arena.Include`.
- **Meaning.** The meaning of a forward pass (`Graph.Eval`) and of a backward
  pass (`Graph.Back`, returning the local derivative and the gradient table it
  leaves behind) is given as recursive functions over an acyclic arena.
  Acyclicity is witnessed by a ghost rank that drops along every operand edge.
- **Execution.** `Engine.Execution` is the imperative counterpart. It is a
  class with the source's `values` and `gradients` maps, plus the map of
  Distribution allocations. Its methods do the memoised, node-by-node work of
  `forward`, `backward` and `grade`. Each method is proved to agree with the
  functions whenever the cache it starts from is consistent, and to keep the
  cache consistent.
- **Water-filling.** The walk of `Distribution.forward` (each line in turn
  takes the smaller of its demand and what is left) is a loop in
  `Execution.Ration`. It is proved equal to `WaterFill.Shares` and
  `WaterFill.Allocation`, whose totals and bounds are proved in module
  `WaterFill`.
- **Optimizer.** `optimize` is `Optimizer.Optimize`. It runs a fresh execution
  and its backward pass, ranks the Variables that have a gradient entry and a
  cost by gradient/cost, and moves the best one. It is proved equal to the
  function `Optimizer.Step`. The source's promise about `Step` is proved: at
  most one binding changes, and it changes by at most maxCost/cost.
- **Economy.** `Economy.Build` is the top level of `economy.js`: nine
  commodities, the electric, water and agri industries, their demand lines
  added by `include`, and the fulfillments. It produces the 63-node graph
  `Economy.EconomyNodes`. `Economy.Simulation` holds the graph and the module's
  `variables`, with `execute` and `optimize`. Module `EconomyFacts` proves:
  - the graph is acyclic and shaped as built;
  - every industry's summed fulfillments equal its production for any
    non-negative bindings;
  - the initial bindings give the demands, supplies and demand-met ratios the
    wiring implies.

Where numbers are involved the model uses `real`. The places where JavaScript
would produce `NaN` or an infinity are errors of `Graph.Result`:

- a zero divisor gives `DivisionByZero`;
- an optimizer step along a zero gradient gives `FlatGradient` when the gap
  to the target is zero or negative (JavaScript's `NaN` or `-Infinity`). When
  the gap is positive, JavaScript's `+Infinity` loses to the budget in
  `Math.min`, and the model moves the Variable by the budget
  (`Optimizer.Increment`).

The source's own throws are errors too:

- an unbound Variable gives `Unbound`;
- a Distribution evaluated outside a Fulfillment gives `NotFulfillment`.

Three behaviours of the code, kept as written:

- **Division.** `Divide.forward` is the unguarded `a / b` (`imho.js:225-230`):
  a zero divisor gives an infinity or `NaN`, never 0.
- **Min ties.** On a tie, `Min.backward` gives the whole gradient to `b` and
  still calls `a` with 0 (`imho.js:131-135`). There is no leaky mode.
- **Optimizer.** `optimize` returns the bindings unchanged when the best
  gradient's sign differs from the target's (`imho.js:292-294`). Otherwise it
  moves by `min(gap/gradient, maxCost/cost)` (`imho.js:297-298`).

Files:

| file | contents |
|---|---|
| `waterfill.dfy` | first-come-first-served rationing as pure functions |
| `graph.dfy` | nodes, arena and the forward/backward semantics |
| `facts.dfy` | lemmas about that semantics |
| `engine.dfy` | the `Execution` class |
| `optimizer.dfy` | the optimizer |
| `economy.dfy` | the wiring and module state |
| `economy_facts.dfy` | lemmas about the wired economy |

## Model

| member | source | states |
|---|---|---|
| WaterFill.MinReal | imho.js:155 | Math.min: the result is at most both arguments and is one of them |
| WaterFill.SumNonNegative | imho.js:95-98 | a sum accumulated from non-negative values is non-negative |
| WaterFill.ShareAt | imho.js:154-158 | line k receives min(its demand, production minus what the lines before it received) |
| WaterFill.SharesTotal | imho.js:151-158 | with non-negative production and demands the shares add up to min(production, total demand) |
| WaterFill.SharesBounded | imho.js:155-156 | with non-negative inputs every share lies between 0 and the line's own demand |
| WaterFill.FullyServed | imho.js:154-158 | when total demand fits in the production every line receives exactly its demand |
| WaterFill.StarvedAfterShortfall | imho.js:154-158 | once a line is under-served every later line receives 0 |
| WaterFill.Allocation | imho.js:157 | the allocation map has exactly the lines as keys |
| WaterFill.AllocationAt | imho.js:157 | a line's entry is its share when the line does not occur again later (Map.set overwrites) |
| WaterFill.WalkRations | imho.js:151-158 | the loop state (map filled so far, `available`) ends as the allocation of the shares and production minus their sum |
| Graph.Eval | imho.js:45-50 | an Unbound error always names a Variable node of the graph that has no binding |
| Graph.EvalBinary | imho.js:124-129 | Min, Multiply and Divide forward: an Unbound error names an unbound Variable node |
| Graph.Combine | imho.js:225-230 | the arithmetic of a binary node fails exactly for a Divide by zero (with DivisionByZero of that node); a Min yields the smaller operand (Min 126, Multiply 200) |
| Graph.Fulfilled | imho.js:149-161 | a line's share read from the allocation map; an Unbound error names an unbound Variable node |
| Graph.Values | imho.js:96-98 | the inputs' values in order: one value per input on success |
| Graph.Allocations | imho.js:149-160 | on success the demand operand is an Add and the allocation's keys are exactly its inputs |
| Graph.Rationed | imho.js:154-160 | the allocation's keys are exactly the demand lines |
| Graph.Grade | imho.js:14-21 | nothing is recorded for a Constant or an unnamed node; otherwise the node's amount grows by the gradient (a new entry goes to the end of the order); every other amount is unchanged; the order stays duplicate-free |
| Graph.ValuesSnoc | imho.js:96-98 | evaluating one more input appends its value |
| Graph.BackAllSnoc | imho.js:106-108 | one more input of Add.backward adds its local derivative and continues from the table it leaves, or stops with its error |
| Graph.RankedInclude | imho.js:112-114 | appending inputs that rank below an Add keeps the graph ranked (acyclic) |
| Graph.Arena.New | imho.js:1-4 | a new node takes the next id, the graph stays acyclic, and the set of Variable ids grows exactly when the node is a Variable |
| Graph.Arena.Include | imho.js:112-114 | the Add's inputs become the old inputs followed by the new ones, every other node is unchanged, and the graph stays acyclic |
| Engine.Execution.constructor | imho.js:245-252 | a new execution keeps its operation and bindings and starts with empty values, allocations and gradients |
| Engine.Execution.Forward | imho.js:254-256 | the result is the operation's value under the bindings; gradients are untouched and cached entries are kept |
| Engine.Execution.Backward | imho.js:258-260 | the backward pass from the operation with gradient 1 returns the local derivative and leaves the gradient table that Graph.Back specifies |
| Engine.Execution.ForwardNode | imho.js:30-50 | a memoised node already cached answers from the cache and changes no cache; a memoised node that succeeds is cached; on a consistent cache the result is the node's value |
| Engine.Execution.ForwardAdd | imho.js:93-101 | the inputs' values summed in order (loop invariant against Graph.Values), cached, equal to the node's value |
| Engine.Execution.Memoise | imho.js:99 | only the node's cache entry changes, and the cache stays consistent when the stored value is the node's value |
| Engine.Execution.ForwardBinary | imho.js:124-129 | operand a, then b, then the operation; cached on success; equal to the node's value |
| Engine.Execution.ForwardFulfillment | imho.js:178-183 | asks the distribution for its line and caches the answer; equal to the node's value |
| Engine.Execution.DistributionForward | imho.js:145-162 | a later request reads the stored allocation map (a line missing from it is MissingLine); the answer is the line's share |
| Engine.Execution.ComputeAllocation | imho.js:151-153 | production forward, then the demand's lines; equal to Graph.Allocations |
| Engine.Execution.Ration | imho.js:154-158 | the loop's map and remainder follow WaterFill.Walk line by line; the result equals Graph.Rationed |
| Engine.Execution.BackwardNode | imho.js:185-188 | grade, then the node kind's backward (Constant 34-37 returns 0, Variable 52-55 returns 1, Fulfillment passes to its distribution); agrees with Graph.Back |
| Engine.Execution.BackwardAdd | imho.js:103-110 | the same gradient to every input in order, local derivatives summed; agrees with Graph.BackInputs |
| Engine.Execution.BackwardSides | imho.js:131-135 | both sides evaluated, then the gradient to the smaller one (Distribution.backward 164-168 alike); agrees with Graph.BackSides |
| Engine.Execution.BackwardToSmaller | imho.js:133-134 | the smaller side gets the gradient and the other 0, first side first; agrees with Graph.ToSmaller |
| Engine.Execution.BackwardProduct | imho.js:205-215 | a receives b·g, b receives a·g, result a·db + da·b; agrees with Graph.BackProduct |
| Engine.Execution.BackwardQuotient | imho.js:232-242 | a zero divisor stops the pass with DivisionByZero; agrees with Graph.BackQuotient |
| Engine.Execution.BackwardByQuotient | imho.js:238-241 | a receives g/b, b receives -a·g/b², result da + db; agrees with Graph.ByQuotient |
| Engine.Execution.BackwardPair | imho.js:211-212 | operand a's backward, then b's from the table a left; agrees with Graph.BackPair |
| Engine.IncludeAfterForward | imho.js:112-114 | after an include into an Add this execution has already computed, its forward value in that execution is unchanged |
| Facts.GradeGrows | imho.js:14-21 | grading only adds an entry for a recording node and keeps the existing order |
| Facts.BackGrows | imho.js:14-21 | a whole backward pass never drops or reorders an entry and only adds entries for named non-Constant nodes |
| Facts.ValuesPointwise | imho.js:96-98 | the inputs' values succeed exactly when every input has a value, and then list them in order; otherwise the error is that of the first failing input |
| Facts.AddForward | imho.js:93-101 | Add.forward is the in-order sum of its inputs' values and fails exactly when some input fails |
| Facts.VariableLeaf | imho.js:45-55 | Variable.forward is the binding, or Unbound without one; backward returns 1 and adds the gradient only to its own entry |
| Facts.ConstantLeaf | imho.js:30-37 | Constant.forward is its value; backward returns 0 and leaves the table as it was |
| Facts.BackAllVariables | imho.js:103-110 | over named Variable inputs each input's entry grows by the gradient times its number of occurrences, and the result is the number of inputs |
| Facts.AddTwice | imho.js:103-110 | Add(x, x) backward gives x twice the gradient and returns 2 |
| Facts.SidesOfVariables | imho.js:131-135 | Min/Distribution over two Variables: the smaller side (the second on a tie) gets the whole gradient, the other gets 0 but still an entry, and the result is 2; with both sides the same Variable it gets the gradient twice |
| Facts.ProductOfVariables | imho.js:205-215 | Multiply of two Variables: a gains b·g, b gains a·g, and the result is a + b |
| Facts.QuotientOfVariables | imho.js:232-242 | Divide of two Variables with b ≠ 0: a gains g/b, b gains -a·g/b², and the result is 2 |
| Facts.QuotientByZero | imho.js:225-242 | a zero divisor is DivisionByZero both forward and backward |
| Facts.AllocationsOfLines | imho.js:151-160 | with production value p and line values d, the allocation maps the lines to the shares of p over d |
| Facts.FulfillmentShare | imho.js:178-183 | a Fulfillment's value is the share of the walk at its line's last position |
| Optimizer.Candidates | imho.js:273-280 | the candidates are exactly the gradient-table entries of Variables that have a cost, with their gradient and cost |
| Optimizer.CandidatesPrefix | imho.js:273-280 | the filter keeps the table's order: the candidates of a prefix of the table are a prefix of the candidates |
| Optimizer.CandidateAt | imho.js:273-280 | a costed Variable's candidate comes right after the candidates of the entries before it |
| Optimizer.BestComesFirst | imho.js:281-291 | the stable sort's head: every costed Variable entered in the table before the chosen one has a strictly smaller gradient/cost |
| Optimizer.Increment | imho.js:297-298 | `Math.min(gap/gradient, maxCost/cost)`: never above the budget, at most gap/gradient for a non-zero gradient, the budget for a zero gradient and a positive gap, an error exactly when the quotient would be `-Infinity` or `NaN` |
| Optimizer.Best | imho.js:281-291 | the head after the stable descending sort: the largest gradient/cost, and strictly larger than every earlier candidate |
| Optimizer.Sign | imho.js:292 | Math.sign: 1, 0 or -1 by the sign of the argument |
| Optimizer.Optimize | imho.js:267-302 | whenever the ranked Variables' costs are non-zero, whatever the other costs, the optimizer's result equals Optimizer.Step |
| Optimizer.MoveBest | imho.js:287-302 | the move once candidates are ranked equals Optimizer.Move |
| Optimizer.MoveChangesBest | imho.js:287-302 | once ranked, only the best candidate's binding can change, with the target's sign, by at most maxCost/cost |
| Optimizer.StepMovesBest | imho.js:267-302 | same keys; at most one binding changes; it belongs to a Variable with a gradient entry and a cost, has the best gradient/cost among them and the target's sign, and moves by at most maxCost/cost |
| Optimizer.StepBreaksTies | imho.js:281-291 | the stable sort's tie-break: the Variable that moves has a strictly larger gradient/cost than every costed Variable entered in the gradient table before it |
| Optimizer.BestAmongVariables | imho.js:281-291 | the chosen Variable's gradient/cost is at least that of every Variable with a gradient entry and a cost |
| Optimizer.StepKeeps | imho.js:287-294 | with no candidate, or a best gradient whose sign differs from the target's, the bindings come back unchanged |
| Optimizer.BudgetCapsStep | imho.js:295-300 | one Variable at 0, cost 1, target 10, budget 5: the step moves it to exactly 5 |
| Optimizer.UnreachedZeroCost | imho.js:273-280 | a zero cost for a Variable the backward pass never reaches is admitted and unread: the step still moves the reached Variable by the budget |
| Optimizer.ZeroGradientTakesBudget | imho.js:131-135 | min(-5, v) with v = 3, cost 1, target 0, budget 2: v's gradient is 0 and the step moves it by the whole budget, to 5 |
| Economy.NewCommodity | economy.js:17-27 | two Variables and their product are appended, and the graph stays acyclic |
| Economy.NewIndustry | economy.js:29-35 | demand Add, production Min(demand, potential), Distribution(production, demand) and demandMet Divide(potential, demand) are appended |
| Economy.BuildCommodities | economy.js:37-47 | population and the nine commodities in key order |
| Economy.ConfigureElectric | economy.js:51-61 | electric potential as wind + solar + nuclear + oil + coal, then the electric industry |
| Economy.ConfigureWater | economy.js:63-70 | water potential as water + waterrecycle, then the water industry |
| Economy.WireWaterDemand | economy.js:71-76 | water demand gets population·2, then 10·2 for AI |
| Economy.WireElectricDemand | economy.js:78-83 | electric demand gets water demand·5, then population·3 |
| Economy.ConfigureAgri | economy.js:85-97 | the agri industry over meat + grain, and its demand gets population·5 |
| Economy.WireWaterFromAgriculture | economy.js:99-100 | water demand gets agri demand·2 as its third line |
| Economy.WireElectricFulfillment | economy.js:102-105 | a Fulfillment per electric line, and their total |
| Economy.WireWaterFulfillment | economy.js:107-111 | a Fulfillment per water line, and their total |
| Economy.Build | economy.js:15-111 | the module's top level builds exactly EconomyNodes, acyclic |
| Economy.InitialVariables | economy.js:113-141 | the initial table binds exactly population and every commodity's availability and efficiency |
| Economy.Simulation.constructor | economy.js:113-141 | loading the module builds the graph and binds the initial values |
| Economy.Simulation.Execute | economy.js:172-174 | a fresh execution's forward value: the result depends only on the node and the bindings passed |
| Economy.Simulation.Optimize | economy.js:176-178 | the module bindings become the optimizer's output (which changes at most one entry); they stay as they were when the step fails |
| EconomyFacts.EconomyAcyclic | economy.js:15-111 | the wired economy has no cycle |
| EconomyFacts.VariableIds | economy.js:15-47 | the economy's Variables are exactly population and the commodities' availabilities and efficiencies |
| EconomyFacts.CommodityShapes | economy.js:37-47 | each commodity's potential is the product of its two Variables |
| EconomyFacts.IndustryShapes | economy.js:51-92 | each industry's four nodes are wired as `industry` builds them |
| EconomyFacts.EconomyPotentials | economy.js:54-91 | each potential production adds up its commodities' potentials |
| EconomyFacts.EconomyDemands | economy.js:73-100 | water's lines are population, AI, agriculture; electric's are water, population; agri's is population |
| EconomyFacts.EconomyLines | economy.js:71-99 | each demand line is a product with its coefficient |
| EconomyFacts.EconomyFulfillments | economy.js:102-111 | one Fulfillment per line of the electric and water distributions, and their totals |
| EconomyFacts.CommodityPotential | economy.js:17-27 | potential production is availability × efficiency, or the first unbound Variable's error |
| EconomyFacts.IndustryOutputs | economy.js:29-35 | production is min(demand, potential) and fails exactly when one of them fails; demandMet is potential/demand, DivisionByZero at zero demand |
| EconomyFacts.DemandTotal | economy.js:30 | the demand node's value is the sum of its lines |
| EconomyFacts.LineServed | economy.js:32 | with non-negative lines and potential, a line's fulfillment is its share, between 0 and its demand, and all of its demand when total demand fits the potential |
| EconomyFacts.IndustryBalance | economy.js:31-32 | the total of one Fulfillment per line equals production, min(total demand, potential) |
| EconomyFacts.ElectricSide | economy.js:102-105 | in a graph wired like the economy, with non-negative bindings, total electric fulfillment equals electric production |
| EconomyFacts.WaterSide | economy.js:107-111 | in a graph wired like the economy, with non-negative bindings, total water fulfillment equals water production |
| EconomyFacts.EconomyElectricBalance | economy.js:102-105 | for the economy itself and any non-negative bindings, TotalElectricFulfillment equals electric production |
| EconomyFacts.EconomyWaterBalance | economy.js:107-111 | for the economy itself and any non-negative bindings, TotalWaterFulfillment equals water production |
| EconomyFacts.InitialWaterDemand | economy.js:71-100 | with one person the water lines are 2, 20 and 10, agri demand is 5, and water demand is 32 |
| EconomyFacts.InitialElectricDemand | economy.js:78-83 | with water demand 32 and one person the electric lines are 160 and 3, total 163 |
| EconomyFacts.InitialElectricPotential | economy.js:52-61 | the initial electric potential is 9100 |
| EconomyFacts.InitialWaterPotential | economy.js:64-70 | the initial water potential is 1000 |
| EconomyFacts.InitialElectricSupply | economy.js:102-105 | both electric lines are served in full (160 and 3), the total is 163, demandMet is 9100/163 |
| EconomyFacts.InitialWaterLines | economy.js:107-110 | the water lines are served in full: 2, 20 and 10 |
| EconomyFacts.InitialWaterSupply | economy.js:107-111 | the water total is 32 and demandMet is 31.25 |
| EconomyFacts.InitialWater | economy.js:113-141 | the economy as loaded: water demand 32, all served, demand met 31.25 times over |
| EconomyFacts.InitialElectric | economy.js:113-141 | the economy as loaded: electric demand 163, all served, demandMet 9100/163 |
| EconomyFacts.EconomyBound | economy.js:113-141 | bindings covering the economy's Variables never make a node fail as unbound |

## Left out

- `Power` (imho.js:58-85) is not modelled: it needs `Math.pow` and `Math.log`, and no wired node uses it.
- `improvementCosts` (economy.js:143-166) is not modelled: it is built from `Math.pow` closures. The optimizer takes costs already resolved to numbers, as the caller would compute them.
- `society` (economy.js:168-170), all of `script.js` and number formatting are not modelled: they are display tables and UI.
- The `variableGradients` getter (imho.js:262-264) is not modelled as a member: `optimize` filters the table for Variables itself, which is `Optimizer.Candidates`.
- `Operation.forward`/`backward` throwing "not implemented" (imho.js:6-12) is not modelled: the node kinds are a closed datatype.
- IEEE-754 arithmetic is replaced by `real`. A quotient by zero is `DivisionByZero` where JavaScript gives an infinity or `NaN`. Signed zero in `Math.sign` is not modelled.
- Optimizer.Step: the costs of the candidates (the Variables with an entry in the gradient table after the backward pass) must be non-zero (`RankedCosts`). A zero candidate cost gives the source's comparator and its budget bound an infinite or `NaN` ratio, and `sort` with such ratios is not modelled. Costs of Variables the pass does not reach are never read and may be zero.
- Optimizer.Move: a zero best gradient with a zero or negative gap is `FlatGradient`, where the source stores `NaN` or `-Infinity`. Signed zero is not modelled: a gradient of `-0` with a positive gap is moved by the budget, where the source stores `-Infinity`. A best Variable missing from the bindings is `Unbound`, where the source stores `NaN`.
- Graph.Fulfilled: a Fulfillment whose line is not among the demand inputs is `MissingLine`, where the source returns `undefined`.
- Graph.Arena.Include: inputs must rank below the Add. The source accepts an include that closes a cycle, whose forward pass would recurse until the stack overflows.
- Display names are reduced to whether a node has one, the only part `grade` reads.
- `economy.js:12` imports `_optimize`, which `imho.js` does not export (it exports `optimize`). The model takes the two to be the same function.
- Economy.Simulation.Execute: the default argument `_variables = variables` is not modelled; the caller passes the bindings.
- Economy.Simulation.Optimize: it also returns the optimizer's result, so that failures are visible. On a failed step the bindings stay as they were. The source throws on an unbound Variable; on a zero divisor in the forward or backward pass it goes on with infinite or `NaN` values, and on a flat gradient (see Optimizer.Move) it stores `NaN` or `-Infinity`.
- Engine.Execution.constructor: the default `variables = new Map()` (imho.js:249) is not modelled; the caller passes the bindings.
