/** `optimize`: one backward pass from the operation, the bound Variables
    that received a gradient and have a cost ranked by gradient/cost, and a
    copy of the bindings with the best-ranked Variable moved towards the
    target. */
module Optimizer {
  import opened WaterFill
  import opened Graph
  import opened Engine

  /** A Variable with its gradient and its cost. */
  datatype Candidate = Candidate(variable: nat, gradient: real, cost: real)

  /** The sort key: gradient per unit of cost. */
  function Ratio(c: Candidate): real
    requires c.cost != 0.0
  {
    c.gradient / c.cost
  }

  /** The costs `optimize` reads, those of the Variables with an entry in the
      gradient table, are divisors in the ranking and in the budget bound.
      Costs of other Variables are never read and may be anything. */
  ghost predicate CandidateCosts(g: seq<Node>, t: GradientTable, costs: map<nat, real>) {
    forall k :: k in t.order && k < |g| && g[k].Variable? && k in costs ==> costs[k] != 0.0
  }

  /** CandidateCosts for the table of the backward pass from `op`. */
  ghost predicate RankedCosts(g: seq<Node>, vars: map<nat, real>, op: nat, costs: map<nat, real>)
    requires Acyclic(g) && op < |g|
  {
    Back(g, vars, op, 1.0, NoGradients).Ok? ==> CandidateCosts(g, Back(g, vars, op, 1.0, NoGradients).value.table, costs)
  }

  /** The entries of the gradient table, in the table's order, that belong
      to Variables with a cost. */
  function Candidates(g: seq<Node>, order: seq<nat>, t: GradientTable, costs: map<nat, real>): (cs: seq<Candidate>)
    ensures forall c :: c in cs ==>
      c.variable in order && c.variable < |g| && g[c.variable].Variable? && c.variable in costs &&
      c.gradient == Amount(t, c.variable) && c.cost == costs[c.variable]
    ensures forall k :: k in order && k < |g| && g[k].Variable? && k in costs ==>
      Candidate(k, Amount(t, k), costs[k]) in cs
    ensures |cs| <= |order|
  {
    if order == [] then []
    else
      var init := Candidates(g, order[..|order| - 1], t, costs);
      var k := order[|order| - 1];
      assert forall c :: c in init ==> c.variable in order;
      assert forall j :: j in order ==> j in order[..|order| - 1] || j == k;
      if k < |g| && g[k].Variable? && k in costs then init + [Candidate(k, Amount(t, k), costs[k])]
      else init
  }

  /** The position of the first candidate with the largest ratio: the head
      of the candidates after the stable descending sort. */
  function Best(cs: seq<Candidate>): (i: nat)
    requires cs != [] && forall c :: c in cs ==> c.cost != 0.0
    ensures i < |cs|
    ensures forall j :: 0 <= j < |cs| ==> Ratio(cs[j]) <= Ratio(cs[i])
    ensures forall j :: 0 <= j < i ==> Ratio(cs[j]) < Ratio(cs[i])
  {
    if |cs| == 1 then 0
    else
      var init := cs[..|cs| - 1];
      assert forall c :: c in init ==> c in cs;
      var i := Best(init);
      if Ratio(init[i]) < Ratio(cs[|cs| - 1]) then |cs| - 1 else i
  }

  /** Math.sign. */
  function Sign(x: real): (s: int)
    ensures s == -1 || s == 0 || s == 1
    ensures (s == 1 <==> x > 0.0) && (s == -1 <==> x < 0.0)
  {
    if x > 0.0 then 1 else if x < 0.0 then -1 else 0
  }

  /** The candidates as `optimize` ranks them after its backward pass. */
  function Ranking(g: seq<Node>, vars: map<nat, real>, op: nat, costs: map<nat, real>): (r: Result<seq<Candidate>>)
    requires Acyclic(g) && op < |g|
  {
    var p :- Back(g, vars, op, 1.0, NoGradients);
    Ok(Candidates(g, p.table.order, p.table, costs))
  }

  /** What `optimize` returns: the bindings unchanged when there is no
      candidate or the best one's gradient points away from the target's
      sign; otherwise the best Variable moved by
      min((target - value)/gradient, maxCost/cost), as Increment computes it. */
  function Step(g: seq<Node>, vars: map<nat, real>, op: nat, target: real, costs: map<nat, real>, maxCost: real)
    : (r: Result<map<nat, real>>)
    requires Acyclic(g) && op < |g| && RankedCosts(g, vars, op, costs)
  {
    var cs :- Ranking(g, vars, op, costs);
    Move(g, vars, op, target, cs, maxCost)
  }

  /** The second half of `optimize`, once the candidates are ranked. */
  function Move(g: seq<Node>, vars: map<nat, real>, op: nat, target: real, cs: seq<Candidate>, maxCost: real)
    : (r: Result<map<nat, real>>)
    requires Acyclic(g) && op < |g| && forall c :: c in cs ==> c.cost != 0.0
  {
    if cs == [] then Ok(vars)
    else
      var c := cs[Best(cs)];
      if Sign(c.gradient) != Sign(target) then Ok(vars)
      else
        var out :- Eval(g, vars, op);
        var diff :- Increment(c.variable, target - out, c.gradient, maxCost / c.cost);
        if c.variable !in vars then Err(Unbound(c.variable))
        else Ok(vars[c.variable := vars[c.variable] + diff])
  }

  /** Math.min(gap / gradient, cap) with IEEE division by zero: a positive gap
      over a zero gradient is +Infinity, so the cap wins; a negative gap gives
      -Infinity and a zero gap NaN, both reported as FlatGradient. */
  function Increment(variable: nat, gap: real, gradient: real, cap: real): (r: Result<real>)
    ensures r.Ok? <==> gradient != 0.0 || 0.0 < gap
    ensures r.Ok? ==> r.value <= cap && (r.value == cap || (gradient != 0.0 && r.value == gap / gradient))
    ensures r.Ok? && gradient != 0.0 ==> r.value <= gap / gradient
    ensures r.Err? ==> r.error == FlatGradient(variable)
  {
    if gradient != 0.0 then Ok(MinReal(gap / gradient, cap))
    else if 0.0 < gap then Ok(cap)
    else Err(FlatGradient(variable))
  }

  /** The optimizer as the source runs it: a fresh execution, its backward
      pass and the ranking of its gradient table. */
  method Optimize(arena: Arena, op: nat, target: real, vars: map<nat, real>, costs: map<nat, real>, maxCost: real)
    returns (r: Result<map<nat, real>>)
    requires arena.Valid() && op < |arena.nodes| && RankedCosts(arena.nodes, vars, op, costs)
    ensures r == Step(arena.nodes, vars, op, target, costs, maxCost)
  {
    var ex := new Execution(arena, op, vars);
    ghost var spec := Back(arena.nodes, vars, op, 1.0, NoGradients);
    var b := ex.Backward();
    assert ex.Consistent() && ex.Agrees(b, spec);
    if b.Err? {
      return Err(b.error);
    }
    var cs := Candidates(arena.nodes, ex.gradients.order, ex.gradients, costs);
    assert Ranking(arena.nodes, vars, op, costs) == Ok(cs);
    r := MoveBest(ex, cs, target, maxCost);
  }

  /** The best candidate's move: the execution's (cached) forward value,
      then one entry of a copy of the bindings set. */
  method MoveBest(ex: Execution, cs: seq<Candidate>, target: real, maxCost: real) returns (r: Result<map<nat, real>>)
    requires ex.arena.Valid() && ex.operation < |ex.arena.nodes| && ex.Consistent()
    requires forall c :: c in cs ==> c.cost != 0.0
    modifies ex
    ensures r == Move(ex.arena.nodes, ex.variables, ex.operation, target, cs, maxCost)
  {
    if cs == [] {
      return Ok(ex.variables);
    }
    var c := cs[Best(cs)];
    if Sign(c.gradient) != Sign(target) {
      return Ok(ex.variables);
    }
    var out := ex.Forward();
    if out.Err? {
      return Err(out.error);
    }
    var diff := Increment(c.variable, target - out.value, c.gradient, maxCost / c.cost);
    if diff.Err? {
      return Err(diff.error);
    }
    if c.variable !in ex.variables {
      return Err(Unbound(c.variable));
    }
    r := Ok(ex.variables[c.variable := ex.variables[c.variable] + diff.value]);
  }

  /** Once the candidates are ranked, at most one binding changes: the best
      candidate's, when its gradient has the sign of the target, and by at
      most maxCost/cost. */
  lemma MoveChangesBest(g: seq<Node>, vars: map<nat, real>, op: nat, target: real, cs: seq<Candidate>, maxCost: real)
    requires Acyclic(g) && op < |g| && forall c :: c in cs ==> c.cost != 0.0
    requires Move(g, vars, op, target, cs, maxCost).Ok?
    ensures Move(g, vars, op, target, cs, maxCost).value.Keys == vars.Keys
    ensures forall k :: k in vars && Move(g, vars, op, target, cs, maxCost).value[k] != vars[k] ==>
      && cs != [] && k == cs[Best(cs)].variable
      && Sign(cs[Best(cs)].gradient) == Sign(target)
      && Move(g, vars, op, target, cs, maxCost).value[k] - vars[k] <= maxCost / cs[Best(cs)].cost
  {
  }

  /** `optimize` returns the bindings with at most one entry changed. The
      changed entry belongs to a Variable whose gradient/cost is the largest
      among the Variables that have a gradient entry and a cost (the first
      such in gradient-table order, by StepBreaksTies); its gradient has the
      sign of the target, and it moves by at most maxCost/cost. */
  lemma StepMovesBest(g: seq<Node>, vars: map<nat, real>, op: nat, target: real, costs: map<nat, real>, maxCost: real)
    requires Acyclic(g) && op < |g| && RankedCosts(g, vars, op, costs)
    requires Step(g, vars, op, target, costs, maxCost).Ok?
    ensures Step(g, vars, op, target, costs, maxCost).value.Keys == vars.Keys
    ensures forall k, k' ::
      (k in vars && k' in vars &&
       Step(g, vars, op, target, costs, maxCost).value[k] != vars[k] &&
       Step(g, vars, op, target, costs, maxCost).value[k'] != vars[k']) ==> k == k'
    ensures forall k :: k in vars && Step(g, vars, op, target, costs, maxCost).value[k] != vars[k] ==>
      var t := Back(g, vars, op, 1.0, NoGradients).value.table;
      && k < |g| && g[k].Variable? && k in t.order && k in costs
      && Sign(Amount(t, k)) == Sign(target)
      && Step(g, vars, op, target, costs, maxCost).value[k] - vars[k] <= maxCost / costs[k]
      && (forall v :: v in t.order && v < |g| && g[v].Variable? && v in costs ==>
            Amount(t, v) / costs[v] <= Amount(t, k) / costs[k])
  {
    var t := Back(g, vars, op, 1.0, NoGradients).value.table;
    var cs := Candidates(g, t.order, t, costs);
    assert Ranking(g, vars, op, costs) == Ok(cs);
    var r := Move(g, vars, op, target, cs, maxCost);
    assert Step(g, vars, op, target, costs, maxCost) == r;
    MoveChangesBest(g, vars, op, target, cs, maxCost);
    if cs != [] {
      var c := cs[Best(cs)];
      assert c in cs;
      BestAmongVariables(g, t, costs, cs);
    }
  }

  /** The stable sort breaks ties by the gradient table's order: a Variable
      that `optimize` moves beats, strictly, every costed Variable entered in
      the table before it. */
  lemma StepBreaksTies(g: seq<Node>, vars: map<nat, real>, op: nat, target: real, costs: map<nat, real>, maxCost: real)
    requires Acyclic(g) && op < |g| && RankedCosts(g, vars, op, costs)
    requires Step(g, vars, op, target, costs, maxCost).Ok?
    ensures var r := Step(g, vars, op, target, costs, maxCost).value;
      var t := Back(g, vars, op, 1.0, NoGradients).value.table;
      forall k :: k in vars && k in r && r[k] != vars[k] ==>
      && k in t.order
      && (forall v :: v in t.order[..FirstIndex(t.order, k)] && v < |g| && g[v].Variable? && v in costs ==>
            Amount(t, v) / costs[v] < Amount(t, k) / costs[k])
  {
    var t := Back(g, vars, op, 1.0, NoGradients).value.table;
    var cs := Candidates(g, t.order, t, costs);
    assert Ranking(g, vars, op, costs) == Ok(cs);
    MoveChangesBest(g, vars, op, target, cs, maxCost);
    if cs != [] {
      assert cs[Best(cs)] in cs;
      BestComesFirst(g, t, costs, cs);
    }
  }

  /** The best candidate beats every Variable with a gradient entry and a cost. */
  lemma BestAmongVariables(g: seq<Node>, t: GradientTable, costs: map<nat, real>, cs: seq<Candidate>)
    requires CandidateCosts(g, t, costs) && cs == Candidates(g, t.order, t, costs) && cs != []
    ensures var c := cs[Best(cs)];
      forall v :: v in t.order && v < |g| && g[v].Variable? && v in costs ==>
        Amount(t, v) / costs[v] <= Amount(t, c.variable) / costs[c.variable]
  {
    var c := cs[Best(cs)];
    assert c in cs;
    forall v | v in t.order && v < |g| && g[v].Variable? && v in costs
      ensures Amount(t, v) / costs[v] <= Amount(t, c.variable) / costs[c.variable]
    {
      var j :| 0 <= j < |cs| && cs[j] == Candidate(v, Amount(t, v), costs[v]);
      assert Ratio(cs[j]) <= Ratio(c);
    }
  }

  /** The position of the first occurrence of `x` in `s`. */
  function FirstIndex(s: seq<nat>, x: nat): (i: nat)
    requires x in s
    ensures i < |s| && s[i] == x && x !in s[..i]
  {
    if s[0] == x then 0
    else
      var j := FirstIndex(s[1..], x);
      assert s[..j + 1] == [s[0]] + s[1..][..j];
      j + 1
  }

  /** Candidates keeps the table's order: the candidates of a prefix of the
      order are a prefix of the candidates of the whole order. */
  lemma {:induction false} CandidatesPrefix(g: seq<Node>, order: seq<nat>, t: GradientTable, costs: map<nat, real>, q: nat)
    requires q <= |order|
    ensures var pre := Candidates(g, order[..q], t, costs);
      var cs := Candidates(g, order, t, costs);
      |pre| <= |cs| && cs[..|pre|] == pre
  {
    var pre := Candidates(g, order[..q], t, costs);
    if q == |order| {
      assert order[..q] == order;
    } else {
      var init := order[..|order| - 1];
      assert init[..q] == order[..q];
      CandidatesPrefix(g, init, t, costs, q);
      var ci := Candidates(g, init, t, costs);
      assert ci[..|pre|] == pre;
      var cs := Candidates(g, order, t, costs);
      assert cs[..|ci|] == ci;
      assert cs[..|pre|] == ci[..|pre|];
    }
  }

  /** A costed Variable at position q of the order has its candidate right
      after the candidates of the positions before q. */
  lemma CandidateAt(g: seq<Node>, order: seq<nat>, t: GradientTable, costs: map<nat, real>, q: nat)
    requires q < |order| && order[q] < |g| && g[order[q]].Variable? && order[q] in costs
    ensures var pre := Candidates(g, order[..q], t, costs);
      var cs := Candidates(g, order, t, costs);
      |pre| < |cs| && cs[|pre|] == Candidate(order[q], Amount(t, order[q]), costs[order[q]])
  {
    var s := order[..q + 1];
    assert s[..|s| - 1] == order[..q] && s[|s| - 1] == order[q];
    CandidatesPrefix(g, order, t, costs, q + 1);
    var cs := Candidates(g, order, t, costs);
    var pre := Candidates(g, order[..q], t, costs);
    assert cs[..|pre| + 1] == pre + [Candidate(order[q], Amount(t, order[q]), costs[order[q]])];
    assert cs[|pre|] == cs[..|pre| + 1][|pre|];
  }

  /** Ties go to the table's order: every costed Variable entered in the
      gradient table before the best candidate's Variable has a strictly
      smaller gradient/cost. */
  lemma BestComesFirst(g: seq<Node>, t: GradientTable, costs: map<nat, real>, cs: seq<Candidate>)
    requires CandidateCosts(g, t, costs) && cs == Candidates(g, t.order, t, costs) && cs != []
    ensures var k := cs[Best(cs)].variable;
      k in t.order &&
      forall v :: v in t.order[..FirstIndex(t.order, k)] && v < |g| && g[v].Variable? && v in costs ==>
        Amount(t, v) / costs[v] < Amount(t, k) / costs[k]
  {
    var b := Best(cs);
    var c := cs[b];
    assert c in cs;
    var k := c.variable;
    var q := FirstIndex(t.order, k);
    var pre := Candidates(g, t.order[..q], t, costs);
    CandidatesPrefix(g, t.order, t, costs, q);
    CandidateAt(g, t.order, t, costs, q);
    assert cs[|pre|] == c;
    assert b == |pre|;
    forall v | v in t.order[..q] && v < |g| && g[v].Variable? && v in costs
      ensures Amount(t, v) / costs[v] < Amount(t, k) / costs[k]
    {
      var j :| 0 <= j < |pre| && pre[j] == Candidate(v, Amount(t, v), costs[v]);
      assert cs[j] == cs[..|pre|][j];
      assert Ratio(cs[j]) < Ratio(c);
    }
  }

  /** No candidate, or a best gradient whose sign differs from the target's:
      the bindings come back as they were. */
  lemma StepKeeps(g: seq<Node>, vars: map<nat, real>, op: nat, target: real, costs: map<nat, real>, maxCost: real)
    requires Acyclic(g) && op < |g| && RankedCosts(g, vars, op, costs)
    requires Back(g, vars, op, 1.0, NoGradients).Ok?
    ensures var t := Back(g, vars, op, 1.0, NoGradients).value.table;
      var cs := Candidates(g, t.order, t, costs);
      (cs == [] || Sign(cs[Best(cs)].gradient) != Sign(target)) ==>
        Step(g, vars, op, target, costs, maxCost) == Ok(vars)
    ensures var t := Back(g, vars, op, 1.0, NoGradients).value.table;
      (forall k :: k in t.order && k < |g| ==> !g[k].Variable? || k !in costs) ==>
        Step(g, vars, op, target, costs, maxCost) == Ok(vars)
  {
    var t := Back(g, vars, op, 1.0, NoGradients).value.table;
    var cs := Candidates(g, t.order, t, costs);
    assert Ranking(g, vars, op, costs) == Ok(cs);
  }

  /** One bound Variable as the operation, at 0 with cost 1, target 10 and a
      budget of 5: the gradient is 1, the gap is 10, and the budget caps the
      move at 5. */
  lemma BudgetCapsStep()
    ensures Acyclic([Variable(true)])
    ensures Step([Variable(true)], map[0 := 0.0], 0, 10.0, map[0 := 1.0], 5.0) == Ok(map[0 := 5.0])
  {
    var g, vars, costs := [Variable(true)], map[0 := 0.0], map[0 := 1.0];
    var t := GradientTable([0], map[0 := 1.0]);
    SingleVariableBack();
    var cs := [Candidate(0, 1.0, 1.0)];
    assert Candidates(g, [0], t, costs) == cs by {
      assert [0][..0] == [];
    }
    assert Ranking(g, vars, 0, costs) == Ok(cs);
    SingleVariableMove(cs);
  }

  /** The backward pass of a lone named Variable records gradient 1 for it. */
  lemma SingleVariableBack()
    ensures Acyclic([Variable(true)])
    ensures Back([Variable(true)], map[0 := 0.0], 0, 1.0, NoGradients) == Ok(Pass(1.0, GradientTable([0], map[0 := 1.0])))
    ensures Eval([Variable(true)], map[0 := 0.0], 0) == Ok(0.0)
  {
    var g := [Variable(true)];
    assert Ranked(g, [0]) by {
      assert OperandsRankBelow(g, [0], 0);
    }
    assert Grade(g[0], 0, 1.0, NoGradients) == GradientTable([0], map[0 := 1.0]) by {
      assert NoGradients.order + [0] == [0];
      assert NoGradients.amount[0 := 1.0] == map[0 := 1.0];
    }
  }

  /** The move of that Variable: min(10/1, 5/1) = 5. */
  lemma SingleVariableMove(cs: seq<Candidate>)
    requires Acyclic([Variable(true)]) && Eval([Variable(true)], map[0 := 0.0], 0) == Ok(0.0)
    requires cs == [Candidate(0, 1.0, 1.0)]
    ensures Move([Variable(true)], map[0 := 0.0], 0, 10.0, cs, 5.0) == Ok(map[0 := 5.0])
  {
    assert Best(cs) == 0;
    assert MinReal((10.0 - 0.0) / 1.0, 5.0 / 1.0) == 5.0;
    assert map[0 := 0.0][0 := 0.0 + 5.0] == map[0 := 5.0];
  }

  /** The graph min(-5, v) with v bound to 3, cost 1, target 0 and a budget
      of 2: the smaller side is the Constant, so v's gradient entry is 0; the
      gap 0 - (-5) over that zero gradient is +Infinity, and the budget moves
      v by 2. */
  lemma ZeroGradientTakesBudget()
    ensures Acyclic([Constant(false, -5.0), Variable(true), Min(true, 0, 1)])
    ensures Step([Constant(false, -5.0), Variable(true), Min(true, 0, 1)], map[1 := 3.0], 2, 0.0,
                 map[1 := 1.0], 2.0) == Ok(map[1 := 5.0])
  {
    var g, vars, costs := [Constant(false, -5.0), Variable(true), Min(true, 0, 1)], map[1 := 3.0], map[1 := 1.0];
    var t := GradientTable([2, 1], map[2 := 1.0, 1 := 0.0]);
    MinOfConstantBack();
    var cs := [Candidate(1, 0.0, 1.0)];
    assert Candidates(g, [2, 1], t, costs) == cs by {
      assert [2, 1][..1] == [2] && [2][..0] == [];
    }
    assert Ranking(g, vars, 2, costs) == Ok(cs);
    MinOfConstantMove(cs);
  }

  /** The backward pass of min(-5, v): the Min's own entry gets 1, v's entry 0. */
  lemma MinOfConstantBack()
    ensures Acyclic([Constant(false, -5.0), Variable(true), Min(true, 0, 1)])
    ensures Back([Constant(false, -5.0), Variable(true), Min(true, 0, 1)], map[1 := 3.0], 2, 1.0, NoGradients)
      == Ok(Pass(1.0, GradientTable([2, 1], map[2 := 1.0, 1 := 0.0])))
    ensures Eval([Constant(false, -5.0), Variable(true), Min(true, 0, 1)], map[1 := 3.0], 2) == Ok(-5.0)
  {
    var g, vars := [Constant(false, -5.0), Variable(true), Min(true, 0, 1)], map[1 := 3.0];
    MinOfConstantForward();
    var t1 := GradientTable([2], map[2 := 1.0]);
    assert Grade(g[2], 2, 1.0, NoGradients) == t1 by {
      assert NoGradients.order + [2] == [2];
      assert NoGradients.amount[2 := 1.0] == map[2 := 1.0];
    }
    MinOfConstantSides();
    assert BackSides(g, vars, 2, 1.0, t1) == ToSmaller(g, vars, 0, 1, true, 1.0, t1);
  }

  /** min(-5, v) is ranked, and with v = 3 its sides are -5 and 3. */
  lemma MinOfConstantForward()
    ensures Acyclic([Constant(false, -5.0), Variable(true), Min(true, 0, 1)])
    ensures Eval([Constant(false, -5.0), Variable(true), Min(true, 0, 1)], map[1 := 3.0], 0) == Ok(-5.0)
    ensures Eval([Constant(false, -5.0), Variable(true), Min(true, 0, 1)], map[1 := 3.0], 1) == Ok(3.0)
    ensures Eval([Constant(false, -5.0), Variable(true), Min(true, 0, 1)], map[1 := 3.0], 2) == Ok(-5.0)
  {
    var g := [Constant(false, -5.0), Variable(true), Min(true, 0, 1)];
    assert Ranked(g, [0, 0, 1]) by {
      assert OperandsRankBelow(g, [0, 0, 1], 0);
      assert OperandsRankBelow(g, [0, 0, 1], 1);
      assert OperandsRankBelow(g, [0, 0, 1], 2);
    }
  }

  /** The sides' backward calls: the unnamed Constant records nothing and v
      is entered with gradient 0. */
  lemma MinOfConstantSides()
    requires Acyclic([Constant(false, -5.0), Variable(true), Min(true, 0, 1)])
    ensures Back([Constant(false, -5.0), Variable(true), Min(true, 0, 1)], map[1 := 3.0], 0, 1.0,
                 GradientTable([2], map[2 := 1.0])) == Ok(Pass(0.0, GradientTable([2], map[2 := 1.0])))
    ensures Back([Constant(false, -5.0), Variable(true), Min(true, 0, 1)], map[1 := 3.0], 1, 0.0,
                 GradientTable([2], map[2 := 1.0])) == Ok(Pass(1.0, GradientTable([2, 1], map[2 := 1.0, 1 := 0.0])))
  {
    var g := [Constant(false, -5.0), Variable(true), Min(true, 0, 1)];
    assert Grade(g[1], 1, 0.0, GradientTable([2], map[2 := 1.0])) == GradientTable([2, 1], map[2 := 1.0, 1 := 0.0]) by {
      assert [2] + [1] == [2, 1];
      assert map[2 := 1.0][1 := 0.0] == map[2 := 1.0, 1 := 0.0];
    }
  }

  /** The move of v: the gradient is 0 and the gap 5, so Increment gives the
      budget 2/1 and v goes from 3 to 5. */
  lemma MinOfConstantMove(cs: seq<Candidate>)
    requires Acyclic([Constant(false, -5.0), Variable(true), Min(true, 0, 1)])
    requires Eval([Constant(false, -5.0), Variable(true), Min(true, 0, 1)], map[1 := 3.0], 2) == Ok(-5.0)
    requires cs == [Candidate(1, 0.0, 1.0)]
    ensures Move([Constant(false, -5.0), Variable(true), Min(true, 0, 1)], map[1 := 3.0], 2, 0.0, cs, 2.0)
      == Ok(map[1 := 5.0])
  {
    assert Best(cs) == 0;
    assert Increment(1, 0.0 - -5.0, 0.0, 2.0 / 1.0) == Ok(2.0);
    assert map[1 := 3.0][1 := 3.0 + 2.0] == map[1 := 5.0];
  }

  /** A zero cost for a Variable the backward pass never reaches is never
      read: with v0 as the operation and v1 costing 0, the step is allowed and
      moves v0 by the budget. */
  lemma UnreachedZeroCost()
    ensures Acyclic([Variable(true), Variable(true)])
    ensures RankedCosts([Variable(true), Variable(true)], map[0 := 0.0, 1 := 0.0], 0, map[0 := 1.0, 1 := 0.0])
    ensures Step([Variable(true), Variable(true)], map[0 := 0.0, 1 := 0.0], 0, 10.0, map[0 := 1.0, 1 := 0.0], 5.0)
      == Ok(map[0 := 5.0, 1 := 0.0])
  {
    var g, vars, costs := [Variable(true), Variable(true)], map[0 := 0.0, 1 := 0.0], map[0 := 1.0, 1 := 0.0];
    var t := GradientTable([0], map[0 := 1.0]);
    FirstOfTwoBack();
    var cs := [Candidate(0, 1.0, 1.0)];
    assert Candidates(g, [0], t, costs) == cs by {
      assert [0][..0] == [];
    }
    assert Ranking(g, vars, 0, costs) == Ok(cs);
    FirstOfTwoMove(cs);
  }

  /** The backward pass from the first of two named Variables records only it. */
  lemma FirstOfTwoBack()
    ensures Acyclic([Variable(true), Variable(true)])
    ensures Back([Variable(true), Variable(true)], map[0 := 0.0, 1 := 0.0], 0, 1.0, NoGradients)
      == Ok(Pass(1.0, GradientTable([0], map[0 := 1.0])))
    ensures Eval([Variable(true), Variable(true)], map[0 := 0.0, 1 := 0.0], 0) == Ok(0.0)
  {
    var g := [Variable(true), Variable(true)];
    assert Ranked(g, [0, 0]) by {
      assert OperandsRankBelow(g, [0, 0], 0);
      assert OperandsRankBelow(g, [0, 0], 1);
    }
    assert Grade(g[0], 0, 1.0, NoGradients) == GradientTable([0], map[0 := 1.0]) by {
      assert NoGradients.order + [0] == [0];
      assert NoGradients.amount[0 := 1.0] == map[0 := 1.0];
    }
  }

  /** The move of v0: min(10/1, 5/1) = 5, with v1 left at 0. */
  lemma FirstOfTwoMove(cs: seq<Candidate>)
    requires Acyclic([Variable(true), Variable(true)])
    requires Eval([Variable(true), Variable(true)], map[0 := 0.0, 1 := 0.0], 0) == Ok(0.0)
    requires cs == [Candidate(0, 1.0, 1.0)]
    ensures Move([Variable(true), Variable(true)], map[0 := 0.0, 1 := 0.0], 0, 10.0, cs, 5.0)
      == Ok(map[0 := 5.0, 1 := 0.0])
  {
    assert Best(cs) == 0;
    assert Increment(0, 10.0 - 0.0, 1.0, 5.0 / 1.0) == Ok(5.0);
    assert map[0 := 0.0, 1 := 0.0][0 := 0.0 + 5.0] == map[0 := 5.0, 1 := 0.0];
  }
}
