/** Properties of the forward and backward passes, stated over the graph
    semantics of module Graph. */
module Facts {
  import opened WaterFill
  import opened Graph

  /** From `t` to `t'` the gradient table only gains entries, each for a node
      that records gradients, and the entries already present keep their place
      in the iteration order. */
  ghost predicate Grows(g: seq<Node>, t: GradientTable, t': GradientTable) {
    && (forall k :: k in t.amount ==> k in t'.amount)
    && (forall k :: k in t'.amount && k !in t.amount ==> k < |g| && Records(g[k]))
    && |t.order| <= |t'.order| && t'.order[..|t.order|] == t.order
  }

  lemma GrowsTrans(g: seq<Node>, t0: GradientTable, t1: GradientTable, t2: GradientTable)
    requires Grows(g, t0, t1) && Grows(g, t1, t2)
    ensures Grows(g, t0, t2)
  {
    assert t2.order[..|t0.order|] == t2.order[..|t1.order|][..|t0.order|];
  }

  lemma GradeGrows(g: seq<Node>, id: nat, gradient: real, t: GradientTable)
    requires id < |g|
    ensures Grows(g, t, Grade(g[id], id, gradient, t))
  {
    var r := Grade(g[id], id, gradient, t);
    if Records(g[id]) && id !in t.amount {
      assert r.order == t.order + [id];
    }
  }

  /** A backward pass never records a gradient for a Constant or an unnamed
      node, never drops an entry and never reorders the entries it found. */
  lemma {:induction false} BackGrows(g: seq<Node>, vars: map<nat, real>, id: nat, gradient: real, t: GradientTable)
    requires Acyclic(g) && id < |g|
    ensures Back(g, vars, id, gradient, t).Ok? ==> Grows(g, t, Back(g, vars, id, gradient, t).value.table)
    decreases RankOf(g)[id], 2, 0
  {
    var t1 := Grade(g[id], id, gradient, t);
    GradeGrows(g, id, gradient, t);
    var r := Back(g, vars, id, gradient, t);
    if r.Ok? {
      match g[id]
      case Constant(_, _) =>
      case Variable(_) =>
      case Add(_, _) =>
        BackInputsGrows(g, vars, id, gradient, t1);
        GrowsTrans(g, t, t1, r.value.table);
      case Min(_, _, _) =>
        BackSidesGrows(g, vars, id, gradient, t1);
        GrowsTrans(g, t, t1, r.value.table);
      case Distribution(_, _, _) =>
        BackSidesGrows(g, vars, id, gradient, t1);
        GrowsTrans(g, t, t1, r.value.table);
      case Multiply(_, _, _) =>
        BackProductGrows(g, vars, id, gradient, t1);
        GrowsTrans(g, t, t1, r.value.table);
      case Divide(_, _, _) =>
        BackQuotientGrows(g, vars, id, gradient, t1);
        GrowsTrans(g, t, t1, r.value.table);
      case Fulfillment(_, _, d) =>
        OperandsBelow(g, id);
        assert d in Deps(g[id]);
        BackGrows(g, vars, d, gradient, t1);
        GrowsTrans(g, t, t1, r.value.table);
    }
  }

  lemma {:induction false} BackInputsGrows(g: seq<Node>, vars: map<nat, real>, id: nat, gradient: real, t: GradientTable)
    requires Acyclic(g) && id < |g| && g[id].Add?
    ensures BackInputs(g, vars, id, gradient, t).Ok? ==> Grows(g, t, BackInputs(g, vars, id, gradient, t).value.table)
    decreases RankOf(g)[id], 1, 0
  {
    InputsBelow(g, id);
    BackAllGrows(g, vars, g[id].inputs, gradient, t, RankOf(g)[id]);
  }

  lemma {:induction false} BackAllGrows(g: seq<Node>, vars: map<nat, real>, ids: seq<nat>, gradient: real,
                                        t: GradientTable, bound: nat)
    requires Acyclic(g) && Below(g, ids, bound)
    ensures BackAll(g, vars, ids, gradient, t, bound).Ok? ==>
      Grows(g, t, BackAll(g, vars, ids, gradient, t, bound).value.table)
    decreases bound, 0, |ids|
  {
    if ids != [] && BackAll(g, vars, ids, gradient, t, bound).Ok? {
      var init := ids[..|ids| - 1];
      BackAllGrows(g, vars, init, gradient, t, bound);
      var p := BackAll(g, vars, init, gradient, t, bound).value;
      BackGrows(g, vars, ids[|ids| - 1], gradient, p.table);
      GrowsTrans(g, t, p.table, BackAll(g, vars, ids, gradient, t, bound).value.table);
    }
  }

  lemma {:induction false} BackPairGrows(g: seq<Node>, vars: map<nat, real>, a: nat, ga: real, b: nat, gb: real,
                                         t: GradientTable)
    requires Acyclic(g) && a < |g| && b < |g|
    ensures BackPair(g, vars, a, ga, b, gb, t).Ok? ==> Grows(g, t, BackPair(g, vars, a, ga, b, gb, t).value.table)
    decreases MaxNat(RankOf(g)[a], RankOf(g)[b]), 3, 0
  {
    if BackPair(g, vars, a, ga, b, gb, t).Ok? {
      BackGrows(g, vars, a, ga, t);
      var pa := Back(g, vars, a, ga, t).value;
      BackGrows(g, vars, b, gb, pa.table);
      GrowsTrans(g, t, pa.table, BackPair(g, vars, a, ga, b, gb, t).value.table);
    }
  }

  lemma {:induction false} BackSidesGrows(g: seq<Node>, vars: map<nat, real>, id: nat, gradient: real, t: GradientTable)
    requires Acyclic(g) && id < |g| && (g[id].Min? || g[id].Distribution?)
    ensures BackSides(g, vars, id, gradient, t).Ok? ==> Grows(g, t, BackSides(g, vars, id, gradient, t).value.table)
    decreases RankOf(g)[id], 0, 0
  {
    var (first, second) := Sides(g[id]);
    OperandsBelow(g, id);
    assert first in Deps(g[id]) && second in Deps(g[id]);
    if BackSides(g, vars, id, gradient, t).Ok? {
      var x, y := Eval(g, vars, first).value, Eval(g, vars, second).value;
      var side := if x < y then first else second;
      BackPairGrows(g, vars, first, if side == first then gradient else 0.0,
                    second, if side == second then gradient else 0.0, t);
    }
  }

  lemma {:induction false} BackProductGrows(g: seq<Node>, vars: map<nat, real>, id: nat, gradient: real, t: GradientTable)
    requires Acyclic(g) && id < |g| && g[id].Multiply?
    ensures BackProduct(g, vars, id, gradient, t).Ok? ==> Grows(g, t, BackProduct(g, vars, id, gradient, t).value.table)
    decreases RankOf(g)[id], 0, 0
  {
    var a, b := g[id].a, g[id].b;
    OperandsBelow(g, id);
    assert a in Deps(g[id]) && b in Deps(g[id]);
    if BackProduct(g, vars, id, gradient, t).Ok? {
      var x, y := Eval(g, vars, a).value, Eval(g, vars, b).value;
      BackPairGrows(g, vars, a, Times(y, gradient), b, Times(x, gradient), t);
    }
  }

  lemma {:induction false} BackQuotientGrows(g: seq<Node>, vars: map<nat, real>, id: nat, gradient: real, t: GradientTable)
    requires Acyclic(g) && id < |g| && g[id].Divide?
    ensures BackQuotient(g, vars, id, gradient, t).Ok? ==> Grows(g, t, BackQuotient(g, vars, id, gradient, t).value.table)
    decreases RankOf(g)[id], 0, 0
  {
    var a, b := g[id].a, g[id].b;
    OperandsBelow(g, id);
    assert a in Deps(g[id]) && b in Deps(g[id]);
    if BackQuotient(g, vars, id, gradient, t).Ok? {
      var x, y := Eval(g, vars, a).value, Eval(g, vars, b).value;
      BackPairGrows(g, vars, a, Over(gradient, y), b, Over(Times(-x, gradient), Times(y, y)), t);
    }
  }

  /** `Values` evaluates every id on its own: it succeeds exactly when each id
      has a value and then lists those values in order; otherwise it reports
      the error of the first id without one. */
  lemma {:induction false} ValuesPointwise(g: seq<Node>, vars: map<nat, real>, ids: seq<nat>, bound: nat)
    requires Acyclic(g) && Below(g, ids, bound)
    ensures Values(g, vars, ids, bound).Ok? <==> forall k :: 0 <= k < |ids| ==> Eval(g, vars, ids[k]).Ok?
    ensures Values(g, vars, ids, bound).Ok? ==>
      forall k :: 0 <= k < |ids| ==> Values(g, vars, ids, bound).value[k] == Eval(g, vars, ids[k]).value
    ensures Values(g, vars, ids, bound).Err? ==>
      exists k :: 0 <= k < |ids| && Eval(g, vars, ids[k]) == Err(Values(g, vars, ids, bound).error) &&
        forall j :: 0 <= j < k ==> Eval(g, vars, ids[j]).Ok?
    decreases |ids|
  {
    if ids != [] {
      var init, last := ids[..|ids| - 1], ids[|ids| - 1];
      ValuesPointwise(g, vars, init, bound);
      var r := Values(g, vars, ids, bound);
      if Values(g, vars, init, bound).Err? {
        var k :| 0 <= k < |init| && Eval(g, vars, init[k]) == Err(Values(g, vars, init, bound).error) &&
          forall j :: 0 <= j < k ==> Eval(g, vars, init[j]).Ok?;
        assert ids[k] == init[k];
        assert forall j :: 0 <= j < k ==> ids[j] == init[j];
      } else if Eval(g, vars, last).Err? {
        assert forall j :: 0 <= j < |init| ==> ids[j] == init[j];
        assert Eval(g, vars, ids[|ids| - 1]) == Err(r.error);
      } else {
        assert forall j :: 0 <= j < |init| ==> ids[j] == init[j];
      }
    }
  }

  /** When every id has a value, `Values` lists exactly those values. */
  lemma {:induction false} ValuesOk(g: seq<Node>, vars: map<nat, real>, ids: seq<nat>, bound: nat, vs: seq<real>)
    requires Acyclic(g) && Below(g, ids, bound) && |vs| == |ids|
    requires forall j :: 0 <= j < |ids| ==> Eval(g, vars, ids[j]) == Ok(vs[j])
    ensures Values(g, vars, ids, bound) == Ok(vs)
    decreases |ids|
  {
    if ids != [] {
      var n := |ids| - 1;
      ValuesOk(g, vars, ids[..n], bound, vs[..n]);
      assert vs == vs[..n] + [vs[n]];
    }
  }

  /** Add.forward is the sum, in input order, of the inputs' values; it fails
      exactly when some input has no value. */
  lemma AddForward(g: seq<Node>, vars: map<nat, real>, id: nat)
    requires Acyclic(g) && id < |g| && g[id].Add?
    ensures forall k :: 0 <= k < |g[id].inputs| ==> g[id].inputs[k] < |g|
    ensures Eval(g, vars, id).Ok? <==> forall k :: 0 <= k < |g[id].inputs| ==> Eval(g, vars, g[id].inputs[k]).Ok?
    ensures Eval(g, vars, id).Ok? ==>
      exists vs: seq<real> :: |vs| == |g[id].inputs| && Eval(g, vars, id).value == Sum(vs) &&
        forall k :: 0 <= k < |vs| ==> vs[k] == Eval(g, vars, g[id].inputs[k]).value
  {
    InputsBelow(g, id);
    ValuesPointwise(g, vars, g[id].inputs, RankOf(g)[id]);
    if Eval(g, vars, id).Ok? {
      var vs := Values(g, vars, g[id].inputs, RankOf(g)[id]).value;
      assert Eval(g, vars, id).value == Sum(vs);
    }
  }

  /** A node `grade` records gradients for, that is a Variable. */
  predicate NamedVariable(g: seq<Node>, k: nat) {
    k < |g| && g[k] == Variable(true)
  }

  /** Variable.backward: the node gains the incoming gradient (when named)
      and returns 1; its value is its binding, or the pass stops when it has
      none. */
  lemma VariableLeaf(g: seq<Node>, vars: map<nat, real>, id: nat, gradient: real, t: GradientTable)
    requires Acyclic(g) && id < |g| && g[id].Variable?
    ensures Eval(g, vars, id) == if id in vars then Ok(vars[id]) else Err(Unbound(id))
    ensures Back(g, vars, id, gradient, t).Ok? && Back(g, vars, id, gradient, t).value.local == 1.0
    ensures forall v :: Amount(Back(g, vars, id, gradient, t).value.table, v)
                     == Amount(t, v) + (if v == id && g[id].named then gradient else 0.0)
  {
  }

  /** Constant.backward: nothing is recorded and the pass returns 0; the
      value is the constant's own. */
  lemma ConstantLeaf(g: seq<Node>, vars: map<nat, real>, id: nat, gradient: real, t: GradientTable)
    requires Acyclic(g) && id < |g| && g[id].Constant?
    ensures Eval(g, vars, id) == Ok(g[id].value)
    ensures Back(g, vars, id, gradient, t) == Ok(Pass(0.0, t))
  {
  }

  /** Add.backward hands the same gradient to each input; on inputs that are
      named Variables each of them gains the gradient once per occurrence,
      and each returns 1. */
  lemma {:induction false} BackAllVariables(g: seq<Node>, vars: map<nat, real>, ids: seq<nat>, gradient: real,
                                            t: GradientTable, bound: nat)
    requires Acyclic(g) && Below(g, ids, bound)
    requires forall k :: 0 <= k < |ids| ==> NamedVariable(g, ids[k])
    ensures BackAll(g, vars, ids, gradient, t, bound).Ok?
    ensures BackAll(g, vars, ids, gradient, t, bound).value.local == |ids| as real
    ensures forall v :: Amount(BackAll(g, vars, ids, gradient, t, bound).value.table, v)
                     == Amount(t, v) + (multiset(ids)[v] as real) * gradient
    decreases |ids|
  {
    if ids != [] {
      var init, last := ids[..|ids| - 1], ids[|ids| - 1];
      assert ids == init + [last];
      assert NamedVariable(g, last);
      BackAllVariables(g, vars, init, gradient, t, bound);
      var p := BackAll(g, vars, init, gradient, t, bound).value;
      VariableLeaf(g, vars, last, gradient, p.table);
      BackAllSnoc(g, vars, init, last, gradient, t, bound, p);
      var q := Back(g, vars, last, gradient, p.table).value;
      assert BackAll(g, vars, ids, gradient, t, bound) == Ok(Pass(p.local + q.local, q.table));
      forall v ensures Amount(q.table, v) == Amount(t, v) + (multiset(ids)[v] as real) * gradient {
        var before := Amount(t, v) + (multiset(init)[v] as real) * gradient;
        assert Amount(p.table, v) == before;
        assert Amount(q.table, v) == before + (if v == last then gradient else 0.0);
        MultisetSnocCount(ids, init, last, v, gradient);
      }
    }
  }

  lemma MultisetSnocCount(ids: seq<nat>, init: seq<nat>, last: nat, v: nat, gradient: real)
    requires ids == init + [last]
    ensures (multiset(ids)[v] as real) * gradient
         == (multiset(init)[v] as real) * gradient + (if v == last then gradient else 0.0)
  {
    assert multiset(init + [last]) == multiset(init) + multiset{last};
    var m := multiset(init)[v] as real;
    if v == last {
      assert (m + 1.0) * gradient == m * gradient + gradient;
    }
  }

  /** Add(x, x): the same gradient reaches x through both inputs, so x gains
      twice the gradient and the pass returns 2. */
  lemma AddTwice(g: seq<Node>, vars: map<nat, real>, id: nat, x: nat, gradient: real, t: GradientTable)
    requires Acyclic(g) && id < |g| && g[id].Add? && g[id].inputs == [x, x] && NamedVariable(g, x)
    ensures Back(g, vars, id, gradient, t).Ok?
    ensures Back(g, vars, id, gradient, t).value.local == 2.0
    ensures Amount(Back(g, vars, id, gradient, t).value.table, x) == Amount(t, x) + 2.0 * gradient
  {
    OperandsBelow(g, id);
    assert x in Deps(g[id]);
    var t1 := Grade(g[id], id, gradient, t);
    InputsBelow(g, id);
    BackAllVariables(g, vars, [x, x], gradient, t1, RankOf(g)[id]);
    assert multiset([x, x])[x] == 2;
    assert Back(g, vars, id, gradient, t) == BackAll(g, vars, [x, x], gradient, t1, RankOf(g)[id]);
  }

  /** Min.backward and Distribution.backward on two named, bound Variables:
      the smaller side (the second on a tie) gains the whole gradient, the
      other gains nothing but still gets an entry, and each side returns 1;
      when both sides are the same Variable it gains the gradient twice. */
  lemma SidesOfVariables(g: seq<Node>, vars: map<nat, real>, id: nat, gradient: real, t: GradientTable)
    requires Acyclic(g) && id < |g| && (g[id].Min? || g[id].Distribution?)
    requires NamedVariable(g, Sides(g[id]).0) && NamedVariable(g, Sides(g[id]).1)
    requires Sides(g[id]).0 in vars && Sides(g[id]).1 in vars
    ensures var (a, b) := Sides(g[id]);
      var r := Back(g, vars, id, gradient, t);
      && r.Ok? && r.value.local == 2.0
      && a in r.value.table.amount && b in r.value.table.amount
      && (a == b ==> Amount(r.value.table, a) == Amount(t, a) + 2.0 * gradient)
      && (a != b ==> Amount(r.value.table, a) == Amount(t, a) + (if vars[a] < vars[b] then gradient else 0.0))
      && (a != b ==> Amount(r.value.table, b) == Amount(t, b) + (if vars[a] < vars[b] then 0.0 else gradient))
  {
    var (a, b) := Sides(g[id]);
    OperandsBelow(g, id);
    assert a in Deps(g[id]) && b in Deps(g[id]);
    var t1 := Grade(g[id], id, gradient, t);
    var side := if vars[a] < vars[b] then a else b;
    var ga, gb := if side == a then gradient else 0.0, if side == b then gradient else 0.0;
    VariableLeaf(g, vars, a, ga, t1);
    var ta := Back(g, vars, a, ga, t1).value.table;
    VariableLeaf(g, vars, b, gb, ta);
    assert BackPair(g, vars, a, ga, b, gb, t1) == Ok(Pair(1.0, 1.0, Back(g, vars, b, gb, ta).value.table));
    assert Eval(g, vars, a) == Ok(vars[a]) && Eval(g, vars, b) == Ok(vars[b]);
    assert BackSides(g, vars, id, gradient, t1) == ToSmaller(g, vars, a, b, vars[a] < vars[b], gradient, t1)
        == Ok(Pass(2.0, Back(g, vars, b, gb, ta).value.table));
  }

  /** Multiply.backward on two distinct named, bound Variables: `a` gains
      b·gradient, `b` gains a·gradient, and the pass returns a + b. */
  lemma ProductOfVariables(g: seq<Node>, vars: map<nat, real>, id: nat, gradient: real, t: GradientTable)
    requires Acyclic(g) && id < |g| && g[id].Multiply? && g[id].a != g[id].b
    requires NamedVariable(g, g[id].a) && NamedVariable(g, g[id].b) && g[id].a in vars && g[id].b in vars
    ensures var a, b := g[id].a, g[id].b;
      var r := Back(g, vars, id, gradient, t);
      && r.Ok? && r.value.local == vars[a] + vars[b]
      && Amount(r.value.table, a) == Amount(t, a) + vars[b] * gradient
      && Amount(r.value.table, b) == Amount(t, b) + vars[a] * gradient
  {
    var a, b := g[id].a, g[id].b;
    OperandsBelow(g, id);
    assert a in Deps(g[id]) && b in Deps(g[id]);
    var t1 := Grade(g[id], id, gradient, t);
    var ga, gb := Times(vars[b], gradient), Times(vars[a], gradient);
    VariableLeaf(g, vars, a, ga, t1);
    VariableLeaf(g, vars, b, gb, t1);
    var ta := Back(g, vars, a, ga, t1).value.table;
    VariableLeaf(g, vars, b, gb, ta);
    assert BackPair(g, vars, a, ga, b, gb, t1) == Ok(Pair(1.0, 1.0, Back(g, vars, b, gb, ta).value.table));
  }

  /** Divide.backward on two distinct named, bound Variables with a non-zero
      divisor: `a` gains gradient/b, `b` gains -a·gradient/b², and the pass
      returns 2. */
  lemma QuotientOfVariables(g: seq<Node>, vars: map<nat, real>, id: nat, gradient: real, t: GradientTable)
    requires Acyclic(g) && id < |g| && g[id].Divide? && g[id].a != g[id].b
    requires NamedVariable(g, g[id].a) && NamedVariable(g, g[id].b) && g[id].a in vars && g[id].b in vars
    requires vars[g[id].b] != 0.0
    ensures var a, b := g[id].a, g[id].b;
      var r := Back(g, vars, id, gradient, t);
      && r.Ok? && r.value.local == 2.0
      && Amount(r.value.table, a) == Amount(t, a) + Over(gradient, vars[b])
      && Amount(r.value.table, b) == Amount(t, b) + Over(Times(-vars[a], gradient), Times(vars[b], vars[b]))
  {
    var a, b := g[id].a, g[id].b;
    OperandsBelow(g, id);
    assert a in Deps(g[id]) && b in Deps(g[id]);
    assert Eval(g, vars, a) == Ok(vars[a]) && Eval(g, vars, b) == Ok(vars[b]);
    var t1 := Grade(g[id], id, gradient, t);
    var ga, gb := Over(gradient, vars[b]), Over(Times(-vars[a], gradient), Times(vars[b], vars[b]));
    VariableLeaf(g, vars, a, ga, t1);
    var ta := Back(g, vars, a, ga, t1).value.table;
    VariableLeaf(g, vars, b, gb, ta);
    var tb := Back(g, vars, b, gb, ta).value.table;
    assert BackPair(g, vars, a, ga, b, gb, t1) == Ok(Pair(1.0, 1.0, tb));
    assert ByQuotient(g, vars, a, b, vars[a], vars[b], gradient, t1) == Ok(Pass(2.0, tb));
    assert BackQuotient(g, vars, id, gradient, t1) == Ok(Pass(2.0, tb));
  }

  /** Divide.backward with a zero divisor stops the pass, whatever the
      dividend. */
  lemma QuotientByZero(g: seq<Node>, vars: map<nat, real>, id: nat, gradient: real, t: GradientTable)
    requires Acyclic(g) && id < |g| && g[id].Divide?
    requires g[id].a < |g| && g[id].b < |g|
    requires Eval(g, vars, g[id].a).Ok? && Eval(g, vars, g[id].b) == Ok(0.0)
    ensures Back(g, vars, id, gradient, t) == Err(DivisionByZero(id))
    ensures Eval(g, vars, id) == Err(DivisionByZero(id))
  {
  }

  /** Distribution.forward's walk through the graph: with the production
      value `available` and the demand lines' values `amounts`, the allocation
      maps each line to its share. */
  lemma AllocationsOfLines(g: seq<Node>, vars: map<nat, real>, d: nat, available: real, amounts: seq<real>)
    requires Acyclic(g) && d < |g| && g[d].Distribution?
    requires g[d].production < |g| && Eval(g, vars, g[d].production) == Ok(available)
    requires g[d].demand < |g| && g[g[d].demand].Add?
    requires |amounts| == |g[g[d].demand].inputs|
    requires forall j :: 0 <= j < |amounts| ==>
      g[g[d].demand].inputs[j] < |g| && Eval(g, vars, g[g[d].demand].inputs[j]) == Ok(amounts[j])
    ensures Allocations(g, vars, d) == Ok(Allocation(g[g[d].demand].inputs, Shares(available, amounts)))
  {
    var demand := g[d].demand;
    InputsBelow(g, demand);
    ValuesOk(g, vars, g[demand].inputs, RankOf(g)[demand], amounts);
  }

  /** Fulfillment.forward reads its line's entry of the allocation: for a
      line listed nowhere after position k of the demand inputs, that is the
      k-th share of the walk. */
  lemma FulfillmentShare(g: seq<Node>, vars: map<nat, real>, f: nat, d: nat, k: nat,
                         available: real, amounts: seq<real>)
    requires Acyclic(g) && f < |g| && d < |g|
    requires g[f].Fulfillment? && g[f].distribution == d && g[d].Distribution?
    requires g[d].demand < |g| && g[g[d].demand].Add?
    requires |amounts| == |g[g[d].demand].inputs|
    requires Allocations(g, vars, d) == Ok(Allocation(g[g[d].demand].inputs, Shares(available, amounts)))
    requires k < |amounts| && g[g[d].demand].inputs[k] == g[f].line
    requires forall j :: k < j < |amounts| ==> g[g[d].demand].inputs[j] != g[f].line
    ensures Eval(g, vars, f) == Ok(Shares(available, amounts)[k])
  {
    AllocationAt(g[g[d].demand].inputs, Shares(available, amounts), k);
  }
}
