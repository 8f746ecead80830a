/** One evaluation context: the bindings it was created with, the memoised
    forward values, the Distribution allocation maps and the accumulated
    gradients, and the node-by-node forward and backward passes that fill them. */
module Engine {
  import opened WaterFill
  import opened Graph

  /** Every entry of `m` is still in `m'` with the same value. */
  ghost predicate Retains<K, V>(m: map<K, V>, m': map<K, V>) {
    forall k :: k in m ==> k in m' && m'[k] == m[k]
  }

  class Execution {
    const arena: Arena
    const operation: nat
    const variables: map<nat, real>
    var values: map<nat, real>
    var allocations: map<nat, map<nat, real>>
    var gradients: GradientTable

    /** Every cached value is the value the node denotes in the current graph. */
    ghost predicate Consistent()
      reads this, arena
    {
      && arena.Valid()
      && (forall k :: k in values ==>
            k < |arena.nodes| && Eval(arena.nodes, variables, k) == Ok(values[k]))
      && (forall d :: d in allocations ==>
            d < |arena.nodes| && arena.nodes[d].Distribution? &&
            Allocations(arena.nodes, variables, d) == Ok(allocations[d]))
      && WellOrdered(gradients)
    }

    constructor (arena: Arena, operation: nat, variables: map<nat, real>)
      ensures this.arena == arena && this.operation == operation && this.variables == variables
      ensures values == map[] && allocations == map[] && gradients == NoGradients
      ensures arena.Valid() ==> Consistent()
    {
      this.arena := arena;
      this.operation := operation;
      this.variables := variables;
      values, allocations, gradients := map[], map[], NoGradients;
    }

    /** Execution.forward: the value of the operation the execution was made for. */
    method Forward() returns (r: Result<real>)
      requires arena.Valid() && operation < |arena.nodes|
      modifies this
      ensures gradients == old(gradients)
      ensures Retains(old(values), values) && Retains(old(allocations), allocations)
      ensures old(Consistent()) ==> Consistent() && r == Eval(arena.nodes, variables, operation)
    {
      r := ForwardNode(operation);
    }

    /** Execution.backward: the backward pass from the operation with gradient 1. */
    method Backward() returns (r: Result<real>)
      requires arena.Valid() && operation < |arena.nodes|
      modifies this
      ensures Retains(old(values), values) && Retains(old(allocations), allocations)
      ensures old(Consistent()) ==>
        Consistent() && Agrees(r, Back(arena.nodes, variables, operation, 1.0, old(gradients)))
    {
      r := BackwardNode(operation, 1.0);
    }

    /** `node.forward(execution)`: a cached node answers from the cache, whatever
        the graph now says; on a consistent cache the answer is the node's value. */
    method ForwardNode(id: nat) returns (r: Result<real>)
      requires arena.Valid() && id < |arena.nodes|
      modifies this
      ensures gradients == old(gradients)
      ensures Retains(old(values), values) && Retains(old(allocations), allocations)
      ensures id in old(values) && Memoised(arena.nodes[id]) ==> r == Ok(old(values)[id])
      ensures id in old(values) && Memoised(arena.nodes[id]) ==> values == old(values) && allocations == old(allocations)
      ensures r.Ok? && Memoised(arena.nodes[id]) ==> id in values && values[id] == r.value
      ensures old(Consistent()) ==> Consistent() && r == Eval(arena.nodes, variables, id)
      decreases arena.rank[id], 1
    {
      match arena.nodes[id]
      case Constant(_, v) =>
        r := Ok(v);
      case Variable(_) =>
        r := if id in variables then Ok(variables[id]) else Err(Unbound(id));
      case Distribution(_, _, _) =>
        r := Err(NotFulfillment(id));
      case Add(_, _) =>
        if id in values {
          r := Ok(values[id]);
        } else {
          r := ForwardAdd(id);
        }
      case Fulfillment(_, _, _) =>
        if id in values {
          r := Ok(values[id]);
        } else {
          r := ForwardFulfillment(id);
        }
      case _ =>
        if id in values {
          r := Ok(values[id]);
        } else {
          r := ForwardBinary(id);
        }
    }

    /** Add.forward on a cache miss: the inputs' values summed in order. */
    method ForwardAdd(id: nat) returns (r: Result<real>)
      requires arena.Valid() && id < |arena.nodes| && arena.nodes[id].Add? && id !in values
      modifies this
      ensures gradients == old(gradients)
      ensures r.Ok? ==> id in values && values[id] == r.value
      ensures Retains(old(values), values) && Retains(old(allocations), allocations)
      ensures old(Consistent()) ==> Consistent() && r == Eval(arena.nodes, variables, id)
      decreases arena.rank[id], 0
    {
      ghost var ok := Consistent();
      ghost var g := arena.nodes;
      var inputs := arena.nodes[id].inputs;
      assert OperandsRankBelow(arena.nodes, arena.rank, id);
      InputsBelow(g, id);
      ghost var bound := RankOf(g)[id];
      var value := 0.0;
      ghost var vs: seq<real> := [];
      var i := 0;
      while i < |inputs|
        invariant 0 <= i <= |inputs|
        invariant gradients == old(gradients)
        invariant Retains(old(values), values) && Retains(old(allocations), allocations)
        invariant |vs| == i
        invariant ok ==> Consistent()
        invariant ok ==> Values(g, variables, inputs[..i], bound) == Ok(vs) && value == Sum(vs)
      {
        assert inputs[i] in Deps(arena.nodes[id]);
        var x := ForwardNode(inputs[i]);
        if x.Err? {
          if ok {
            var pre := inputs[..i + 1];
            assert pre[..i] == inputs[..i];
            ValuesExtendErr(g, variables, inputs, i + 1, bound);
          }
          return x;
        }
        if ok {
          PrefixSnoc(inputs, i);
          ValuesSnoc(g, variables, inputs[..i], inputs[i], bound, vs, x.value);
        }
        SumSnoc(vs, x.value);
        value := value + x.value;
        vs := vs + [x.value];
        i := i + 1;
      }
      assert inputs[..i] == inputs;
      Memoise(id, value);
      r := Ok(value);
    }

    /** `execution.values.set(node, value)`: a node's value is remembered for
        later requests; the cache stays consistent when the value is right. */
    method Memoise(id: nat, value: real)
      requires arena.Valid() && id < |arena.nodes|
      modifies this
      ensures values == old(values)[id := value]
      ensures allocations == old(allocations) && gradients == old(gradients)
      ensures old(Consistent()) && Eval(arena.nodes, variables, id) == Ok(value) ==> Consistent()
    {
      values := values[id := value];
    }
  
    /** Min, Multiply and Divide forward on a cache miss: `a` then `b`, then the operation. */
    method ForwardBinary(id: nat) returns (r: Result<real>)
      requires arena.Valid() && id < |arena.nodes| && id !in values && Binary(arena.nodes[id])
      modifies this
      ensures gradients == old(gradients)
      ensures r.Ok? ==> id in values && values[id] == r.value
      ensures Retains(old(values), values) && Retains(old(allocations), allocations)
      ensures old(Consistent()) ==> Consistent() && r == Eval(arena.nodes, variables, id)
      decreases arena.rank[id], 0
    {
      ghost var ok := Consistent();
      var node := arena.nodes[id];
      assert OperandsRankBelow(arena.nodes, arena.rank, id);
      assert node.a in Deps(node) && node.b in Deps(node);
      var x := ForwardNode(node.a);
      if x.Err? {
        return x;
      }
      var y := ForwardNode(node.b);
      if y.Err? {
        return y;
      }
      r := Combine(node, id, x.value, y.value);
      if ok {
        assert x == Eval(arena.nodes, variables, node.a) && y == Eval(arena.nodes, variables, node.b);
        assert r == EvalBinary(arena.nodes, variables, id) == Eval(arena.nodes, variables, id);
      }
      if r.Ok? {
        Memoise(id, r.value);
      }
    }

    /** Fulfillment.forward on a cache miss: ask the distribution for this line. */
    method ForwardFulfillment(id: nat) returns (r: Result<real>)
      requires arena.Valid() && id < |arena.nodes| && arena.nodes[id].Fulfillment? && id !in values
      modifies this
      ensures gradients == old(gradients)
      ensures r.Ok? ==> id in values && values[id] == r.value
      ensures Retains(old(values), values) && Retains(old(allocations), allocations)
      ensures old(Consistent()) ==> Consistent() && r == Eval(arena.nodes, variables, id)
      decreases arena.rank[id], 0
    {
      var node := arena.nodes[id];
      assert OperandsRankBelow(arena.nodes, arena.rank, id);
      assert node.distribution in Deps(node);
      if arena.nodes[node.distribution].Distribution? {
        r := DistributionForward(node.distribution, node.line);
      } else {
        r := ForwardNode(node.distribution);
      }
      if r.Ok? {
        Memoise(id, r.value);
      }
    }

    /** Distribution.forward(execution, line): the allocation map is computed on
        the first request and every later request reads the same map. */
    method DistributionForward(d: nat, line: nat) returns (r: Result<real>)
      requires arena.Valid() && d < |arena.nodes| && arena.nodes[d].Distribution?
      modifies this
      ensures gradients == old(gradients)
      ensures Retains(old(values), values) && Retains(old(allocations), allocations)
      ensures d in old(allocations) ==>
        r == if line in old(allocations)[d] then Ok(old(allocations)[d][line]) else Err(MissingLine(line))
      ensures old(Consistent()) ==> Consistent() && r == Fulfilled(arena.nodes, variables, d, line)
      decreases arena.rank[d], 1
    {
      if d in allocations {
        var m := allocations[d];
        r := if line in m then Ok(m[line]) else Err(MissingLine(line));
        return;
      }
      var m := ComputeAllocation(d);
      if m.Err? {
        return Err(m.error);
      }
      allocations := allocations[d := m.value];
      r := if line in m.value then Ok(m.value[line]) else Err(MissingLine(line));
    }

    /** Distribution.forward on a first request: the production value, then
        the demand node's inputs as the ordered list of lines. */
    method ComputeAllocation(d: nat) returns (r: Result<map<nat, real>>)
      requires arena.Valid() && d < |arena.nodes| && arena.nodes[d].Distribution?
      modifies this
      ensures gradients == old(gradients)
      ensures Retains(old(values), values) && Retains(old(allocations), allocations)
      ensures old(Consistent()) ==> Consistent() && r == Allocations(arena.nodes, variables, d)
      decreases arena.rank[d], 0
    {
      var production, demand := arena.nodes[d].production, arena.nodes[d].demand;
      assert OperandsRankBelow(arena.nodes, arena.rank, d);
      assert production in Deps(arena.nodes[d]) && demand in Deps(arena.nodes[d]);
      var p := ForwardNode(production);
      if p.Err? {
        return Err(p.error);
      }
      if !arena.nodes[demand].Add? {
        return Err(NoDemandLines(demand));
      }
      r := Ration(demand, p.value);
    }

    /** The walk of Distribution.forward over the demand inputs, in order: each
        line gets min(its demand, what is still available). */
    method Ration(demand: nat, production: real) returns (r: Result<map<nat, real>>)
      requires arena.Valid() && demand < |arena.nodes| && arena.nodes[demand].Add?
      modifies this
      ensures gradients == old(gradients)
      ensures Retains(old(values), values) && Retains(old(allocations), allocations)
      ensures old(Consistent()) ==> Consistent() && r == Rationed(arena.nodes, variables, demand, production)
      decreases arena.rank[demand], 2
    {
      ghost var ok := Consistent();
      ghost var g := arena.nodes;
      var lines := arena.nodes[demand].inputs;
      assert OperandsRankBelow(arena.nodes, arena.rank, demand);
      InputsBelow(g, demand);
      ghost var bound := RankOf(g)[demand];
      var available := production;
      var fulfillments: map<nat, real> := map[];
      ghost var amounts: seq<real> := [];
      var i := 0;
      while i < |lines|
        invariant 0 <= i <= |lines| && |amounts| == i
        invariant gradients == old(gradients)
        invariant Retains(old(values), values) && Retains(old(allocations), allocations)
        invariant ok ==> Consistent()
        invariant ok ==> Values(g, variables, lines[..i], bound) == Ok(amounts)
        invariant fulfillments == Walk(production, lines[..i], amounts).0
        invariant available == Walk(production, lines[..i], amounts).1
      {
        assert lines[i] in Deps(arena.nodes[demand]);
        var x := ForwardNode(lines[i]);
        if x.Err? {
          if ok {
            var pre := lines[..i + 1];
            assert pre[..i] == lines[..i];
            ValuesExtendErr(g, variables, lines, i + 1, bound);
          }
          return Err(x.error);
        }
        PrefixSnoc(lines, i);
        if ok {
          ValuesSnoc(g, variables, lines[..i], lines[i], bound, amounts, x.value);
        }
        WalkSnoc(production, lines[..i], amounts, lines[i], x.value);
        var distributed := MinReal(x.value, available);
        available := available - distributed;
        fulfillments := fulfillments[lines[i] := distributed];
        amounts := amounts + [x.value];
        i := i + 1;
      }
      assert lines[..i] == lines;
      WalkRations(production, lines, amounts);
      r := Ok(fulfillments);
    }

    /** A backward call agrees with the specification: the same local
        derivative and the same gradient table, or the same error. */
    ghost predicate Agrees(r: Result<real>, b: Result<Pass>)
      reads this
    {
      && (b.Ok? ==> r == Ok(b.value.local) && gradients == b.value.table)
      && (b.Err? ==> r == Err(b.error))
    }

    /** The same for two operands differentiated in turn. */
    ghost predicate AgreesPair(r: Result<(real, real)>, b: Result<Pair>)
      reads this
    {
      && (b.Ok? ==> r == Ok((b.value.da, b.value.db)) && gradients == b.value.table)
      && (b.Err? ==> r == Err(b.error))
    }

    /** `node.backward(execution, gradient)`: grade the node, then hand the
        gradient on to its operands, evaluating them through the cache. */
    method BackwardNode(id: nat, gradient: real) returns (r: Result<real>)
      requires arena.Valid() && id < |arena.nodes|
      modifies this
      ensures Retains(old(values), values) && Retains(old(allocations), allocations)
      ensures old(Consistent()) ==>
        Consistent() && Agrees(r, Back(arena.nodes, variables, id, gradient, old(gradients)))
      decreases arena.rank[id], 1
    {
      var node := arena.nodes[id];
      gradients := Grade(node, id, gradient, gradients);
      match node
      case Constant(_, _) =>
        r := Ok(0.0);
      case Variable(_) =>
        r := Ok(1.0);
      case Add(_, _) =>
        r := BackwardAdd(id, gradient);
      case Multiply(_, _, _) =>
        r := BackwardProduct(id, gradient);
      case Divide(_, _, _) =>
        r := BackwardQuotient(id, gradient);
      case Fulfillment(_, _, d) =>
        assert OperandsRankBelow(arena.nodes, arena.rank, id);
        assert d in Deps(node);
        r := BackwardNode(d, gradient);
      case _ =>
        r := BackwardSides(id, gradient);
    }

    /** Add.backward after grading: every input receives the same gradient, in
        order, and the local derivatives are summed. */
    method BackwardAdd(id: nat, gradient: real) returns (r: Result<real>)
      requires arena.Valid() && id < |arena.nodes| && arena.nodes[id].Add?
      modifies this
      ensures Retains(old(values), values) && Retains(old(allocations), allocations)
      ensures old(Consistent()) ==>
        Consistent() && Agrees(r, BackInputs(arena.nodes, variables, id, gradient, old(gradients)))
      decreases arena.rank[id], 0
    {
      ghost var ok := Consistent();
      ghost var g := arena.nodes;
      var inputs := arena.nodes[id].inputs;
      assert OperandsRankBelow(arena.nodes, arena.rank, id);
      InputsBelow(g, id);
      ghost var bound := RankOf(g)[id];
      var result := 0.0;
      var i := 0;
      while i < |inputs|
        invariant 0 <= i <= |inputs|
        invariant Retains(old(values), values) && Retains(old(allocations), allocations)
        invariant ok ==> Consistent()
        invariant ok ==> BackAll(g, variables, inputs[..i], gradient, old(gradients), bound) == Ok(Pass(result, gradients))
      {
        assert inputs[i] in Deps(arena.nodes[id]);
        ghost var before := gradients;
        var p := BackwardNode(inputs[i], gradient);
        if ok {
          PrefixSnoc(inputs, i);
          BackAllSnoc(g, variables, inputs[..i], inputs[i], gradient, old(gradients), bound, Pass(result, before));
        }
        if p.Err? {
          if ok {
            var pre := inputs[..i + 1];
            assert pre[..i] == inputs[..i];
            BackAllExtendErr(g, variables, inputs, gradient, old(gradients), i + 1, bound);
          }
          return p;
        }
        result := result + p.value;
        i := i + 1;
      }
      assert inputs[..i] == inputs;
      r := Ok(result);
    }

    /** Min.backward and Distribution.backward after grading. */
    method BackwardSides(id: nat, gradient: real) returns (r: Result<real>)
      requires arena.Valid() && id < |arena.nodes| && (arena.nodes[id].Min? || arena.nodes[id].Distribution?)
      modifies this
      ensures Retains(old(values), values) && Retains(old(allocations), allocations)
      ensures old(Consistent()) ==>
        Consistent() && Agrees(r, BackSides(arena.nodes, variables, id, gradient, old(gradients)))
      decreases arena.rank[id], 0
    {
      ghost var ok := Consistent();
      var (first, second) := Sides(arena.nodes[id]);
      assert OperandsRankBelow(arena.nodes, arena.rank, id);
      assert first in Deps(arena.nodes[id]) && second in Deps(arena.nodes[id]);
      var x := ForwardNode(first);
      if x.Err? {
        return Err(x.error);
      }
      var y := ForwardNode(second);
      if y.Err? {
        return Err(y.error);
      }
      if ok {
        assert x == Eval(arena.nodes, variables, first) && y == Eval(arena.nodes, variables, second);
      }
      r := BackwardToSmaller(first, second, x.value < y.value, gradient);
    }

    /** The gradient to the smaller side, nothing to the other; both sides
        are differentiated, first side first. */
    method BackwardToSmaller(first: nat, second: nat, firstSmaller: bool, gradient: real) returns (r: Result<real>)
      requires arena.Valid() && first < |arena.nodes| && second < |arena.nodes|
      modifies this
      ensures Retains(old(values), values) && Retains(old(allocations), allocations)
      ensures old(Consistent()) ==>
        Consistent() && Agrees(r, ToSmaller(arena.nodes, variables, first, second, firstSmaller, gradient, old(gradients)))
      decreases MaxNat(arena.rank[first], arena.rank[second]), 3
    {
      var side := if firstSmaller then first else second;
      var g1, g2 := if side == first then gradient else 0.0, if side == second then gradient else 0.0;
      var p := BackwardPair(first, g1, second, g2);
      if p.Err? {
        return Err(p.error);
      }
      r := Ok(p.value.0 + p.value.1);
    }

    /** Multiply.backward after grading. */
    method BackwardProduct(id: nat, gradient: real) returns (r: Result<real>)
      requires arena.Valid() && id < |arena.nodes| && arena.nodes[id].Multiply?
      modifies this
      ensures Retains(old(values), values) && Retains(old(allocations), allocations)
      ensures old(Consistent()) ==>
        Consistent() && Agrees(r, BackProduct(arena.nodes, variables, id, gradient, old(gradients)))
      decreases arena.rank[id], 0
    {
      var a, b := arena.nodes[id].a, arena.nodes[id].b;
      assert OperandsRankBelow(arena.nodes, arena.rank, id);
      assert a in Deps(arena.nodes[id]) && b in Deps(arena.nodes[id]);
      var x := ForwardNode(a);
      if x.Err? {
        return Err(x.error);
      }
      var y := ForwardNode(b);
      if y.Err? {
        return Err(y.error);
      }
      var p := BackwardPair(a, Times(y.value, gradient), b, Times(x.value, gradient));
      if p.Err? {
        return Err(p.error);
      }
      r := Ok(Times(x.value, p.value.1) + Times(p.value.0, y.value));
    }

    /** Divide.backward after grading. */
    method BackwardQuotient(id: nat, gradient: real) returns (r: Result<real>)
      requires arena.Valid() && id < |arena.nodes| && arena.nodes[id].Divide?
      modifies this
      ensures Retains(old(values), values) && Retains(old(allocations), allocations)
      ensures old(Consistent()) ==>
        Consistent() && Agrees(r, BackQuotient(arena.nodes, variables, id, gradient, old(gradients)))
      decreases arena.rank[id], 0
    {
      ghost var ok := Consistent();
      var a, b := arena.nodes[id].a, arena.nodes[id].b;
      assert OperandsRankBelow(arena.nodes, arena.rank, id);
      assert a in Deps(arena.nodes[id]) && b in Deps(arena.nodes[id]);
      var x := ForwardNode(a);
      if x.Err? {
        return Err(x.error);
      }
      var y := ForwardNode(b);
      if y.Err? {
        return Err(y.error);
      }
      if ok {
        assert x == Eval(arena.nodes, variables, a) && y == Eval(arena.nodes, variables, b);
      }
      if y.value == 0.0 {
        return Err(DivisionByZero(id));
      }
      r := BackwardByQuotient(a, b, x.value, y.value, gradient);
    }

    /** `a` receives gradient/y, then `b` receives -x·gradient/y². */
    method BackwardByQuotient(a: nat, b: nat, x: real, y: real, gradient: real) returns (r: Result<real>)
      requires arena.Valid() && a < |arena.nodes| && b < |arena.nodes| && y != 0.0
      modifies this
      ensures Retains(old(values), values) && Retains(old(allocations), allocations)
      ensures old(Consistent()) ==>
        Consistent() && Agrees(r, ByQuotient(arena.nodes, variables, a, b, x, y, gradient, old(gradients)))
      decreases MaxNat(arena.rank[a], arena.rank[b]), 3
    {
      var p := BackwardPair(a, Over(gradient, y), b, Over(Times(-x, gradient), Times(y, y)));
      if p.Err? {
        return Err(p.error);
      }
      r := Ok(p.value.0 + p.value.1);
    }

    /** `a.backward(execution, ga)` and then `b.backward(execution, gb)`. */
    method BackwardPair(a: nat, ga: real, b: nat, gb: real) returns (r: Result<(real, real)>)
      requires arena.Valid() && a < |arena.nodes| && b < |arena.nodes|
      modifies this
      ensures Retains(old(values), values) && Retains(old(allocations), allocations)
      ensures old(Consistent()) ==>
        Consistent() && AgreesPair(r, BackPair(arena.nodes, variables, a, ga, b, gb, old(gradients)))
      decreases MaxNat(arena.rank[a], arena.rank[b]), 2
    {
      var da := BackwardNode(a, ga);
      if da.Err? {
        return Err(da.error);
      }
      var db := BackwardNode(b, gb);
      if db.Err? {
        return Err(db.error);
      }
      r := Ok((da.value, db.value));
    }
  }

  /** Add.include on a node whose value this execution has already computed:
      the cached value stays the node's value for the rest of the execution. */
  method IncludeAfterForward(ex: Execution, id: nat, more: seq<nat>) returns (before: Result<real>, after: Result<real>)
    requires ex.arena.Valid() && id < |ex.arena.nodes| && ex.arena.nodes[id].Add?
    requires forall i :: i in more ==> i < |ex.arena.nodes| && ex.arena.rank[i] < ex.arena.rank[id]
    modifies ex, ex.arena
    ensures ex.arena.Valid() && |ex.arena.nodes| == old(|ex.arena.nodes|)
    ensures ex.arena.nodes[id] == Add(old(ex.arena.nodes[id].named), old(ex.arena.nodes[id].inputs) + more)
    ensures old(ex.Consistent()) ==> before == Eval(old(ex.arena.nodes), ex.variables, id)
    ensures before.Ok? ==> after == before
  {
    before := ex.ForwardNode(id);
    ex.arena.Include(id, more);
    after := ex.ForwardNode(id);
  }
}
