/** The expression graph: node kinds, the node arena with `include`, and the
    meaning of a forward and a backward pass as functions of the graph and the
    variable bindings. */
module Graph {
  import opened WaterFill

  /** Why a pass stops where the source throws or produces no number. */
  datatype Error =
    | Unbound(variable: nat)          // a Variable with no binding
    | NotFulfillment(node: nat)       // a Distribution evaluated outside a Fulfillment
    | NoDemandLines(node: nat)        // a Distribution whose demand node has no input list
    | MissingLine(line: nat)          // a Fulfillment for a line that is not a demand input
    | DivisionByZero(node: nat)       // a quotient whose divisor is zero
    | FlatGradient(variable: nat)     // optimize dividing by a zero gradient

  datatype Result<T> = Ok(value: T) | Err(error: Error) {
    predicate IsFailure() { Err? }
    function PropagateFailure<U>(): Result<U> requires Err? { Err(error) }
    function Extract(): T requires Ok? { value }
  }

  /** A node; operands are ids of other nodes of the same arena. `named` says
      whether the node has a display name, the only part of a name that
      affects the passes. */
  datatype Node =
    | Constant(named: bool, value: real)
    | Variable(named: bool)
    | Add(named: bool, inputs: seq<nat>)
    | Min(named: bool, a: nat, b: nat)
    | Multiply(named: bool, a: nat, b: nat)
    | Divide(named: bool, a: nat, b: nat)
    | Distribution(named: bool, production: nat, demand: nat)
    | Fulfillment(named: bool, line: nat, distribution: nat)

  /** The nodes a node's forward and backward passes call into. A Fulfillment's
      line is only a key into its Distribution's allocation, not an operand. */
  function Deps(n: Node): seq<nat> {
    match n
    case Constant(_, _) => []
    case Variable(_) => []
    case Add(_, inputs) => inputs
    case Min(_, a, b) => [a, b]
    case Multiply(_, a, b) => [a, b]
    case Divide(_, a, b) => [a, b]
    case Distribution(_, production, demand) => [production, demand]
    case Fulfillment(_, _, distribution) => [distribution]
  }

  /** `rank` witnesses that every operand exists and lies strictly below its user. */
  ghost predicate Ranked(g: seq<Node>, rank: seq<nat>) {
    && |rank| == |g|
    && forall k :: 0 <= k < |g| ==> OperandsRankBelow(g, rank, k)
  }

  ghost predicate OperandsRankBelow(g: seq<Node>, rank: seq<nat>, k: nat)
    requires k < |g| && |rank| == |g|
  {
    forall c :: c in Deps(g[k]) ==> c < |g| && rank[c] < rank[k]
  }

  ghost predicate Acyclic(g: seq<Node>) {
    exists rank :: Ranked(g, rank)
  }

  ghost function RankOf(g: seq<Node>): (rank: seq<nat>)
    requires Acyclic(g)
    ensures Ranked(g, rank)
  {
    var rank :| Ranked(g, rank); rank
  }

  lemma OperandsBelow(g: seq<Node>, k: nat)
    requires Acyclic(g) && k < |g|
    ensures forall c :: c in Deps(g[k]) ==> c < |g| && RankOf(g)[c] < RankOf(g)[k]
  {
    var rank := RankOf(g);
    assert OperandsRankBelow(g, rank, k);
  }

  /** Every id of `ids` names a node ranked below `bound`. */
  ghost predicate Below(g: seq<Node>, ids: seq<nat>, bound: nat)
    requires Acyclic(g)
  {
    forall k :: 0 <= k < |ids| ==> ids[k] < |g| && RankOf(g)[ids[k]] < bound
  }

  lemma InputsBelow(g: seq<Node>, id: nat)
    requires Acyclic(g) && id < |g| && g[id].Add?
    ensures Below(g, g[id].inputs, RankOf(g)[id])
  {
    OperandsBelow(g, id);
    var inputs := g[id].inputs;
    forall k | 0 <= k < |inputs| ensures inputs[k] < |g| && RankOf(g)[inputs[k]] < RankOf(g)[id] {
      assert inputs[k] in Deps(g[id]);
    }
  }

  /** Nodes whose forward value is cached in an execution. */
  predicate Memoised(n: Node) {
    n.Add? || n.Min? || n.Multiply? || n.Divide? || n.Fulfillment?
  }

  /** The value `forward` produces for node `id` under the bindings `vars`. */
  function Eval(g: seq<Node>, vars: map<nat, real>, id: nat): (r: Result<real>)
    requires Acyclic(g) && id < |g|
    ensures r.Err? && r.error.Unbound? ==>
      r.error.variable < |g| && g[r.error.variable].Variable? && r.error.variable !in vars
    decreases RankOf(g)[id], 1, 0
  {
    var rank := RankOf(g);
    OperandsBelow(g, id);
    match g[id]
    case Constant(_, v) => Ok(v)
    case Variable(_) => if id in vars then Ok(vars[id]) else Err(Unbound(id))
    case Add(_, inputs) =>
      InputsBelow(g, id);
      var vs :- Values(g, vars, inputs, rank[id]);
      Ok(Sum(vs))
    case Min(_, a, b) => EvalBinary(g, vars, id)
    case Multiply(_, a, b) => EvalBinary(g, vars, id)
    case Divide(_, a, b) => EvalBinary(g, vars, id)
    case Distribution(_, _, _) => Err(NotFulfillment(id))
    case Fulfillment(_, line, d) =>
      assert d in Deps(g[id]);
      if g[d].Distribution? then Fulfilled(g, vars, d, line) else Eval(g, vars, d)
  }

  /** Min, Multiply and Divide: operand `a`, then operand `b`, then the operation. */
  function EvalBinary(g: seq<Node>, vars: map<nat, real>, id: nat): (r: Result<real>)
    requires Acyclic(g) && id < |g| && Binary(g[id])
    ensures r.Err? && r.error.Unbound? ==>
      r.error.variable < |g| && g[r.error.variable].Variable? && r.error.variable !in vars
    decreases RankOf(g)[id], 0, 0
  {
    var a, b := g[id].a, g[id].b;
    OperandsBelow(g, id);
    assert a in Deps(g[id]) && b in Deps(g[id]);
    var x :- Eval(g, vars, a);
    var y :- Eval(g, vars, b);
    Combine(g[id], id, x, y)
  }

  predicate Binary(n: Node) {
    n.Min? || n.Multiply? || n.Divide?
  }

  /** The arithmetic of a binary node on its operands' values; dividing by zero
      is an error where IEEE arithmetic would give an infinity or NaN. */
  function Combine(n: Node, id: nat, x: real, y: real): (r: Result<real>)
    requires Binary(n)
    ensures r.Err? <==> n.Divide? && y == 0.0
    ensures r.Err? ==> r.error == DivisionByZero(id)
    ensures n.Min? ==> r == Ok(MinReal(x, y))
  {
    match n
    case Min(_, _, _) => Ok(MinReal(x, y))
    case Multiply(_, _, _) => Ok(x * y)
    case Divide(_, _, _) => if y == 0.0 then Err(DivisionByZero(id)) else Ok(x / y)
  }

  /** Distribution.forward(execution, line): the share of `line` in the
      allocation of Distribution `d`. */
  function Fulfilled(g: seq<Node>, vars: map<nat, real>, d: nat, line: nat): (r: Result<real>)
    requires Acyclic(g) && d < |g| && g[d].Distribution?
    ensures r.Err? && r.error.Unbound? ==>
      r.error.variable < |g| && g[r.error.variable].Variable? && r.error.variable !in vars
    decreases RankOf(g)[d], 2, 0
  {
    var m :- Allocations(g, vars, d);
    if line in m then Ok(m[line]) else Err(MissingLine(line))
  }

  /** The values of `ids`, evaluated left to right; the first failure wins. */
  function Values(g: seq<Node>, vars: map<nat, real>, ids: seq<nat>, ghost bound: nat): (r: Result<seq<real>>)
    requires Acyclic(g)
    requires Below(g, ids, bound)
    ensures r.Ok? ==> |r.value| == |ids|
    ensures r.Err? && r.error.Unbound? ==>
      r.error.variable < |g| && g[r.error.variable].Variable? && r.error.variable !in vars
    decreases bound, 0, |ids|
  {
    if ids == [] then Ok([])
    else
      var init := ids[..|ids| - 1];
      var vs :- Values(g, vars, init, bound);
      var v :- Eval(g, vars, ids[|ids| - 1]);
      Ok(vs + [v])
  }

  /** The allocation map a Distribution computes once per execution. */
  function Allocations(g: seq<Node>, vars: map<nat, real>, d: nat): (r: Result<map<nat, real>>)
    requires Acyclic(g) && d < |g| && g[d].Distribution?
    ensures r.Ok? ==> g[d].demand < |g| && g[g[d].demand].Add? && r.value.Keys == set l | l in g[g[d].demand].inputs
    ensures r.Err? && r.error.Unbound? ==>
      r.error.variable < |g| && g[r.error.variable].Variable? && r.error.variable !in vars
    decreases RankOf(g)[d], 1, 0
  {
    var rank := RankOf(g);
    var production, demand := g[d].production, g[d].demand;
    OperandsBelow(g, d);
    assert production in Deps(g[d]) && demand in Deps(g[d]);
    OperandsBelow(g, demand);
    var available :- Eval(g, vars, production);
    if !g[demand].Add? then Err(NoDemandLines(demand))
    else Rationed(g, vars, demand, available)
  }

  /** The inputs of the demand node `demand` are the lines, in order; each gets
      min(its value, what `available` still holds). */
  function Rationed(g: seq<Node>, vars: map<nat, real>, demand: nat, available: real): (r: Result<map<nat, real>>)
    requires Acyclic(g) && demand < |g| && g[demand].Add?
    ensures r.Ok? ==> r.value.Keys == set l | l in g[demand].inputs
    ensures r.Err? && r.error.Unbound? ==>
      r.error.variable < |g| && g[r.error.variable].Variable? && r.error.variable !in vars
    decreases RankOf(g)[demand], 3, 0
  {
    var lines := g[demand].inputs;
    InputsBelow(g, demand);
    var amounts :- Values(g, vars, lines, RankOf(g)[demand]);
    Ok(Allocation(lines, Shares(available, amounts)))
  }

  lemma {:induction false} ValuesExtendErr(g: seq<Node>, vars: map<nat, real>, ids: seq<nat>, i: nat, bound: nat)
    requires Acyclic(g) && i <= |ids|
    requires Below(g, ids, bound)
    requires Values(g, vars, ids[..i], bound).Err?
    ensures Values(g, vars, ids, bound) == Values(g, vars, ids[..i], bound)
    decreases |ids| - i
  {
    if i < |ids| {
      var pre := ids[..i + 1];
      assert pre[..i] == ids[..i];
      ValuesExtendErr(g, vars, ids, i + 1, bound);
    } else {
      assert ids[..i] == ids;
    }
  }

  lemma PrefixSnoc(ids: seq<nat>, i: nat)
    requires i < |ids|
    ensures ids[..i + 1] == ids[..i] + [ids[i]]
  {
  }

  /** Evaluating one more id appends its value. */
  lemma ValuesSnoc(g: seq<Node>, vars: map<nat, real>, ids: seq<nat>, id: nat, bound: nat, vs: seq<real>, x: real)
    requires Acyclic(g) && id < |g| && RankOf(g)[id] < bound
    requires Below(g, ids, bound)
    requires Values(g, vars, ids, bound) == Ok(vs) && Eval(g, vars, id) == Ok(x)
    ensures Values(g, vars, ids + [id], bound) == Ok(vs + [x])
  {
    assert (ids + [id])[..|ids|] == ids;
  }

  /** The gradient table of an execution: a map that remembers the order in
      which its keys were first set, as a JavaScript Map does. */
  datatype GradientTable = GradientTable(order: seq<nat>, amount: map<nat, real>)

  const NoGradients := GradientTable([], map[])

  ghost predicate WellOrdered(t: GradientTable) {
    && (forall k :: k in t.amount <==> k in t.order)
    && (forall i, j :: 0 <= i < j < |t.order| ==> t.order[i] != t.order[j])
  }

  /** The gradient recorded for `k`, zero when there is none. */
  function Amount(t: GradientTable, k: nat): real {
    if k in t.amount then t.amount[k] else 0.0
  }

  /** Whether `grade` records gradients for a node: not for Constants, not for
      unnamed nodes. */
  predicate Records(n: Node) {
    !n.Constant? && n.named
  }

  /** Operation.grade: add `gradient` to the entry of node `id`. */
  function Grade(n: Node, id: nat, gradient: real, t: GradientTable): (r: GradientTable)
    ensures WellOrdered(t) ==> WellOrdered(r)
    ensures r.amount.Keys == if Records(n) then t.amount.Keys + {id} else t.amount.Keys
    ensures forall k :: Amount(r, k) == Amount(t, k) + (if k == id && Records(n) then gradient else 0.0)
  {
    if !Records(n) then t
    else if id in t.amount then GradientTable(t.order, t.amount[id := t.amount[id] + gradient])
    else GradientTable(t.order + [id], t.amount[id := gradient])
  }

  /** What a backward call returns (the local derivative) and leaves behind
      (the gradient table). */
  datatype Pass = Pass(local: real, table: GradientTable)

  /** The effect of `backward(execution, gradient)` on node `id`: grade the
      node, then pass the gradient on to its operands. */
  function Back(g: seq<Node>, vars: map<nat, real>, id: nat, gradient: real, t: GradientTable): (r: Result<Pass>)
    requires Acyclic(g) && id < |g|
    decreases RankOf(g)[id], 2, 0
  {
    var t1 := Grade(g[id], id, gradient, t);
    match g[id]
    case Constant(_, _) => Ok(Pass(0.0, t1))
    case Variable(_) => Ok(Pass(1.0, t1))
    case Add(_, _) => BackInputs(g, vars, id, gradient, t1)
    case Min(_, _, _) => BackSides(g, vars, id, gradient, t1)
    case Distribution(_, _, _) => BackSides(g, vars, id, gradient, t1)
    case Multiply(_, _, _) => BackProduct(g, vars, id, gradient, t1)
    case Divide(_, _, _) => BackQuotient(g, vars, id, gradient, t1)
    case Fulfillment(_, _, d) =>
      OperandsBelow(g, id);
      assert d in Deps(g[id]);
      Back(g, vars, d, gradient, t1)
  }

  /** Add.backward: every input receives the same gradient. */
  function BackInputs(g: seq<Node>, vars: map<nat, real>, id: nat, gradient: real, t: GradientTable): (r: Result<Pass>)
    requires Acyclic(g) && id < |g| && g[id].Add?
    decreases RankOf(g)[id], 1, 0
  {
    InputsBelow(g, id);
    BackAll(g, vars, g[id].inputs, gradient, t, RankOf(g)[id])
  }

  /** The two operands Min and Distribution compare, in the order they are
      evaluated and differentiated: `a` and `b` of a Min, `demand` and
      `production` of a Distribution. */
  function Sides(n: Node): (nat, nat)
    requires n.Min? || n.Distribution?
  {
    if n.Min? then (n.a, n.b) else (n.demand, n.production)
  }

  /** Min.backward and Distribution.backward: the whole gradient goes to the
      smaller side (the second one on a tie), nothing to the other; both sides
      are differentiated, first side first. */
  function BackSides(g: seq<Node>, vars: map<nat, real>, id: nat, gradient: real, t: GradientTable): (r: Result<Pass>)
    requires Acyclic(g) && id < |g| && (g[id].Min? || g[id].Distribution?)
    decreases RankOf(g)[id], 0, 0
  {
    var (first, second) := Sides(g[id]);
    OperandsBelow(g, id);
    assert first in Deps(g[id]) && second in Deps(g[id]);
    var x :- Eval(g, vars, first);
    var y :- Eval(g, vars, second);
    ToSmaller(g, vars, first, second, x < y, gradient, t)
  }

  /** The pass once the sides are compared: the gradient to the first side
      when it is the smaller one, else to the second. */
  function ToSmaller(g: seq<Node>, vars: map<nat, real>, first: nat, second: nat, firstSmaller: bool,
                     gradient: real, t: GradientTable): (r: Result<Pass>)
    requires Acyclic(g) && first < |g| && second < |g|
    decreases MaxNat(RankOf(g)[first], RankOf(g)[second]), 4, 0
  {
    var side := if firstSmaller then first else second;
    var p :- BackPair(g, vars, first, if side == first then gradient else 0.0,
                      second, if side == second then gradient else 0.0, t);
    Ok(Pass(p.da + p.db, p.table))
  }

  /** The product and the quotient of two computed numbers, as named terms:
      two of them are equal whenever their operands are. */
  function Times(x: real, y: real): (r: real)
    ensures r == 0.0 <==> x == 0.0 || y == 0.0
  {
    x * y
  }

  function Over(x: real, y: real): real
    requires y != 0.0
  {
    x / y
  }

  /** Multiply.backward: `a` receives b·gradient, then `b` receives a·gradient;
      the result is a·db + da·b. */
  function BackProduct(g: seq<Node>, vars: map<nat, real>, id: nat, gradient: real, t: GradientTable): (r: Result<Pass>)
    requires Acyclic(g) && id < |g| && g[id].Multiply?
    decreases RankOf(g)[id], 0, 0
  {
    var a, b := g[id].a, g[id].b;
    OperandsBelow(g, id);
    assert a in Deps(g[id]) && b in Deps(g[id]);
    var x :- Eval(g, vars, a);
    var y :- Eval(g, vars, b);
    var p :- BackPair(g, vars, a, Times(y, gradient), b, Times(x, gradient), t);
    Ok(Pass(Times(x, p.db) + Times(p.da, y), p.table))
  }

  /** Divide.backward: `a` receives gradient/b, then `b` receives -a·gradient/b²;
      the result is da + db. A zero divisor is an error. */
  function BackQuotient(g: seq<Node>, vars: map<nat, real>, id: nat, gradient: real, t: GradientTable): (r: Result<Pass>)
    requires Acyclic(g) && id < |g| && g[id].Divide?
    decreases RankOf(g)[id], 0, 0
  {
    var a, b := g[id].a, g[id].b;
    OperandsBelow(g, id);
    assert a in Deps(g[id]) && b in Deps(g[id]);
    var x :- Eval(g, vars, a);
    var y :- Eval(g, vars, b);
    if y == 0.0 then Err(DivisionByZero(id))
    else ByQuotient(g, vars, a, b, x, y, gradient, t)
  }

  /** The pass once both operands are computed and the divisor is not zero. */
  function ByQuotient(g: seq<Node>, vars: map<nat, real>, a: nat, b: nat, x: real, y: real,
                      gradient: real, t: GradientTable): (r: Result<Pass>)
    requires Acyclic(g) && a < |g| && b < |g| && y != 0.0
    decreases MaxNat(RankOf(g)[a], RankOf(g)[b]), 4, 0
  {
    var p :- BackPair(g, vars, a, Over(gradient, y), b, Over(Times(-x, gradient), Times(y, y)), t);
    Ok(Pass(p.da + p.db, p.table))
  }

  /** What differentiating two operands in turn returns: both local
      derivatives and the table the second one leaves behind. */
  datatype Pair = Pair(da: real, db: real, table: GradientTable)

  function MaxNat(x: nat, y: nat): (m: nat)
    ensures x <= m && y <= m && (m == x || m == y)
  {
    if x < y then y else x
  }

  /** `a.backward` with gradient `ga`, then `b.backward` with `gb` starting
      from the table the first call left. */
  function BackPair(g: seq<Node>, vars: map<nat, real>, a: nat, ga: real, b: nat, gb: real,
                    t: GradientTable): (r: Result<Pair>)
    requires Acyclic(g) && a < |g| && b < |g|
    decreases MaxNat(RankOf(g)[a], RankOf(g)[b]), 3, 0
  {
    var pa :- Back(g, vars, a, ga, t);
    var pb :- Back(g, vars, b, gb, pa.table);
    Ok(Pair(pa.local, pb.local, pb.table))
  }

  /** Add.backward's loop: the same gradient to every input in turn, summing
      their local derivatives. */
  function BackAll(g: seq<Node>, vars: map<nat, real>, ids: seq<nat>, gradient: real,
                   t: GradientTable, ghost bound: nat): (r: Result<Pass>)
    requires Acyclic(g)
    requires Below(g, ids, bound)
    decreases bound, 0, |ids|
  {
    if ids == [] then Ok(Pass(0.0, t))
    else
      var init := ids[..|ids| - 1];
      var p :- BackAll(g, vars, init, gradient, t, bound);
      Accumulate(g, vars, p, ids[|ids| - 1], gradient)
  }

  /** One more input of an Add: its local derivative is added to the sum so
      far and the pass continues from the table it leaves behind. */
  function Accumulate(g: seq<Node>, vars: map<nat, real>, p: Pass, id: nat, gradient: real): (r: Result<Pass>)
    requires Acyclic(g) && id < |g|
    decreases RankOf(g)[id], 3, 0
  {
    var q :- Back(g, vars, id, gradient, p.table);
    Ok(Pass(p.local + q.local, q.table))
  }

  /** Differentiating one more input adds its local derivative and continues
      from the table it leaves behind. */
  lemma BackAllSnoc(g: seq<Node>, vars: map<nat, real>, ids: seq<nat>, id: nat, gradient: real,
                    t: GradientTable, bound: nat, p: Pass)
    requires Acyclic(g) && id < |g| && RankOf(g)[id] < bound
    requires Below(g, ids, bound)
    requires BackAll(g, vars, ids, gradient, t, bound) == Ok(p)
    ensures Back(g, vars, id, gradient, p.table).Err? ==>
      BackAll(g, vars, ids + [id], gradient, t, bound) == Err(Back(g, vars, id, gradient, p.table).error)
    ensures Back(g, vars, id, gradient, p.table).Ok? ==>
      var q := Back(g, vars, id, gradient, p.table).value;
      BackAll(g, vars, ids + [id], gradient, t, bound) == Ok(Pass(p.local + q.local, q.table))
  {
    var s := ids + [id];
    assert s != [] && s[..|s| - 1] == ids && s[|s| - 1] == id;
    assert BackAll(g, vars, s, gradient, t, bound) == Accumulate(g, vars, p, id, gradient);
  }

  lemma {:induction false} BackAllExtendErr(g: seq<Node>, vars: map<nat, real>, ids: seq<nat>, gradient: real,
                                            t: GradientTable, i: nat, bound: nat)
    requires Acyclic(g) && i <= |ids|
    requires Below(g, ids, bound)
    requires BackAll(g, vars, ids[..i], gradient, t, bound).Err?
    ensures BackAll(g, vars, ids, gradient, t, bound) == BackAll(g, vars, ids[..i], gradient, t, bound)
    decreases |ids| - i
  {
    if i < |ids| {
      var pre := ids[..i + 1];
      assert pre[..i] == ids[..i];
      BackAllExtendErr(g, vars, ids, gradient, t, i + 1, bound);
    } else {
      assert ids[..i] == ids;
    }
  }

  /** Appending nodes whose operands rank below them keeps a ranking. */
  lemma RankedConcat(g: seq<Node>, rank: seq<nat>, ns: seq<Node>, rs: seq<nat>)
    requires Ranked(g, rank) && |ns| == |rs|
    requires forall j :: 0 <= j < |ns| ==>
      forall c :: c in Deps(ns[j]) ==> c < |g| + j && (rank + rs)[c] < rs[j]
    ensures Ranked(g + ns, rank + rs)
  {
    forall k | 0 <= k < |g + ns| ensures OperandsRankBelow(g + ns, rank + rs, k) {
      if k < |g| {
        assert (g + ns)[k] == g[k];
        assert OperandsRankBelow(g, rank, k);
      } else {
        assert (g + ns)[k] == ns[k - |g|];
      }
    }
  }

  /** Adding inputs that rank below an Add keeps a ranking. */
  lemma RankedInclude(g: seq<Node>, rank: seq<nat>, id: nat, inputs: seq<nat>)
    requires Ranked(g, rank) && id < |g| && g[id].Add?
    requires forall i :: i in inputs ==> i < |g| && rank[i] < rank[id]
    ensures Ranked(g[id := Add(g[id].named, g[id].inputs + inputs)], rank)
  {
    var h := g[id := Add(g[id].named, g[id].inputs + inputs)];
    forall k | 0 <= k < |h| ensures OperandsRankBelow(h, rank, k) {
      assert OperandsRankBelow(g, rank, k);
      if k != id {
        assert h[k] == g[k];
      } else {
        forall c | c in Deps(h[k]) ensures c < |h| && rank[c] < rank[k] {
          if c !in inputs {
            assert c in Deps(g[k]);
          }
        }
      }
    }
  }

  /** The node objects of a program, in creation order; `include` is the only
      change made to a node after it is created. */
  class Arena {
    var nodes: seq<Node>
    ghost var rank: seq<nat>
    ghost var varIds: set<nat>

    ghost predicate Valid()
      reads this
      ensures Valid() ==> Acyclic(nodes)
    {
      && Ranked(nodes, rank)
      && (forall k :: k in varIds ==> k < |nodes|)
      && (forall k :: 0 <= k < |nodes| ==> (nodes[k].Variable? <==> k in varIds))
    }

    constructor ()
      ensures Valid() && nodes == [] && varIds == {}
    {
      nodes, rank, varIds := [], [], {};
    }

    /** `new Kind(...)`: a fresh node whose operands already exist; `r` is the
        rank the caller assigns it, above every operand's. */
    method New(n: Node, ghost r: nat) returns (id: nat)
      requires Valid()
      requires forall c :: c in Deps(n) ==> c < |nodes| && rank[c] < r
      modifies this
      ensures Valid()
      ensures id == |old(nodes)| && nodes == old(nodes) + [n] && rank == old(rank) + [r]
      ensures varIds == if n.Variable? then old(varIds) + {id} else old(varIds)
    {
      id := |nodes|;
      nodes := nodes + [n];
      rank := rank + [r];
      if n.Variable? {
        varIds := varIds + {id};
      }
      RankedConcat(old(nodes), old(rank), [n], [r]);
    }

    /** Add.include: append inputs to an Add node; they must rank below it. */
    method Include(id: nat, inputs: seq<nat>)
      requires Valid() && id < |nodes| && nodes[id].Add?
      requires forall i :: i in inputs ==> i < |nodes| && rank[i] < rank[id]
      modifies this
      ensures Valid()
      ensures nodes == old(nodes)[id := Add(old(nodes)[id].named, old(nodes)[id].inputs + inputs)]
      ensures rank == old(rank) && varIds == old(varIds)
    {
      RankedInclude(nodes, rank, id, inputs);
      nodes := nodes[id := Add(nodes[id].named, nodes[id].inputs + inputs)];
    }
  }
}
