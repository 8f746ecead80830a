/** First-come-first-served rationing of one production value across an ordered
    list of demand lines (the loop of Distribution.forward), as pure functions. */
module WaterFill {

  /** Math.min on two finite numbers. */
  function MinReal(x: real, y: real): (m: real)
    ensures m <= x && m <= y
    ensures m == x || m == y
  {
    if x < y then x else y
  }

  /** Left-to-right sum, the way `value += input` accumulates it. */
  function Sum(xs: seq<real>): real {
    if xs == [] then 0.0 else Sum(xs[..|xs| - 1]) + xs[|xs| - 1]
  }

  ghost predicate NonNegative(xs: seq<real>) {
    forall i :: 0 <= i < |xs| ==> 0.0 <= xs[i]
  }

  lemma SumSnoc(xs: seq<real>, x: real)
    ensures Sum(xs + [x]) == Sum(xs) + x
  {
    assert (xs + [x])[..|xs|] == xs;
  }

  /** A sum of non-negative numbers is non-negative. */
  lemma {:induction false} SumNonNegative(xs: seq<real>)
    requires NonNegative(xs)
    ensures 0.0 <= Sum(xs)
    decreases |xs|
  {
    if xs != [] {
      SumNonNegative(xs[..|xs| - 1]);
    }
  }

  /** The amount each line receives: line k gets the smaller of its demand and
      what the lines before it left over. */
  function Shares(available: real, demands: seq<real>): (s: seq<real>)
    ensures |s| == |demands|
  {
    if demands == [] then []
    else
      var before := Shares(available, demands[..|demands| - 1]);
      before + [MinReal(demands[|demands| - 1], available - Sum(before))]
  }

  /** The allocation map: line id to its share; a line listed twice keeps the
      share of its last occurrence, as Map.set overwrites. */
  function Allocation(lines: seq<nat>, shares: seq<real>): (m: map<nat, real>)
    requires |lines| == |shares|
    ensures m.Keys == set l | l in lines
  {
    if lines == [] then map[]
    else Allocation(lines[..|lines| - 1], shares[..|shares| - 1])[lines[|lines| - 1] := shares[|shares| - 1]]
  }

  lemma SumTake(xs: seq<real>, k: nat)
    requires k < |xs|
    ensures Sum(xs[..k + 1]) == Sum(xs[..k]) + xs[k]
  {
    assert xs[..k + 1] == xs[..k] + [xs[k]];
    SumSnoc(xs[..k], xs[k]);
  }

  lemma {:induction false} SumPrefixMonotone(xs: seq<real>, i: nat, j: nat)
    requires i <= j <= |xs| && NonNegative(xs)
    ensures Sum(xs[..i]) <= Sum(xs[..j])
    decreases j
  {
    if i < j {
      SumPrefixMonotone(xs, i, j - 1);
      SumTake(xs, j - 1);
    }
  }

  /** One more line: the shares so far are kept and the new line gets
      min(its demand, what is left). */
  lemma SharesStep(available: real, demands: seq<real>, x: real)
    ensures Shares(available, demands + [x])
         == Shares(available, demands) + [MinReal(x, available - Sum(Shares(available, demands)))]
    ensures Sum(Shares(available, demands + [x]))
         == Sum(Shares(available, demands)) + MinReal(x, available - Sum(Shares(available, demands)))
  {
    assert (demands + [x])[..|demands|] == demands;
    SumSnoc(Shares(available, demands), MinReal(x, available - Sum(Shares(available, demands))));
  }

  lemma {:induction false} SharesPrefix(available: real, demands: seq<real>, i: nat)
    requires i <= |demands|
    ensures Shares(available, demands)[..i] == Shares(available, demands[..i])
    decreases |demands|
  {
    if i < |demands| {
      var init := demands[..|demands| - 1];
      SharesPrefix(available, init, i);
      assert init[..i] == demands[..i];
      assert demands == init + [demands[|demands| - 1]];
      SharesStep(available, init, demands[|demands| - 1]);
    } else {
      assert demands[..i] == demands;
    }
  }

  /** Line k receives min(demand k, what is left after lines 0..k-1). */
  lemma ShareAt(available: real, demands: seq<real>, k: nat)
    requires k < |demands|
    ensures Shares(available, demands)[k]
         == MinReal(demands[k], available - Sum(Shares(available, demands[..k])))
  {
    SharesPrefix(available, demands, k + 1);
    assert demands[..k + 1] == demands[..k] + [demands[k]];
    SharesStep(available, demands[..k], demands[k]);
    assert Shares(available, demands)[k] == Shares(available, demands)[..k + 1][k];
  }

  /** With non-negative inputs the shares add up to min(production, total demand). */
  lemma {:induction false} SharesTotal(available: real, demands: seq<real>)
    requires 0.0 <= available && NonNegative(demands)
    ensures Sum(Shares(available, demands)) == MinReal(available, Sum(demands))
    decreases |demands|
  {
    if demands != [] {
      var init, x := demands[..|demands| - 1], demands[|demands| - 1];
      assert demands == init + [x];
      assert NonNegative(init);
      SharesTotal(available, init);
      SharesStep(available, init, x);
      SumSnoc(init, x);
    }
  }

  /** Every share lies between zero and the line's own demand. */
  lemma SharesBounded(available: real, demands: seq<real>)
    requires 0.0 <= available && NonNegative(demands)
    ensures forall k :: 0 <= k < |demands| ==>
      0.0 <= Shares(available, demands)[k] <= demands[k]
  {
    forall k | 0 <= k < |demands|
      ensures 0.0 <= Shares(available, demands)[k] <= demands[k]
    {
      ShareAt(available, demands, k);
      assert NonNegative(demands[..k]);
      SharesTotal(available, demands[..k]);
    }
  }

  /** When total demand fits in the production, every line is served in full. */
  lemma FullyServed(available: real, demands: seq<real>)
    requires NonNegative(demands) && Sum(demands) <= available
    ensures Shares(available, demands) == demands
  {
    SumNonNegative(demands);
    assert demands[..|demands|] == demands;
    var s := Shares(available, demands);
    forall k | 0 <= k < |demands| ensures s[k] == demands[k] {
      ShareAt(available, demands, k);
      assert NonNegative(demands[..k]);
      SharesTotal(available, demands[..k]);
      SumTake(demands, k);
      SumPrefixMonotone(demands, k + 1, |demands|);
    }
  }

  /** Once a line is under-served the production is used up, so every later
      line receives nothing. */
  lemma StarvedAfterShortfall(available: real, demands: seq<real>, i: nat, j: nat)
    requires 0.0 <= available && NonNegative(demands)
    requires i < j < |demands|
    requires Shares(available, demands)[i] < demands[i]
    ensures Shares(available, demands)[j] == 0.0
  {
    ShareAt(available, demands, i);
    assert NonNegative(demands[..i]) && NonNegative(demands[..j]);
    SharesTotal(available, demands[..i]);
    SumTake(demands, i);
    SumPrefixMonotone(demands, i + 1, j);
    assert available < Sum(demands[..j]);
    SharesTotal(available, demands[..j]);
    ShareAt(available, demands, j);
  }

  /** The map entry of a line is its share, unless the line occurs again later. */
  lemma {:induction false} AllocationAt(lines: seq<nat>, shares: seq<real>, k: nat)
    requires |lines| == |shares| && k < |lines|
    requires forall j :: k < j < |lines| ==> lines[j] != lines[k]
    ensures Allocation(lines, shares)[lines[k]] == shares[k]
    decreases |lines|
  {
    if k < |lines| - 1 {
      AllocationAt(lines[..|lines| - 1], shares[..|shares| - 1], k);
    }
  }

  lemma AllocationSnoc(lines: seq<nat>, shares: seq<real>, line: nat, share: real)
    requires |lines| == |shares|
    ensures Allocation(lines + [line], shares + [share]) == Allocation(lines, shares)[line := share]
  {
    assert (lines + [line])[..|lines|] == lines;
    assert (shares + [share])[..|shares|] == shares;
  }

  /** The walk as Distribution.forward performs it: one line at a time, each
      taking min(its demand, what is left), with the map so far and the
      remainder as its state. */
  function Walk(available: real, lines: seq<nat>, demands: seq<real>): (map<nat, real>, real)
    requires |lines| == |demands|
  {
    if lines == [] then (map[], available)
    else
      var (m, left) := Walk(available, lines[..|lines| - 1], demands[..|demands| - 1]);
      var share := MinReal(demands[|demands| - 1], left);
      (m[lines[|lines| - 1] := share], left - share)
  }

  lemma WalkSnoc(available: real, lines: seq<nat>, demands: seq<real>, line: nat, x: real)
    requires |lines| == |demands|
    ensures var (m, left) := Walk(available, lines, demands);
      Walk(available, lines + [line], demands + [x]) == (m[line := MinReal(x, left)], left - MinReal(x, left))
  {
    assert (lines + [line])[..|lines|] == lines;
    assert (demands + [x])[..|demands|] == demands;
  }

  /** The walk ends with the allocation of the shares, and with the production
      minus the shares handed out. */
  lemma {:induction false} WalkRations(available: real, lines: seq<nat>, demands: seq<real>)
    requires |lines| == |demands|
    ensures Walk(available, lines, demands)
         == (Allocation(lines, Shares(available, demands)), available - Sum(Shares(available, demands)))
    decreases |lines|
  {
    if lines != [] {
      var init, last := lines[..|lines| - 1], lines[|lines| - 1];
      var dinit, x := demands[..|demands| - 1], demands[|demands| - 1];
      WalkRations(available, init, dinit);
      WalkRationsSnoc(available, init, dinit, last, x);
      assert lines == init + [last] && demands == dinit + [x];
    }
  }

  lemma WalkRationsSnoc(available: real, lines: seq<nat>, demands: seq<real>, line: nat, x: real)
    requires |lines| == |demands|
    requires Walk(available, lines, demands)
          == (Allocation(lines, Shares(available, demands)), available - Sum(Shares(available, demands)))
    ensures Walk(available, lines + [line], demands + [x])
         == (Allocation(lines + [line], Shares(available, demands + [x])),
             available - Sum(Shares(available, demands + [x])))
  {
    var left := available - Sum(Shares(available, demands));
    WalkSnoc(available, lines, demands, line, x);
    SharesStep(available, demands, x);
    AllocationSnoc(lines, Shares(available, demands), line, MinReal(x, left));
  }
}
