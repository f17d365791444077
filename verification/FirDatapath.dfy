/** A pipelined FIR filter over a recursive four-way adder tree, and the convolution it computes. Signals are
    written at the end of an activation: a state holds what the next activation reads. */
module FirDatapath {

  function Sum(xs: seq<int>): int {
    if |xs| == 0 then 0 else Sum(xs[..|xs|-1]) + xs[|xs|-1]
  }

  lemma {:induction false} SumAppend(xs: seq<int>, ys: seq<int>)
    ensures Sum(xs + ys) == Sum(xs) + Sum(ys)
    decreases |ys|
  {
    if |ys| == 0 {
      assert xs + ys == xs;
    } else {
      assert (xs + ys)[..|xs + ys|-1] == xs + ys[..|ys|-1];
      SumAppend(xs, ys[..|ys|-1]);
    }
  }

  // ----- the adder tree -----

  /** The smallest adders sum two to four operands at once; a larger one has a level of partial sums of four
      and a smaller adder for those. */
  datatype Adder = Leaf(sum: int) | Level(partialSum: seq<int>, subLevel: Adder)

  /** How many partial sums m operands make. */
  function PartialSums(m: nat): nat { if m % 4 == 0 then m / 4 else m / 4 + 1 }

  function LevelNumber(m: nat): nat
    requires m >= 2
  {
    if m <= 4 then 1 else 1 + LevelNumber(PartialSums(m))
  }

  ghost predicate Shaped(m: nat, a: Adder)
    requires m >= 2
  {
    if m <= 4 then a.Leaf? else a.Level? && |a.partialSum| == PartialSums(m) && Shaped(PartialSums(m), a.subLevel)
  }

  /** What the deepest level shows. */
  function Output(a: Adder): int {
    match a
    case Leaf(sum) => sum
    case Level(_, sub) => Output(sub)
  }

  /** The i-th group of up to four operands. */
  function Group(operand: seq<int>, i: nat): seq<int>
    requires i < PartialSums(|operand|)
  {
    operand[4*i..if 4*i + 4 <= |operand| then 4*i + 4 else |operand|]
  }

  function GroupSums(operand: seq<int>): seq<int> {
    seq(PartialSums(|operand|), i requires 0 <= i < PartialSums(|operand|) => Sum(Group(operand, i)))
  }

  /** One activation of the adder: every level works on what the one before showed last time. */
  function Compute(a: Adder, operand: seq<int>): Adder {
    match a
    case Leaf(_) => Leaf(Sum(operand))
    case Level(partialSum, sub) => Level(GroupSums(operand), Compute(sub, partialSum))
  }

  lemma {:induction false} ComputeKeepsShape(m: nat, a: Adder, operand: seq<int>)
    requires m >= 2 && Shaped(m, a) && |operand| == m
    ensures Shaped(m, Compute(a, operand))
    decreases m
  {
    if m > 4 { ComputeKeepsShape(PartialSums(m), a.subLevel, a.partialSum); }
  }

  /** Summing in groups loses nothing, whatever is left over from the groups of four. */
  lemma {:induction false} GroupSumsSum(operand: seq<int>, n: nat)
    requires n <= PartialSums(|operand|)
    ensures Sum(GroupSums(operand)[..n]) == Sum(operand[..if 4*n <= |operand| then 4*n else |operand|])
    decreases n
  {
    if n > 0 {
      var before, upto := operand[..4*(n-1)], operand[..if 4*n <= |operand| then 4*n else |operand|];
      GroupSumsSum(operand, n - 1);
      assert upto == before + Group(operand, n - 1);
      SumAppend(before, Group(operand, n - 1));
      assert GroupSums(operand)[..n] == GroupSums(operand)[..n-1] + [Sum(Group(operand, n - 1))];
    }
  }

  lemma GroupSumsAll(operand: seq<int>)
    ensures Sum(GroupSums(operand)) == Sum(operand)
  {
    GroupSumsSum(operand, PartialSums(|operand|));
    assert GroupSums(operand)[..PartialSums(|operand|)] == GroupSums(operand);
    assert operand[..|operand|] == operand;
  }

  ghost predicate Zero(a: Adder) {
    match a
    case Leaf(sum) => sum == 0
    case Level(partialSum, sub) => (forall i :: 0 <= i < |partialSum| ==> partialSum[i] == 0) && Zero(sub)
  }

  lemma {:induction false} SumOfZeros(xs: seq<int>)
    requires forall i :: 0 <= i < |xs| ==> xs[i] == 0
    ensures Sum(xs) == 0
  {
    if |xs| > 0 { SumOfZeros(xs[..|xs|-1]); }
  }

  /** A run of the adder: its states and the operands of each activation. */
  ghost predicate AdderRun(m: nat, states: seq<Adder>, operands: seq<seq<int>>)
    requires m >= 2
  {
    && |states| == |operands| + 1
    && (forall t :: 0 <= t < |states| ==> Shaped(m, states[t]))
    && (forall t :: 0 <= t < |operands| ==> |operands[t]| == m && states[t+1] == Compute(states[t], operands[t]))
  }

  /** The tree delivers the sum of its operands exactly as many activations later as it has levels. */
  lemma {:induction false} AdderDelivers(m: nat, states: seq<Adder>, operands: seq<seq<int>>, t: nat)
    requires m >= 2 && AdderRun(m, states, operands) && t < |states|
    ensures t >= LevelNumber(m) ==> Output(states[t]) == Sum(operands[t - LevelNumber(m)])
    ensures t < LevelNumber(m) && Zero(states[0]) ==> Output(states[t]) == 0
    decreases m
  {
    if m <= 4 {
      if t >= 1 { assert states[t-1+1] == Compute(states[t-1], operands[t-1]); }
    } else {
      var n := PartialSums(m);
      var subs := seq(|states|, i requires 0 <= i < |states| => states[i].subLevel);
      var partials := seq(|operands|, i requires 0 <= i < |operands| => states[i].partialSum);
      forall i | 0 <= i < |operands| ensures subs[i+1] == Compute(subs[i], partials[i]) {
        assert states[i+1] == Compute(states[i], operands[i]);
      }
      AdderDelivers(n, subs, partials, t);
      if t >= LevelNumber(n) {
        var u := t - LevelNumber(n);
        if u >= 1 {
          assert states[u-1+1] == Compute(states[u-1], operands[u-1]);
          GroupSumsAll(operands[u-1]);
        } else if Zero(states[0]) {
          SumOfZeros(partials[0]);
        }
      }
    }
  }

  // ----- the filter -----

  datatype FirState = FirState(shiftRegister: seq<int>, prod: seq<int>, adder: Adder, y: int)

  ghost predicate FirShaped(coeff: seq<int>, s: FirState)
    requires |coeff| >= 2
  {
    |s.shiftRegister| == |s.prod| == |coeff| && Shaped(|coeff|, s.adder)
  }

  ghost predicate Cleared(s: FirState) {
    && (forall i :: 0 <= i < |s.shiftRegister| ==> s.shiftRegister[i] == 0)
    && (forall i :: 0 <= i < |s.prod| ==> s.prod[i] == 0) && Zero(s.adder)
  }

  function Products(register: seq<int>, coeff: seq<int>): seq<int>
    requires |register| == |coeff|
  {
    seq(|coeff|, i requires 0 <= i < |coeff| => register[i] * coeff[i])
  }

  /** One activation: shift, multiply, add and output, each on last time's signals. */
  function Activate(coeff: seq<int>, s: FirState, x: int): FirState
    requires |coeff| >= 2 && |s.shiftRegister| == |coeff|
  {
    FirState([x] + s.shiftRegister[..|coeff|-1], Products(s.shiftRegister, coeff), Compute(s.adder, s.prod), Output(s.adder))
  }

  /** A run of the filter from cleared signals on the samples xs. */
  ghost predicate FirRun(coeff: seq<int>, states: seq<FirState>, xs: seq<int>)
    requires |coeff| >= 2
  {
    && |states| == |xs| + 1 && (forall t :: 0 <= t < |states| ==> FirShaped(coeff, states[t])) && Cleared(states[0])
    && forall t :: 0 <= t < |xs| ==> states[t+1] == Activate(coeff, states[t], xs[t])
  }

  /** The sample at a time, zero before the start. */
  function At(xs: seq<int>, t: int): int { if 0 <= t < |xs| then xs[t] else 0 }

  /** The causal convolution of the first n coefficients with the samples, at time t. */
  function Convolution(coeff: seq<int>, xs: seq<int>, t: int, n: nat): int
    requires n <= |coeff|
  {
    if n == 0 then 0 else Convolution(coeff, xs, t, n - 1) + At(xs, t - (n - 1)) * coeff[n-1]
  }

  /** The register holds the last samples, newest first. */
  lemma {:induction false} RegisterHolds(coeff: seq<int>, states: seq<FirState>, xs: seq<int>, t: nat, i: nat)
    requires |coeff| >= 2 && FirRun(coeff, states, xs) && t < |states| && i < |coeff|
    ensures states[t].shiftRegister[i] == At(xs, t - 1 - i)
    decreases t
  {
    if t > 0 {
      assert states[t-1+1] == Activate(coeff, states[t-1], xs[t-1]);
      if i > 0 { RegisterHolds(coeff, states, xs, t - 1, i - 1); }
    }
  }

  lemma {:induction false} ProductsSum(coeff: seq<int>, register: seq<int>, xs: seq<int>, t: int, n: nat)
    requires |register| == |coeff| && n <= |coeff|
    requires forall i :: 0 <= i < |coeff| ==> register[i] == At(xs, t - i)
    ensures Sum(Products(register, coeff)[..n]) == Convolution(coeff, xs, t, n)
    decreases n
  {
    if n > 0 {
      ProductsSum(coeff, register, xs, t, n - 1);
      assert Products(register, coeff)[..n] == Products(register, coeff)[..n-1] + [register[n-1] * coeff[n-1]];
    }
  }

  /** The products at a time add up to the convolution two activations back. */
  lemma ProductsAreConvolution(coeff: seq<int>, states: seq<FirState>, xs: seq<int>, t: nat)
    requires |coeff| >= 2 && FirRun(coeff, states, xs) && t < |states|
    ensures Sum(states[t].prod) == Convolution(coeff, xs, t - 2, |coeff|)
  {
    if t == 0 {
      SumOfZeros(states[0].prod);
      QuietBefore(coeff, xs, -2, |coeff|);
    } else {
      assert states[t-1+1] == Activate(coeff, states[t-1], xs[t-1]);
      var register := states[t-1].shiftRegister;
      forall i | 0 <= i < |coeff| ensures register[i] == At(xs, t - 2 - i) {
        RegisterHolds(coeff, states, xs, t - 1, i);
      }
      ProductsSum(coeff, register, xs, t - 2, |coeff|);
      assert states[t].prod == Products(states[t-1].shiftRegister, coeff)[..|coeff|];
    }
  }

  lemma {:induction false} QuietBefore(coeff: seq<int>, xs: seq<int>, t: int, n: nat)
    requires t < 0 && n <= |coeff|
    ensures Convolution(coeff, xs, t, n) == 0
    decreases n
  {
    if n > 0 { QuietBefore(coeff, xs, t, n - 1); }
  }

  /** The pipelined filter of any size from two on is the causal convolution, late by two activations and
      one for every level of its adder: after the activation on sample t the output is the convolution at
      t - levels - 2. */
  lemma FirIsConvolution(coeff: seq<int>, states: seq<FirState>, xs: seq<int>, t: nat)
    requires |coeff| >= 2 && FirRun(coeff, states, xs) && t < |xs|
    ensures states[t+1].y == Convolution(coeff, xs, t - LevelNumber(|coeff|) - 2, |coeff|)
  {
    var m := |coeff|;
    var adders := seq(|states|, i requires 0 <= i < |states| => states[i].adder);
    var operands := seq(|xs|, i requires 0 <= i < |xs| => states[i].prod);
    forall i | 0 <= i < |xs| ensures adders[i+1] == Compute(adders[i], operands[i]) {
      assert states[i+1] == Activate(coeff, states[i], xs[i]);
    }
    AdderDelivers(m, adders, operands, t);
    if t >= LevelNumber(m) {
      ProductsAreConvolution(coeff, states, xs, t - LevelNumber(m));
    } else {
      QuietBefore(coeff, xs, t - LevelNumber(m) - 2, m);
    }
  }

  // ----- the program -----

  /** The sum of up to four operands in one expression. */
  method SumFew(operand: seq<int>) returns (sum: int)
    requires 1 <= |operand| <= 4
    ensures sum == Sum(operand)
  {
    SmallSum(operand);
    match |operand| {
      case 1 => sum := operand[0];
      case 2 => sum := operand[0] + operand[1];
      case 3 => sum := operand[0] + operand[1] + operand[2];
      case _ => sum := operand[0] + operand[1] + operand[2] + operand[3];
    }
  }

  /** One activation of an adder: its sub-level first, then the sums of four, then what is left over. */
  method ComputeAdder(a: Adder, operand: seq<int>) returns (a': Adder)
    requires |operand| >= 2 && Shaped(|operand|, a)
    ensures a' == Compute(a, operand)
    decreases |operand|
  {
    var m := |operand|;
    if m <= 4 {
      var sum := SumFew(operand);
      return Leaf(sum);
    }
    var sub := ComputeAdder(a.subLevel, a.partialSum);
    var limit := m / 4;
    var partialSum := [];
    var i := 0;
    while i < limit
      invariant i <= limit && |partialSum| == i
      invariant forall k :: 0 <= k < i ==> partialSum[k] == Sum(Group(operand, k))
    {
      var sum := SumFew(operand[4*i..4*i+4]);
      partialSum := partialSum + [sum];
      i := i + 1;
    }
    if m % 4 != 0 {
      assert operand[4*limit..] == Group(operand, limit);
      var sum := SumFew(operand[4*limit..]);
      partialSum := partialSum + [sum];
    }
    assert partialSum == GroupSums(operand);
    a' := Level(partialSum, sub);
  }

  lemma SmallSum(xs: seq<int>)
    requires 1 <= |xs| <= 4
    ensures Sum(xs) == xs[0] + (if |xs| >= 2 then xs[1] else 0) + (if |xs| >= 3 then xs[2] else 0) + if |xs| == 4 then xs[3] else 0
  {
    assert Sum(xs[..1]) == xs[0];
    if |xs| >= 2 { assert xs[..2][..1] == xs[..1]; }
    if |xs| >= 3 { assert xs[..3][..2] == xs[..2]; }
    if |xs| >= 4 { assert xs[..4][..3] == xs[..3]; }
    assert xs[..|xs|] == xs;
  }

  /** The filter's signals. Writes take effect when the activation is over. */
  class Fir {
    const coeff: seq<int>
    const shiftRegister: array<int>
    const prod: array<int>
    var adder: Adder
    var y: int

    ghost predicate Valid()
      reads this
    {
      |coeff| >= 2 && shiftRegister.Length == prod.Length == |coeff| && shiftRegister != prod && Shaped(|coeff|, adder)
    }

    ghost function View(): FirState
      reads this, shiftRegister, prod
    {
      FirState(shiftRegister[..], prod[..], adder, y)
    }

    method NextRegister(x: int) returns (next: array<int>)
      requires Valid()
      ensures fresh(next) && next[..] == [x] + shiftRegister[..][..|coeff|-1]
    {
      var size := |coeff|;
      next := new int[size];
      var i := 0;
      while i < size - 1
        modifies next
        invariant i <= size - 1
        invariant forall k :: 1 <= k <= i ==> next[k] == shiftRegister[k-1]
      {
        next[i+1] := shiftRegister[i];
        i := i + 1;
      }
      next[0] := x;
    }

    method NextProducts() returns (next: array<int>)
      requires Valid()
      ensures fresh(next) && next.Length == |coeff| && next[..] == Products(shiftRegister[..], coeff)
    {
      var size := |coeff|;
      next := new int[size];
      var i := 0;
      while i < size
        modifies next
        invariant i <= size
        invariant forall k :: 0 <= k < i ==> next[k] == shiftRegister[k] * coeff[k]
      {
        next[i] := shiftRegister[i] * coeff[i];
        i := i + 1;
      }
    }

    /** The writes of an activation take effect. */
    static method Settle(signal: array<int>, next: array<int>)
      requires signal.Length == next.Length && signal != next
      modifies signal
      ensures signal[..] == next[..]
    {
      forall k | 0 <= k < signal.Length { signal[k] := next[k]; }
    }

    method ComputeFir(x: int)
      requires Valid()
      modifies this`adder, this`y, shiftRegister, prod
      ensures Valid() && View() == Activate(coeff, old(View()), x)
    {
      hide Products, Compute, Shaped;
      var nextRegister := NextRegister(x);
      var nextProd := NextProducts();
      ComputeKeepsShape(|coeff|, adder, prod[..]);
      var nextAdder := ComputeAdder(adder, prod[..]);
      y := Output(adder);
      adder := nextAdder;
      Settle(shiftRegister, nextRegister);
      Settle(prod, nextProd);
    }
  }
}
