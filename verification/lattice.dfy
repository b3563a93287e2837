/**
  The termination-fee option pricer: a backward-induction valuation over a
  recombining binomial lattice of floating energy rates.

  Rates, volumes and fees are exact reals. The monthly up-factor `u` is a
  parameter standing in for exp(vol / sqrt(12)); the down-factor is 1/u.
 */
module Lattice {
  import opened RealPow

  /**
    One call of the pricer.
      price      the contract's fixed rate
      low        the cheapest rate in the market, the lattice's reference rate
      kwhmo      the expected consumption per month
      months     the contract term, one lattice period per month
      cancelFee  the fee paid to leave the contract
      u          the monthly up-factor of the floating rate
   */
  datatype Valuation = Valuation(
    price: real,
    low: real,
    kwhmo: real,
    months: int,
    cancelFee: real,
    u: real)
  {
    /** The up-factor is positive and not 1; u = 1 makes p a 0/0. */
    predicate Valid() {
      u > 0.0 && u != 1.0
    }
  }

  function Max(a: real, b: real): real {
    if a >= b then a else b
  }

  function Min(a: real, b: real): real {
    if a <= b then a else b
  }

  /** x floored at -fee: the larger of exercising now and paying the fee. */
  function FloorAt(x: real, fee: real): (r: real)
    ensures r >= x && r >= -fee
    ensures r == x || r == -fee
  {
    Max(x, -fee)
  }

  /** Every element of s is at least lo. */
  predicate AtLeast(s: seq<real>, lo: real) {
    forall k :: 0 <= k < |s| ==> s[k] >= lo
  }

  /** The step probability, written as the pricer writes it: (1 - u) / (d - u) with d = 1/u. */
  function Prob(u: real): (p: real)
    requires u > 0.0 && u != 1.0
    ensures p == u / (1.0 + u)
    ensures 0.0 < p < 1.0
  {
    var d := 1.0 / u;
    assert d - u == (1.0 - u) * (1.0 + u) / u by {
      assert (1.0 - u) * (1.0 + u) == 1.0 - u * u;
    }
    assert d - u != 0.0;
    (1.0 - u) / (d - u)
  }

  /** The floating rate at level k of a period with i levels: low * u^k * d^(i-k). */
  function Level(v: Valuation, i: nat, k: nat): (r: real)
    requires v.u > 0.0
    requires k < i
    ensures v.low > 0.0 ==> r > 0.0
  {
    PowPositive(v.u, k);
    PowPositive(1.0 / v.u, i - k);
    MulPositive(Pow(v.u, k), Pow(1.0 / v.u, i - k));
    if v.low > 0.0 then
      MulPositive(Pow(v.u, k) * Pow(1.0 / v.u, i - k), v.low);
      Pow(v.u, k) * Pow(1.0 / v.u, i - k) * v.low
    else
      Pow(v.u, k) * Pow(1.0 / v.u, i - k) * v.low
  }

  /** The rate levels of a period with i levels, lowest first. */
  function Levels(v: Valuation, i: nat): (r: seq<real>)
    requires v.u > 0.0
    ensures |r| == i
    ensures v.low > 0.0 ==> forall k :: 0 <= k < i ==> r[k] > 0.0
  {
    seq(i, k requires 0 <= k < i => Level(v, i, k))
  }

  /** What switching to the floating rate earns over one month: (rate - price) * kwhmo. */
  function Gain(v: Valuation, rate: real): real {
    (rate - v.price) * v.kwhmo
  }

  /** The exercise payoff at level k of a period with i levels. */
  function Payoff(v: Valuation, i: nat, k: nat): real
    requires v.u > 0.0
    requires k < i
  {
    Gain(v, Level(v, i, k))
  }

  /** A node's value: continuation plus the exercise gain at the node's rate, floored at -cancelFee. */
  function NodeValue(v: Valuation, cont: real, rate: real): (r: real)
    ensures r >= -v.cancelFee
  {
    FloorAt(cont + Gain(v, rate), v.cancelFee)
  }

  /** A product of non-negative reals is non-negative. */
  lemma MulNonNegative(a: real, b: real)
    requires a >= 0.0 && b >= 0.0
    ensures a * b >= 0.0
  {
  }

  /** A product of positive reals is positive. */
  lemma MulPositive(a: real, b: real)
    requires a > 0.0 && b > 0.0
    ensures a * b > 0.0
  {
  }

  /** The p / (1 - p) weighted average of two child values. */
  function Continuation(p: real, a: real, b: real): (c: real)
    requires 0.0 <= p <= 1.0
    ensures Min(a, b) <= c <= Max(a, b)
  {
    var c := p * a + (1.0 - p) * b;
    assert c - b == p * (a - b) && c - a == (1.0 - p) * (b - a);
    if a >= b then
      MulNonNegative(p, a - b);
      MulNonNegative(1.0 - p, a - b);
      c
    else
      MulNonNegative(p, b - a);
      MulNonNegative(1.0 - p, b - a);
      c
  }

  /** The width-2 sliding window over ov, each window reduced to its weighted average. */
  function Windows(ov: seq<real>, p: real): (w: seq<real>)
    requires |ov| >= 1
    requires 0.0 <= p <= 1.0
    ensures |w| == |ov| - 1
    ensures forall k :: 0 <= k < |w| ==> Min(ov[k], ov[k + 1]) <= w[k] <= Max(ov[k], ov[k + 1])
  {
    var w := seq(|ov| - 1, k requires 0 <= k < |ov| - 1 => Continuation(p, ov[k], ov[k + 1]));
    assert forall k :: 0 <= k < |w| ==> w[k] == Continuation(p, ov[k], ov[k + 1]);
    w
  }

  /** The number of terminal levels: months, or none for a non-positive term. */
  function TermLevels(v: Valuation): nat {
    if v.months > 0 then v.months else 0
  }

  /** The terminal node values: the exercise payoff floored at -cancelFee. */
  function Terminal(v: Valuation): (ov: seq<real>)
    requires v.u > 0.0
    ensures |ov| == TermLevels(v)
    ensures AtLeast(ov, -v.cancelFee)
  {
    var n := TermLevels(v);
    var prices := Levels(v, n);
    seq(n, k requires 0 <= k < n => FloorAt(Gain(v, prices[k]), v.cancelFee))
  }

  /** Terminal node k: the payoff at level k of the terminal period, floored. */
  lemma TerminalNode(v: Valuation, k: nat)
    requires v.u > 0.0
    requires k < TermLevels(v)
    ensures Terminal(v)[k] == FloorAt(Payoff(v, TermLevels(v), k), v.cancelFee)
  {
  }

  /**
    One backward step into the period with i levels. The child vector has
    i + 1 entries, so that the i windows line up with the i rate levels.
   */
  function StepAt(v: Valuation, ov: seq<real>, i: nat): (r: seq<real>)
    requires v.Valid()
    requires i >= 1 && |ov| == i + 1
    ensures |r| == |ov| - 1
    ensures AtLeast(r, -v.cancelFee)
  {
    var p := Prob(v.u);
    var w := Windows(ov, p);
    var prices := Levels(v, i);
    seq(i, k requires 0 <= k < i => NodeValue(v, w[k], prices[k]))
  }

  /** Node k of a backward step: the node value of window k at rate level k. */
  lemma StepAtNode(v: Valuation, ov: seq<real>, i: nat, k: nat)
    requires v.Valid()
    requires i >= 1 && |ov| == i + 1
    requires k < i
    ensures StepAt(v, ov, i)[k] == NodeValue(v, Continuation(Prob(v.u), ov[k], ov[k + 1]), Level(v, i, k))
  {
  }

  /** Backward induction from a period's node values down to the root period. */
  function Backward(v: Valuation, ov: seq<real>): (r: seq<real>)
    requires v.Valid()
    ensures |r| == if |ov| == 0 then 0 else 1
    ensures AtLeast(ov, -v.cancelFee) ==> AtLeast(r, -v.cancelFee)
    decreases |ov|
  {
    if |ov| <= 1 then ov else Backward(v, StepAt(v, ov, |ov| - 1))
  }

  /** Every element floored at zero. */
  function FloorZero(s: seq<real>): (r: seq<real>)
    ensures |r| == |s|
    ensures AtLeast(r, 0.0)
  {
    seq(|s|, k requires 0 <= k < |s| => Max(s[k], 0.0))
  }

  /**
    The pricer's result: a one-element vector holding the option value, or
    an empty vector for a non-positive term.
   */
  function Price(v: Valuation): (r: seq<real>)
    requires v.Valid()
    ensures |r| == if v.months >= 1 then 1 else 0
    ensures AtLeast(r, 0.0)
    ensures v.months >= 1 ==> r[0] == Max(Backward(v, Terminal(v))[0], 0.0)
  {
    FloorZero(Backward(v, Terminal(v)))
  }

  /**
    The pricer as a loop over i = months-1 down to 1, recomputing the rate
    levels of each period and collapsing the value vector by one.
   */
  method PriceLoop(v: Valuation) returns (r: seq<real>)
    requires v.Valid()
    ensures |r| == if v.months >= 1 then 1 else 0
    ensures AtLeast(r, 0.0)
    ensures r == Price(v)
  {
    var ov := Terminal(v);
    var i := v.months - 1;
    while i > 0
      invariant i <= v.months - 1
      invariant |ov| == if v.months >= 1 then i + 1 else 0
      invariant AtLeast(ov, -v.cancelFee)
      invariant Backward(v, ov) == Backward(v, Terminal(v))
      decreases i
    {
      ov := StepAt(v, ov, i);
      i := i - 1;
    }
    r := FloorZero(ov);
  }
}
