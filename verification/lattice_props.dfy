/**
  Properties of the lattice pricer: the shape of the rate lattice, the
  risk-neutral step probability, the single-period closed form, and how the
  option value responds to the fee, the rates and the volume.
 */
module LatticeProps {
  import opened RealPow
  import opened Lattice

  // ---------------------------------------------------------------------
  // The rate lattice
  // ---------------------------------------------------------------------

  /** The lowest level of a period with i levels is low * d^i: multiplied by u^i it is low. */
  lemma LevelBase(v: Valuation, i: nat)
    requires v.u > 0.0
    requires 0 < i
    ensures Level(v, i, 0) * Pow(v.u, i) == v.low
  {
    PowReciprocal(v.u, i);
    assert Level(v, i, 0) == Pow(1.0 / v.u, i) * v.low;
  }

  /** Neighbouring levels of one period differ by the factor u * u: level k is low * u^(2k - i). */
  lemma LevelUp(v: Valuation, i: nat, k: nat)
    requires v.u > 0.0
    requires 1 <= k < i
    ensures Level(v, i, k) == Level(v, i, k - 1) * (v.u * v.u)
  {
    var u := v.u;
    var d := 1.0 / u;
    assert Pow(u, k) == u * Pow(u, k - 1);
    assert Pow(d, i - (k - 1)) == d * Pow(d, i - k);
    assert d * u == 1.0;
  }

  /**
    The lattice recombines: the node at level k of a period with i levels
    has as children level k (one down-move) and level k + 1 (one up-move)
    of the period with i + 1 levels.
   */
  lemma LevelChildren(v: Valuation, i: nat, k: nat)
    requires v.u > 0.0
    requires k < i
    ensures Level(v, i + 1, k) * v.u == Level(v, i, k)
    ensures Level(v, i + 1, k + 1) == Level(v, i, k) * v.u
  {
    var u := v.u;
    var d := 1.0 / u;
    assert Pow(d, i + 1 - k) == d * Pow(d, i - k);
    assert Pow(u, k + 1) == u * Pow(u, k);
    calc {
      Level(v, i + 1, k) * u;
      Pow(u, k) * (d * Pow(d, i - k)) * v.low * u;
      (d * u) * (Pow(u, k) * Pow(d, i - k) * v.low);
      Level(v, i, k);
    }
  }

  /** The closed form of a level: low * u^k * d^(i-k) times u^i is low * u^(2k), so level k is low * u^(2k - i). */
  lemma {:induction false} LevelClosedForm(v: Valuation, i: nat, k: nat)
    requires v.u > 0.0
    requires k < i
    ensures Level(v, i, k) * Pow(v.u, i) == v.low * Pow(v.u, k + k)
    decreases k
  {
    if k == 0 {
      LevelBase(v, i);
    } else {
      calc {
        Level(v, i, k) * Pow(v.u, i);
      == { LevelUp(v, i, k); }
        (Level(v, i, k - 1) * (v.u * v.u)) * Pow(v.u, i);
      ==
        (v.u * v.u) * (Level(v, i, k - 1) * Pow(v.u, i));
      == { LevelClosedForm(v, i, k - 1); }
        (v.u * v.u) * (v.low * Pow(v.u, k - 1 + (k - 1)));
      ==
        v.low * ((v.u * v.u) * Pow(v.u, k - 1 + (k - 1)));
      == { PowTwoMore(v.u, k - 1 + (k - 1)); }
        v.low * Pow(v.u, k + k);
      }
    }
  }

  lemma SquareAboveOne(u: real)
    requires u > 1.0
    ensures u * u > 1.0
  {
    MulPositive(u, u - 1.0);
  }

  lemma GrowsBy(a: real, b: real, c: real, w: real)
    requires a <= b && b > 0.0 && w > 1.0
    requires c == b * w
    ensures a < c
  {
    MulPositive(b, w - 1.0);
  }

  /** With u > 1 and a positive reference rate a higher level has a strictly higher rate. */
  lemma {:induction false} LevelStrictlyIncreasing(v: Valuation, i: nat, j: nat, k: nat)
    requires v.u > 1.0 && v.low > 0.0
    requires j < k < i
    ensures Level(v, i, j) < Level(v, i, k)
    decreases k
  {
    if j < k - 1 {
      LevelStrictlyIncreasing(v, i, j, k - 1);
    }
    LevelUp(v, i, k);
    SquareAboveOne(v.u);
    GrowsBy(Level(v, i, j), Level(v, i, k - 1), Level(v, i, k), v.u * v.u);
  }

  /** With u > 1 and a positive reference rate the levels of a period are positive and strictly increasing. */
  lemma LevelsIncreasing(v: Valuation, i: nat)
    requires v.u > 1.0 && v.low > 0.0
    ensures forall k :: 0 <= k < i ==> Levels(v, i)[k] > 0.0
    ensures forall j, k :: 0 <= j < k < i ==> Levels(v, i)[j] < Levels(v, i)[k]
  {
    forall j, k | 0 <= j < k < i
      ensures Levels(v, i)[j] < Levels(v, i)[k]
    {
      LevelStrictlyIncreasing(v, i, j, k);
    }
  }

  // ---------------------------------------------------------------------
  // The step probability
  // ---------------------------------------------------------------------

  /**
    p weights the down child and 1 - p the up child, and under these
    weights the expected rate one period on equals today's rate: p is the
    risk-neutral probability of a down-move.
   */
  lemma RiskNeutral(v: Valuation, i: nat, k: nat)
    requires v.Valid()
    requires k < i
    ensures Prob(v.u) * Level(v, i + 1, k) + (1.0 - Prob(v.u)) * Level(v, i + 1, k + 1) == Level(v, i, k)
  {
    LevelChildren(v, i, k);
    WeightedChildren(v.u, Prob(v.u), Level(v, i, k), Level(v, i + 1, k), Level(v, i + 1, k + 1));
  }

  /** The children x / u and x * u of x, weighted u / (1 + u) and 1 / (1 + u), average to x. */
  lemma WeightedChildren(u: real, p: real, x: real, down: real, up: real)
    requires u > 0.0
    requires p == u / (1.0 + u)
    requires down * u == x && up == x * u
    ensures p * down + (1.0 - p) * up == x
  {
    assert down == x / u;
    assert p * down == x / (1.0 + u);
    assert (1.0 - p) * up == x * u / (1.0 + u);
    assert x / (1.0 + u) + x * u / (1.0 + u) == x;
  }

  // ---------------------------------------------------------------------
  // The single-period case
  // ---------------------------------------------------------------------

  /** With a one-month term the loop never runs: the value is the floored exercise payoff at rate low * d, floored again at 0. */
  lemma SinglePeriod(v: Valuation)
    requires v.Valid()
    requires v.months == 1
    ensures Price(v) == [Max(Max((v.low / v.u - v.price) * v.kwhmo, -v.cancelFee), 0.0)]
  {
    assert Level(v, 1, 0) == v.low / v.u;
    TerminalNode(v, 0);
    assert Terminal(v) == [Max((v.low / v.u - v.price) * v.kwhmo, -v.cancelFee)];
  }

  // ---------------------------------------------------------------------
  // Monotonicity
  // ---------------------------------------------------------------------

  /** a is below b element by element. */
  predicate LeAll(a: seq<real>, b: seq<real>) {
    |a| == |b| && forall k :: 0 <= k < |a| ==> a[k] <= b[k]
  }

  /**
    a offers the holder nothing better than b: the same lattice and term, a
    fee at least as high, and an exercise payoff no higher at any node.
   */
  ghost predicate NoBetter(a: Valuation, b: Valuation) {
    && a.Valid()
    && b.Valid()
    && a.u == b.u
    && a.months == b.months
    && a.cancelFee >= b.cancelFee
    && forall i: nat, k: nat :: k < i ==> Payoff(a, i, k) <= Payoff(b, i, k)
  }

  lemma ContinuationMonotone(p: real, a1: real, b1: real, a2: real, b2: real)
    requires 0.0 <= p <= 1.0
    requires a1 <= a2 && b1 <= b2
    ensures Continuation(p, a1, b1) <= Continuation(p, a2, b2)
  {
    MulNonNegative(p, a2 - a1);
    MulNonNegative(1.0 - p, b2 - b1);
  }

  lemma TerminalMonotone(a: Valuation, b: Valuation)
    requires NoBetter(a, b)
    ensures LeAll(Terminal(a), Terminal(b))
  {
    var n := TermLevels(a);
    forall k | 0 <= k < n
      ensures Terminal(a)[k] <= Terminal(b)[k]
    {
      TerminalNode(a, k);
      TerminalNode(b, k);
      assert Payoff(a, n, k) <= Payoff(b, n, k);
    }
  }

  lemma StepMonotone(a: Valuation, b: Valuation, ov1: seq<real>, ov2: seq<real>, i: nat)
    requires NoBetter(a, b)
    requires i >= 1 && |ov1| == i + 1
    requires LeAll(ov1, ov2)
    ensures LeAll(StepAt(a, ov1, i), StepAt(b, ov2, i))
  {
    var p := Prob(a.u);
    forall k | 0 <= k < i
      ensures StepAt(a, ov1, i)[k] <= StepAt(b, ov2, i)[k]
    {
      ContinuationMonotone(p, ov1[k], ov1[k + 1], ov2[k], ov2[k + 1]);
      StepAtNode(a, ov1, i, k);
      StepAtNode(b, ov2, i, k);
      assert Payoff(a, i, k) <= Payoff(b, i, k);
    }
  }

  lemma {:induction false} BackwardMonotone(a: Valuation, b: Valuation, ov1: seq<real>, ov2: seq<real>)
    requires NoBetter(a, b)
    requires LeAll(ov1, ov2)
    ensures LeAll(Backward(a, ov1), Backward(b, ov2))
    decreases |ov1|
  {
    if |ov1| > 1 {
      var i := |ov1| - 1;
      StepMonotone(a, b, ov1, ov2, i);
      BackwardMonotone(a, b, StepAt(a, ov1, i), StepAt(b, ov2, i));
    }
  }

  /** An option that is nothing better at any node is worth no more. */
  lemma PriceMonotone(a: Valuation, b: Valuation)
    requires NoBetter(a, b)
    ensures LeAll(Price(a), Price(b))
  {
    TerminalMonotone(a, b);
    BackwardMonotone(a, b, Terminal(a), Terminal(b));
  }

  /** Raising the cancellation fee never raises the option value. */
  lemma CancelFeeMonotone(v: Valuation, lo: real, hi: real)
    requires v.Valid()
    requires lo <= hi
    ensures LeAll(Price(v.(cancelFee := hi)), Price(v.(cancelFee := lo)))
  {
    var a, b := v.(cancelFee := hi), v.(cancelFee := lo);
    forall i: nat, k: nat | k < i
      ensures Payoff(a, i, k) <= Payoff(b, i, k)
    {
    }
    PriceMonotone(a, b);
  }

  /** With non-negative volume, raising the contract's fixed rate never raises the option value. */
  lemma ContractRateMonotone(v: Valuation, lo: real, hi: real)
    requires v.Valid()
    requires v.kwhmo >= 0.0
    requires lo <= hi
    ensures LeAll(Price(v.(price := hi)), Price(v.(price := lo)))
  {
    var a, b := v.(price := hi), v.(price := lo);
    forall i: nat, k: nat | k < i
      ensures Payoff(a, i, k) <= Payoff(b, i, k)
    {
      assert Level(a, i, k) == Level(b, i, k);
      MulNonNegative(hi - lo, v.kwhmo);
    }
    PriceMonotone(a, b);
  }

  /** With non-negative volume, raising the reference rate never lowers the option value. */
  lemma ReferenceRateMonotone(v: Valuation, lo: real, hi: real)
    requires v.Valid()
    requires v.kwhmo >= 0.0
    requires lo <= hi
    ensures LeAll(Price(v.(low := lo)), Price(v.(low := hi)))
  {
    var a, b := v.(low := lo), v.(low := hi);
    forall i: nat, k: nat | k < i
      ensures Payoff(a, i, k) <= Payoff(b, i, k)
    {
      var f := Pow(v.u, k) * Pow(1.0 / v.u, i - k);
      PowPositive(v.u, k);
      PowPositive(1.0 / v.u, i - k);
      MulPositive(Pow(v.u, k), Pow(1.0 / v.u, i - k));
      MulNonNegative(f, hi - lo);
      assert Level(b, i, k) - Level(a, i, k) == f * (hi - lo);
      MulNonNegative(Level(b, i, k) - Level(a, i, k), v.kwhmo);
    }
    PriceMonotone(a, b);
  }

  // ---------------------------------------------------------------------
  // Scaling
  // ---------------------------------------------------------------------

  /**
    One element of a scaled vector: c times x. Scaling facts are stated
    through this function so that a scaled element is one term, matched by
    name rather than rediscovered as a product.
   */
  function Times(c: real, x: real): real {
    c * x
  }

  /** Every element multiplied by c. */
  function Scale(s: seq<real>, c: real): (r: seq<real>)
    ensures |r| == |s|
  {
    seq(|s|, k requires 0 <= k < |s| => Times(c, s[k]))
  }

  /** The valuation with volume and fee both multiplied by c. */
  function Scaled(v: Valuation, c: real): Valuation {
    v.(kwhmo := c * v.kwhmo, cancelFee := c * v.cancelFee)
  }

  lemma MaxScale(c: real, x: real, y: real)
    requires c > 0.0
    ensures Max(c * x, c * y) == c * Max(x, y)
  {
    if x >= y {
      MulNonNegative(c, x - y);
    } else {
      MulNonNegative(c, y - x);
    }
  }

  lemma FloorAtScale(c: real, x: real, fee: real)
    requires c > 0.0
    ensures FloorAt(c * x, c * fee) == c * FloorAt(x, fee)
  {
    assert -(c * fee) == c * -fee;
    MaxScale(c, x, -fee);
  }

  /** The weighted average of scaled children is the scaled weighted average. */
  lemma ContinuationScale(p: real, c: real, a: real, b: real)
    requires 0.0 <= p <= 1.0
    ensures Continuation(p, Times(c, a), Times(c, b)) == Times(c, Continuation(p, a, b))
  {
    assert p * (c * a) + (1.0 - p) * (c * b) == c * (p * a + (1.0 - p) * b);
  }

  /** The floored sum of two scaled values is the scaled floored sum. */
  lemma FloorSumScale(c: real, x: real, y: real, cx: real, cy: real, fee: real, cfee: real)
    requires c > 0.0
    requires cx == c * x && cy == c * y && cfee == c * fee
    ensures FloorAt(cx + cy, cfee) == c * FloorAt(x + y, fee)
  {
    assert cx + cy == c * (x + y);
    FloorAtScale(c, x + y, fee);
  }

  lemma PayoffScale(v: Valuation, c: real, i: nat, k: nat)
    requires v.u > 0.0
    requires k < i
    ensures Payoff(Scaled(v, c), i, k) == Times(c, Payoff(v, i, k))
  {
    var x := Level(v, i, k);
    assert Level(Scaled(v, c), i, k) == x;
    assert (x - v.price) * (c * v.kwhmo) == c * ((x - v.price) * v.kwhmo);
  }

  lemma TerminalNodeScale(v: Valuation, c: real, k: nat)
    requires v.u > 0.0
    requires c > 0.0
    requires k < TermLevels(v)
    ensures Terminal(Scaled(v, c))[k] == c * Terminal(v)[k]
  {
    var n := TermLevels(v);
    TerminalNode(v, k);
    TerminalNode(Scaled(v, c), k);
    PayoffScale(v, c, n, k);
    FloorAtScale(c, Payoff(v, n, k), v.cancelFee);
  }

  lemma TerminalScale(v: Valuation, c: real)
    requires v.u > 0.0
    requires c > 0.0
    ensures Terminal(Scaled(v, c)) == Scale(Terminal(v), c)
  {
    forall k | 0 <= k < TermLevels(v)
      ensures Terminal(Scaled(v, c))[k] == Scale(Terminal(v), c)[k]
    {
      TerminalNodeScale(v, c, k);
    }
  }

  /** Scaling the volume and fee leaves the rate levels alone. */
  lemma LevelScaled(v: Valuation, c: real, i: nat, k: nat)
    requires v.u > 0.0
    requires k < i
    ensures Level(Scaled(v, c), i, k) == Level(v, i, k)
  {
  }

  /** Node k of a backward step of the scaled valuation over scaled children. */
  lemma ScaledStepAtNode(v: Valuation, c: real, ov: seq<real>, i: nat, k: nat)
    requires v.Valid()
    requires i >= 1 && |ov| == i + 1
    requires k < i
    ensures StepAt(Scaled(v, c), Scale(ov, c), i)[k]
         == NodeValue(Scaled(v, c), Continuation(Prob(v.u), Times(c, ov[k]), Times(c, ov[k + 1])), Level(v, i, k))
  {
    var w, sov := Scaled(v, c), Scale(ov, c);
    assert w.u == v.u;
    assert sov[k] == Times(c, ov[k]) && sov[k + 1] == Times(c, ov[k + 1]);
    StepAtNode(w, sov, i, k);
    LevelScaled(v, c, i, k);
  }

  /** A node value with scaled volume, fee and continuation is the scaled node value. */
  lemma NodeValueScale(v: Valuation, c: real, cont: real, rate: real)
    requires c > 0.0
    ensures NodeValue(Scaled(v, c), Times(c, cont), rate) == Times(c, NodeValue(v, cont, rate))
  {
    var g := Gain(v, rate);
    assert Gain(Scaled(v, c), rate) == c * g;
    FloorSumScale(c, cont, g, c * cont, c * g, v.cancelFee, c * v.cancelFee);
  }

  lemma StepNodeScale(v: Valuation, c: real, ov: seq<real>, i: nat, k: nat)
    requires v.Valid()
    requires c > 0.0
    requires i >= 1 && |ov| == i + 1
    requires k < i
    ensures StepAt(Scaled(v, c), Scale(ov, c), i)[k] == Times(c, StepAt(v, ov, i)[k])
  {
    var p, sov := Prob(v.u), Scale(ov, c);
    var cont := Continuation(p, ov[k], ov[k + 1]);
    calc {
      StepAt(Scaled(v, c), sov, i)[k];
    == { ScaledStepAtNode(v, c, ov, i, k); }
      NodeValue(Scaled(v, c), Continuation(p, Times(c, ov[k]), Times(c, ov[k + 1])), Level(v, i, k));
    == { ContinuationScale(p, c, ov[k], ov[k + 1]); }
      NodeValue(Scaled(v, c), Times(c, cont), Level(v, i, k));
    == { NodeValueScale(v, c, cont, Level(v, i, k)); }
      Times(c, NodeValue(v, cont, Level(v, i, k)));
    == { StepAtNode(v, ov, i, k); }
      Times(c, StepAt(v, ov, i)[k]);
    }
  }

  lemma StepScale(v: Valuation, c: real, ov: seq<real>, i: nat)
    requires v.Valid()
    requires c > 0.0
    requires i >= 1 && |ov| == i + 1
    ensures StepAt(Scaled(v, c), Scale(ov, c), i) == Scale(StepAt(v, ov, i), c)
  {
    forall k | 0 <= k < i
      ensures StepAt(Scaled(v, c), Scale(ov, c), i)[k] == Scale(StepAt(v, ov, i), c)[k]
    {
      StepNodeScale(v, c, ov, i, k);
    }
  }

  lemma {:induction false} BackwardScale(v: Valuation, c: real, ov: seq<real>)
    requires v.Valid()
    requires c > 0.0
    ensures Backward(Scaled(v, c), Scale(ov, c)) == Scale(Backward(v, ov), c)
    decreases |ov|
  {
    if |ov| > 1 {
      var i := |ov| - 1;
      StepScale(v, c, ov, i);
      BackwardScale(v, c, StepAt(v, ov, i));
    }
  }

  /** Scaling volume and fee together by c > 0 scales the option value by c. */
  lemma PriceScale(v: Valuation, c: real)
    requires v.Valid()
    requires c > 0.0
    ensures Price(Scaled(v, c)) == Scale(Price(v), c)
  {
    TerminalScale(v, c);
    BackwardScale(v, c, Terminal(v));
    var r := Backward(v, Terminal(v));
    if |r| == 1 {
      MaxScale(c, r[0], 0.0);
    }
  }

  /** With free cancellation, scaling the volume alone by c > 0 scales the option value by c. */
  lemma VolumeScaleFreeCancel(v: Valuation, c: real)
    requires v.Valid()
    requires v.cancelFee == 0.0
    requires c > 0.0
    ensures Price(v.(kwhmo := c * v.kwhmo)) == Scale(Price(v), c)
  {
    assert v.(kwhmo := c * v.kwhmo) == Scaled(v, c);
    PriceScale(v, c);
  }
}
