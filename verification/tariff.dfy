/**
  The plain arithmetic the plan picker applies to each plan before ranking:
  splitting a two-tier average price into a per-kWh charge and a fixed
  monthly charge, and turning a parsed cancellation-fee text into a dollar
  amount.
 */
module Tariff {

  /** A plan's price as a per-kWh charge plus a fixed monthly charge. */
  datatype Split = Split(metered: real, fixedCharge: real)

  /** The monthly bill of a split tariff at a usage of kwh. */
  function Bill(t: Split, kwh: real): real {
    t.metered * kwh + t.fixedCharge
  }

  /**
    The split recovered from the average prices at 1000 and 2000 kWh: the
    metered charge is the slope between the two monthly totals, the fixed
    charge what is left of the 2000 kWh total.
   */
  function SplitTariff(price1000: real, price2000: real): (t: Split)
    ensures Bill(t, 1000.0) == price1000 * 1000.0
    ensures Bill(t, 2000.0) == price2000 * 2000.0
  {
    var metered := (price2000 * 2000.0 - price1000 * 1000.0) / 1000.0;
    Split(metered, price2000 * 2000.0 - metered * 2000.0)
  }

  /** Any split that reproduces both tier totals is the one SplitTariff computes. */
  lemma SplitUnique(price1000: real, price2000: real, t: Split)
    requires Bill(t, 1000.0) == price1000 * 1000.0
    requires Bill(t, 2000.0) == price2000 * 2000.0
    ensures t == SplitTariff(price1000, price2000)
  {
    var s := SplitTariff(price1000, price2000);
    assert (t.metered - s.metered) * 1000.0 == 0.0;
  }

  /** Equal average prices at both tiers mean no fixed charge: the split is all metered. */
  lemma FlatPriceNoFixedCharge(price: real)
    ensures SplitTariff(price, price) == Split(price, 0.0)
  {
    SplitUnique(price, price, Split(price, 0.0));
  }

  /** A boolean column used in arithmetic: true is 1, false is 0. */
  function Indicator(b: bool): real {
    if b then 1.0 else 0.0
  }

  /**
    The cancellation fee in dollars, computed the way the picker computes
    it: the per-month flag times numbers times the months left after a year,
    plus numbers times the negated flag. A per-month fee is thus charged for
    every month of the term after the twelfth; any other fee is numbers.
   */
  function CancellationFee(numbers: real, perMonth: bool, termValue: int): (fee: real)
    ensures perMonth ==> fee == numbers * (termValue - 12) as real
    ensures !perMonth ==> fee == numbers
  {
    Indicator(perMonth) * numbers * (termValue - 12) as real + numbers * Indicator(!perMonth)
  }

  /** For the plans the picker keeps, whose term is at least twelve months, a non-negative amount gives a non-negative fee. */
  lemma FeeNonNegative(numbers: real, perMonth: bool, termValue: int)
    requires numbers >= 0.0
    requires termValue >= 12
    ensures CancellationFee(numbers, perMonth, termValue) >= 0.0
  {
    if perMonth {
      assert numbers * (termValue - 12) as real >= 0.0;
    }
  }

  /** A per-month fee grows with the term when the monthly amount is non-negative; a flat fee ignores the term. */
  lemma FeeMonotoneInTerm(numbers: real, perMonth: bool, shorter: int, longer: int)
    requires numbers >= 0.0
    requires shorter <= longer
    ensures CancellationFee(numbers, perMonth, shorter) <= CancellationFee(numbers, perMonth, longer)
    ensures !perMonth ==> CancellationFee(numbers, perMonth, shorter) == CancellationFee(numbers, perMonth, longer)
  {
    if perMonth {
      assert numbers * (longer - 12) as real - numbers * (shorter - 12) as real == numbers * (longer - shorter) as real;
      assert numbers * (longer - shorter) as real >= 0.0;
    }
  }
}
