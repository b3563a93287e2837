# Termination-fee option pricer, modelled in Dafny

The plan picker ranks retail electricity plans. Before ranking, it prices the
option to leave a fixed-rate contract with `binomial_lattice_option`
(logic.py). The pricer runs backward induction over a recombining binomial
lattice of floating rates:

- The market's cheapest rate `low` moves up by a factor `u = exp(vol/√12)` or
  down by `d = 1/u` each month.
- At every node, the pricer takes the weighted average of the two child
  values, adds that month's gain `(rate − price)·kwhmo` and floors the sum at
  `−cancel_fee`.
- The value at the root is floored at zero.

The picker also splits each plan's two-tier average price into a per-kWh
charge and a fixed charge. It also turns a parsed cancellation-fee text into
a dollar amount.

The model uses exact reals. The up-factor `u` is a parameter standing in for
`exp(vol/√12)`. `Valuation.Valid` asks for `u > 0` and `u ≠ 1`; `u = 1` is
the `vol = 0` case, where `p` is `0/0`. The contract term `months` is an
integer, as in the code. A term of zero or less gives an empty level vector,
and so an empty result, which is what `np.arange` of a non-positive count
gives.

Files:

- `power.dfy` (`RealPow`): natural powers of reals.
- `lattice.dfy` (`Lattice`): the pricer. It builds the rate levels, the
  terminal values and one backward step per month. It runs the backward
  induction both as a recursive function (`Price`) and as a loop (`PriceLoop`).
- `lattice_props.dfy` (`LatticeProps`): properties of the pricer:
  - the shape of the lattice and the step probability;
  - the one-month closed form;
  - monotonicity in the fee and in the rates;
  - scaling in volume and fee.
- `tariff.dfy` (`Tariff`): the tariff split and the cancellation-fee
  conversion.

Points of the code that the model keeps as written:

- **Rate levels.** Level `k` of a period with `i` levels is
  `low·u^k·d^(i−k)`, for `k = 0..i−1` (logic.py:45, 49). Times `u^i` this is
  `low·u^(2k)` (`LatticeProps.LevelClosedForm`).
- **Which child `p` weights.** The width-2 window multiplies `p` into the
  lower child `ov[k]` and `1−p` into the upper child `ov[k+1]`
  (logic.py:42, 50). Since `p = (1−u)/(d−u) = u/(1+u)`, `p` is the
  risk-neutral probability of a down-move (`LatticeProps.RiskNeutral`).
- **One-month term.** The loop never runs, and the single level is `low·d`
  (`LatticeProps.SinglePeriod`).
- **Direction of the contract-rate effect.** The payoff is
  `(rate − price)·kwhmo`, so with `kwhmo ≥ 0` a higher contract rate never
  raises the value (`LatticeProps.ContractRateMonotone`).
- **Non-positive term and negative volatility.** The code has no guard for
  either. A term of zero or less yields an empty vector. `vol < 0` gives
  `u < 1`, which the model admits.

## Model

| member | source | states |
|---|---|---|
| `Lattice.Level` | logic.py:45 | The rate at level `k` of a period with `i` levels, `low·u^k·d^(i−k)`, is positive whenever the reference rate is. |
| `Lattice.Levels` | logic.py:45-49 | The rate vector of a period with `i` levels has exactly `i` entries, all positive when the reference rate is positive. |
| `Lattice.FloorAt` | logic.py:46-50 | The floor at `−cancel_fee` is at least both the exercise value and `−cancel_fee`, and is one of the two. |
| `Lattice.Prob` | logic.py:39-41 | The step probability `(1−u)/(d−u)` with `d = 1/u` equals `u/(1+u)` and lies strictly between 0 and 1 for every admissible `u`. |
| `Lattice.Continuation` | logic.py:50 | The `p`/`1−p` weighted average of two child values lies between the smaller and the larger child. |
| `Lattice.Windows` | logic.py:50 | The width-2 window over `n` values yields `n−1` entries, each between its two children. |
| `Lattice.NodeValue` | logic.py:50 | A node's value is never below `−cancel_fee`. |
| `Lattice.Terminal` | logic.py:44-46 | The terminal vector has one entry per month (none for a non-positive term), and every entry is at least `−cancel_fee`. |
| `Lattice.StepAt` | logic.py:49-50 | A backward step into a period with `i` levels turns `i+1` child values into exactly `i` node values, each at least `−cancel_fee`. |
| `Lattice.Backward` | logic.py:48-50 | Backward induction ends in a single value (nothing from nothing), and keeps the `−cancel_fee` floor. |
| `Lattice.FloorZero` | logic.py:52 | The final floor keeps the length and leaves nothing negative. |
| `Lattice.Price` | logic.py:38-52 | The result has one entry for a term of at least one month and none otherwise; it is never negative; and it is the root value of the induction floored at 0. |
| `Lattice.PriceLoop` | logic.py:44-52 | The month-by-month loop from `months−1` down to 1 computes the same vector as the recursive definition. |
| `LatticeProps.LevelBase` | logic.py:45 | The lowest level of a period with `i` levels is `low·d^i`: times `u^i` it gives back `low`. |
| `LatticeProps.LevelUp` | logic.py:45 | Neighbouring levels of a period differ by the factor `u²`. |
| `LatticeProps.LevelClosedForm` | logic.py:45 | Level `k` of a period with `i` levels times `u^i` is `low·u^(2k)`, that is, level `k` is `low·u^(2k−i)`. |
| `LatticeProps.LevelChildren` | logic.py:45-49 | The lattice recombines: the children of level `k` in a period are levels `k` (one down-move, `rate/u`) and `k+1` (one up-move, `rate·u`) of the next period. |
| `LatticeProps.LevelStrictlyIncreasing` | logic.py:45 | With `u > 1` and a positive reference rate, a higher level index has a strictly higher rate. |
| `LatticeProps.LevelsIncreasing` | logic.py:45 | With `u > 1` and `low > 0` each period's rate vector is positive and strictly increasing. |
| `LatticeProps.RiskNeutral` | logic.py:41-50 | Weighting a node's down child by `p` and its up child by `1−p` gives back the node's own rate: `p` is the risk-neutral down-move probability. |
| `LatticeProps.SinglePeriod` | logic.py:44-52 | For a one-month term the result is `[max(max((low·d − price)·kwhmo, −cancel_fee), 0)]`. |
| `LatticeProps.ContinuationMonotone` | logic.py:50 | The weighted average is monotone in both children. |
| `LatticeProps.TerminalMonotone` | logic.py:46 | A valuation with a fee no lower and a payoff no higher at every node has terminal values no higher, node by node. |
| `LatticeProps.StepMonotone` | logic.py:50 | Under the same comparison, a backward step preserves node-by-node order of the child vectors. |
| `LatticeProps.BackwardMonotone` | logic.py:48-50 | Under the same comparison, backward induction preserves the order. |
| `LatticeProps.PriceMonotone` | logic.py:38-52 | An option that is nothing better at any node is worth no more. |
| `LatticeProps.CancelFeeMonotone` | logic.py:46-52 | Raising the cancellation fee never raises the option value. |
| `LatticeProps.ContractRateMonotone` | logic.py:46-52 | With non-negative volume, raising the contract rate never raises the option value. |
| `LatticeProps.ReferenceRateMonotone` | logic.py:45-52 | With non-negative volume, raising the reference rate never lowers the option value. |
| `LatticeProps.TerminalScale` | logic.py:46 | Scaling volume and fee by `c > 0` scales every terminal node value by `c`. |
| `LatticeProps.StepScale` | logic.py:50 | Scaling volume, fee and the child values by `c > 0` scales every node value of a backward step by `c`. |
| `LatticeProps.BackwardScale` | logic.py:48-50 | The same scaling commutes with the whole backward induction. |
| `LatticeProps.PriceScale` | logic.py:44-52 | Scaling volume and fee together by `c > 0` scales the result by `c`. |
| `LatticeProps.VolumeScaleFreeCancel` | logic.py:44-52 | With a zero cancellation fee, scaling the volume alone by `c > 0` scales the result by `c`. |
| `Tariff.SplitTariff` | logic.py:94-96 | The metered and fixed charges reproduce both tier totals exactly: `metered·1000 + fixed = price_kwh1000·1000` and `metered·2000 + fixed = price_kwh2000·2000`. |
| `Tariff.SplitUnique` | logic.py:94-96 | Any per-kWh plus fixed split that reproduces both tier totals is the computed one. |
| `Tariff.FlatPriceNoFixedCharge` | logic.py:94-96 | Equal average prices at both tiers give a zero fixed charge and that price as the metered charge. |
| `Tariff.CancellationFee` | logic.py:115 | The flag arithmetic yields `numbers·(term−12)` for a per-month fee and `numbers` for any other fee. |
| `Tariff.FeeNonNegative` | logic.py:115 | For the plans the picker keeps (term at least 12 months), a non-negative parsed amount gives a non-negative fee. |
| `Tariff.FeeMonotoneInTerm` | logic.py:115 | With a non-negative parsed amount, a per-month fee grows with the term, and a flat fee does not depend on it. |

## Left out

- HTTP and JSON: the request to the plan API and decoding its reply (logic.py:58-61) are network I/O.
- DataFrame plumbing: reading the form, filtering, `apply`, sorting and picking the top row (logic.py:59, 65-92, 112, 120, 127-134, 142-143) are framework glue around the arithmetic modelled here.
- Regex parsing in `parse_cancellation_fee` (logic.py:101-110): it depends on Python's regex and `float` parsing. The model starts from its two outputs, the parsed amount and the per-month flag.
- The per-month flag is modelled as a boolean. This is the column type the `apply` produces, so `~` is logical negation and the flag counts as 1 or 0 in arithmetic.
- The constant tables (logic.py:7-34) are never read by the logic.
- Floating point: `np.exp`, `12**.5`, IEEE-754 rounding and the NaN at `vol = 0`. Reals are exact, `u` is a parameter, and `Valuation.Valid` excludes `u = 1`.
- Pricer inputs: the usage estimate (logic.py:79) becomes the pricer's `kwhmo` as `estimated_annual_usage / 12` (logic.py:130). The 12-month cost and the average rate (logic.py:116-117) give the pricer's `price` (logic.py:128). Their minimum `cheapest` (logic.py:124) gives its `low` (logic.py:129). The model takes `price`, `low` and `kwhmo` as given and leaves out this input plumbing.
- The cents-per-kWh normalisation of the result (logic.py:137) is output formatting.
- The `check` column (logic.py:98) and the `tte` column (logic.py:123) are computed but never read.
- Tariff.SplitTariff: exact only over the reals; the source's floating-point rounding of the split is not modelled.
