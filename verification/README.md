# TradeMe listing-price calculator in Dafny

A model of the `CalcFee` fee-inversion engine. The input is the amount a
seller wants to receive from a general-item sale on TradeMe. From it, the
engine works out the price to list the item at, so that TradeMe's tiered
success fee still leaves that amount. It then adds the PayNow surcharge on
top of that list price, and it quotes a separate PayPal merchant price.

All arithmetic is exact `real` arithmetic, so 0.079, 0.951 and 0.0195 are
exact values.

- `fee_schedule.dfy` (module `FeeSchedule`): the constants of `CalcFee.__init__`.
  It also holds the forward schedule `SuccessFee(price)`, which is the fee
  TradeMe charges on a sale at `price`, as the bracket comments describe it.
  `Net(price)` is what the seller keeps from such a sale. Every inversion is
  checked against this forward schedule. `Outcome.Proceeds()` is only the list
  price less the quoted fee; it equals `Net` of the list price exactly when
  the quoted fee is the schedule's fee.
- `brackets.dfy` (module `Brackets`): one solver per bracket.
  - `LowFee`: solve at 7.9%, then apply the 50c floor.
  - `MidFee`: $15.80 plus 4.9% of the price over $200.
  - `HighFee`: the high bracket as written, with the $149 ceiling.
  - `HighFeeCorrected`: the high bracket with its fee line fixed.
  - Both high solvers are `HighFeeWith` with a different point that the
    1.9% excess is measured from.
- `classification.dfy` (module `Classification`): the bracket choice. The
  `if`/`elif` chain is modelled as a first-match scan over an ordered list of
  net thresholds (`BracketIndex`). The scan is run over the calculator's
  thresholds (184.2, 1426.5) in `Classify` and over the schedule's own
  thresholds (184.2, 1420.5) in `ClassifyCorrected`.
- `surcharges.dfy` (module `Surcharges`): the PayNow layer and the PayPal
  merchant price, both as written and corrected. `PayPalFee(price)` is
  3.45% of the payment plus 45c. This is an assumption about how PayPal
  charges, built from the two constants at TradeMe.py:50-51; the program
  never computes that fee itself. The third finding below rests on it.
- `engine.dfy` (module `Engine`): the whole pipeline and the findings.
  - `Calculate` is `calculate_general_fee` exactly as written.
  - `CalculateCorrected` is the same pipeline with the three findings below
    fixed. The model proves it is an exact inverse of the fee schedule in
    both directions, and that its list price strictly increases with the
    wanted amount.

The original program is a class whose methods fill in fields of `self`. Here
the result is one immutable `Quote` record that holds the same fields:
`fee_charged`, `trademe_list_price`, `success_fee`, `paynow_list_price`,
`paynow_success_fee`, `total_success_fees` and `web_list_price`.

## Model

| member | source | states |
|---|---|---|
| FeeSchedule.SuccessFee | TradeMe.py:29-44 | the fee charged on a sale is between the 50c minimum and the $149 maximum; it is at most $15.80 up to $200, at least $15.80 from $200 and at least $79.50 from $1500 |
| FeeSchedule.NetStrictlyIncreasing | TradeMe.py:29-44 | under the schedule, a higher sale price always leaves the seller strictly more |
| FeeSchedule.NetAtBracketTops | TradeMe.py:32-42 | a sale at $200 nets 184.2 and a sale at $1500 nets 1420.5 |
| Brackets.LowSolve | TradeMe.py:81-82 | before the floor, the fee is 7.9% of the list price and list minus fee is exactly the wanted amount |
| Brackets.LowFee | TradeMe.py:75-86 | list minus fee is the wanted amount on both paths; the fee is at least 50c; the floor fires exactly when the percentage fee is at most 50c, and then the result is fee 50c with list = wanted + 50c; otherwise the percentage result stands; the clamp moves the list price by exactly as much as it moves the fee |
| Brackets.LowInvertsSchedule | TradeMe.py:81-86 | below 184.2 the low list price is at most $200 and the schedule charges exactly the fee quoted |
| Brackets.MidFee | TradeMe.py:89-100 | list minus fee is exactly the wanted amount; from 184.2 the list is at least $200 and the fee at least $15.80; up to 1420.5 the list is at most $1500 |
| Brackets.MidInvertsSchedule | TradeMe.py:96-100 | between 184.2 and 1420.5 the mid list price lies in [$200, $1500] and the schedule charges exactly the fee quoted |
| Brackets.LowMidBoundaryAgree | TradeMe.py:81-100 | at 184.2 the low and mid solvers both give list $200 and fee $15.80, so the list price does not jump there |
| Brackets.HighSolve | TradeMe.py:110-114 | the list price solves the schedule's high formula (list minus $79.50 minus 1.9% of the excess over $1500 is the wanted amount); list minus fee is the wanted amount less 1.9% of the gap between $1500 and the point the fee's excess is measured from |
| Brackets.HighFeeWith | TradeMe.py:110-120 | the fee is at most $149; it is exactly $149 if and only if the formula fee is at least $149, and otherwise the formula result stands; the ceiling leaves list minus fee unchanged |
| Brackets.HighFee | TradeMe.py:103-120 | as written, on both paths the list price less the quoted fee is the wanted amount minus 26.9895; the fee is at most $149, and it is $149 exactly when the formula fee reaches $149 |
| Brackets.HighFeeCorrected | TradeMe.py:113-120 | with the excess measured from $1500, list minus fee is exactly the wanted amount on both paths; the fee is at most $149, and it is $149 exactly when the formula fee reaches $149 |
| Brackets.HighInvertsSchedule | TradeMe.py:113-120 | from 1420.5 up, the corrected high list price is at least $1500 and the schedule charges exactly the fee quoted, on the ceiling path too |
| Brackets.HighFeeShortfall | TradeMe.py:114 | for $2000 wanted, the list price less the quoted fee is 1973.0105, but the list price is right: the schedule's fee at it is lower than the quoted fee and leaves exactly $2000 |
| Classification.BracketIndex | TradeMe.py:152-162 | the chosen position is the first threshold above the wanted amount: every earlier threshold is at or below it, and the threshold at the chosen position is above it |
| Classification.ClassifyBy | TradeMe.py:152-162 | with two thresholds: low if and only if below the first; mid if and only if at or above the first and below the second; high if and only if at or above both |
| Classification.Classify | TradeMe.py:152-162 | as written: low if and only if below 184.2; mid if and only if in [184.2, 1426.5); high if and only if at or above 1426.5 |
| Classification.ClassifyCorrected | TradeMe.py:152-156 | with the schedule's net thresholds: low below 184.2, mid in [184.2, 1420.5), high from 1420.5, each as an if and only if |
| Classification.LabelsDistinct | TradeMe.py:152-162 | the three labels 'Low Fee', 'Medium fee' and 'High fee' identify the bracket |
| Surcharges.PayNow | TradeMe.py:131-137 | taking 1.95% of the PayNow price off gives back the TradeMe price; the PayNow fee is 1.95% of the PayNow price; for a non-negative price the fee is non-negative and the PayNow price is at least the TradeMe price |
| Surcharges.WebPrice | TradeMe.py:123-128 | as written: removing 45c and then 3.45% gives back the wanted amount; after PayPal's fee the seller gets 1.5525c less than wanted |
| Surcharges.WebPriceCorrected | TradeMe.py:128 | after PayPal's 3.45% + 45c fee the seller gets exactly the wanted amount; the price is above the written one by 45c x 3.45% / 96.55% |
| Engine.Assemble | TradeMe.py:154-166 | the label is `Label(b)`, the string 'Low Fee', 'Medium fee' or 'High fee' set at lines 154, 158 and 162; PayNow is layered on the final, clamped list price; the total fee is the PayNow price less (list price less quoted fee) |
| Engine.Calculate | TradeMe.py:146-166 | the label is 'Low Fee', 'Medium fee' or 'High fee' exactly on [−∞, 184.2), [184.2, 1426.5) and [1426.5, ∞); the bracket's solver (`Solve`: `LowFee`, `MidFee` or `HighFee`) runs; list price less quoted fee is the wanted amount below 1426.5 and 26.9895 less from there; floor, mid and ceiling bounds hold; PayNow inverts 1.95% on the final list price; the total is success fee plus PayNow fee; the PayPal price depends only on the wanted amount |
| Engine.CalculateCorrected | TradeMe.py:146-166 | with all three findings fixed, the seller keeps exactly the wanted amount on TradeMe, and also via PayPal; the fee lies between 50c and $149; the total fee is the PayNow price minus the wanted amount |
| Engine.BaseFee | TradeMe.py:64-72 | the base-fee routine charges the 50c minimum and leaves the wanted amount; its PayNow price inverts 1.95% |
| Engine.BaseFeeIsLowFloor | TradeMe.py:64-86 | when the low percentage fee is at most 50c, the low solver's result is exactly the base-fee result |
| Engine.CorrectedInvertsSchedule | TradeMe.py:146-166 | for every wanted amount, the schedule's fee at the corrected list price is the quoted fee, so a sale there nets exactly the wanted amount |
| Engine.CorrectedRecoversPrice | TradeMe.py:146-166 | asking the corrected calculator for what a sale at any price nets quotes that same price back |
| Engine.CorrectedMonotone | TradeMe.py:146-166 | the corrected list price strictly increases with the wanted amount, across both thresholds and both clamps |
| Engine.AgreesBelowMidTop | TradeMe.py:152-166 | below 1420.5 the calculator as written and the corrected one agree on every field except the PayPal price |
| Engine.ThresholdOvershoot | TradeMe.py:156-158 | as written, $1425 wanted takes the mid bracket, priced above $1500 and charged more than the schedule; the list price for 1426.4 is higher than for 1426.5 |
| Engine.HighBelowCeilingOverquotesFee | TradeMe.py:111-114 | as written, for every high-bracket amount below the ceiling, the list price equals the corrected one and the quoted fee is exactly 26.9895 above the schedule's fee at that price |
| Engine.HighCeilingShortfallBounded | TradeMe.py:114-120 | as written, for every high-bracket amount on the ceiling path, a sale at the list price nets between the wanted amount less 26.9895 and the wanted amount |
| Engine.CeilingShortfall | TradeMe.py:114-120 | as written, $100000 wanted hits the $149 ceiling but is listed at 100122.0105, so the seller nets 26.9895 less than wanted; the corrected list price is 100149 |
| Engine.SmallAmounts | TradeMe.py:81-86 | $100 wanted is low bracket with list ≈ $108.58 and fee ≈ $8.58; 1c wanted is floored to fee 50c with list 51c |

## Findings

| source | as written | input that shows it | evidently intended | confidence | as-written member | corrected member |
|---|---|---|---|---|---|---|
| TradeMe.py:114 | the high fee is 79.50 + 1.9% of (list − 79.50) | $2000 wanted: list 2090.7238 is right, but the quoted fee 117.7133 is 26.9895 above the schedule's 90.7238, so the reported success fee and total are too high; $100000 wanted: the inflated fee triggers the ceiling path, which lists at 100122.0105 instead of 100149, so the seller nets 26.9895 less than wanted (on the ceiling path the shortfall is between 0 and 26.9895) | 79.50 + 1.9% of (list − 1500), as the bracket comment on line 41 says, which makes list − fee equal the wanted amount | high; not executed | Brackets.HighFee, Brackets.HighFeeShortfall, Engine.HighBelowCeilingOverquotesFee, Engine.HighCeilingShortfallBounded, Engine.CeilingShortfall | Brackets.HighFeeCorrected, Brackets.HighInvertsSchedule |
| TradeMe.py:156 | the mid/high threshold is 1500 × (1 − 4.9%) = 1426.5 | $1425 wanted: mid list 1504.7319, which is above $1500 and is charged the mid formula; the list price for 1426.4 (1506.2040) is above that for 1426.5 (1506.1162) | the net at a $1500 sale, 1500 − 79.50 = 1420.5, so that the mid formula only prices in $200–$1500 (the low threshold 184.2 is already the net at $200) | medium; not executed | Classification.Classify, Engine.ThresholdOvershoot | Classification.ClassifyCorrected, Engine.CorrectedMonotone |
| TradeMe.py:128 | the PayPal price is wanted / (1 − 3.45%) + 0.45 | any amount: if PayPal charges 3.45% of the payment plus 45c (`PayPalFee`), the seller gets 1.5525c less than wanted | (wanted + 0.45) / (1 − 3.45%), the price whose merchant fee leaves the wanted amount | medium; not executed | Surcharges.WebPrice | Surcharges.WebPriceCorrected |

`Calculate` keeps all three behaviours as written. `CalculateCorrected` is
built from the corrected members, and the round-trip and monotonicity
lemmas are stated about it.

## Left out

- Console input, `float(...)` parsing and the two-decimal output lines (TradeMe.py:168-177): these are I/O and presentation.
- IEEE floating point: the model uses exact reals. The Python's results match the proved identities only up to rounding.
- Input validation: the code rejects nothing. A negative amount falls into the low bracket and is floored to a 50c fee, and the model does the same. The program validates nothing, so no error path is modelled.
- Mutable object state: the field defaults set in `__init__` (TradeMe.py:53-60) are not modelled. Every path of `calculate_general_fee` overwrites them before they are read. `Calculate` returns a fresh record instead of updating `self`.
- Engine.BaseFee: it does not report `paynow_success_fee`, because `calc_base_fee` leaves that field untouched. Nothing in the program calls `calc_base_fee`, so it is modelled as a standalone function outside the dispatch.
- Engine.Calculate: it does not promise that list price less quoted fee equals the wanted amount in the high bracket, or that the list price is monotone. The code breaks both (see Findings). Those properties are proved for `CalculateCorrected`.
