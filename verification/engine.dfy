/** The fee calculator: choose a bracket for the amount the seller wants,
    solve that bracket for the TradeMe list price and success fee, layer the
    PayNow surcharge on the final list price, and quote the PayPal price
    beside it. `Calculate` is the calculator as written; `CalculateCorrected`
    is the same pipeline with the three discrepancies fixed, and is an exact
    inverse of the fee schedule. */
module Engine {
  import opened FeeSchedule
  import opened Brackets
  import opened Classification
  import opened Surcharges

  /** Everything the calculator reports for one wanted amount. */
  datatype Quote = Quote(
    feeCharged: string,
    trademeListPrice: real,
    successFee: real,
    paynowListPrice: real,
    paynowSuccessFee: real,
    totalSuccessFees: real,
    webListPrice: real)

  /** What the base-fee routine sets: the outcome and the PayNow list price
      (it leaves the PayNow fee unset). */
  datatype BaseQuote = BaseQuote(outcome: Outcome, paynowListPrice: real)

  /** The solver the calculator runs for each bracket. */
  function Solve(b: Bracket, wanted: real): Outcome
  {
    match b
    case Low => LowFee(wanted)
    case Mid => MidFee(wanted)
    case High => HighFee(wanted)
  }

  /** The solvers with the high bracket's fee measured from $1500. */
  function SolveCorrected(b: Bracket, wanted: real): Outcome
  {
    match b
    case Low => LowFee(wanted)
    case Mid => MidFee(wanted)
    case High => HighFeeCorrected(wanted)
  }

  /** The report built from the chosen bracket, its solved outcome and the
      PayPal price: PayNow is layered on the final (clamped) list price, and
      the total adds the PayNow fee to the success fee. */
  function Assemble(b: Bracket, o: Outcome, webPrice: real): (q: Quote)
    ensures q.feeCharged == Label(b)
    ensures q.trademeListPrice == o.listPrice && q.successFee == o.successFee
    ensures q.paynowListPrice * (1.0 - PayNowRate) == q.trademeListPrice
    ensures q.paynowSuccessFee == q.paynowListPrice * PayNowRate
    ensures q.totalSuccessFees == q.paynowListPrice - o.Proceeds()
    ensures q.webListPrice == webPrice
  {
    var p := PayNow(o.listPrice);
    Quote(Label(b), o.listPrice, o.successFee, p.listPrice, p.fee, o.successFee + p.fee, webPrice)
  }

  /** The calculator as written. */
  function Calculate(wanted: real): (q: Quote)
    ensures q.feeCharged == "Low Fee" <==> wanted < 184.2
    ensures q.feeCharged == "Medium fee" <==> 184.2 <= wanted < 1426.5
    ensures q.feeCharged == "High fee" <==> 1426.5 <= wanted
    ensures wanted < 1426.5 ==> q.trademeListPrice - q.successFee == wanted
    ensures 1426.5 <= wanted ==> q.trademeListPrice - q.successFee == wanted - 26.9895
    ensures wanted < 184.2 ==> q.successFee >= MinFee
    ensures 184.2 <= wanted < 1426.5 ==> q.trademeListPrice >= LowRange && q.successFee >= MidBaseCharge
    ensures 1426.5 <= wanted ==> q.successFee <= MaxFee
    ensures q.paynowListPrice * (1.0 - PayNowRate) == q.trademeListPrice
    ensures q.paynowSuccessFee == q.paynowListPrice - q.trademeListPrice
    ensures q.totalSuccessFees == q.successFee + q.paynowSuccessFee
    ensures (q.webListPrice - WebBaseFee) * (1.0 - WebRate) == wanted
  {
    var b := Classify(wanted);
    Assemble(b, Solve(b, wanted), WebPrice(wanted))
  }

  /** The calculator with the schedule's net thresholds, the high fee measured
      from $1500 and the PayPal price grossed up with its 45c: every amount
      the seller is told they keep is exactly what they wanted. */
  function CalculateCorrected(wanted: real): (q: Quote)
    ensures q.feeCharged == "Low Fee" <==> wanted < 184.2
    ensures q.feeCharged == "Medium fee" <==> 184.2 <= wanted < 1420.5
    ensures q.feeCharged == "High fee" <==> 1420.5 <= wanted
    ensures q.trademeListPrice - q.successFee == wanted
    ensures MinFee <= q.successFee <= MaxFee
    ensures q.paynowListPrice * (1.0 - PayNowRate) == q.trademeListPrice
    ensures q.totalSuccessFees == q.paynowListPrice - wanted
    ensures q.webListPrice - PayPalFee(q.webListPrice) == wanted
  {
    var b := ClassifyCorrected(wanted);
    Assemble(b, SolveCorrected(b, wanted), WebPriceCorrected(wanted))
  }

  /** The unused base-fee routine: the minimum fee on top of the wanted
      amount, with the PayNow price layered on it. Its result is the low
      bracket's floor path. */
  function BaseFee(wanted: real): (r: BaseQuote)
    ensures r.outcome.Proceeds() == wanted && r.outcome.successFee == MinFee
    ensures r.paynowListPrice * (1.0 - PayNowRate) == r.outcome.listPrice
  {
    var o := Outcome(wanted + MinFee, MinFee);
    BaseQuote(o, PayNow(o.listPrice).listPrice)
  }

  /** Whenever the low bracket's percentage fee is at most 50c, the low
      solver gives exactly the base-fee outcome. */
  lemma BaseFeeIsLowFloor(wanted: real)
    requires wanted * LowRate <= MinFee * (1.0 - LowRate)
    ensures LowFee(wanted) == BaseFee(wanted).outcome
  {
  }

  /** The corrected calculator inverts the schedule: TradeMe charges exactly
      the quoted fee at the quoted price, so the seller nets the wanted amount. */
  lemma CorrectedInvertsSchedule(wanted: real)
    ensures SuccessFee(CalculateCorrected(wanted).trademeListPrice) == CalculateCorrected(wanted).successFee
    ensures Net(CalculateCorrected(wanted).trademeListPrice) == wanted
  {
    if wanted < 184.2 {
      LowInvertsSchedule(wanted);
    } else if wanted < 1420.5 {
      MidInvertsSchedule(wanted);
    } else {
      HighInvertsSchedule(wanted);
    }
  }

  /** The other direction: the corrected calculator, asked for what a sale at
      `price` nets, quotes `price` back. */
  lemma CorrectedRecoversPrice(price: real)
    ensures CalculateCorrected(Net(price)).trademeListPrice == price
  {
    var p := CalculateCorrected(Net(price)).trademeListPrice;
    CorrectedInvertsSchedule(Net(price));
    if p < price {
      NetStrictlyIncreasing(p, price);
    } else if price < p {
      NetStrictlyIncreasing(price, p);
    }
  }

  /** The corrected list price strictly increases with the wanted amount,
      across every bracket boundary and clamp. */
  lemma CorrectedMonotone(a: real, b: real)
    requires a < b
    ensures CalculateCorrected(a).trademeListPrice < CalculateCorrected(b).trademeListPrice
  {
    var pa := CalculateCorrected(a).trademeListPrice;
    var pb := CalculateCorrected(b).trademeListPrice;
    CorrectedInvertsSchedule(a);
    CorrectedInvertsSchedule(b);
    if pb <= pa {
      if pb < pa {
        NetStrictlyIncreasing(pb, pa);
      }
    }
  }

  /** Below the net at $1500 the calculator as written and the corrected one
      give the same TradeMe and PayNow figures; only the PayPal price differs. */
  lemma AgreesBelowMidTop(wanted: real)
    requires wanted < 1420.5
    ensures Calculate(wanted) == CalculateCorrected(wanted).(webListPrice := WebPrice(wanted))
  {
  }

  /** As written, the mid formula is still used for amounts between the net
      at $1500 and the 1426.5 threshold, where it prices above $1500 and
      charges more than the schedule; and the list price drops as the amount
      crosses 1426.5. */
  lemma ThresholdOvershoot()
    ensures Calculate(1425.0).feeCharged == "Medium fee"
    ensures Calculate(1425.0).trademeListPrice > MidRange
    ensures Calculate(1425.0).successFee > SuccessFee(Calculate(1425.0).trademeListPrice)
    ensures Calculate(1426.4).trademeListPrice > Calculate(1426.5).trademeListPrice
  {
  }

  /** As written, below the ceiling the high bracket lists at the right price
      (the corrected one) and only the quoted fee is $26.9895 above what the
      schedule charges at that price. */
  lemma HighBelowCeilingOverquotesFee(wanted: real)
    requires 1426.5 <= wanted && HighSolve(wanted, HighBaseCharge).successFee < MaxFee
    ensures Calculate(wanted).trademeListPrice == CalculateCorrected(wanted).trademeListPrice
    ensures Calculate(wanted).successFee == SuccessFee(Calculate(wanted).trademeListPrice) + 26.9895
  {
  }

  /** As written, on the ceiling path the list price is too low: a sale there
      nets the seller up to $26.9895 less than wanted, never more. */
  lemma HighCeilingShortfallBounded(wanted: real)
    requires 1426.5 <= wanted && HighSolve(wanted, HighBaseCharge).successFee >= MaxFee
    ensures wanted - 26.9895 <= Net(Calculate(wanted).trademeListPrice) <= wanted
  {
  }

  /** As written, a large amount hits the $149 ceiling but is listed only
      $149 - $26.9895 above it rather than $149 above it, so a sale there nets
      the seller $26.9895 less than wanted. */
  lemma CeilingShortfall()
    ensures Calculate(100000.0).successFee == MaxFee
    ensures Calculate(100000.0).trademeListPrice == 100122.0105
    ensures CalculateCorrected(100000.0).trademeListPrice == 100149.0
  {
  }

  /** A $100 target falls in the low bracket at a list price of about $108.58
      with a fee of about $8.58; a 1c target is floored to a 50c fee. */
  lemma SmallAmounts()
    ensures Calculate(100.0).feeCharged == "Low Fee"
    ensures 108.57 < Calculate(100.0).trademeListPrice < 108.58
    ensures 8.57 < Calculate(100.0).successFee < 8.58
    ensures Calculate(0.01).successFee == MinFee
    ensures Calculate(0.01).trademeListPrice == 0.51
  {
  }
}
