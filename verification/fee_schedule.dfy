/** The TradeMe general-item success fee schedule of February 2014, the PayNow
    surcharge and the PayPal merchant fee, as the fixed constants of the fee
    calculator, together with the forward schedule: the fee TradeMe charges on
    a sale at a given price. Every inversion in the model is checked against
    the forward schedule. */
module FeeSchedule {

  /** Minimum success fee (50c). */
  const MinFee: real := 0.50

  /** Low bracket: up to $200, 7.9% of the sale price, 50c minimum. */
  const LowRange: real := 200.0
  const LowRate: real := 0.079

  /** Mid bracket: $200 to $1500, $15.80 plus 4.9% of the price over $200. */
  const MidRange: real := 1500.0
  const MidBaseCharge: real := 15.80
  const MidRate: real := 0.049

  /** High bracket: over $1500, $79.50 plus 1.9% of the price over $1500, at most $149. */
  const HighBaseCharge: real := 79.50
  const HighRate: real := 0.019
  const MaxFee: real := 149.0

  /** PayNow surcharge rate. */
  const PayNowRate: real := 0.0195

  /** PayPal merchant fee: 3.45% plus 45c. */
  const WebBaseFee: real := 0.45
  const WebRate: real := 0.0345

  /** The success fee TradeMe charges when an item sells at `price`. The
      brackets meet without a jump: 7.9% of $200 is the $15.80 mid base
      charge, and the mid formula at $1500 is the $79.50 high base charge. */
  function SuccessFee(price: real): (fee: real)
    ensures MinFee <= fee <= MaxFee
    ensures price <= LowRange ==> fee <= LowRange * LowRate
    ensures LowRange <= price ==> MidBaseCharge <= fee
    ensures MidRange <= price ==> HighBaseCharge <= fee
  {
    if price <= LowRange then
      if price * LowRate <= MinFee then MinFee else price * LowRate
    else if price <= MidRange then
      MidBaseCharge + (price - LowRange) * MidRate
    else
      var fee := HighBaseCharge + (price - MidRange) * HighRate;
      if fee <= MaxFee then fee else MaxFee
  }

  /** What the seller keeps from a sale at `price` once the success fee is paid. */
  function Net(price: real): real
  {
    price - SuccessFee(price)
  }

  /** The seller always keeps strictly more by selling at a higher price, so
      each target amount is reached by at most one list price. */
  lemma NetStrictlyIncreasing(a: real, b: real)
    requires a < b
    ensures Net(a) < Net(b)
  {
  }

  /** The net proceeds at the top of the low and mid brackets. */
  lemma NetAtBracketTops()
    ensures Net(LowRange) == 184.2
    ensures Net(MidRange) == 1420.5
  {
  }
}
