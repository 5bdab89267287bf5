/** Fees layered beside the success fee: the PayNow surcharge on the final
    TradeMe list price, and the alternative PayPal merchant quote computed
    straight from the amount the seller wants. */
module Surcharges {
  import opened FeeSchedule

  /** The list price when PayNow is offered, and the PayNow fee charged on it. */
  datatype PayNowQuote = PayNowQuote(listPrice: real, fee: real)

  /** PayNow layered on `tradeMePrice`: taking 1.95% of the PayNow price off
      leaves the TradeMe price. */
  function PayNow(tradeMePrice: real): (p: PayNowQuote)
    ensures p.listPrice * (1.0 - PayNowRate) == tradeMePrice
    ensures p.fee == p.listPrice * PayNowRate
    ensures p.listPrice - p.fee == tradeMePrice
    ensures tradeMePrice >= 0.0 ==> 0.0 <= p.fee && tradeMePrice <= p.listPrice
  {
    var listPrice := tradeMePrice / (1.0 - PayNowRate);
    PayNowQuote(listPrice, listPrice - tradeMePrice)
  }

  /** The PayPal merchant fee on a payment of `price`. */
  function PayPalFee(price: real): real
  {
    price * WebRate + WebBaseFee
  }

  /** The PayPal price as the calculator computes it: 45c is added after
      grossing up for 3.45%, so removing 45c and then 3.45% gives back the
      wanted amount, and the merchant fee leaves the seller 1.5525c short. */
  function WebPrice(wanted: real): (price: real)
    ensures (price - WebBaseFee) * (1.0 - WebRate) == wanted
    ensures price - PayPalFee(price) == wanted - 0.015525
  {
    (wanted / (1.0 - WebRate)) + WebBaseFee
  }

  /** The PayPal price that leaves exactly the wanted amount after the fee. */
  function WebPriceCorrected(wanted: real): (price: real)
    ensures price - PayPalFee(price) == wanted
    ensures price == WebPrice(wanted) + WebBaseFee * WebRate / (1.0 - WebRate)
  {
    (wanted + WebBaseFee) / (1.0 - WebRate)
  }
}
