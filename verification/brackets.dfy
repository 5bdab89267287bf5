/** The three success-fee brackets solved backwards: given the amount the
    seller wants to receive, the list price and the success fee charged at it.
    Each solver first inverts its bracket's percentage formula and then applies
    the bracket's clamp (a floor in the low bracket, a ceiling in the high). */
module Brackets {
  import opened FeeSchedule

  /** A list price together with the success fee charged at it. */
  datatype Outcome = Outcome(listPrice: real, successFee: real)
  {
    /** The list price less the quoted fee. It is what the seller keeps only
        when the quoted fee is the fee the schedule charges at `listPrice`. */
    function Proceeds(): real
    {
      listPrice - successFee
    }
  }

  /** Low bracket before the floor: the price whose 7.9% fee leaves `wanted`. */
  function LowSolve(wanted: real): (o: Outcome)
    ensures o.Proceeds() == wanted
    ensures o.successFee == o.listPrice * LowRate
  {
    var listPrice := wanted / (1.0 - LowRate);
    Outcome(listPrice, listPrice * LowRate)
  }

  /** Low bracket: solve, then raise a fee at or below 50c to exactly 50c,
      adding the difference to the list price. */
  function LowFee(wanted: real): (o: Outcome)
    ensures o.Proceeds() == wanted
    ensures o.successFee >= MinFee
    ensures LowSolve(wanted).successFee <= MinFee <==> o == Outcome(wanted + MinFee, MinFee)
    ensures LowSolve(wanted).successFee > MinFee ==> o == LowSolve(wanted)
    ensures o.listPrice - LowSolve(wanted).listPrice == o.successFee - LowSolve(wanted).successFee
  {
    var solved := LowSolve(wanted);
    if solved.successFee <= MinFee then
      Outcome((solved.listPrice - solved.successFee) + MinFee, MinFee)
    else
      solved
  }

  /** Below the low threshold the low solver is an exact inverse of the
      schedule: its price lies in the low bracket and is charged its fee. */
  lemma LowInvertsSchedule(wanted: real)
    requires wanted < 184.2
    ensures LowFee(wanted).listPrice <= LowRange
    ensures SuccessFee(LowFee(wanted).listPrice) == LowFee(wanted).successFee
  {
  }

  /** Mid bracket: $15.80 plus 4.9% of the price over $200; never clamped. */
  function MidFee(wanted: real): (o: Outcome)
    ensures o.Proceeds() == wanted
    ensures wanted >= 184.2 ==> o.listPrice >= LowRange && o.successFee >= MidBaseCharge
    ensures wanted <= 1420.5 ==> o.listPrice <= MidRange
  {
    var withBase := wanted + MidBaseCharge;
    var listPrice := LowRange + ((withBase - LowRange) / (1.0 - MidRate));
    Outcome(listPrice, MidBaseCharge + ((listPrice - LowRange) * MidRate))
  }

  /** Between the net at $200 and the net at $1500 the mid solver is an exact
      inverse of the schedule. */
  lemma MidInvertsSchedule(wanted: real)
    requires 184.2 <= wanted <= 1420.5
    ensures LowRange <= MidFee(wanted).listPrice <= MidRange
    ensures SuccessFee(MidFee(wanted).listPrice) == MidFee(wanted).successFee
  {
  }

  /** At the low/mid threshold both solvers give a $200 list price and a
      $15.80 fee, so the list price does not jump there. */
  lemma LowMidBoundaryAgree()
    ensures LowFee(184.2) == MidFee(184.2) == Outcome(200.0, 15.80)
  {
  }

  /** High bracket before the ceiling. The list price solves the schedule's
      high formula, but the fee is 1.9% of the excess of that price over
      `marker`; the schedule measures the excess from $1500. */
  function HighSolve(wanted: real, marker: real): (o: Outcome)
    ensures o.listPrice - (HighBaseCharge + (o.listPrice - MidRange) * HighRate) == wanted
    ensures o.Proceeds() == wanted - (MidRange - marker) * HighRate
  {
    var withBase := wanted + HighBaseCharge;
    var listPrice := MidRange + ((withBase - MidRange) / (1.0 - HighRate));
    Outcome(listPrice, HighBaseCharge + ((listPrice - marker) * HighRate))
  }

  /** High bracket: solve, then cut a fee at or above $149 down to $149,
      taking the difference off the list price. */
  function HighFeeWith(wanted: real, marker: real): (o: Outcome)
    ensures o.successFee <= MaxFee
    ensures HighSolve(wanted, marker).successFee >= MaxFee <==> o.successFee == MaxFee
    ensures HighSolve(wanted, marker).successFee < MaxFee ==> o == HighSolve(wanted, marker)
    ensures o.Proceeds() == HighSolve(wanted, marker).Proceeds()
  {
    var solved := HighSolve(wanted, marker);
    if solved.successFee >= MaxFee then
      Outcome((solved.listPrice - solved.successFee) + MaxFee, MaxFee)
    else
      solved
  }

  /** The high bracket as the calculator computes it: the excess is measured
      from the $79.50 base charge, so on both paths the list price less the
      quoted fee is (1500 - 79.50) * 1.9% = $26.9895 below the wanted amount.
      Below the ceiling the list price itself is still right and only the
      quoted fee is too high; on the ceiling path the list price is too low. */
  function HighFee(wanted: real): (o: Outcome)
    ensures o.Proceeds() == wanted - 26.9895
    ensures o.successFee <= MaxFee
    ensures HighSolve(wanted, HighBaseCharge).successFee >= MaxFee <==> o.successFee == MaxFee
  {
    HighFeeWith(wanted, HighBaseCharge)
  }

  /** The high bracket with the excess measured from $1500, as the schedule
      states: the seller keeps exactly what was wanted. */
  function HighFeeCorrected(wanted: real): (o: Outcome)
    ensures o.Proceeds() == wanted
    ensures o.successFee <= MaxFee
    ensures HighSolve(wanted, MidRange).successFee >= MaxFee <==> o.successFee == MaxFee
  {
    HighFeeWith(wanted, MidRange)
  }

  /** From the net at $1500 upward the corrected high solver is an exact
      inverse of the schedule, on the ceiling path too. */
  lemma HighInvertsSchedule(wanted: real)
    requires wanted >= 1420.5
    ensures HighFeeCorrected(wanted).listPrice >= MidRange
    ensures SuccessFee(HighFeeCorrected(wanted).listPrice) == HighFeeCorrected(wanted).successFee
  {
  }

  /** As written, for $2000 wanted the list price less the quoted fee is
      $1973.0105, but the list price is right: the schedule's fee at it is
      lower than the quoted fee and leaves exactly $2000. */
  lemma HighFeeShortfall()
    ensures HighFee(2000.0).Proceeds() == 1973.0105
    ensures Net(HighFee(2000.0).listPrice) == 2000.0
    ensures HighFee(2000.0).successFee > SuccessFee(HighFee(2000.0).listPrice)
  {
  }
}
