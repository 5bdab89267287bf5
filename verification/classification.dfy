/** Choosing the success-fee bracket from the amount the seller wants. The
    calculator compares that amount with one net threshold per bracket
    boundary in ascending order and takes the first bracket whose threshold
    lies above it; the last bracket is unbounded. */
module Classification {
  import opened FeeSchedule

  datatype Bracket = Low | Mid | High

  /** The label the calculator reports for each bracket. */
  function Label(b: Bracket): string
  {
    match b
    case Low => "Low Fee"
    case Mid => "Medium fee"
    case High => "High fee"
  }

  /** Position of the first threshold strictly above `wanted`, or the number
      of thresholds when there is none. */
  function BracketIndex(bounds: seq<real>, wanted: real): (i: nat)
    ensures i <= |bounds|
    ensures forall j :: 0 <= j < i ==> bounds[j] <= wanted
    ensures i < |bounds| ==> wanted < bounds[i]
  {
    if |bounds| == 0 then 0
    else if wanted < bounds[0] then 0
    else 1 + BracketIndex(bounds[1..], wanted)
  }

  /** The bracket chosen by scanning two thresholds in order. */
  function ClassifyBy(bounds: seq<real>, wanted: real): (b: Bracket)
    requires |bounds| == 2
    ensures b == Low <==> wanted < bounds[0]
    ensures b == Mid <==> bounds[0] <= wanted < bounds[1]
    ensures b == High <==> bounds[0] <= wanted && bounds[1] <= wanted
  {
    [Low, Mid, High][BracketIndex(bounds, wanted)]
  }

  /** The thresholds the calculator uses: each boundary price times one minus
      the rate of the bracket below it. */
  const AsWrittenBounds: seq<real> := [LowRange * (1.0 - LowRate), MidRange * (1.0 - MidRate)]

  /** The thresholds the schedule implies: what the seller nets at each
      boundary price. */
  const ScheduleBounds: seq<real> := [Net(LowRange), Net(MidRange)]

  /** The bracket as the calculator chooses it. */
  function Classify(wanted: real): (b: Bracket)
    ensures b == Low <==> wanted < 184.2
    ensures b == Mid <==> 184.2 <= wanted < 1426.5
    ensures b == High <==> 1426.5 <= wanted
  {
    ClassifyBy(AsWrittenBounds, wanted)
  }

  /** The bracket chosen with the schedule's own net thresholds. */
  function ClassifyCorrected(wanted: real): (b: Bracket)
    ensures b == Low <==> wanted < 184.2
    ensures b == Mid <==> 184.2 <= wanted < 1420.5
    ensures b == High <==> 1420.5 <= wanted
  {
    NetAtBracketTops();
    ClassifyBy(ScheduleBounds, wanted)
  }

  /** The labels tell the brackets apart. */
  lemma LabelsDistinct(a: Bracket, b: Bracket)
    requires Label(a) == Label(b)
    ensures a == b
  {
  }
}
