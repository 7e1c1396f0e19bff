/**
 * The fare shown to the user (app.py line 159): the model's prediction, but
 * never less than the minimum fare.
 */
module Fare {
  /** The floor applied to every prediction, in dollars. */
  const MinFare: real := 3.0

  /**
   * `max(prediction, 3.0)`: the smallest value that is at least both the
   * prediction and the minimum fare, and one of the two.
   */
  function FareFloor(prediction: real): (fare: real)
    ensures fare >= MinFare && fare >= prediction
    ensures fare == prediction || fare == MinFare
  {
    if MinFare > prediction then MinFare else prediction
  }

  /** A prediction that already reaches the minimum is shown unchanged; any lower one shows the minimum. */
  lemma FareFloorCases(prediction: real)
    ensures prediction >= MinFare ==> FareFloor(prediction) == prediction
    ensures prediction < MinFare ==> FareFloor(prediction) == MinFare
  {
  }

  /** A higher prediction never shows a lower fare, and flooring twice changes nothing. */
  lemma FareFloorMonotone(a: real, b: real)
    requires a <= b
    ensures FareFloor(a) <= FareFloor(b)
    ensures FareFloor(FareFloor(a)) == FareFloor(a)
  {
  }
}
