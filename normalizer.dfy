/**
 * The attribute normaliser: the two static helpers of Entity that the
 * weapon constructor runs its raw parameters through.
 */
module Normalizer {

  /** The range of C#'s `int`. */
  predicate IsInt32(x: int) {
    -0x8000_0000 <= x < 0x8000_0000
  }

  /**
   * Entity.AssignValue: keeps `toAssign` if it lies in the inclusive range
   * [min, max] and otherwise answers the safe spot (not the nearest bound).
   */
  function AssignValue(toAssign: int, min: int, max: int, safeSpot: int): (r: int)
    ensures min <= toAssign <= max ==> r == toAssign
    ensures !(min <= toAssign <= max) ==> r == safeSpot
    ensures min <= safeSpot <= max ==> min <= r <= max
  {
    if toAssign >= min && toAssign <= max then toAssign else safeSpot
  }

  /** With a safe spot inside the range, normalising a normalised value changes nothing. */
  lemma AssignValueIdempotent(toAssign: int, min: int, max: int, safeSpot: int)
    requires min <= safeSpot <= max
    ensures AssignValue(AssignValue(toAssign, min, max, safeSpot), min, max, safeSpot)
            == AssignValue(toAssign, min, max, safeSpot)
  {
  }

  /** The four boundary cases: both bounds are kept, one step outside either gives the safe spot. */
  lemma AssignValueBoundaries(min: int, max: int, safeSpot: int)
    requires min <= max
    ensures AssignValue(min, min, max, safeSpot) == min
    ensures AssignValue(max, min, max, safeSpot) == max
    ensures AssignValue(min - 1, min, max, safeSpot) == safeSpot
    ensures AssignValue(max + 1, min, max, safeSpot) == safeSpot
  {
  }

  /**
   * Entity.SwapValues: the C# version exchanges two `ref int`s through a
   * temporary; here the two references are an in-out pair. No arithmetic
   * is done, so two 32-bit inputs give two 32-bit outputs.
   */
  method SwapValues(first: int, second: int) returns (first': int, second': int)
    ensures first' == second && second' == first
    ensures IsInt32(first) && IsInt32(second) ==> IsInt32(first') && IsInt32(second')
  {
    var temp := first;
    first' := second;
    second' := temp;
  }
}
