/**
 * The rule both sync scripts share for deciding whether a Shopify variant's
 * price is rewritten: it is rewritten when the current price is 0 or missing,
 * or is at least half a dollar away from the target. Prices are in cents.
 */
module PriceRule {
  import opened Wrappers

  /** Half a dollar, in cents. */
  const Threshold: nat := 50

  function Abs(x: int): nat {
    if x < 0 then -x else x
  }

  /**
   * `!current || Math.abs(current - target) >= 0.5`, in cents. `None` stands for a
   * price that is missing or does not parse as a number (NaN is falsy too).
   */
  function NeedsUpdate(current: Option<int>, target: int): (r: bool)
    ensures current.None? || current == Some(0) ==> r
    ensures current.Some? && current.value != 0 ==>
              (r <==> current.value <= target - Threshold || current.value >= target + Threshold)
    ensures current == Some(target) && target != 0 ==> !r
  {
    current.None? || current.value == 0 || Abs(current.value - target) >= Threshold
  }
}
