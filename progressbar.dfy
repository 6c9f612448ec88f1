/**
 * The fill level of components/ui/ProgressBar.tsx: `current` over a divisor that
 * is never zero, as a percentage capped at 100.
 */
module ProgressBar {

  /** A maximum that is not positive is replaced by 1, so the division is always defined. */
  function SafeMax(max: real): (d: real)
    ensures d > 0.0
    ensures max > 0.0 ==> d == max
    ensures max <= 0.0 ==> d == 1.0
  {
    if max > 0.0 then max else 1.0
  }

  /** How much of the bar is filled: the share of the target reached, in percent, capped at 100. */
  function Percentage(current: real, max: real): (p: real)
    ensures p <= 100.0
    ensures current >= SafeMax(max) ==> p == 100.0
    ensures current < SafeMax(max) ==> p == current / SafeMax(max) * 100.0
    ensures current >= 0.0 ==> p >= 0.0
  {
    var raw := current / SafeMax(max) * 100.0;
    if raw <= 100.0 then raw else 100.0
  }

  /** For a fixed maximum, more progress never shows a shorter bar. */
  lemma PercentageMonotone(c1: real, c2: real, max: real)
    requires c1 <= c2
    ensures Percentage(c1, max) <= Percentage(c2, max)
  {
    var d := SafeMax(max);
    assert c1 / d <= c2 / d by {
      assert c2 / d - c1 / d == (c2 - c1) / d;
    }
  }
}
