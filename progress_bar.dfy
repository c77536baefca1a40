/** The progress bar's width (src/components/ui/progress-bar.tsx). */
module ProgressBar {
  import opened Common
  import opened JsMath

  /** The JavaScript number that `percentage` can be. */
  datatype Percent = Finite(n: int) | NaN | NegativeInfinity

  /**
   * `Math.min(100, Math.round((value / max) * 100))`. Dividing by `max == 0` gives
   * `Infinity` (clamped to 100), `NaN` for `0 / 0`, or `-Infinity`.
   */
  function Percentage(value: int, max: int): (r: Percent)
    ensures max != 0 ==> r.Finite? && r.n <= 100
    ensures max == 0 ==> (value > 0 <==> r == Finite(100)) && (value == 0 <==> r == NaN)
                         && (value < 0 <==> r == NegativeInfinity)
  {
    if max == 0 then
      if value > 0 then Finite(100) else if value == 0 then NaN else NegativeInfinity
    else Finite(Min(100, RoundDiv(100 * value, max)))
  }

  /** Below 100 the width is the nearest whole percent of `value / max`. */
  lemma PercentageIsRoundedShare(value: int, max: int)
    requires max > 0 && Percentage(value, max).n < 100
    ensures var n := Percentage(value, max).n;
            2 * max * n <= 200 * value + max < 2 * max * n + 2 * max
  {
  }

  /** Reaching or passing `max` fills the bar. */
  lemma PercentageFull(value: int, max: int)
    requires max > 0 && value >= max
    ensures Percentage(value, max) == Finite(100)
  {
    RoundDivMonotone(100 * max, 100 * value, max);
    var s := RoundDiv(100 * max, max);
    if s < 100 {
      MulMonotone(2 * max, s + 1, 100);
      assert false;
    }
  }

  /** No progress shows an empty bar; non-negative progress never a negative width. */
  lemma PercentageNonNegative(value: int, max: int)
    requires max > 0 && value >= 0
    ensures 0 <= Percentage(value, max).n
    ensures value == 0 ==> Percentage(value, max) == Finite(0)
  {
    var s := RoundDiv(100 * value, max);
    if s < 0 {
      MulMonotone(2 * max, s + 1, 0);
      assert false;
    }
    if value == 0 && s != 0 {
      if s > 0 {
        MulMonotone(2 * max, 1, s);
      }
      assert false;
    }
  }

  /** For a fixed positive `max`, more progress never shortens the bar. */
  lemma PercentageMonotone(v1: int, v2: int, max: int)
    requires max > 0 && v1 <= v2
    ensures Percentage(v1, max).n <= Percentage(v2, max).n
  {
    RoundDivMonotone(100 * v1, 100 * v2, max);
  }
}
