/**
 * The numeric helpers of the pattern preview script: the axis range of a series and
 * the linear map from millimetres to chart pixels.
 */
module PatternVisualize {
  import opened Numbers
  import opened PatternCli

  /**
   * `_ensure_range`: (0, 1) for an empty series, otherwise its (min, max), widened on
   * both sides when the two are close: by 1 when the maximum is zero, by 5% of its
   * magnitude otherwise.
   */
  function EnsureRange(series: seq<real>): (r: (real, real))
    ensures series == [] ==> r == (0.0, 1.0)
    ensures series != [] && !IsClose(SeqMin(series), SeqMax(series)) ==>
      r == (SeqMin(series), SeqMax(series))
    ensures series != [] && IsClose(SeqMin(series), SeqMax(series)) ==>
      var padding := if SeqMax(series) == 0.0 then 1.0 else Abs(SeqMax(series)) * 0.05;
      r == (SeqMin(series) - padding, SeqMax(series) + padding)
  {
    if series == [] then (0.0, 1.0)
    else
      var minimum := SeqMin(series);
      var maximum := SeqMax(series);
      if IsClose(minimum, maximum) then
        var padding := if IsClose(maximum, 0.0) then 1.0 else Abs(maximum) * 0.05;
        (minimum - padding, maximum + padding)
      else (minimum, maximum)
  }

  /** The range is never empty or inverted, and every value of the series lies in it. */
  lemma EnsureRangeCovers(series: seq<real>)
    ensures var r := EnsureRange(series);
      r.0 < r.1 && forall x | x in series :: r.0 <= x <= r.1
  {
    if series != [] {
      var minimum := SeqMin(series);
      var maximum := SeqMax(series);
      IsCloseToZero(maximum);
      if !IsClose(minimum, maximum) {
        assert minimum != maximum;
      }
    }
  }

  /**
   * `_scale_linear`: the affine map taking `source` onto `target`; a source of width
   * zero (close to zero, which without an absolute tolerance means exactly zero) maps
   * everything to the middle of the target.
   */
  function ScaleLinear(value: real, source: (real, real), target: (real, real)): (r: real)
    ensures source.1 == source.0 ==> r == (target.0 + target.1) / 2.0
    ensures source.1 != source.0 ==>
      (r - target.0) * (source.1 - source.0) == (value - source.0) * (target.1 - target.0)
  {
    var (start, end) := source;
    var (targetStart, targetEnd) := target;
    var span := end - start;
    IsCloseToZero(span);
    if IsClose(span, 0.0) then (targetStart + targetEnd) / 2.0
    else
      var ratio := (value - start) / span;
      targetStart + ratio * (targetEnd - targetStart)
  }

  /** The ends of a non-empty source go to the ends of the target. */
  lemma ScaleLinearEnds(source: (real, real), target: (real, real))
    requires source.0 != source.1
    ensures ScaleLinear(source.0, source, target) == target.0
    ensures ScaleLinear(source.1, source, target) == target.1
  {
  }

  lemma FractionOfSpan(a: real, b: real)
    requires 0.0 <= a <= b && b > 0.0
    ensures 0.0 <= a / b <= 1.0
  {
    assert (a / b) * b == a;
  }

  lemma PartOfDistance(ratio: real, d: real)
    requires 0.0 <= ratio <= 1.0
    ensures Min(0.0, d) <= ratio * d <= Max(0.0, d)
  {
    assert ratio * d - d == (ratio - 1.0) * d;
    if d >= 0.0 {
      assert (ratio - 1.0) * d <= 0.0;
    } else {
      assert (ratio - 1.0) * d >= 0.0;
    }
  }

  /**
   * A value inside the source range lands inside the target range, whichever way the
   * target runs (the chart's Y axis runs from the bottom margin up).
   */
  lemma ScaleLinearWithin(value: real, source: (real, real), target: (real, real))
    requires source.0 < source.1 && source.0 <= value <= source.1
    ensures Min(target.0, target.1) <= ScaleLinear(value, source, target) <= Max(target.0, target.1)
  {
    var ratio := (value - source.0) / (source.1 - source.0);
    FractionOfSpan(value - source.0, source.1 - source.0);
    PartOfDistance(ratio, target.1 - target.0);
    assert ScaleLinear(value, source, target) == target.0 + ratio * (target.1 - target.0);
  }

  /** The points `_xy_chart` plots: each snapshot's (x, y), or the origin alone when there are none. */
  function ChartPoints(events: seq<PlannerEvent>): (points: seq<(real, real)>)
    ensures events == [] ==> points == [(0.0, 0.0)]
    ensures events != [] ==> |points| == |events|
    ensures events != [] ==> forall i | 0 <= i < |events| :: points[i] == (events[i].xMm, events[i].yMm)
  {
    if events == [] then [(0.0, 0.0)]
    else seq(|events|, i requires 0 <= i < |events| => (events[i].xMm, events[i].yMm))
  }
}
