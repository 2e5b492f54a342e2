/**
 * The dual-handle range control `RangeSlider`: two values kept in order by
 * clamping each handle against the other, and the percentage that places a
 * handle on the track.
 */
module Slider {
  import opened Arithmetic

  /** A closed interval `[lo, hi]`, the `[number, number]` pair the control emits. */
  datatype Range = Range(lo: int, hi: int)

  /** Floor of `a / b` for either sign of `b` (Dafny's `/` floors only for `b > 0`). */
  function FloorDiv(a: int, b: int): int
    requires b != 0
  {
    if b > 0 then a / b else (-a) / (-b)
  }

  /**
   * `Math.round(n / d)`: the integer nearest to `n / d`, halves rounded up,
   * that is, the `r` with `r <= n / d + 1/2 < r + 1`.
   */
  function RoundDiv(n: int, d: int): (r: int)
    requires d != 0
    ensures d > 0 ==> 2 * d * r <= 2 * n + d < 2 * d * (r + 1)
    ensures d < 0 ==> 2 * d * r >= 2 * n + d > 2 * d * (r + 1)
  {
    var q := FloorDiv(2 * n + d, 2 * d);
    if d > 0 then
      assert 2 * n + d == (2 * d) * q + (2 * n + d) % (2 * d);
      q
    else
      assert -(2 * n + d) == (-2 * d) * q + (-(2 * n + d)) % (-2 * d);
      q
  }

  /** `getPercent`: 0 when the track is degenerate, else `round((v - min) / (max - min) * 100)`. */
  function Percent(v: int, min: int, max: int): (p: int)
    ensures min == max ==> p == 0
    ensures max > min ==>
      2 * (max - min) * p <= 200 * (v - min) + (max - min) < 2 * (max - min) * (p + 1)
    ensures max < min ==>
      2 * (max - min) * p >= 200 * (v - min) + (max - min) > 2 * (max - min) * (p + 1)
  {
    if max == min then 0 else RoundDiv((v - min) * 100, max - min)
  }

  /** On a proper track the percentage is a quotient with a positive divisor. */
  lemma PercentQuotient(v: int, min: int, max: int)
    requires min < max
    ensures Percent(v, min, max) == (200 * (v - min) + (max - min)) / (2 * (max - min))
  {
  }

  /** The ends of the track are at 0% and 100%. */
  lemma PercentEnds(min: int, max: int)
    requires min != max
    ensures Percent(min, min, max) == 0
    ensures Percent(max, min, max) == 100
  {
    var d := max - min;
    if d > 0 {
      DivBracket(d, 2 * d, 0);
      DivBracket(201 * d, 2 * d, 100);
    } else {
      DivBracket(-d, -2 * d, 0);
      DivBracket(-201 * d, -2 * d, 100);
    }
  }

  /** On a proper track, a value between the ends maps into [0, 100]. */
  lemma PercentBounded(v: int, min: int, max: int)
    requires min < max && min <= v <= max
    ensures 0 <= Percent(v, min, max) <= 100
  {
    var d := max - min;
    PercentQuotient(v, min, max);
    DivBracket(d, 2 * d, 0);
    DivBracket(201 * d, 2 * d, 100);
    DivMonotone(d, 200 * (v - min) + d, 2 * d);
    DivMonotone(200 * (v - min) + d, 201 * d, 2 * d);
  }

  /** The position grows with the value. */
  lemma PercentMonotone(v: int, w: int, min: int, max: int)
    requires min < max && v <= w
    ensures Percent(v, min, max) <= Percent(w, min, max)
  {
    var d := max - min;
    PercentQuotient(v, min, max);
    PercentQuotient(w, min, max);
    DivMonotone(200 * (v - min) + d, 200 * (w - min) + d, 2 * d);
  }

  /** The z-index of the input that does not move: the high handle. */
  const HighInputZ: int := 40

  /** The low input's z-index: raised above the high input near the right end. */
  function LowInputZ(lowPercent: int): (z: int)
    ensures z > HighInputZ <==> lowPercent > 90
    ensures z < HighInputZ <==> lowPercent <= 90
  {
    if lowPercent > 90 then 50 else 30
  }

  /**
   * The control's state: its `min`/`max` props, the two values it shows, and
   * the refs that remember the last value each handle committed.
   */
  class RangeSlider {
    var min: int
    var max: int
    var minVal: int
    var maxVal: int
    var minValRef: int
    var maxValRef: int

    /** Both values on the track and in order. */
    predicate Valid()
      reads this
    {
      min <= minVal <= maxVal <= max
    }

    constructor (min: int, max: int, value: Range)
      ensures this.min == min && this.max == max
      ensures minVal == value.lo && maxVal == value.hi
      ensures minValRef == value.lo && maxValRef == value.hi
    {
      this.min, this.max := min, max;
      minVal, maxVal := value.lo, value.hi;
      minValRef, maxValRef := value.lo, value.hi;
    }

    /**
     * The low handle's `onChange`: commit `min(input, maxVal)` and emit the
     * pair. The native control only produces values on the track, which is
     * what keeps the low value above `min`.
     */
    method MoveLow(input: int) returns (emitted: Range)
      modifies this
      ensures minVal == (if input <= old(maxVal) then input else old(maxVal))
      ensures minVal <= maxVal
      ensures maxVal == old(maxVal) && min == old(min) && max == old(max)
      ensures minValRef == minVal && maxValRef == old(maxValRef)
      ensures emitted == Range(minVal, maxVal)
      ensures old(Valid()) && min <= input ==> Valid()
    {
      var value := if input <= maxVal then input else maxVal;
      minVal := value;
      minValRef := value;
      emitted := Range(value, maxVal);
    }

    /** The high handle's `onChange`: commit `max(input, minVal)` and emit the pair. */
    method MoveHigh(input: int) returns (emitted: Range)
      modifies this
      ensures maxVal == (if input >= old(minVal) then input else old(minVal))
      ensures minVal <= maxVal
      ensures minVal == old(minVal) && min == old(min) && max == old(max)
      ensures maxValRef == maxVal && minValRef == old(minValRef)
      ensures emitted == Range(minVal, maxVal)
      ensures old(Valid()) && input <= max ==> Valid()
    {
      var value := if input >= minVal then input else minVal;
      maxVal := value;
      maxValRef := value;
      emitted := Range(minVal, value);
    }

    /**
     * New props from the owner: the track ends follow, and the effect on
     * `value` replaces both shown values unconditionally. The refs are not
     * touched by that effect.
     */
    method ReceiveProps(min: int, max: int, value: Range)
      modifies this
      ensures this.min == min && this.max == max
      ensures minVal == value.lo && maxVal == value.hi
      ensures minValRef == old(minValRef) && maxValRef == old(maxValRef)
    {
      this.min, this.max := min, max;
      minVal, maxVal := value.lo, value.hi;
    }
  }
}
