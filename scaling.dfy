/**
 * The two numeric rules of the ip override operation: resolution scaling
 * (round to nearest) and pixel-sample scaling (ceiling, never below one
 * sample), plus the element-wise map that applies them to a property list.
 * Scales are exact reals; the integer rounding functions are written out.
 */
module Scaling {

  /** The greatest integer not above `x`. */
  function Floor(x: real): (r: int)
    ensures r as real <= x < r as real + 1.0
  {
    x.Floor
  }

  /** The least integer not below `x` (Python's math.ceil). */
  function Ceil(x: real): (r: int)
    ensures x <= r as real < x + 1.0
  {
    -((-x).Floor)
  }

  /** Round to the nearest integer, ties to the even neighbour (Python 3's round). */
  function RoundHalfEven(x: real): (r: int)
    ensures -0.5 <= r as real - x <= 0.5
    ensures (r as real - x == 0.5 || x - r as real == 0.5) ==> r % 2 == 0
  {
    var f := Floor(x);
    var frac := x - f as real;
    if frac < 0.5 then f
    else if frac > 0.5 then f + 1
    else if f % 2 == 0 then f else f + 1
  }

  /** Any integer strictly closer than one half to `x` is the rounded value. */
  lemma RoundIsNearest(x: real, k: int)
    requires -0.5 < k as real - x < 0.5
    ensures RoundHalfEven(x) == k
  {
    var r := RoundHalfEven(x);
    assert -1.0 < r as real - k as real < 1.0;
  }

  /** Rounding an integer-valued real gives that integer back. */
  lemma RoundOfInteger(n: int)
    ensures RoundHalfEven(n as real) == n
  {
    RoundIsNearest(n as real, n);
  }

  /** `_scaleResolution`: the resolution times the scale, rounded to nearest. */
  function ScaleResolution(resolution: int, scale: real): (r: int)
    ensures -0.5 <= r as real - resolution as real * scale <= 0.5
  {
    RoundHalfEven(resolution as real * scale)
  }

  /** A non-negative resolution scaled by a non-negative factor stays non-negative. */
  lemma ScaleResolutionNonNegative(resolution: int, scale: real)
    requires resolution >= 0 && scale >= 0.0
    ensures ScaleResolution(resolution, scale) >= 0
  {
    assert resolution as real * scale >= 0.0;
  }

  /** A scale of one leaves a resolution unchanged. */
  lemma ScaleResolutionByOne(resolution: int)
    ensures ScaleResolution(resolution, 1.0) == resolution
  {
    RoundOfInteger(resolution);
  }

  /**
   * `_scaleSampleValue`: the scaled sample count rounded up, but at least one.
   * The result is the least integer that is both at least one and at least
   * the scaled value, so scaling never yields fewer samples than asked for.
   */
  function ScaleSampleValue(sample: int, scale: real): (r: int)
    ensures r >= 1
    ensures sample as real * scale <= r as real
    ensures r == 1 || (r - 1) as real < sample as real * scale
  {
    var c := Ceil(sample as real * scale);
    if c < 1 then 1 else c
  }

  /** Whenever the ceiling of the scaled value is a positive count, it is the result. */
  lemma ScaleSampleValueIsCeil(sample: int, scale: real)
    requires Ceil(sample as real * scale) >= 1
    ensures ScaleSampleValue(sample, scale) == Ceil(sample as real * scale)
  {
    var x := sample as real * scale;
    var r := ScaleSampleValue(sample, scale);
    var c := Ceil(x);
    assert x <= r as real && x <= c as real;
    assert (c - 1) as real < x;
    assert r == 1 || (r - 1) as real < x;
  }

  /** The element-wise list comprehension `[f(val) for val in values]`. */
  function MapEach(values: seq<int>, f: int -> int): (r: seq<int>)
    ensures |r| == |values|
    ensures forall i :: 0 <= i < |values| ==> r[i] == f(values[i])
  {
    if values == [] then [] else [f(values[0])] + MapEach(values[1..], f)
  }

  /** A resolution list scaled component by component. */
  function ScaleResolutions(values: seq<int>, scale: real): (r: seq<int>)
    ensures |r| == |values|
    ensures forall i :: 0 <= i < |values| ==> r[i] == ScaleResolution(values[i], scale)
  {
    MapEach(values, v => ScaleResolution(v, scale))
  }

  /** A sample-count list scaled component by component. */
  function ScaleSampleValues(values: seq<int>, scale: real): (r: seq<int>)
    ensures |r| == |values|
    ensures forall i :: 0 <= i < |values| ==> r[i] == ScaleSampleValue(values[i], scale) && r[i] >= 1
  {
    MapEach(values, v => ScaleSampleValue(v, scale))
  }

  /** Worked values: a half sample scale on (4, 4) and (1, 1), and a 0.3 resolution scale on 1920x1080. */
  lemma ScalingExamples()
    ensures ScaleSampleValues([4, 4], 0.5) == [2, 2]
    ensures ScaleSampleValues([1, 1], 0.5) == [1, 1]
    ensures ScaleResolutions([1920, 1080], 0.3) == [576, 324]
  {
    ScaleSampleValueIsCeil(4, 0.5);
    RoundOfInteger(576);
    RoundOfInteger(324);
    assert 1920 as real * 0.3 == 576 as real;
    assert 1080 as real * 0.3 == 324 as real;
  }
}
