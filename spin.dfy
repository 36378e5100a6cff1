/**
 The arithmetic of one spin request, in degrees, before the conversion to
 radians: the random sweep of 1800 plus a whole number of degrees below 1800,
 the random target segment, and the angle the wheel is turned by.

 A draw of the browser's random source is a real number in [0, 1), passed in
 by the caller. Reals are exact here.
 */
module Spin {

  /** `Math.floor(random * m)`: a draw scaled to one of the m whole numbers
      0 .. m - 1. */
  function Draw(random: real, m: nat): (k: int)
    requires 0.0 <= random < 1.0 && m >= 1
    ensures 0 <= k < m
  {
    assert random * m as real < m as real;
    (random * m as real).Floor
  }

  /** Multiplying by a positive factor keeps both orders. */
  lemma ScaleKeepsOrder(a: real, b: real, m: real)
    requires m > 0.0
    ensures a <= b <==> a * m <= b * m
    ensures a < b <==> a * m < b * m
  {
    assert b * m - a * m == (b - a) * m;
  }

  /** Fairness of a draw: it yields k exactly for the draws in
      [k / m, (k + 1) / m), an interval of width 1 / m for every k. */
  lemma DrawFair(random: real, m: nat, k: int)
    requires 0.0 <= random < 1.0 && m >= 1
    ensures Draw(random, m) == k <==> k as real / m as real <= random < (k + 1) as real / m as real
  {
    var scale := m as real;
    var lo, hi := k as real / scale, (k + 1) as real / scale;
    assert lo * scale == k as real;
    assert hi * scale == (k + 1) as real;
    ScaleKeepsOrder(lo, random, scale);
    ScaleKeepsOrder(random, hi, scale);
  }

  /** The sweep in whole degrees: `1800 + Math.floor(random * 1800)`. */
  function SpinAngle(random: real): (degrees: int)
    requires 0.0 <= random < 1.0
    ensures 1800 <= degrees <= 3599
    ensures 5 * 360 <= degrees < 10 * 360
  {
    1800 + Draw(random, 1800)
  }

  /** Every sweep from 1800 to 3599 degrees is the result of the draws of an
      interval of width 1 / 1800. */
  lemma SpinAngleFair(random: real, degrees: int)
    requires 0.0 <= random < 1.0
    ensures SpinAngle(random) == degrees <==>
              (degrees - 1800) as real / 1800.0 <= random < (degrees - 1799) as real / 1800.0
  {
    DrawFair(random, 1800, degrees - 1800);
  }

  /** The index of the target segment among `count` options. */
  function TargetSegment(random: real, count: nat): (index: int)
    requires 0.0 <= random < 1.0 && count >= 1
    ensures 0 <= index < count
  {
    Draw(random, count)
  }

  /** The angle one segment spans: `360 / options.length`. */
  function SegmentDegrees(count: nat): (degrees: real)
    requires count >= 1
    ensures 0.0 < degrees <= 360.0
    ensures degrees * count as real == 360.0
  {
    360.0 / count as real
  }

  /** The angle the spin turns the wheel by:
      `spinAngle + targetSegment * segmentAngle`, later scaled by pi / 180. */
  function TargetDegrees(spinAngle: int, segment: int, count: nat): (degrees: real)
    requires count >= 1
    ensures (degrees - spinAngle as real) / SegmentDegrees(count) == segment as real
  {
    spinAngle as real + segment as real * SegmentDegrees(count)
  }

  /** The segment part of the angle starts a segment boundary and adds less
      than one full turn on top of the sweep. */
  lemma TargetWithinTurn(spinAngle: int, segment: int, count: nat)
    requires count >= 1 && 0 <= segment < count
    ensures spinAngle as real <= TargetDegrees(spinAngle, segment, count)
    ensures TargetDegrees(spinAngle, segment, count) <= spinAngle as real + 360.0 - SegmentDegrees(count)
  {
    var d := SegmentDegrees(count);
    assert segment as real * d <= (count - 1) as real * d;
    assert (count - 1) as real * d == 360.0 - d;
  }

  /** A whole accepted spin turns the wheel by at least 5 full turns and
      less than 11. */
  lemma SweepBounds(turnDraw: real, segmentDraw: real, count: nat)
    requires 0.0 <= turnDraw < 1.0 && 0.0 <= segmentDraw < 1.0 && count >= 1
    ensures 1800.0 <= TargetDegrees(SpinAngle(turnDraw), TargetSegment(segmentDraw, count), count) < 3960.0
  {
    TargetWithinTurn(SpinAngle(turnDraw), TargetSegment(segmentDraw, count), count);
  }
}
