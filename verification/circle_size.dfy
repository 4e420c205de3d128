/**
 * The dark-pool marker size hint of the chart component: a piecewise-linear
 * interpolation over fixed calibration points, clamped at both ends and rounded
 * to a whole pixel. Dollar volumes arrive in cents and are compared in millions
 * of dollars, in exact real arithmetic.
 */
module CircleSize {

  /** A calibration point: a dollar volume in millions and the marker size in pixels. */
  datatype SizePoint = SizePoint(value: real, size: int)

  const SizePoints: seq<SizePoint> := [
    SizePoint(10.0, 2), SizePoint(25.0, 3), SizePoint(100.0, 4), SizePoint(500.0, 6),
    SizePoint(750.0, 7), SizePoint(1000.0, 8), SizePoint(1500.0, 9), SizePoint(2000.0, 10)
  ]

  /** A dollar volume in cents, expressed in millions of dollars. */
  function Millions(cents: int): real {
    cents as real / 100_000_000.0
  }

  /** JavaScript's `Math.round`: the nearest integer, a half rounded up. */
  function Round(x: real): (n: int)
    ensures n as real - 0.5 <= x < n as real + 0.5
  {
    (x + 0.5).Floor
  }

  /** The interpolated size at `m` on the segment between calibration points `i` and `i + 1`. */
  function Lerp(i: nat, m: real): real
    requires i < |SizePoints| - 1
  {
    var lo := SizePoints[i];
    var hi := SizePoints[i + 1];
    lo.size as real + (hi.size - lo.size) as real * ((m - lo.value) / (hi.value - lo.value))
  }

  /** Reference definition of the size hint, one segment per line. */
  function SizeHint(m: real): int {
    if m <= 10.0 then 2
    else if m <= 25.0 then Round(2.0 + (m - 10.0) / 15.0)
    else if m <= 100.0 then Round(3.0 + (m - 25.0) / 75.0)
    else if m <= 500.0 then Round(4.0 + (m - 100.0) / 200.0)
    else if m <= 750.0 then Round(6.0 + (m - 500.0) / 250.0)
    else if m <= 1000.0 then Round(7.0 + (m - 750.0) / 250.0)
    else if m <= 1500.0 then Round(8.0 + (m - 1000.0) / 500.0)
    else if m <= 2000.0 then Round(9.0 + (m - 1500.0) / 500.0)
    else 10
  }

  /** On every closed segment of the table the reference definition is the rounded
      linear interpolation between that segment's end points. */
  lemma SizeHintInterpolates(i: nat, m: real)
    requires i < |SizePoints| - 1
    requires SizePoints[i].value <= m <= SizePoints[i + 1].value
    ensures SizeHint(m) == Round(Lerp(i, m))
  {
    if i == 0 {
    } else if i == 1 {
    } else if i == 2 {
    } else if i == 3 {
    } else if i == 4 {
    } else if i == 5 {
    } else if i == 6 {
    }
  }

  /** The size for a dark-pool sum in cents, scanning the calibration table from the
      smallest point and returning at the first segment that holds the sum. */
  method CalculateDarkPoolCircleSize(darkPoolSum: int) returns (size: int)
    ensures size == SizeHint(Millions(darkPoolSum))
  {
    var m := Millions(darkPoolSum);
    var i := 0;
    while i < |SizePoints| - 1
      invariant 0 <= i <= |SizePoints| - 1
      invariant i > 0 ==> SizePoints[i].value < m
    {
      if m <= SizePoints[i].value {
        return SizePoints[i].size;
      }
      if m >= SizePoints[i].value && m <= SizePoints[i + 1].value {
        var ratio := (m - SizePoints[i].value) / (SizePoints[i + 1].value - SizePoints[i].value);
        SizeHintInterpolates(i, m);
        return Round(SizePoints[i].size as real + (SizePoints[i + 1].size - SizePoints[i].size) as real * ratio);
      }
      i := i + 1;
    }
    return SizePoints[|SizePoints| - 1].size;
  }

  /** The size hint is a whole number of pixels between 2 and 10. */
  lemma SizeHintRange(m: real)
    ensures 2 <= SizeHint(m) <= 10
  {
  }

  /** At every calibration point the size hint is exactly that point's size. */
  lemma SizeHintAtCalibration(i: nat)
    requires i < |SizePoints|
    ensures SizeHint(SizePoints[i].value) == SizePoints[i].size
  {
  }

  /** Sums of at most 10 million dollars get the smallest marker, sums above 2000 million
      dollars the largest. */
  lemma SizeHintClamped(cents: int)
    ensures cents <= 1_000_000_000 ==> SizeHint(Millions(cents)) == 2
    ensures cents > 200_000_000_000 ==> SizeHint(Millions(cents)) == 10
  {
  }

  /** 17.5 million dollars lies halfway between the 2-pixel and the 3-pixel points and
      rounds up to 3. */
  lemma SizeHintHalfway()
    ensures SizeHint(Millions(1_750_000_000)) == 3
  {
  }

  /** A larger dollar volume never gets a smaller marker. */
  lemma SizeHintMonotone(m1: real, m2: real)
    requires m1 <= m2
    ensures SizeHint(m1) <= SizeHint(m2)
  {
  }
}
