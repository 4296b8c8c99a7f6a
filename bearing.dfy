/** The bearing engine of src/kml.js: the rhumb-line initial bearing
    between two fixes, and the 16-way direction bucket chosen from it.
    Arithmetic is over the reals; the transcendental functions come from
    the runtime. */
module Bearing {
  import opened Js

  /** Degrees to radians. */
  function Radians(n: real): (r: real)
    ensures -180.0 <= n <= 180.0 ==> -Pi <= r <= Pi
  {
    n * (Pi / 180.0)
  }

  /** Radians to degrees. */
  function Degrees(n: real): (r: real)
    ensures -Pi <= n <= Pi ==> -180.0 <= r <= 180.0
  {
    n * (180.0 / Pi)
  }

  /** The two conversions are inverse to each other. */
  lemma DegreesRadians(x: real)
    ensures Degrees(Radians(x)) == x && Radians(Degrees(x)) == x
  {
    calc {
      Degrees(Radians(x));
      (x * (Pi / 180.0)) * (180.0 / Pi);
      x * ((Pi / 180.0) * (180.0 / Pi));
    }
    calc {
      Radians(Degrees(x));
      (x * (180.0 / Pi)) * (Pi / 180.0);
      x * ((180.0 / Pi) * (Pi / 180.0));
    }
  }

  /** Truncation toward zero. */
  function Trunc(x: real): (r: int)
    ensures 0.0 <= x ==> r as real <= x < r as real + 1.0
    ensures x < 0.0 ==> r as real - 1.0 < x <= r as real
  {
    if x >= 0.0 then x.Floor else -((-x).Floor)
  }

  /** `Math.ceil` */
  function Ceil(x: real): (r: int)
    ensures r as real - 1.0 < x <= r as real
  {
    -((-x).Floor)
  }

  /** JavaScript's `x % y` on numbers: the remainder of the quotient
      truncated toward zero, which takes the sign of `x`. It is written
      as `y` times the quotient's fractional part, which
      `RealRemSubtracts` shows equal to `x - y * trunc(x / y)`. */
  function RealRem(x: real, y: real): (r: real)
    requires y != 0.0
    ensures 0.0 <= x && 0.0 < y ==> 0.0 <= r < y
    ensures x < 0.0 && 0.0 < y ==> -y < r <= 0.0
  {
    var f := x / y - Trunc(x / y) as real;
    RemBounds(x, y, f);
    y * f
  }

  /** The remainder is the dividend less the truncated quotient's multiple. */
  lemma RealRemSubtracts(x: real, y: real)
    requires y != 0.0
    ensures RealRem(x, y) == x - y * (Trunc(x / y) as real)
  {
    var t := Trunc(x / y) as real;
    calc {
      RealRem(x, y);
      y * (x / y - t);
      y * (x / y) - y * t;
      x - y * t;
    }
  }

  /** The remainder bounds, from the fractional part's bounds. */
  lemma RemBounds(x: real, y: real, f: real)
    requires y != 0.0 && f == x / y - Trunc(x / y) as real
    ensures 0.0 <= x && 0.0 < y ==> 0.0 <= y * f < y
    ensures x < 0.0 && 0.0 < y ==> -y < y * f <= 0.0
  {
    if 0.0 < y {
      QuotientSign(x, y);
      if 0.0 <= x {
        assert y * f < y * 1.0;
      } else {
        assert y * (-1.0) < y * f;
      }
    }
  }

  /** Dividing by a positive number keeps the sign. */
  lemma QuotientSign(x: real, y: real)
    requires 0.0 < y
    ensures 0.0 <= x ==> 0.0 <= x / y
    ensures x < 0.0 ==> x / y < 0.0
  {
  }

  /** JavaScript's `a % m` on integer-valued numbers. */
  function IntRem(a: int, m: int): (r: int)
    requires m > 0
    ensures 0 <= a ==> 0 <= r < m
    ensures a < 0 ==> -m < r <= 0
    ensures 0 <= a ==> r == a % m
  {
    if a >= 0 then a % m else -((-a) % m)
  }

  /** The antimeridian correction: a longitude difference of more than
      half a turn is replaced by the equivalent one the short way round. */
  function WrapLongitude(dLong: real): (r: real)
    ensures -Pi <= dLong <= Pi ==> r == dLong
    ensures r == dLong || r == dLong - 2.0 * Pi || r == dLong + 2.0 * Pi
    ensures -2.0 * Pi <= dLong <= 2.0 * Pi ==> -Pi <= r <= Pi
  {
    if (if dLong < 0.0 then -dLong else dLong) > Pi then
      if dLong > 0.0 then -(2.0 * Pi - dLong) else 2.0 * Pi + dLong
    else dLong
  }

  /** The longitude difference getBearing works with, in radians. */
  function LongitudeDelta(startLong: real, endLong: real): (d: real)
    ensures -180.0 <= startLong <= 180.0 && -180.0 <= endLong <= 180.0 ==> -Pi <= d <= Pi
  {
    WrapLongitude(Radians(endLong) - Radians(startLong))
  }

  /** The Mercator-projected latitude difference getBearing works with. */
  function LatitudeDelta(rt: Runtime, startLat: real, endLat: real): real {
    rt.log(rt.divide(rt.tan(Radians(endLat) / 2.0 + Pi / 4.0), rt.tan(Radians(startLat) / 2.0 + Pi / 4.0)))
  }

  /** Two fixes at the same latitude have a stretched-latitude difference
      of `log(1)`, which is 0 in JavaScript, whenever the tangent is not
      zero. */
  lemma LatitudeDeltaLevel(rt: Runtime, lat: real)
    requires rt.tan(Radians(lat) / 2.0 + Pi / 4.0) != 0.0
    ensures LatitudeDelta(rt, lat, lat) == rt.log(1.0)
  {
    var t := rt.tan(Radians(lat) / 2.0 + Pi / 4.0);
    assert rt.divide(t, t) == t / t == 1.0;
  }

  /** `(d + 360) % 360` for an angle in [-180, 180]: negative angles move up
      a full turn, the others stay. */
  function Normalize(d: real): (r: real)
    ensures -180.0 <= d <= 180.0 ==> 0.0 <= r < 360.0
    ensures -180.0 <= d <= 180.0 ==> r == if d < 0.0 then d + 360.0 else d
  {
    RealRem(d + 360.0, 360.0)
  }

  /** The initial rhumb-line bearing from the start fix to the end fix, in
      degrees, in [0, 360). */
  function GetBearing(rt: Runtime, startLat: real, startLong: real, endLat: real, endLong: real): (b: real)
    ensures 0.0 <= b < 360.0
  {
    var dLong := LongitudeDelta(startLong, endLong);
    var dPhi := LatitudeDelta(rt, startLat, endLat);
    Normalize(Degrees(rt.atan2(dLong, dPhi)))
  }

  /** The direction bucket of a bearing: `Math.ceil(bearing / 22.5) % 16`. */
  function Bucket(bearing: real): int {
    IntRem(Ceil(bearing / 22.5), 16)
  }

  /** Every bearing in [0, 360) falls in one of the 16 buckets. */
  lemma BucketRange(bearing: real)
    requires 0.0 <= bearing < 360.0
    ensures 0 <= Bucket(bearing) < 16
  {
    var c := Ceil(bearing / 22.5);
    assert 0 <= c <= 16;
  }

  /** Bucket k (1 to 15) is the wedge (22.5 (k - 1), 22.5 k]; the wedge
      (337.5, 360] and the bearing 0 go to bucket 0. */
  lemma BucketWedge(bearing: real, k: int)
    requires 1 <= k <= 16
    requires 22.5 * (k - 1) as real < bearing <= 22.5 * k as real
    ensures Bucket(bearing) == k % 16
  {
    var c := Ceil(bearing / 22.5);
    assert (k - 1) as real < bearing / 22.5 <= k as real;
    assert c == k;
  }

  lemma BucketZero()
    ensures Bucket(0.0) == 0
  {
    assert Ceil(0.0) == 0;
  }

  /** The boundary values: 0 and 359.999 go to bucket 0, 22.5 to bucket 1,
      337.5 to bucket 15. */
  lemma BucketBoundaries()
    ensures Bucket(0.0) == 0 && Bucket(22.5) == 1 && Bucket(337.5) == 15 && Bucket(359.999) == 0
  {
    BucketZero();
    BucketWedge(22.5, 1);
    BucketWedge(337.5, 15);
    BucketWedge(359.999, 16);
  }
}
