/**
 * The values the two entities receive from libraries whose code is not part of
 * this model (Pedro Pathing's paths, MeepMeep's easing, colour schemes and screen
 * transform), and the few Kotlin numeric operations whose exact semantics matter.
 */
module Foreign {

  /** A Pedro Pathing curve segment. Only its identity is observable here. */
  type Path(==)

  /** A MeepMeep colour scheme, compared with `!=` by `switchScheme`. */
  type ColorScheme(==)

  /** Pedro Pathing follower tuning; the bot only stores and forwards it. */
  type FollowerConstants(0)

  /** The object a fresh `FollowerConstants()` call yields. */
  const DefaultFollowerConstants: FollowerConstants

  datatype Option<T> = None | Some(value: T)

  /** A Pedro Pathing path chain: an ordered, immutable sequence of paths. */
  datatype PathChain = PathChain(paths: seq<Path>) {
    function Size(): nat { |paths| }

    function GetPath(i: nat): Path
      requires i < Size()
    {
      paths[i]
    }
  }

  /** A point in field coordinates or in screen coordinates. */
  datatype Vec = Vec(x: real, y: real)

  /** A robot pose: position and heading (radians). */
  datatype Pose = Pose(x: real, y: real, heading: real)

  /** The pose `Pose()` denotes: the origin, heading 0. */
  const OriginPose := Pose(0.0, 0.0, 0.0)

  /**
   * The foreign functions both entities call, left uninterpreted:
   * `Path.getPoint`, `Path.getHeadingGoal`, `Ease.EASE_IN_OUT_CUBIC` and
   * `Vector2d.toScreenCoord`.
   */
  datatype Geometry = Geometry(
    point: (Path, real) -> Vec,
    headingGoal: (Path, real) -> real,
    ease: real -> real,
    toScreen: Vec -> Vec)

  /**
   * The host application as far as the entities see it: the foreign geometry,
   * the colour manager's current theme and the canvas size published by FieldUtil.
   */
  class MeepMeep {
    const geo: Geometry
    var theme: ColorScheme
    var canvasWidth: real
    var canvasHeight: real

    constructor (geo: Geometry, theme: ColorScheme, canvasWidth: real, canvasHeight: real)
      ensures this.geo == geo && this.theme == theme
      ensures this.canvasWidth == canvasWidth && this.canvasHeight == canvasHeight
    {
      this.geo := geo;
      this.theme := theme;
      this.canvasWidth := canvasWidth;
      this.canvasHeight := canvasHeight;
    }
  }

  /** Nanoseconds per second, the divisor of `deltaTime / 1e9`. */
  const NanosPerSecond: real := 1e9

  /** Truncation toward zero, without bound: the integer part of the quotient that `%` discards. */
  function Truncate(x: real): (r: int)
    ensures 0.0 <= x ==> 0 <= r && r as real <= x < r as real + 1.0
    ensures x < 0.0 ==> r <= 0 && r as real - 1.0 < x <= r as real
  {
    if x >= 0.0 then x.Floor else -((-x).Floor)
  }

  /**
   * Kotlin's `Double.toInt()` on finite values: truncation toward zero, saturated at
   * `Int.MIN_VALUE` and `Int.MAX_VALUE` when the truncation does not fit in an `Int`.
   */
  function ToInt(x: real): (r: int)
    ensures IsInt32(r)
    ensures 0.0 <= x ==> 0 <= r && r as real <= x
    ensures 0.0 <= x < Int32Max as real + 1.0 ==> x < r as real + 1.0
    ensures Int32Max as real + 1.0 <= x ==> r == Int32Max
    ensures x < 0.0 ==> r <= 0 && x <= r as real
    ensures Int32Min as real - 1.0 < x < 0.0 ==> r as real - 1.0 < x
    ensures x <= Int32Min as real - 1.0 ==> r == Int32Min
  {
    if x >= Int32Max as real + 1.0 then Int32Max
    else if x <= Int32Min as real - 1.0 then Int32Min
    else Truncate(x)
  }

  /** Kotlin's `Double % Double`: the remainder of truncated division, with the dividend's sign. */
  function Rem(a: real, b: real): real
    requires b > 0.0
  {
    a - b * Truncate(a / b) as real
  }

  /**
   * The remainder has the dividend's sign and lies within one divisor of zero;
   * divided by `b` it is what truncation leaves of `a / b`.
   */
  lemma RemBounds(a: real, b: real)
    requires b > 0.0
    ensures Rem(a, b) / b == a / b - Truncate(a / b) as real
    ensures 0.0 <= a ==> 0.0 <= Rem(a, b) < b
    ensures a < 0.0 ==> -b < Rem(a, b) <= 0.0
  {
    var q := Truncate(a / b) as real;
    RemScaled(a, b, q);
    if 0.0 <= a {
      RemBelow(a, b, q);
    } else {
      RemAbove(a, b, q);
    }
  }

  /** Dividing `a - b*q` by `b` leaves the fractional distance of `a/b` from `q`. */
  lemma RemScaled(a: real, b: real, q: real)
    requires b > 0.0
    ensures (a - b * q) / b == a / b - q
  {
  }

  /** Where `a / b` lies relative to -1, 0 and 1, for `b > 0`. */
  lemma QuotientBounds(a: real, b: real)
    requires b > 0.0
    ensures 0.0 <= a <==> 0.0 <= a / b
    ensures a < b <==> a / b < 1.0
    ensures -b < a <==> -1.0 < a / b
  {
    RemScaled(a, b, 0.0);
    RemScaled(a, b, 1.0);
    RemScaled(a, b, -1.0);
  }

  lemma RemBelow(a: real, b: real, q: real)
    requires b > 0.0 && 0.0 <= a / b - q < 1.0
    ensures 0.0 <= a - b * q < b
  {
    RemScaled(a, b, q);
    var r := a - b * q;
    assert 0.0 <= r / b < 1.0;
  }

  lemma RemAbove(a: real, b: real, q: real)
    requires b > 0.0 && -1.0 < a / b - q <= 0.0
    ensures -b < a - b * q <= 0.0
  {
    RemScaled(a, b, q);
    var r := a - b * q;
    assert -1.0 < r / b <= 0.0;
  }

  const Int32Min: int := -0x8000_0000
  const Int32Max: int := 0x7fff_ffff

  predicate IsInt32(x: int) { Int32Min <= x <= Int32Max }

  /** Kotlin's `Int` increment, which wraps from the largest value to the smallest. */
  function Inc32(x: int): (r: int)
    requires IsInt32(x)
    ensures IsInt32(r)
    ensures x < Int32Max ==> r == x + 1
    ensures x == Int32Max ==> r == Int32Min
  {
    if x == Int32Max then Int32Min else x + 1
  }
}
