/** Choosing the weapon's next leg (main.go, Weapon.UpdateTarget): the aim
    point beyond the player, the rotation still to make, and the rate of
    rotation per unit of travel.

    Coordinates are exact reals. The square root behind Magnitude/Unit, the
    arc cosine and the cross product are not computed here: for each new leg
    an `Aim` supplies |diff|, the angle between the old and the new heading,
    and whether the z component of their cross product is negative. */
module Steering {

  const MinMag: real := 75.0
  const MaxMag: real := 100.0

  /** The literal the source uses for pi. */
  const RoughPi: real := 3.14

  /** An upper bound of pi, so of every value math.Acos returns. */
  const AcosMax: real := 3.1416

  datatype Vec = Vec(x: real, y: real)

  function Add(a: Vec, b: Vec): Vec { Vec(a.x + b.x, a.y + b.y) }
  function Sub(a: Vec, b: Vec): Vec { Vec(a.x - b.x, a.y - b.y) }
  function Scale(k: real, a: Vec): Vec { Vec(k * a.x, k * a.y) }
  function Dot(a: Vec, b: Vec): real { a.x * b.x + a.y * b.y }
  function SqNorm(a: Vec): real { Dot(a, a) }
  /** z component of the cross product of (a.x, a.y, 0) and (b.x, b.y, 0). */
  function CrossZ(a: Vec, b: Vec): real { a.x * b.y - a.y * b.x }

  /** What the vector library reports about one retargeting:
      `m` = |player - weapon|, `theta` = acos(dot(old heading, new heading)),
      `crossNegative` = the cross product of the headings has z < 0. */
  datatype Aim = Aim(m: real, theta: real, crossNegative: bool)

  /** The reports the source can handle: a non-zero offset (else it
      divides by a zero quarter distance) and an angle in the range of acos. */
  predicate AimOk(a: Aim) {
    a.m > 0.0 && 0.0 <= a.theta <= AcosMax
  }

  /** |dist| for |diff| = m: 75 beyond the player when close, twice the
      offset in the band between 75 and 100, 100 beyond when far. */
  function TargetDistance(m: real): (l: real)
    requires m > 0.0
    ensures l > m
    ensures l > MinMag
  {
    if m <= MinMag then m + MinMag
    else if m >= MaxMag then m + MaxMag
    else 2.0 * m
  }

  /** The law never aims closer for a farther player, and it has no jumps
      at the band edges: between any two offsets it grows by at least the
      difference and at most twice the difference. */
  lemma TargetDistanceIncreasing(m1: real, m2: real)
    requires 0.0 < m1 < m2
    ensures TargetDistance(m1) < TargetDistance(m2)
    ensures m2 - m1 <= TargetDistance(m2) - TargetDistance(m1) <= 2.0 * (m2 - m1)
  {
  }

  /** The factor by which each branch scales `diff`. */
  function AimFactor(m: real): (k: real)
    requires m > 0.0
    ensures k > 1.0
    ensures k * m == TargetDistance(m)
  {
    if m <= MinMag then 1.0 + MinMag / m
    else if m >= MaxMag then 1.0 + MaxMag / m
    else 2.0
  }

  /** distVec as UpdateTarget builds it from diffVec, with Unit(diff) = diff / m. */
  function AimOffset(diff: Vec, m: real): (dist: Vec)
    requires m > 0.0
    ensures dist == Scale(AimFactor(m), diff)
  {
    var unit := Scale(1.0 / m, diff);
    if m <= MinMag then Add(diff, Scale(MinMag, unit))
    else if m >= MaxMag then Add(diff, Scale(MaxMag, unit))
    else Scale(2.0, diff)
  }

  /** The target point of a new leg: the weapon's position plus the offset
      to the player stretched by a factor greater than one. */
  function AimTarget(weaponPos: Vec, playerPos: Vec, m: real): (t: Vec)
    requires m > 0.0 && SqNorm(Sub(playerPos, weaponPos)) == m * m
    ensures t == Add(weaponPos, Scale(AimFactor(m), Sub(playerPos, weaponPos)))
  {
    AimOffsetLaw(Sub(playerPos, weaponPos), m);
    Add(weaponPos, AimOffset(Sub(playerPos, weaponPos), m))
  }

  lemma ScaleNorm(k: real, a: Vec)
    ensures SqNorm(Scale(k, a)) == k * k * SqNorm(a)
  {
  }

  /** Stretching a vector of length m > 0 by k, where k * m = l > m, gives
      a vector of length l, parallel to it, whose projection on it is
      m * l > m * m. */
  lemma ScaledAlong(k: real, a: Vec, m: real, l: real)
    requires m > 0.0 && SqNorm(a) == m * m && k * m == l && l > m
    ensures SqNorm(Scale(k, a)) == l * l
    ensures CrossZ(a, Scale(k, a)) == 0.0
    ensures Dot(a, Scale(k, a)) == m * l > m * m
  {
    ScaleNorm(k, a);
    assert Dot(a, Scale(k, a)) == k * SqNorm(a);
    MulGrows(m, l, m);
  }

  lemma MulGrows(a: real, b: real, c: real)
    requires a > 0.0 && b > c
    ensures a * b > a * c
  {
  }

  /** The target-distance law: for |diff| = m > 0 the offset to the target
      points along diff (parallel, same direction), has length
      TargetDistance(m), so the target lies on the weapon-to-player ray
      beyond the player. */
  lemma AimOffsetLaw(diff: Vec, m: real)
    requires m > 0.0 && SqNorm(diff) == m * m
    ensures AimOffset(diff, m) == Scale(AimFactor(m), diff)
    ensures SqNorm(AimOffset(diff, m)) == TargetDistance(m) * TargetDistance(m)
    ensures CrossZ(diff, AimOffset(diff, m)) == 0.0
    ensures Dot(diff, AimOffset(diff, m)) == m * TargetDistance(m) > m * m
  {
    ScaledAlong(AimFactor(m), diff, m, TargetDistance(m));
  }

  /** Weapon at (0, 0), player at (10, 0): the aim point is (85, 0). */
  lemma CloseTargetExample()
    ensures AimTarget(Vec(0.0, 0.0), Vec(10.0, 0.0), 10.0) == Vec(85.0, 0.0)
  {
    AimOffsetLaw(Vec(10.0, 0.0), 10.0);
    assert AimFactor(10.0) == 8.5;
  }

  /** Weapon at (0, 0), player at (0, 150): the aim point is (0, 250). */
  lemma FarTargetExample()
    ensures AimTarget(Vec(0.0, 0.0), Vec(0.0, 150.0), 150.0) == Vec(0.0, 250.0)
  {
    AimOffsetLaw(Vec(0.0, 150.0), 150.0);
    assert AimFactor(150.0) * 150.0 == 250.0;
  }

  /** In the closed band [75, 100] the aim point is the player's offset
      doubled: at both edges the outer branches agree with the middle one. */
  lemma BandTargetDoubles(weaponPos: Vec, playerPos: Vec, m: real)
    requires MinMag <= m <= MaxMag && SqNorm(Sub(playerPos, weaponPos)) == m * m
    ensures AimTarget(weaponPos, playerPos, m) == Add(weaponPos, Scale(2.0, Sub(playerPos, weaponPos)))
  {
    AimOffsetLaw(Sub(playerPos, weaponPos), m);
    assert AimFactor(m) == 2.0;
  }

  /** The quarter and three-quarter marks of a leg of length `leg`
      (magnitudes of quarterPoint and threeQuarterPoint). */
  function QuarterMark(leg: real): (q: real)
    ensures 4.0 * q == leg
    ensures leg > 0.0 ==> 0.0 < q < leg
  {
    leg * 0.25
  }

  function ThreeQuarterMark(leg: real): (t: real)
    ensures t == 3.0 * QuarterMark(leg)
    ensures leg > 0.0 ==> QuarterMark(leg) < t < leg
  {
    leg * 0.75
  }

  /** Rotation to make for the new heading: the angle itself when the cross
      product is not negative, otherwise the rest of a full turn of
      2 * 3.14. */
  function AngleDiff(theta: real, crossNegative: bool): (d: real)
    requires 0.0 <= theta <= AcosMax
    ensures 0.0 <= d <= 2.0 * RoughPi
    ensures crossNegative ==> d + theta == 2.0 * RoughPi
    ensures !crossNegative ==> d == theta
  {
    if crossNegative then RoughPi + (RoughPi - theta) else theta
  }

  /** Rotation per unit of travel: the whole rotation is spread over the
      first quarter of the leg. */
  function AngularVelocity(angleDiff: real, leg: real): (w: real)
    requires leg > 0.0
    ensures w * QuarterMark(leg) == angleDiff
    ensures angleDiff >= 0.0 ==> w >= 0.0
  {
    angleDiff / QuarterMark(leg)
  }
}
