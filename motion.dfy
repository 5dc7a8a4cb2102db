/** The weapon's pursuit controller (main.go, type Weapon with UpdateTarget,
    UpdatePosition and Update).

    Every step of a leg moves along targetPos - pos, which is parallel to the
    leg's offset distVec, so one leg is one-dimensional: `progress` is the
    signed coordinate of the position measured from startPos toward
    targetPos, and `leg` = |distVec| is the coordinate of targetPos. Then
    the distance from startPos is |progress|, the distance still to go is
    |leg - progress|, and a step of `velocity` along Unit(targetPos - pos)
    adds or subtracts `velocity` according to the side the target is on.
    This is an exact-real reading of the float64 code. */
module Motion {
  import opened Steering

  /** Below this remaining distance the weapon is put on its target. */
  const SnapDistance: real := 2.0

  const WeaponAcceleration: real := 0.04
  const WeaponInitialVelocity: real := 0.25

  function Abs(x: real): (r: real)
    ensures r >= 0.0 && (r == x || r == -x)
  {
    if x < 0.0 then -x else x
  }

  /** Velocity change of one UpdatePosition, by distance travelled since
      startPos: accelerate before the quarter mark, decelerate from the
      three-quarter mark on (with no floor), cruise in between. */
  function VelocityChange(traveled: real, leg: real, acceleration: real): (d: real)
    ensures traveled < QuarterMark(leg) ==> d == acceleration
    ensures QuarterMark(leg) <= traveled < ThreeQuarterMark(leg) ==> d == 0.0
    ensures QuarterMark(leg) <= traveled && ThreeQuarterMark(leg) <= traveled ==> d == -acceleration
  {
    if traveled < QuarterMark(leg) then acceleration
    else if traveled >= ThreeQuarterMark(leg) then -acceleration
    else 0.0
  }

  /** The profile is triangular: the farther from startPos, the smaller the
      change, so acceleration, cruise and deceleration come in this order. */
  lemma VelocityProfileOrder(t1: real, t2: real, leg: real, acceleration: real)
    requires leg >= 0.0 && acceleration >= 0.0 && t1 <= t2
    ensures VelocityChange(t1, leg, acceleration) >= VelocityChange(t2, leg, acceleration)
  {
  }

  /** New position coordinate: snap onto the target when it is closer than
      SnapDistance, else one step of `velocity` toward it. */
  function MoveAlong(progress: real, leg: real, velocity: real): (p: real)
    ensures Abs(leg - progress) < SnapDistance ==> p == leg
    ensures Abs(leg - progress) >= SnapDistance ==>
              Abs(p - progress) == Abs(velocity) &&
              Abs(leg - p) == Abs(Abs(leg - progress) - velocity)
  {
    var remaining := leg - progress;
    if Abs(remaining) < SnapDistance then leg
    else if remaining > 0.0 then progress + velocity
    else progress - velocity
  }

  /** New angle: snap onto the target angle when it is closer than twice
      the angular velocity, otherwise one step of the angular velocity
      unless already there. */
  function AngleStep(angle: real, targetAngle: real, angularVelocity: real): (a: real)
    ensures Abs(angle - targetAngle) < Abs(2.0 * angularVelocity) ==> a == targetAngle
    ensures Abs(angle - targetAngle) >= Abs(2.0 * angularVelocity) && angle != targetAngle ==>
              a == angle + angularVelocity
    ensures angle == targetAngle ==> a == angle
    ensures angularVelocity >= 0.0 && angle <= targetAngle ==> angle <= a <= targetAngle
  {
    var snapped := if Abs(angle - targetAngle) < Abs(2.0 * angularVelocity) then targetAngle else angle;
    if snapped != targetAngle then snapped + angularVelocity else snapped
  }

  /** Everything the three methods read or change. */
  datatype WeaponState = WeaponState(
    leg: real, progress: real, arrived: bool, acceleration: real,
    velocity: real, angle: real, targetAngle: real, angularVelocity: real)

  /** The weapon literal of Game.init, before its first UpdateTarget: the
      fields it does not set keep Go's zero values. */
  const InitialWeapon: WeaponState :=
    WeaponState(0.0, 0.0, false, WeaponAcceleration, WeaponInitialVelocity, 0.0, 0.0, 0.0)

  /** What every weapon satisfies once it has been targeted. */
  predicate WeaponInv(w: WeaponState) {
    && w.leg > MinMag
    && w.acceleration >= 0.0
    && w.angularVelocity >= 0.0
    && w.angle <= w.targetAngle
    && (w.arrived ==> w.progress == w.leg)
  }

  /** UpdateTarget: a new leg from the current position. */
  function Retarget(w: WeaponState, aim: Aim): (r: WeaponState)
    requires AimOk(aim)
    // the leg starts here and ends beyond the player
    ensures r.progress == 0.0 && r.leg == TargetDistance(aim.m) && r.leg > aim.m
    ensures 0.0 < QuarterMark(r.leg) < ThreeQuarterMark(r.leg)
    // the rotation still to make is non-negative ...
    ensures r.targetAngle - r.angle == AngleDiff(aim.theta, aim.crossNegative) >= 0.0
    // ... and is exactly covered over the first quarter of the leg
    ensures r.angularVelocity >= 0.0
    ensures r.angularVelocity * QuarterMark(r.leg) == r.targetAngle - r.angle
    // velocity, angle and the flag are left alone
    ensures r.arrived == w.arrived && r.acceleration == w.acceleration
    ensures r.velocity == w.velocity && r.angle == w.angle
  {
    var leg := TargetDistance(aim.m);
    var angleDiff := AngleDiff(aim.theta, aim.crossNegative);
    w.(leg := leg, progress := 0.0, targetAngle := w.angle + angleDiff,
       angularVelocity := AngularVelocity(angleDiff, leg))
  }

  /** UpdatePosition: velocity first, then the move with the new velocity,
      then the angle. */
  function Advance(w: WeaponState): (r: WeaponState)
    ensures r.velocity == w.velocity + VelocityChange(Abs(w.progress), w.leg, w.acceleration)
    ensures r.progress == MoveAlong(w.progress, w.leg, r.velocity)
    ensures r.angle == AngleStep(w.angle, w.targetAngle, w.angularVelocity)
    ensures r == w.(velocity := r.velocity, progress := r.progress, angle := r.angle)
  {
    var velocity := w.velocity + VelocityChange(Abs(w.progress), w.leg, w.acceleration);
    w.(velocity := velocity,
       progress := MoveAlong(w.progress, w.leg, velocity),
       angle := AngleStep(w.angle, w.targetAngle, w.angularVelocity))
  }

  /** Update: retarget if the last tick arrived, advance, and raise the flag
      when the position is the target. */
  function WeaponTick(w: WeaponState, aim: Aim): (r: WeaponState)
    requires w.arrived ==> AimOk(aim)
    // after every tick the flag says exactly whether the weapon is on target
    ensures r.arrived <==> r.progress == r.leg
  {
    var retargeted := if w.arrived then Retarget(w.(arrived := false), aim) else w;
    var moved := Advance(retargeted);
    if moved.progress == moved.leg then moved.(arrived := true) else moved
  }

  /** A weapon that has not arrived keeps its leg and rotation plan and
      ignores the aim report. */
  lemma TickKeepsLeg(w: WeaponState, aim: Aim)
    requires !w.arrived
    ensures var r := WeaponTick(w, aim);
            r.leg == w.leg && r.targetAngle == w.targetAngle &&
            r.angularVelocity == w.angularVelocity && r.acceleration == w.acceleration
  {
  }

  /** An arrived weapon first clears the flag and takes a new leg: the new
      plan comes from the aim report, and the first step of the new leg,
      taken from startPos, never snaps. */
  lemma ArrivedRetargets(w: WeaponState, aim: Aim)
    requires w.arrived && AimOk(aim)
    ensures var r := WeaponTick(w, aim);
            r.leg == TargetDistance(aim.m) &&
            r.targetAngle == w.angle + AngleDiff(aim.theta, aim.crossNegative) &&
            r.velocity == w.velocity + w.acceleration &&
            r.progress == r.velocity
  {
    var r0 := Retarget(w.(arrived := false), aim);
    assert Abs(r0.progress) < QuarterMark(r0.leg);
    assert Abs(r0.leg - r0.progress) >= SnapDistance;
  }

  /** The invariant survives a tick, and the angle never decreases nor
      passes the target angle. */
  lemma TickKeepsInv(w: WeaponState, aim: Aim)
    requires WeaponInv(w) && (w.arrived ==> AimOk(aim))
    ensures WeaponInv(WeaponTick(w, aim))
    ensures w.angle <= WeaponTick(w, aim).angle <= WeaponTick(w, aim).targetAngle
  {
  }

  class Weapon {
    var leg: real
    var progress: real
    var arrived: bool
    var acceleration: real
    var velocity: real
    var angle: real
    var targetAngle: real
    var angularVelocity: real

    /** The fields as one value. */
    function State(): WeaponState
      reads this
    {
      WeaponState(leg, progress, arrived, acceleration, velocity, angle, targetAngle, angularVelocity)
    }

    /** The weapon literal of Game.init. */
    constructor ()
      ensures State() == InitialWeapon
    {
      leg, progress := 0.0, 0.0;
      arrived := false;
      acceleration := WeaponAcceleration;
      velocity := WeaponInitialVelocity;
      angle, targetAngle, angularVelocity := 0.0, 0.0, 0.0;
    }

    method UpdateTarget(aim: Aim)
      requires AimOk(aim)
      modifies this
      ensures State() == Retarget(old(State()), aim)
    {
      var distance := TargetDistance(aim.m);
      progress := 0.0;
      leg := distance;
      var angleDiff := AngleDiff(aim.theta, aim.crossNegative);
      targetAngle := angle + angleDiff;
      angularVelocity := AngularVelocity(angleDiff, leg);
    }

    method UpdatePosition()
      modifies this
      ensures State() == Advance(old(State()))
    {
      var traveled := Abs(progress);
      if traveled < QuarterMark(leg) {
        velocity := velocity + acceleration;
      } else if traveled >= ThreeQuarterMark(leg) {
        velocity := velocity - acceleration;
      }

      var remaining := leg - progress;
      if Abs(remaining) < SnapDistance {
        progress := leg;
      } else if remaining > 0.0 {
        progress := progress + velocity;
      } else {
        progress := progress - velocity;
      }

      if Abs(angle - targetAngle) < Abs(2.0 * angularVelocity) {
        angle := targetAngle;
      }
      if angle != targetAngle {
        angle := angle + angularVelocity;
      }
    }

    method Update(aim: Aim)
      requires arrived ==> AimOk(aim)
      modifies this
      ensures State() == WeaponTick(old(State()), aim)
    {
      if arrived {
        arrived := false;
        UpdateTarget(aim);
      }
      UpdatePosition();
      if progress == leg {
        arrived := true;
      }
    }
  }
}
