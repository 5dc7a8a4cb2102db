/** The player of the survival game (main.go, type Player and Player.Update):
    movement intent read from the arrow keys, the animation frame counter,
    and the damage / invincibility state machine driven by the collision
    query and the clock.

    The clock is an integer number of milliseconds; the collision query
    (`p.obj.Check(0, 0) != nil`) is a boolean input. */
module PlayerLogic {

  /** Length of the invincibility window after a hit: 5 * time.Second. */
  const InvincibilityWindow: int := 5000

  /** Health of a freshly initialised player. */
  const MaxHealth: int := 3

  /** The four arrow keys as sampled during one tick. */
  datatype Keys = Keys(right: bool, left: bool, up: bool, down: bool)

  /** Sign of the horizontal velocity. The `else if` makes Right win over
      Left when both are held. */
  function HorizontalSign(k: Keys): (r: int)
    ensures -1 <= r <= 1
    ensures r == 1 <==> k.right
    ensures r == -1 <==> !k.right && k.left
  {
    if k.right then 1 else if k.left then -1 else 0
  }

  /** Sign of the vertical velocity (screen y grows downward). The `else if`
      makes Up win over Down when both are held. */
  function VerticalSign(k: Keys): (r: int)
    ensures -1 <= r <= 1
    ensures r == -1 <==> k.up
    ensures r == 1 <==> !k.up && k.down
  {
    if k.up then -1 else if k.down then 1 else 0
  }

  /** The part of the player the damage state machine works on. */
  datatype Vitals = Vitals(health: int, invincible: bool, invincTs: int)

  /** One tick of the damage / invincibility state machine: first the
      collision check, then the expiry check, in this order. */
  function DamageTick(v: Vitals, collision: bool, now: int): (r: Vitals)
    // damage is taken exactly when a collision meets a vulnerable player,
    // and it is exactly one point
    ensures r.health < v.health <==> collision && !v.invincible
    ensures r.health == v.health || r.health == v.health - 1
    // a hit makes the player invincible from `now` on
    ensures collision && !v.invincible ==> r.invincible && r.invincTs == now
    // while invincible nothing but the expiry can change
    ensures v.invincible ==> r.health == v.health && r.invincTs == v.invincTs
    // invincibility ends exactly when the clock is strictly past the window
    ensures v.invincible ==> (r.invincible <==> now <= v.invincTs + InvincibilityWindow)
    // the tick that ends invincibility never deals damage
    ensures v.invincible && !r.invincible ==> r.health == v.health
    // a vulnerable player only becomes invincible by being hit
    ensures !v.invincible && r.invincible ==> r.health == v.health - 1
  {
    var afterHit := if collision && !v.invincible then Vitals(v.health - 1, true, now) else v;
    if afterHit.invincible && now > afterHit.invincTs + InvincibilityWindow
    then afterHit.(invincible := false)
    else afterHit
  }

  /** The damage sequence of a 5-second window: hit at 0 ms, hit again at
      3000 ms (ignored), window over at 5001 ms, hit again at 6000 ms. */
  lemma DamageScenario()
    ensures var v1 := DamageTick(Vitals(MaxHealth, false, 0), true, 0);
            var v2 := DamageTick(v1, true, 3000);
            var v3 := DamageTick(v2, false, 5001);
            var v4 := DamageTick(v3, true, 6000);
            v1 == Vitals(2, true, 0) && v2 == v1 && v3 == Vitals(2, false, 0) && v4 == Vitals(1, true, 6000)
  {
  }

  /** Everything Player.Update changes. `dirX` and `dirY` are the signs of
      the components of `dirVec`: Unit() keeps the sign of each component
      (and the zero vector stays zero), and only these signs are read. */
  datatype PlayerState = PlayerState(vitals: Vitals, dirX: int, dirY: int, frameCount: nat)

  /** The player as the composite literal in Game.init builds it. */
  const InitialPlayer: PlayerState := PlayerState(Vitals(MaxHealth, false, 0), 0, 0, 0)

  /** One call of Player.Update. */
  function PlayerStep(p: PlayerState, keys: Keys, collision: bool, now: int): (r: PlayerState)
    ensures r.frameCount == p.frameCount + 1
    ensures r.dirX == HorizontalSign(keys) && r.dirY == VerticalSign(keys)
    ensures r.vitals == DamageTick(p.vitals, collision, now)
  {
    PlayerState(DamageTick(p.vitals, collision, now), HorizontalSign(keys), VerticalSign(keys), p.frameCount + 1)
  }

  lemma PlayerStepLosesAtMostOne(p: PlayerState, keys: Keys, collision: bool, now: int)
    requires 1 <= p.vitals.health <= MaxHealth
    ensures 0 <= PlayerStep(p, keys, collision, now).vitals.health <= p.vitals.health
  {
  }

  class Player {
    var health: int
    var invincible: bool
    var invincTs: int
    var dirX: int
    var dirY: int
    var frameCount: nat

    /** The fields as one value. */
    function State(): PlayerState
      reads this
    {
      PlayerState(Vitals(health, invincible, invincTs), dirX, dirY, frameCount)
    }

    /** The player literal of Game.init: full health, not invincible, the
        remaining fields at their zero values. */
    constructor ()
      ensures State() == InitialPlayer
    {
      health := MaxHealth;
      invincible := false;
      invincTs := 0;
      dirX, dirY := 0, 0;
      frameCount := 0;
    }

    /** Player.Update: key signs, frame counter, then collision and expiry. */
    method Update(keys: Keys, collision: bool, now: int)
      modifies this
      ensures State() == PlayerStep(old(State()), keys, collision, now)
    {
      var xVelocity := 0;
      var yVelocity := 0;
      if keys.right {
        xVelocity := xVelocity + 1;
      } else if keys.left {
        xVelocity := xVelocity - 1;
      }
      if keys.up {
        yVelocity := yVelocity - 1;
      } else if keys.down {
        yVelocity := yVelocity + 1;
      }
      dirX, dirY := xVelocity, yVelocity;
      frameCount := frameCount + 1;

      if collision && !invincible {
        health := health - 1;
        invincible := true;
        invincTs := now;
      }
      if invincible && now > invincTs + InvincibilityWindow {
        invincible := false;
      }
    }
  }
}
