/** The game session (main.go, type Game with init and Update): Space starts
    or restarts a session, each tick updates the player and then the weapon
    while the session runs, and the session is over as soon as the player's
    health is down to zero. Per tick the session reads the Space key, the
    arrow keys, the collision query, the clock and the weapon's aim report
    (see Steering.Aim). */
module GameLogic {
  import opened PlayerLogic
  import opened Steering
  import opened Motion

  /** The inputs of one tick. */
  datatype Tick = Tick(space: bool, keys: Keys, collision: bool, now: int, aim: Aim)

  /** Everything Game.Update reads or changes. */
  datatype GameState = GameState(
    inited: bool, gameover: bool, gameStart: int, player: PlayerState, weapon: WeaponState)

  /** Stand-ins for the nil player and weapon before the first init. */
  const ZeroPlayer: PlayerState := PlayerState(Vitals(0, false, 0), 0, 0, 0)
  const ZeroWeapon: WeaponState := WeaponState(0.0, 0.0, false, 0.0, 0.0, 0.0, 0.0, 0.0)

  /** The game as NewGame creates it. */
  const NewGameState: GameState := GameState(false, false, 0, ZeroPlayer, ZeroWeapon)

  /** This tick runs Game.init: Space pressed before the first session or
      after a game over. */
  predicate Restarts(g: GameState, t: Tick) {
    (!g.inited || g.gameover) && t.space
  }

  /** This tick computes a new leg for the weapon, so it needs an aim
      report the source can handle. */
  predicate Retargets(g: GameState, t: Tick) {
    Restarts(g, t) || (g.inited && !g.gameover && g.weapon.arrived)
  }

  /** Game.init at time `now`. The weapon's heading starts as the zero
      vector, whose cross product with any vector is zero, so its first
      rotation is never the long way round. */
  function InitState(now: int, aim: Aim): (g: GameState)
    requires AimOk(aim)
    ensures g.inited && !g.gameover && g.gameStart == now
    ensures g.player == InitialPlayer
    ensures WeaponInv(g.weapon) && !g.weapon.arrived && g.weapon.progress == 0.0
    ensures g.weapon.velocity == WeaponInitialVelocity && g.weapon.angle == 0.0
    ensures g.weapon.acceleration == WeaponAcceleration
    ensures g.weapon.leg == TargetDistance(aim.m)
    // the first rotation is the angle itself, never the long way round
    ensures g.weapon.targetAngle == aim.theta
  {
    GameState(true, false, now, InitialPlayer, Retarget(InitialWeapon, aim.(crossNegative := false)))
  }

  /** One call of Game.Update. */
  function GameStep(g: GameState, t: Tick): (r: GameState)
    requires Retargets(g, t) ==> AimOk(t.aim)
    // a session exists after the tick exactly when one existed or Space started one
    ensures r.inited <==> g.inited || Restarts(g, t)
    // without a session, or after a game over, only Space does anything
    ensures (!g.inited || g.gameover) && !t.space ==> r == g
    // a session whose player has no health left is over
    ensures r.inited && r.player.vitals.health <= 0 ==> r.gameover
    // a restart begins the clock of the session
    ensures Restarts(g, t) ==> r.gameStart == t.now && !r.gameover
  {
    var started := if Restarts(g, t) then InitState(t.now, t.aim) else g;
    var played :=
      if !started.gameover && started.inited
      then started.(player := PlayerStep(started.player, t.keys, t.collision, t.now),
                    weapon := WeaponTick(started.weapon, t.aim))
      else started;
    if played.inited && played.player.vitals.health <= 0 then played.(gameover := true) else played
  }

  /** The session invariant: no game over before the first session; while
      a session exists, health is in 0..3, the game is over exactly when it
      is 0, and the weapon is targeted. */
  predicate SessionInv(g: GameState) {
    && (!g.inited ==> !g.gameover)
    && (g.inited ==>
          && 0 <= g.player.vitals.health <= MaxHealth
          && (g.gameover <==> g.player.vitals.health == 0)
          && WeaponInv(g.weapon))
  }

  lemma NewGameInv()
    ensures SessionInv(NewGameState)
  {
  }

  lemma StepKeepsInv(g: GameState, t: Tick)
    requires SessionInv(g) && (Retargets(g, t) ==> AimOk(t.aim))
    ensures SessionInv(GameStep(g, t))
  {
    var started := if Restarts(g, t) then InitState(t.now, t.aim) else g;
    if !started.gameover && started.inited {
      TickKeepsInv(started.weapon, t.aim);
    }
  }

  /** Nothing moves before the first session or after a game over until
      Space is pressed. */
  lemma StepIdle(g: GameState, t: Tick)
    requires SessionInv(g) && (!g.inited || g.gameover) && !t.space
    ensures GameStep(g, t) == g
  {
  }

  /** Space before the first session or after a game over starts afresh:
      full health, no invincibility, a new weapon leg, and the first tick
      of play already runs (so a collision on that tick costs a point). */
  lemma StepRestart(g: GameState, t: Tick)
    requires Restarts(g, t) && AimOk(t.aim)
    ensures var r := GameStep(g, t);
            var i := InitState(t.now, t.aim);
            && r.inited && !r.gameover && r.gameStart == t.now
            && r.player == PlayerStep(InitialPlayer, t.keys, t.collision, t.now)
            && r.player.vitals.health == (if t.collision then MaxHealth - 1 else MaxHealth)
            && r.weapon == WeaponTick(i.weapon, t.aim)
  {
  }

  /** While a session runs, a tick updates the player, then the weapon, and
      ends the session exactly when health reaches zero; Space is ignored. */
  lemma StepPlaying(g: GameState, t: Tick)
    requires SessionInv(g) && g.inited && !g.gameover && (g.weapon.arrived ==> AimOk(t.aim))
    ensures var r := GameStep(g, t);
            && r.inited && r.gameStart == g.gameStart
            && r.player == PlayerStep(g.player, t.keys, t.collision, t.now)
            && r.weapon == WeaponTick(g.weapon, t.aim)
            && (r.gameover <==> r.player.vitals.health == 0)
            && (r.gameover ==> g.player.vitals.health == 1 && t.collision && !g.player.vitals.invincible)
  {
  }

  predicate AllAimsOk(ticks: seq<Tick>) {
    forall i | 0 <= i < |ticks| :: AimOk(ticks[i].aim)
  }

  predicate NoSpace(ticks: seq<Tick>) {
    forall i | 0 <= i < |ticks| :: !ticks[i].space
  }

  /** The session after a sequence of ticks. */
  function Run(g: GameState, ticks: seq<Tick>): GameState
    requires AllAimsOk(ticks)
    decreases |ticks|
  {
    if ticks == [] then g else Run(GameStep(g, ticks[0]), ticks[1..])
  }

  /** Health stays in 0..3 and game over means health 0, whatever happens. */
  lemma {:induction false} RunKeepsInv(g: GameState, ticks: seq<Tick>)
    requires SessionInv(g) && AllAimsOk(ticks)
    ensures SessionInv(Run(g, ticks))
    decreases |ticks|
  {
    if ticks != [] {
      StepKeepsInv(g, ticks[0]);
      RunKeepsInv(GameStep(g, ticks[0]), ticks[1..]);
    }
  }

  /** Once the game is over, no tick changes anything until Space is
      pressed: in particular health is never decremented again. */
  lemma {:induction false} RunFrozenAfterGameOver(g: GameState, ticks: seq<Tick>)
    requires SessionInv(g) && g.gameover && AllAimsOk(ticks) && NoSpace(ticks)
    ensures Run(g, ticks) == g
    decreases |ticks|
  {
    if ticks != [] {
      StepIdle(g, ticks[0]);
      RunFrozenAfterGameOver(g, ticks[1..]);
    }
  }

  /** Without a restart, health never goes up. */
  lemma {:induction false} RunHealthNeverRises(g: GameState, ticks: seq<Tick>)
    requires SessionInv(g) && g.inited && AllAimsOk(ticks) && NoSpace(ticks)
    ensures Run(g, ticks).inited
    ensures Run(g, ticks).player.vitals.health <= g.player.vitals.health
    decreases |ticks|
  {
    if ticks != [] {
      var g' := GameStep(g, ticks[0]);
      StepKeepsInv(g, ticks[0]);
      assert g'.player.vitals.health <= g.player.vitals.health;
      RunHealthNeverRises(g', ticks[1..]);
    }
  }

  class Game {
    var inited: bool
    var gameover: bool
    var gameStart: int
    var player: Player?
    var weapon: Weapon?

    /** The fields as one value. */
    function State(): GameState
      reads this, player, weapon
    {
      GameState(inited, gameover, gameStart,
                if player != null then player.State() else ZeroPlayer,
                if weapon != null then weapon.State() else ZeroWeapon)
    }

    ghost predicate Valid()
      reads this, player, weapon
    {
      && (player != null <==> inited)
      && (weapon != null <==> inited)
      && SessionInv(State())
    }

    /** NewGame: no session yet. */
    constructor ()
      ensures Valid() && State() == NewGameState
    {
      inited, gameover, gameStart := false, false, 0;
      player, weapon := null, null;
    }

    /** Game.init: a fresh player and weapon, the weapon targeted once. */
    method Init(now: int, aim: Aim)
      requires AimOk(aim)
      modifies this
      ensures player != null && weapon != null && fresh(player) && fresh(weapon)
      ensures State() == InitState(now, aim)
    {
      player := new Player();
      weapon := new Weapon();
      weapon.UpdateTarget(aim.(crossNegative := false));
      gameStart := now;
      inited := true;
      gameover := false;
    }

    /** Game.Update. */
    method Update(space: bool, keys: Keys, collision: bool, now: int, aim: Aim)
      requires Valid()
      requires Retargets(State(), Tick(space, keys, collision, now, aim)) ==> AimOk(aim)
      modifies this, player, weapon
      ensures Valid()
      ensures State() == GameStep(old(State()), Tick(space, keys, collision, now, aim))
    {
      if (!inited || gameover) && space {
        Init(now, aim);
      }
      if !gameover && inited {
        player.Update(keys, collision, now);
        weapon.Update(aim);
      }
      if inited && player.health <= 0 {
        gameover := true;
      }
      StepKeepsInv(old(State()), Tick(space, keys, collision, now, aim));
    }
  }
}
