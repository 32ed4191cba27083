/**
 * The player's combat front end (namespace ElderCloak.Player,
 * `PlayerCombatController`): it picks a cardinal attack direction from the
 * movement input and the player's state, gates attacks on the player being
 * alive and not dashing, and forwards them to the combo melee system. What
 * it asks of the player controller and the input handler is passed in as a
 * `Context`.
 */
module CombatDirection {

  import ComboMelee

  /** The four unit cardinals `Vector2.up`, `down`, `left`, `right`. */
  datatype Direction = Up | Down | Left | Right

  datatype Config = Config(
    useMovementDirection: bool,
    allowUpwardAttacks: bool,
    allowDownwardAttacks: bool,
    upwardAttackThreshold: real,
    downwardAttackThreshold: real)

  const Defaults := Config(true, true, true, 0.7, -0.7)

  /** What the controller reads from its collaborators when it decides. */
  datatype Context = Context(
    hasInputHandler: bool,
    moveX: real,
    moveY: real,
    isGrounded: bool,
    isFacingRight: bool,
    isAlive: bool,
    isDashing: bool)

  function Facing(ctx: Context): Direction
  {
    if ctx.isFacingRight then Right else Left
  }

  /**
   * `GetAttackDirection`. With movement-direction mode and an input handler,
   * the first that applies of: up (allowed, y at or above the threshold);
   * down (allowed, y at or below the threshold, airborne); the sign of x
   * (|x| > 0.1); the facing direction. Otherwise the facing direction.
   */
  function AttackDirection(c: Config, ctx: Context): (d: Direction)
    ensures !(c.useMovementDirection && ctx.hasInputHandler) ==> d == Facing(ctx)
    ensures d == Up ==> c.allowUpwardAttacks && ctx.moveY >= c.upwardAttackThreshold
    ensures d == Down ==> c.allowDownwardAttacks && ctx.moveY <= c.downwardAttackThreshold && !ctx.isGrounded
    ensures c.useMovementDirection && ctx.hasInputHandler ==>
              && (c.allowUpwardAttacks && ctx.moveY >= c.upwardAttackThreshold ==> d == Up)
              && (d != Up && c.allowDownwardAttacks && ctx.moveY <= c.downwardAttackThreshold && !ctx.isGrounded ==> d == Down)
              && (d != Up && d != Down && ctx.moveX > 0.1 ==> d == Right)
              && (d != Up && d != Down && ctx.moveX < -0.1 ==> d == Left)
              && (d != Up && d != Down && -0.1 <= ctx.moveX <= 0.1 ==> d == Facing(ctx))
  {
    if c.useMovementDirection && ctx.hasInputHandler then
      if c.allowUpwardAttacks && ctx.moveY >= c.upwardAttackThreshold then Up
      else if c.allowDownwardAttacks && ctx.moveY <= c.downwardAttackThreshold && !ctx.isGrounded then Down
      else if (if ctx.moveX < 0.0 then -ctx.moveX else ctx.moveX) > 0.1 then
        if ctx.moveX > 0.0 then Right else Left
      else Facing(ctx)
    else Facing(ctx)
  }

  /** A grounded player never attacks downwards. */
  lemma NoDownwardAttackOnGround(c: Config, ctx: Context)
    requires ctx.isGrounded
    ensures AttackDirection(c, ctx) != Down
  {
  }

  /** Without an input handler (or with the mode off) the attack follows the facing direction. */
  lemma FacingWithoutInput(c: Config, ctx: Context)
    requires !ctx.hasInputHandler || !c.useMovementDirection
    ensures AttackDirection(c, ctx) == Facing(ctx) && AttackDirection(c, ctx) in {Left, Right}
  {
  }

  /** `CanAttack`: false for a dead or dashing player, else whatever the attack system says. */
  predicate CanAttack(ctx: Context, systemCanAttack: bool)
  {
    ctx.isAlive && !ctx.isDashing && systemCanAttack
  }

  class PlayerCombatController {
    const attackSystem: ComboMelee.MeleeAttackSystem
    const cfg: Config
    var lastAttackDirection: Direction

    ghost predicate Valid()
      reads attackSystem
    {
      attackSystem.Valid()
    }

    /** `Awake`: the attack system is created and initialised with this player as its owner. */
    constructor (config: Config, systemConfig: ComboMelee.Config, variations: seq<ComboMelee.AttackData>, ownerId: ComboMelee.ColliderId)
      ensures cfg == config && lastAttackDirection == Right && Valid() && fresh(attackSystem)
      ensures attackSystem.cfg == systemConfig
      ensures attackSystem.Model() == ComboMelee.InitializeStep(systemConfig, ComboMelee.Init(systemConfig, variations), ownerId)
    {
      cfg := config;
      lastAttackDirection := Right;
      var sys := new ComboMelee.MeleeAttackSystem(systemConfig, variations);
      sys.Initialize(ownerId);
      attackSystem := sys;
    }

    method Update(now: real)
      requires Valid()
      modifies attackSystem
      ensures attackSystem.Model() == ComboMelee.UpdateStep(attackSystem.cfg, old(attackSystem.Model()), now) && Valid()
    {
      attackSystem.Update(now);
    }

    method GetAttackDirection(ctx: Context) returns (d: Direction)
      modifies this
      ensures d == AttackDirection(cfg, ctx) && lastAttackDirection == d
    {
      d := Right;
      if cfg.useMovementDirection && ctx.hasInputHandler {
        if cfg.allowUpwardAttacks && ctx.moveY >= cfg.upwardAttackThreshold {
          d := Up;
        } else if cfg.allowDownwardAttacks && ctx.moveY <= cfg.downwardAttackThreshold && !ctx.isGrounded {
          d := Down;
        } else if (if ctx.moveX < 0.0 then -ctx.moveX else ctx.moveX) > 0.1 {
          d := if ctx.moveX > 0.0 then Right else Left;
        } else {
          d := if ctx.isFacingRight then Right else Left;
        }
      } else {
        d := if ctx.isFacingRight then Right else Left;
      }
      lastAttackDirection := d;
    }

    /**
     * `Attack(direction)`: nothing happens unless `CanAttack`. The direction
     * only places the hitbox, so it is reflected in the `hits` passed on.
     */
    method Attack(ctx: Context, now: real, dt: real, hits: seq<ComboMelee.ColliderId>, damageable: set<ComboMelee.ColliderId>)
      returns (dealt: seq<ComboMelee.Hit>)
      requires Valid() && dt >= 0.0
      modifies attackSystem
      ensures !CanAttack(ctx, ComboMelee.CanAttack(attackSystem.cfg, old(attackSystem.Model()), now)) ==>
                attackSystem.Model() == old(attackSystem.Model()) && dealt == []
      ensures CanAttack(ctx, ComboMelee.CanAttack(attackSystem.cfg, old(attackSystem.Model()), now)) ==>
                (attackSystem.Model(), dealt) == ComboMelee.AttackStep(attackSystem.cfg, old(attackSystem.Model()), now, dt, hits, damageable)
      ensures Valid()
    {
      dealt := [];
      if !(ctx.isAlive && !ctx.isDashing && ComboMelee.CanAttack(attackSystem.cfg, attackSystem.Model(), now)) {
        return;
      }
      dealt := attackSystem.Attack(now, dt, hits, damageable);
    }

    /** `HandleAttackInput`: the attack-started input picks a direction and attacks in it. */
    method HandleAttackInput(ctx: Context, now: real, dt: real, hits: seq<ComboMelee.ColliderId>, damageable: set<ComboMelee.ColliderId>)
      returns (direction: Direction, dealt: seq<ComboMelee.Hit>)
      requires Valid() && dt >= 0.0
      modifies this, attackSystem
      ensures direction == AttackDirection(cfg, ctx) && lastAttackDirection == direction
      ensures !CanAttack(ctx, ComboMelee.CanAttack(attackSystem.cfg, old(attackSystem.Model()), now)) ==>
                attackSystem.Model() == old(attackSystem.Model()) && dealt == []
      ensures CanAttack(ctx, ComboMelee.CanAttack(attackSystem.cfg, old(attackSystem.Model()), now)) ==>
                (attackSystem.Model(), dealt) == ComboMelee.AttackStep(attackSystem.cfg, old(attackSystem.Model()), now, dt, hits, damageable)
      ensures Valid()
    {
      direction := GetAttackDirection(ctx);
      dealt := Attack(ctx, now, dt, hits, damageable);
    }

    method ResetCombo()
      requires Valid()
      modifies attackSystem
      ensures attackSystem.Model() == ComboMelee.ResetComboStep(old(attackSystem.Model())) && Valid()
    {
      attackSystem.ResetCombo();
    }
  }
}
