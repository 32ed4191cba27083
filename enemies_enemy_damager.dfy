/**
 * The trigger-damage enemy (namespace ElderCloak.Enemies, `EnemyDamager`):
 * while a collider tagged "Player" stays in its trigger, it deals
 * `damageAmount` to the player's integer health system at most once per
 * `damageInterval`, skipping an invulnerable player. The enemy carries its
 * own integer health system, sized to `enemyHealth`, and destroys itself
 * when that system reports death. Knockback and logging are outside the
 * model.
 */
module TriggerDamage {

  import opened Common
  import PlayerHealthInt

  datatype Config = Config(damageAmount: Int32, damageInterval: real, enemyHealth: Int32)

  const Defaults := Config(15, 1.0, 50)

  /** The serialized `maxHealth` a freshly added integer health system starts with. */
  const ComponentMaxHealth: Int32 := 100

  /**
   * `OnTriggerStay2D`: damage is dealt only to a collider tagged "Player"
   * whose health system exists and is not invulnerable, once
   * `damageInterval` has passed since the last damage; `lastDamageTime`
   * moves to `now` exactly then, so a skipped invulnerable player leaves it
   * unchanged. Results: the new `lastDamageTime`, whether damage was dealt.
   */
  function TriggerStayStep(c: Config, lastDamageTime: real, now: real, isPlayer: bool,
                           playerHealth: Option<PlayerHealthInt.State>): (r: (real, bool))
    ensures r.1 <==> isPlayer && now - lastDamageTime >= c.damageInterval
                     && playerHealth.Some? && !playerHealth.value.isInvulnerable
    ensures r.1 ==> r.0 == now
    ensures !r.1 ==> r.0 == lastDamageTime
  {
    if isPlayer && now - lastDamageTime >= c.damageInterval
       && playerHealth.Some? && !playerHealth.value.isInvulnerable
    then (now, true)
    else (lastDamageTime, false)
  }

  /** `lastDamageTime` is never assigned before the first damage, so it starts at 0: nothing is dealt before `damageInterval`. */
  lemma NoDamageBeforeFirstInterval(c: Config, now: real, isPlayer: bool, playerHealth: Option<PlayerHealthInt.State>)
    requires now < c.damageInterval
    ensures !TriggerStayStep(c, 0.0, now, isPlayer, playerHealth).1
  {
  }

  /** One frame of a player standing in the trigger, seen at time `now`. */
  datatype Stay = Stay(now: real, isPlayer: bool, playerHealth: Option<PlayerHealthInt.State>)

  /** Runs the gate over a sequence of stays: the final `lastDamageTime` and the times damage was dealt. */
  function Run(c: Config, lastDamageTime: real, stays: seq<Stay>): (real, seq<real>)
    decreases |stays|
  {
    if stays == [] then (lastDamageTime, [])
    else
      var (l1, dealt) := TriggerStayStep(c, lastDamageTime, stays[0].now, stays[0].isPlayer, stays[0].playerHealth);
      var (l2, times) := Run(c, l1, stays[1..]);
      (l2, (if dealt then [stays[0].now] else []) + times)
  }


  /** At most one damage per `damageInterval`: every damage comes at least that long after the previous one. */
  lemma {:induction false} OneDamagePerInterval(c: Config, lastDamageTime: real, stays: seq<Stay>)
    decreases |stays|
    ensures Spaced(lastDamageTime, Run(c, lastDamageTime, stays).1, c.damageInterval)
    ensures Run(c, lastDamageTime, stays).0 == LastOr(lastDamageTime, Run(c, lastDamageTime, stays).1)
  {
    if stays != [] {
      var step := TriggerStayStep(c, lastDamageTime, stays[0].now, stays[0].isPlayer, stays[0].playerHealth);
      var rest := Run(c, step.0, stays[1..]);
      OneDamagePerInterval(c, step.0, stays[1..]);
      assert Run(c, lastDamageTime, stays) == (rest.0, (if step.1 then [stays[0].now] else []) + rest.1);
      if step.1 {
        SpacedCons(lastDamageTime, stays[0].now, rest.1, c.damageInterval);
        LastOrCons(lastDamageTime, stays[0].now, rest.1);
      } else {
        assert [] + rest.1 == rest.1;
      }
    }
  }

  /**
   * A hit that does not kill starts the player's invulnerability, so
   * another stay within the player's invulnerability time is skipped even
   * once `damageInterval` has passed.
   */
  lemma HitPlayerIsSkippedWhileInvulnerable(c: Config, hc: PlayerHealthInt.Config, last: real, now: real,
                                            p: PlayerHealthInt.State, dt: real, later: real)
    requires TriggerStayStep(c, last, now, true, Some(p)).1
    requires var (p1, landed, died) := PlayerHealthInt.TakeDamageStep(hc, p, c.damageAmount); landed && !died
    requires 0.0 <= dt < hc.invulnerabilityTime
    ensures var p1 := PlayerHealthInt.UpdateStep(PlayerHealthInt.TakeDamageStep(hc, p, c.damageAmount).0, dt);
            TriggerStayStep(c, now, later, true, Some(p1)) == (now, false)
  {
  }

  class EnemyDamager {
    const cfg: Config
    var lastDamageTime: real
    var destroyed: bool
    const enemyHealthSystem: PlayerHealthInt.HealthSystem

    /**
     * `Awake`: a health system is added (its own `Awake` fills it to its
     * serialized maximum) and resized to `enemyHealth`; its death event is
     * wired to `OnEnemyDeath` (see `ReceiveDamage`).
     */
    constructor (config: Config, healthConfig: PlayerHealthInt.Config)
      ensures cfg == config && lastDamageTime == 0.0 && !destroyed
      ensures fresh(enemyHealthSystem) && enemyHealthSystem.cfg == healthConfig
      ensures enemyHealthSystem.Model()
              == PlayerHealthInt.SetMaxHealthStep(
                   PlayerHealthInt.State(ComponentMaxHealth, ComponentMaxHealth, false, 0.0), config.enemyHealth)
      ensures 0 <= config.enemyHealth <= ComponentMaxHealth ==>
                enemyHealthSystem.maxHealth == enemyHealthSystem.currentHealth == config.enemyHealth
    {
      cfg := config;
      lastDamageTime := 0.0;
      destroyed := false;
      var h := new PlayerHealthInt.HealthSystem(healthConfig, ComponentMaxHealth);
      h.Awake();
      h.SetMaxHealth(config.enemyHealth);
      enemyHealthSystem := h;
    }

    /**
     * Returns whether `damageAmount` was dealt; when it was, the player's
     * health system took exactly that hit, otherwise it is untouched.
     */
    method OnTriggerStay(now: real, isPlayer: bool, playerHealth: PlayerHealthInt.HealthSystem?) returns (dealt: bool)
      requires playerHealth != enemyHealthSystem
      modifies this, playerHealth
      ensures (lastDamageTime, dealt)
              == TriggerStayStep(cfg, old(lastDamageTime), now, isPlayer,
                                 if playerHealth == null then None else Some(old(playerHealth.Model())))
      ensures playerHealth != null && dealt ==>
                playerHealth.Model() == PlayerHealthInt.TakeDamageStep(playerHealth.cfg, old(playerHealth.Model()), cfg.damageAmount).0
      ensures playerHealth != null && !dealt ==> playerHealth.Model() == old(playerHealth.Model())
      ensures destroyed == old(destroyed)
    {
      dealt := false;
      if isPlayer {
        if now - lastDamageTime >= cfg.damageInterval {
          if playerHealth != null && !playerHealth.isInvulnerable {
            var _, _ := playerHealth.TakeDamage(cfg.damageAmount);
            lastDamageTime := now;
            dealt := true;
          }
        }
      }
    }

    /** `OnEnemyDeath`: the enemy removes itself. */
    method OnEnemyDeath()
      modifies this
      ensures destroyed && lastDamageTime == old(lastDamageTime)
    {
      destroyed := true;
    }

    /** A hit on the enemy's own health system; its death event runs `OnEnemyDeath`. */
    method ReceiveDamage(damage: Int32) returns (died: bool)
      modifies this, enemyHealthSystem
      ensures (enemyHealthSystem.Model(), died)
              == (PlayerHealthInt.TakeDamageStep(enemyHealthSystem.cfg, old(enemyHealthSystem.Model()), damage).0,
                  PlayerHealthInt.TakeDamageStep(enemyHealthSystem.cfg, old(enemyHealthSystem.Model()), damage).2)
      ensures destroyed <==> old(destroyed) || died
      ensures lastDamageTime == old(lastDamageTime)
    {
      var _, d := enemyHealthSystem.TakeDamage(damage);
      died := d;
      if died {
        OnEnemyDeath();
      }
    }
  }
}
