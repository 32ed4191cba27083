/**
 * The configurable enemy controller (`BasicEnemyController`): one of four
 * behaviours (Idle, Patrol, Chase, Guard), a patrol that waits at each end
 * before turning, target acquisition with a retention distance, an attack
 * cooldown, and a float health system (modelled in module `Health`) whose
 * damage and death events drive the behaviour.
 *
 * What the physics queries and transforms would report is given each frame
 * as a `Sensing` value. The call into the combo attack system is reported,
 * not composed: that system is modelled on its own in module `ComboMelee`.
 */
module EnemyController {

  import opened Common
  import Health

  datatype Config = Config(
    detectionRange: real,
    attackRange: real,
    patrolDistance: real,
    waitTime: real,
    canAttack: bool,
    attackCooldown: real)

  const Defaults := Config(5.0, 2.0, 4.0, 2.0, true, 2.0)

  datatype Behavior = Idle | Patrol | Chase | Guard

  /** One frame's view of the scene. */
  datatype Sensing = Sensing(
    now: real,
    dt: real,
    playerInCircle: bool,   // the overlap circle of `detectionRange` found a player collider
    retainDistance: real,   // distance to the current target, or to the start when there is none
    offsetFromStart: real,  // x − start x
    targetDx: real,         // target x − x
    targetDistance: real,
    startDx: real,          // start x − x
    startDistance: real)

  datatype State = State(
    behavior: Behavior,
    hasTarget: bool,
    movingRight: bool,
    waitTimer: real,
    isWaiting: bool,
    lastAttackTime: real,
    isDead: bool,
    isFacingRight: bool,
    health: Health.State)

  /**
   * `FindPlayerTarget`: a player in the circle becomes the target; with no
   * player found, the target is dropped only beyond 1.5 × `detectionRange`.
   */
  function FindTargetStep(c: Config, s: State, e: Sensing): (r: State)
    ensures e.playerInCircle ==> r.hasTarget
    ensures !e.playerInCircle && e.retainDistance > c.detectionRange * 1.5 ==> !r.hasTarget
    ensures !e.playerInCircle && e.retainDistance <= c.detectionRange * 1.5 ==> r.hasTarget == s.hasTarget
    ensures r.(hasTarget := s.hasTarget) == s
  {
    if e.playerInCircle then s.(hasTarget := true)
    else if e.retainDistance > c.detectionRange * 1.5 then s.(hasTarget := false)
    else s
  }

  /**
   * `HandlePatrolBehavior`: while waiting the timer runs down and its end
   * turns the enemy round; otherwise reaching `patrolDistance` from the
   * start in the travel direction starts a wait of `waitTime`.
   */
  function PatrolStep(c: Config, s: State, dt: real, offset: real): (r: State)
    ensures s.isWaiting ==> r.waitTimer == s.waitTimer - dt
    ensures s.isWaiting ==> (r.isWaiting <==> s.waitTimer - dt > 0.0)
    ensures s.isWaiting ==> (r.movingRight <==> (if r.isWaiting then s.movingRight else !s.movingRight))
    ensures !s.isWaiting ==> r.movingRight == s.movingRight
    ensures !s.isWaiting ==>
              (r.isWaiting <==> (s.movingRight && offset >= c.patrolDistance) || (!s.movingRight && offset <= -c.patrolDistance))
    ensures !s.isWaiting && r.isWaiting ==> r.waitTimer == c.waitTime
    ensures r.behavior == s.behavior && r.lastAttackTime == s.lastAttackTime && r.health == s.health
  {
    if s.isWaiting then
      var t := s.waitTimer - dt;
      if t <= 0.0 then s.(waitTimer := t, isWaiting := false, movingRight := !s.movingRight)
      else s.(waitTimer := t)
    else if s.movingRight && offset >= c.patrolDistance then s.(isWaiting := true, waitTimer := c.waitTime)
    else if !s.movingRight && offset <= -c.patrolDistance then s.(isWaiting := true, waitTimer := c.waitTime)
    else s
  }

  /** `HandleChaseBehavior` and `HandleGuardBehavior`: turn towards the target, or for a guard without one, towards a start more than 1 away. */
  function FaceStep(s: State, e: Sensing): (r: State)
    requires s.behavior == Chase || s.behavior == Guard
    ensures s.hasTarget ==> (r.movingRight <==> e.targetDx > 0.0)
    ensures !s.hasTarget && s.behavior == Guard && e.startDistance > 1.0 ==> (r.movingRight <==> e.startDx > 0.0)
    ensures !s.hasTarget && !(s.behavior == Guard && e.startDistance > 1.0) ==> r == s
    ensures r.(movingRight := s.movingRight) == s
  {
    if s.hasTarget then s.(movingRight := e.targetDx > 0.0)
    else if s.behavior == Guard && e.startDistance > 1.0 then s.(movingRight := e.startDx > 0.0)
    else s
  }

  /** `CanAttack`: alive, attacks enabled (so an attack system exists), and the cooldown since the last attack has passed. */
  predicate CanAttack(c: Config, s: State, now: real)
  {
    !s.isDead && c.canAttack && now >= s.lastAttackTime + c.attackCooldown
  }

  /**
   * `HandleCombat` and `Attack`: with a target within `attackRange` and the
   * cooldown passed, the attack system is asked to attack and the time is
   * stamped. The second result says whether that happened.
   */
  function CombatStep(c: Config, s: State, e: Sensing): (r: (State, bool))
    ensures r.1 <==> s.hasTarget && e.targetDistance <= c.attackRange && CanAttack(c, s, e.now)
    ensures r.1 ==> r.0 == s.(lastAttackTime := e.now)
    ensures !r.1 ==> r.0 == s
  {
    if s.hasTarget && c.canAttack && e.targetDistance <= c.attackRange && e.now >= s.lastAttackTime + c.attackCooldown
       && CanAttack(c, s, e.now)
    then (s.(lastAttackTime := e.now), true)
    else (s, false)
  }

  /** The behaviour switch of `UpdateAI`: an idle enemy does nothing, the others run their handler. */
  function HandleBehaviorStep(c: Config, s: State, e: Sensing): (r: State)
    ensures s.behavior == Idle ==> r == s
    ensures s.behavior == Patrol ==> r == PatrolStep(c, s, e.dt, e.offsetFromStart)
    ensures s.behavior == Chase || s.behavior == Guard ==> r == FaceStep(s, e)
    ensures r.hasTarget == s.hasTarget && r.lastAttackTime == s.lastAttackTime && r.isDead == s.isDead
  {
    match s.behavior
    case Idle => s
    case Patrol => PatrolStep(c, s, e.dt, e.offsetFromStart)
    case Chase => FaceStep(s, e)
    case Guard => FaceStep(s, e)
  }

  /**
   * `UpdateAI`: find the target, run the current behaviour, then combat.
   * The enemy keeps or gains a target as `FindTargetStep` says, and attacks
   * exactly when it then has one within `attackRange` and may attack.
   */
  function UpdateAIStep(c: Config, s: State, e: Sensing): (r: (State, bool))
    ensures r == CombatStep(c, HandleBehaviorStep(c, FindTargetStep(c, s, e), e), e)
    ensures r.0.hasTarget <==> e.playerInCircle || (s.hasTarget && e.retainDistance <= c.detectionRange * 1.5)
    ensures r.1 <==> r.0.hasTarget && e.targetDistance <= c.attackRange && CanAttack(c, s, e.now)
    ensures r.1 ==> r.0.lastAttackTime == e.now
    ensures !r.1 ==> r.0.lastAttackTime == s.lastAttackTime
    ensures r.0.behavior == s.behavior && r.0.isDead == s.isDead && r.0.health == s.health
  {
    var s1 := FindTargetStep(c, s, e);
    CombatStep(c, HandleBehaviorStep(c, s1, e), e)
  }

  /**
   * `Update`: a dead enemy does nothing; otherwise the health system ticks
   * and the AI runs. The second result says whether an attack was made.
   */
  function UpdateStep(c: Config, hc: Health.Config, s: State, e: Sensing): (r: (State, bool))
    ensures s.isDead ==> r == (s, false)
    ensures !s.isDead ==> r == UpdateAIStep(c, s.(health := Health.UpdateStep(hc, s.health, e.now, e.dt)), e)
    ensures r.1 ==> r.0.lastAttackTime == e.now && e.now >= s.lastAttackTime + c.attackCooldown
  {
    if s.isDead then (s, false)
    else UpdateAIStep(c, s.(health := Health.UpdateStep(hc, s.health, e.now, e.dt)), e)
  }

  /** `HandleDeath`: marks the enemy dead the first time; a second call returns at once. */
  function HandleDeathStep(s: State): (r: State)
    ensures r.isDead
    ensures s.isDead ==> r == s
    ensures r.(isDead := s.isDead) == s
  {
    if s.isDead then s else s.(isDead := true)
  }

  /** `HandleDamageTaken`: an idle or patrolling enemy that is hurt starts chasing; Chase and Guard stay. */
  function HandleDamageTakenStep(s: State): (r: State)
    ensures (s.behavior == Idle || s.behavior == Patrol) ==> r.behavior == Chase
    ensures (s.behavior == Chase || s.behavior == Guard) ==> r.behavior == s.behavior
    ensures r.(behavior := s.behavior) == s
  {
    if s.behavior == Idle || s.behavior == Patrol then s.(behavior := Chase) else s
  }

  /**
   * `TakeDamage`: ignored once dead; otherwise the health system takes the
   * hit, its damage event runs `HandleDamageTaken` and its death event runs
   * `HandleDeath`.
   */
  function TakeDamageStep(hc: Health.Config, s: State, damage: real, now: real): (r: State)
    ensures s.isDead ==> r == s
    ensures !s.isDead ==> r.health == Health.TakeDamageStep(hc, s.health, damage, now).0
    ensures !s.isDead && Health.TakeDamageStep(hc, s.health, damage, now).1.Some? ==>
              r.behavior == HandleDamageTakenStep(s).behavior
    ensures !s.isDead && Health.TakeDamageStep(hc, s.health, damage, now).1.None? ==> r.behavior == s.behavior
    ensures !s.isDead ==> (r.isDead <==> Health.TakeDamageStep(hc, s.health, damage, now).2)
  {
    if s.isDead then s
    else
      var (h, dealt, died) := Health.TakeDamageStep(hc, s.health, damage, now);
      var s1 := s.(health := h);
      var s2 := if dealt.Some? then HandleDamageTakenStep(s1) else s1;
      if died then HandleDeathStep(s2) else s2
  }

  /** Horizontal movement sign chosen by `UpdateMovement` (−1, 0 or 1). */
  function MoveSign(c: Config, s: State, e: Sensing): (m: int)
    ensures -1 <= m <= 1
    ensures s.behavior == Patrol ==> (m == 0 <==> s.isWaiting)
    ensures s.behavior == Chase && s.hasTarget && e.targetDistance <= c.attackRange * 0.8 ==> m == 0
    ensures s.behavior == Idle ==> m == 0
  {
    match s.behavior
    case Idle => 0
    case Patrol => if s.isWaiting then 0 else if s.movingRight then 1 else -1
    case Chase =>
      if s.hasTarget && !(e.targetDistance <= c.attackRange * 0.8) then
        (if e.targetDx > 0.0 then 1 else if e.targetDx < 0.0 then -1 else 0)
      else 0
    case Guard =>
      if !s.hasTarget && e.startDistance > 1.0 then
        (if e.startDx > 0.0 then 1 else if e.startDx < 0.0 then -1 else 0)
      else 0
  }

  /** `FixedUpdate`: nothing once dead; otherwise the sprite turns to face any horizontal movement. */
  function FixedUpdateStep(c: Config, s: State, e: Sensing): (r: State)
    ensures s.isDead ==> r == s
    ensures !s.isDead && MoveSign(c, s, e) > 0 ==> r.isFacingRight
    ensures !s.isDead && MoveSign(c, s, e) < 0 ==> !r.isFacingRight
    ensures MoveSign(c, s, e) == 0 ==> r == s
    ensures r.(isFacingRight := s.isFacingRight) == s
  {
    if s.isDead then s
    else
      var m := MoveSign(c, s, e);
      if (m > 0 && !s.isFacingRight) || (m < 0 && s.isFacingRight) then s.(isFacingRight := !s.isFacingRight)
      else s
  }

  /** Two attacks made on successive frames are at least `attackCooldown` apart. */
  lemma AttacksRespectCooldown(c: Config, hc: Health.Config, s: State, e1: Sensing, e2: Sensing)
    requires UpdateStep(c, hc, s, e1).1
    requires UpdateStep(c, hc, UpdateStep(c, hc, s, e1).0, e2).1
    ensures e2.now >= e1.now + c.attackCooldown
  {
  }

  /** A patrolling enemy that starts waiting turns round exactly when the wait runs out. */
  lemma WaitThenTurn(c: Config, s: State, dt: real, offset: real)
    requires c.waitTime > 0.0 && 0.0 < dt
    requires !s.isWaiting && s.movingRight && offset >= c.patrolDistance
    ensures var s1 := PatrolStep(c, s, dt, offset);
            s1.isWaiting && s1.movingRight
            && (dt >= c.waitTime ==> !PatrolStep(c, s1, dt, offset).isWaiting && !PatrolStep(c, s1, dt, offset).movingRight)
  {
  }

  class BasicEnemyController {
    const cfg: Config
    const healthSystem: Health.HealthSystem
    var behavior: Behavior
    var hasTarget: bool
    var movingRight: bool
    var waitTimer: real
    var isWaiting: bool
    var lastAttackTime: real
    var isDead: bool
    var isFacingRight: bool

    function Model(): State
      reads this, healthSystem
    {
      State(behavior, hasTarget, movingRight, waitTimer, isWaiting, lastAttackTime, isDead, isFacingRight,
            healthSystem.Model())
    }

    /** Creation and `Awake`: a fresh health system is created and initialised with this enemy as owner. */
    constructor (config: Config, initialBehavior: Behavior)
      ensures cfg == config && fresh(healthSystem)
      ensures Model() == State(initialBehavior, false, true, 0.0, false, 0.0, false, true,
                               Health.InitializeStep(Health.State(100.0, 0.0, true, false, 5.0, 3.0, false, 0.0, false, false, [])))
    {
      cfg := config;
      var h := new Health.HealthSystem(Health.Defaults, 100.0, 0.0);
      h.Initialize();
      healthSystem := h;
      behavior := initialBehavior;
      hasTarget := false;
      movingRight := true;
      waitTimer := 0.0;
      isWaiting := false;
      lastAttackTime := 0.0;
      isDead := false;
      isFacingRight := true;
    }

    method Update(e: Sensing) returns (attacked: bool)
      modifies this, healthSystem
      ensures (Model(), attacked) == UpdateStep(cfg, healthSystem.cfg, old(Model()), e)
    {
      attacked := false;
      if isDead {
        return;
      }
      healthSystem.Update(e.now, e.dt);
      attacked := UpdateAI(e);
    }

    method UpdateAI(e: Sensing) returns (attacked: bool)
      modifies this
      ensures (Model(), attacked) == UpdateAIStep(cfg, old(Model()), e)
    {
      FindPlayerTarget(e);
      match behavior {
        case Idle =>
        case Patrol => HandlePatrolBehavior(e.dt, e.offsetFromStart);
        case Chase => FaceTarget(e);
        case Guard => FaceTarget(e);
      }
      attacked := HandleCombat(e);
    }

    method FindPlayerTarget(e: Sensing)
      modifies this
      ensures Model() == FindTargetStep(cfg, old(Model()), e)
    {
      if e.playerInCircle {
        hasTarget := true;
      } else if e.retainDistance > cfg.detectionRange * 1.5 {
        hasTarget := false;
      }
    }

    /** `HandleChaseBehavior` / `HandleGuardBehavior`. */
    method FaceTarget(e: Sensing)
      requires behavior == Chase || behavior == Guard
      modifies this
      ensures Model() == FaceStep(old(Model()), e)
    {
      if hasTarget {
        movingRight := e.targetDx > 0.0;
      } else if behavior == Guard && e.startDistance > 1.0 {
        movingRight := e.startDx > 0.0;
      }
    }

    method HandleCombat(e: Sensing) returns (attacked: bool)
      modifies this
      ensures (Model(), attacked) == CombatStep(cfg, old(Model()), e)
    {
      attacked := false;
      if !hasTarget || !cfg.canAttack {
        return;
      }
      if e.targetDistance <= cfg.attackRange && e.now >= lastAttackTime + cfg.attackCooldown {
        // Attack
        if isDead || !cfg.canAttack || !(e.now >= lastAttackTime + cfg.attackCooldown) {
          return;
        }
        lastAttackTime := e.now;
        attacked := true;
      }
    }

    method HandlePatrolBehavior(dt: real, offset: real)
      modifies this
      ensures Model() == PatrolStep(cfg, old(Model()), dt, offset)
    {
      if isWaiting {
        waitTimer := waitTimer - dt;
        if waitTimer <= 0.0 {
          isWaiting := false;
          movingRight := !movingRight;
        }
        return;
      }
      if movingRight && offset >= cfg.patrolDistance {
        isWaiting := true;
        waitTimer := cfg.waitTime;
      } else if !movingRight && offset <= -cfg.patrolDistance {
        isWaiting := true;
        waitTimer := cfg.waitTime;
      }
    }

    method FixedUpdate(e: Sensing)
      modifies this
      ensures Model() == FixedUpdateStep(cfg, old(Model()), e)
    {
      if isDead {
        return;
      }
      var m := MoveSign(cfg, Model(), e);
      if m > 0 && !isFacingRight {
        isFacingRight := !isFacingRight;
      } else if m < 0 && isFacingRight {
        isFacingRight := !isFacingRight;
      }
    }

    method TakeDamage(damage: real, now: real)
      modifies this, healthSystem
      ensures Model() == TakeDamageStep(healthSystem.cfg, old(Model()), damage, now)
    {
      if isDead {
        return;
      }
      var dealt, died := healthSystem.TakeDamage(damage, now);
      if dealt.Some? {
        HandleDamageTaken();
      }
      if died {
        HandleDeath();
      }
    }

    method HandleDamageTaken()
      modifies this
      ensures Model() == HandleDamageTakenStep(old(Model()))
    {
      if behavior == Idle || behavior == Patrol {
        behavior := Chase;
      }
    }

    method HandleDeath()
      modifies this
      ensures Model() == HandleDeathStep(old(Model()))
    {
      if isDead {
        return;
      }
      isDead := true;
    }

    method SetBehaviorType(b: Behavior)
      modifies this
      ensures Model() == old(Model()).(behavior := b)
    {
      behavior := b;
    }
  }
}
