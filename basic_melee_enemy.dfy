/**
 * The melee enemy built on the enemy base (`BasicMeleeEnemy`): chase and
 * attack while aggro, patrol otherwise, cycle through patrol points, and
 * turn aggro when the player hurts it.
 *
 * The source extends the base class; the model composes the base's state
 * (module `EnemyBase`) with this enemy's own fields. The attack system's
 * readiness check and attack call are not part of the shown sources, so
 * whether the system accepts an attack is given each frame. The simple
 * patrol without points changes direction at random and is not modelled.
 */
module MeleeEnemy {

  import opened Common
  import EnemyBase
  import ComponentHealth

  datatype Config = Config(
    attackRange: real,
    attackCooldown: real,
    enablePatrol: bool,
    patrolPointCount: nat,
    canAttackPlayer: bool,
    hasAttackSystem: bool)

  /** Inspector defaults with no patrol points; an attack system is added when attacks are enabled. */
  const Defaults := Config(1.5, 2.0, true, 0, true, true)

  /** One frame's view of the scene. */
  datatype Frame = Frame(
    now: real,
    distance: real,        // to the player
    pointPresent: bool,    // the current patrol point is assigned
    distToPoint: real,
    systemAccepts: bool)   // the attack system reports it can attack

  datatype State = State(
    base: EnemyBase.State,
    currentPatrolIndex: int,
    lastAttackTime: real,
    isChasing: bool)

  /** `CanAttackPlayer`: the attack cooldown has passed. */
  predicate CanAttackPlayer(c: Config, s: State, now: real)
  {
    now >= s.lastAttackTime + c.attackCooldown
  }

  /** `UpdatePatrolPointMovement`: within 0.5 of the current point, move to the next one cyclically. */
  function PatrolPointStep(c: Config, s: State, f: Frame): (r: State)
    requires c.patrolPointCount > 0
    ensures s.currentPatrolIndex >= c.patrolPointCount || !f.pointPresent || f.distToPoint >= 0.5 ==> r == s
    ensures s.currentPatrolIndex < c.patrolPointCount && f.pointPresent && f.distToPoint < 0.5 ==>
              r == s.(currentPatrolIndex := (s.currentPatrolIndex + 1) % c.patrolPointCount)
    ensures 0 <= s.currentPatrolIndex < c.patrolPointCount ==> 0 <= r.currentPatrolIndex < c.patrolPointCount
  {
    if s.currentPatrolIndex >= c.patrolPointCount then s
    else if !f.pointPresent then s
    else if f.distToPoint < 0.5 then s.(currentPatrolIndex := (s.currentPatrolIndex + 1) % c.patrolPointCount)
    else s
  }

  /**
   * `UpdateBehavior`: nothing unless alive. Aggro runs the chase branch:
   * chasing, and an attack when a player is known, within `attackRange`,
   * the cooldown has passed, attacks are enabled and the attack system
   * accepts; only then is the attack time stamped. Otherwise the patrol
   * branch runs and chasing stops. The second result says whether an
   * attack was made.
   */
  function BehaviorStep(c: Config, s: State, f: Frame): (r: (State, bool))
    ensures !EnemyBase.IsAlive(s.base) ==> r == (s, false)
    ensures EnemyBase.IsAlive(s.base) ==> (r.0.isChasing <==> s.base.isAggro)
    ensures r.1 <==> && EnemyBase.IsAlive(s.base) && s.base.isAggro && s.base.hasPlayer
                     && f.distance <= c.attackRange && CanAttackPlayer(c, s, f.now) && c.canAttackPlayer
                     && c.hasAttackSystem && f.systemAccepts
    ensures r.1 ==> r.0.lastAttackTime == f.now
    ensures !r.1 ==> r.0.lastAttackTime == s.lastAttackTime
    ensures r.0.base == s.base
    ensures s.base.isAggro ==> r.0.currentPatrolIndex == s.currentPatrolIndex
    ensures EnemyBase.IsAlive(s.base) && s.base.isAggro ==>
              r.0 == s.(isChasing := true, lastAttackTime := r.0.lastAttackTime)
    ensures EnemyBase.IsAlive(s.base) && !s.base.isAggro && c.enablePatrol && c.patrolPointCount > 0 ==>
              r.0 == PatrolPointStep(c, s.(isChasing := false), f)
    ensures EnemyBase.IsAlive(s.base) && !s.base.isAggro && !(c.enablePatrol && c.patrolPointCount > 0) ==>
              r.0 == s.(isChasing := false)
  {
    if !EnemyBase.IsAlive(s.base) then (s, false)
    else if s.base.isAggro then
      var s1 := s.(isChasing := true);
      if !s1.base.hasPlayer then (s1, false)
      else if f.distance <= c.attackRange && CanAttackPlayer(c, s1, f.now) && c.canAttackPlayer
              && c.hasAttackSystem && f.systemAccepts
      then (s1.(lastAttackTime := f.now), true)
      else (s1, false)
    else
      var s1 := s.(isChasing := false);
      if !c.enablePatrol then (s1, false)
      else if c.patrolPointCount > 0 then (PatrolPointStep(c, s1, f), false)
      else (s1, false)
  }

  /**
   * `Update` (inherited): nothing unless alive; otherwise detection runs,
   * leaving aggro clears the chasing flag, and the behaviour runs.
   */
  function UpdateStep(bc: EnemyBase.Config, c: Config, s: State, f: Frame): (r: (State, bool))
    ensures !EnemyBase.IsAlive(s.base) ==> r == (s, false)
    ensures EnemyBase.IsAlive(s.base) ==> r.0.base == EnemyBase.DetectionStep(bc, s.base, f.distance).0
    ensures EnemyBase.IsAlive(s.base) ==> (r.0.isChasing <==> r.0.base.isAggro)
    ensures EnemyBase.IsAlive(s.base) ==>
              var (b1, change) := EnemyBase.DetectionStep(bc, s.base, f.distance);
              r == BehaviorStep(c, s.(base := b1, isChasing := change != EnemyBase.ExitedAggro && s.isChasing), f)
  {
    if !EnemyBase.IsAlive(s.base) then (s, false)
    else
      var (b1, change, _) := EnemyBase.UpdateStep(bc, s.base, f.distance);
      var s1 := s.(base := b1);
      var s2 := if change == EnemyBase.ExitedAggro then s1.(isChasing := false) else s1;
      BehaviorStep(c, s2, f)
  }

  /**
   * `TakeDamage` (inherited) with the `OnEnemyDamageTaken` override: when
   * the health component reports damage from a Player-tagged source, a
   * non-aggro enemy turns aggro.
   */
  function TakeDamageStep(hc: ComponentHealth.Config, s: State, damage: real, fromPlayer: bool): (r: State)
    ensures !EnemyBase.IsAlive(s.base) ==> r == s
    ensures r.base.(isAggro := s.base.isAggro) == EnemyBase.TakeDamageStep(hc, s.base, damage).0
    ensures r.base.isAggro <==> s.base.isAggro || (fromPlayer && EnemyBase.TakeDamageStep(hc, s.base, damage).1)
    ensures r.(base := s.base) == s
  {
    var (b1, hook) := EnemyBase.TakeDamageStep(hc, s.base, damage);
    if hook && fromPlayer && !b1.isAggro then s.(base := b1.(isAggro := true))
    else s.(base := b1)
  }

  /** Applying the patrol-point advance `k` times. */
  function Advance(i: int, n: nat, k: nat): int
    requires n > 0
    decreases k
  {
    if k == 0 then i else Advance((i + 1) % n, n, k - 1)
  }

  lemma NextIndex(i: int, n: nat)
    requires 0 <= i < n
    ensures (i + 1) % n == if i + 1 < n then i + 1 else 0
  {
  }

  /** Advancing from `i` walks up the indices and wraps to 0 on reaching `n`. */
  lemma {:induction false} AdvanceWalks(i: int, n: nat, k: nat)
    requires 0 <= i < n && i + k <= n
    decreases k
    ensures Advance(i, n, k) == if i + k < n then i + k else 0
  {
    if k > 0 {
      NextIndex(i, n);
      if i + 1 < n {
        AdvanceWalks(i + 1, n, k - 1);
      }
    }
  }

  lemma {:induction false} AdvanceCompose(i: int, n: nat, a: nat, b: nat)
    requires n > 0
    decreases a
    ensures Advance(i, n, a + b) == Advance(Advance(i, n, a), n, b)
  {
    if a > 0 {
      AdvanceCompose((i + 1) % n, n, a - 1, b);
    }
  }

  /** Arriving at points `n` times from any valid index returns to it: the points are visited in a cycle. */
  lemma AdvanceFullCycle(i: int, n: nat)
    requires 0 <= i < n
    ensures Advance(i, n, n) == i
  {
    AdvanceCompose(i, n, n - i, i);
    AdvanceWalks(i, n, n - i);
    AdvanceWalks(0, n, i);
  }

  /**
   * A positive hit from the player that the health component accepts makes
   * the enemy aggro, whether or not it was before; the fallback health path
   * calls no damage hook and leaves aggro as it was.
   */
  lemma PlayerHitProvokes(hc: ComponentHealth.Config, s: State, damage: real)
    requires EnemyBase.IsAlive(s.base) && damage > 0.0
    ensures s.base.component.Some? && ComponentHealth.CanTakeDamage(s.base.component.value) ==>
              TakeDamageStep(hc, s, damage, true).base.isAggro
    ensures s.base.component.None? ==> TakeDamageStep(hc, s, damage, true).base.isAggro == s.base.isAggro
  {
  }

  class BasicMeleeEnemy {
    const cfg: Config
    const base: EnemyBase.BaseEnemy
    var currentPatrolIndex: int
    var lastAttackTime: real
    var isChasing: bool

    function Model(): State
      reads this, base, base.healthComponent
    {
      State(base.Model(), currentPatrolIndex, lastAttackTime, isChasing)
    }

    constructor (config: Config, b: EnemyBase.BaseEnemy)
      ensures cfg == config && base == b
      ensures currentPatrolIndex == 0 && lastAttackTime == 0.0 && !isChasing
    {
      cfg := config;
      base := b;
      currentPatrolIndex := 0;
      lastAttackTime := 0.0;
      isChasing := false;
    }

    method Update(f: Frame) returns (attacked: bool)
      modifies this, base
      ensures (Model(), attacked) == UpdateStep(base.cfg, cfg, old(Model()), f)
    {
      attacked := false;
      assert base.Alive() == EnemyBase.IsAlive(base.Model());
      if !base.Alive() {
        return;
      }
      var change := base.UpdatePlayerDetection(f.distance);
      if change == EnemyBase.ExitedAggro {
        // OnPlayerExitAggro
        isChasing := false;
      }
      attacked := UpdateBehavior(f);
    }

    method UpdateBehavior(f: Frame) returns (attacked: bool)
      modifies this
      ensures (Model(), attacked) == BehaviorStep(cfg, old(Model()), f)
    {
      attacked := false;
      assert base.Alive() == EnemyBase.IsAlive(base.Model());
      if !base.Alive() {
        return;
      }
      if base.isAggro {
        // UpdateChaseAndAttackBehavior
        isChasing := true;
        if !base.hasPlayer {
          return;
        }
        if f.distance <= cfg.attackRange && f.now >= lastAttackTime + cfg.attackCooldown && cfg.canAttackPlayer {
          // TryAttackPlayer
          if cfg.hasAttackSystem && f.systemAccepts {
            lastAttackTime := f.now;
            attacked := true;
          }
        }
      } else {
        // UpdatePatrolBehavior
        isChasing := false;
        if !cfg.enablePatrol {
          return;
        }
        if cfg.patrolPointCount > 0 {
          UpdatePatrolPointMovement(f);
        }
      }
    }

    method UpdatePatrolPointMovement(f: Frame)
      requires cfg.patrolPointCount > 0
      modifies this
      ensures Model() == PatrolPointStep(cfg, old(Model()), f)
    {
      if currentPatrolIndex >= cfg.patrolPointCount {
        return;
      }
      if !f.pointPresent {
        return;
      }
      if f.distToPoint < 0.5 {
        currentPatrolIndex := (currentPatrolIndex + 1) % cfg.patrolPointCount;
      }
    }

    method TakeDamage(damage: real, fromPlayer: bool)
      modifies base, base.healthComponent
      ensures Model() == TakeDamageStep(old(base.HealthConfig()), old(Model()), damage, fromPlayer)
    {
      var hook := base.TakeDamage(damage);
      if hook {
        // OnEnemyDamageTaken
        if fromPlayer && !base.isAggro {
          base.isAggro := true;
        }
      }
    }
  }
}
