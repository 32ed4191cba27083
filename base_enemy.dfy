/**
 * The shared enemy base (`BaseEnemy`): detection and aggro hysteresis, and
 * damage routed either to an attached health component or to a fallback
 * health value. The subclass hooks (behaviour, movement, death and damage
 * reactions) are abstract in the source; the model reports when they would
 * run. The distance to the player is given each frame.
 */
module EnemyBase {

  import opened Common
  import ComponentHealth

  datatype Config = Config(detectionRange: real, aggroRange: real, deAggroRange: real)

  const Defaults := Config(5.0, 3.0, 8.0)

  datatype State = State(
    health: real,                            // fallback health, used without a component
    isAlive: bool,
    isAggro: bool,
    isPlayerInRange: bool,
    hasPlayer: bool,
    component: Option<ComponentHealth.State>)

  datatype AggroChange = NoChange | EnteredAggro | ExitedAggro

  /** `IsAlive`: not marked dead, and the component (if any) still alive. */
  predicate IsAlive(s: State)
  {
    s.isAlive && (s.component.None? || ComponentHealth.IsAlive(s.component.value))
  }

  /** `CanTakeDamage`: alive, and the component (if any) accepts damage. */
  predicate CanTakeDamage(s: State)
  {
    IsAlive(s) && (s.component.None? || ComponentHealth.CanTakeDamage(s.component.value))
  }

  /** `Health`: the component's health when there is one, else the fallback value. */
  function Health(s: State): (r: real)
    ensures s.component.Some? ==> r == s.component.value.currentHealth
    ensures s.component.None? ==> r == s.health
  {
    if s.component.Some? then s.component.value.currentHealth else s.health
  }

  /**
   * `UpdatePlayerDetection`: without a player nothing changes. Otherwise
   * the in-range flag follows `detectionRange`; aggro is entered only from
   * non-aggro within `aggroRange`, and left only from aggro beyond
   * `deAggroRange`.
   */
  function DetectionStep(c: Config, s: State, distance: real): (r: (State, AggroChange))
    ensures !s.hasPlayer ==> r == (s, NoChange)
    ensures s.hasPlayer ==> (r.0.isPlayerInRange <==> distance <= c.detectionRange)
    ensures r.1 == EnteredAggro <==> s.hasPlayer && !s.isAggro && distance <= c.aggroRange
    ensures r.1 == ExitedAggro <==> s.hasPlayer && s.isAggro && distance > c.deAggroRange
    ensures r.0.isAggro == (if r.1 == EnteredAggro then true else if r.1 == ExitedAggro then false else s.isAggro)
    ensures r.0.(isPlayerInRange := s.isPlayerInRange, isAggro := s.isAggro) == s
  {
    if !s.hasPlayer then (s, NoChange)
    else
      var s1 := s.(isPlayerInRange := distance <= c.detectionRange);
      if !s1.isAggro && distance <= c.aggroRange then (s1.(isAggro := true), EnteredAggro)
      else if s1.isAggro && distance > c.deAggroRange then (s1.(isAggro := false), ExitedAggro)
      else (s1, NoChange)
  }

  /**
   * `Update`: nothing while not alive; otherwise detection runs and then
   * the subclass behaviour (the second result says whether it ran).
   */
  function UpdateStep(c: Config, s: State, distance: real): (r: (State, AggroChange, bool))
    ensures !IsAlive(s) ==> r == (s, NoChange, false)
    ensures IsAlive(s) ==> (r.0, r.1) == DetectionStep(c, s, distance) && r.2
  {
    if !IsAlive(s) then (s, NoChange, false)
    else
      var (s1, change) := DetectionStep(c, s, distance);
      (s1, change, true)
  }

  /** `FixedUpdate`: the subclass movement runs only while alive. */
  function MovementRuns(s: State): (r: bool)
    ensures r <==> IsAlive(s)
  {
    IsAlive(s)
  }

  /** `OnDeath`: marks the enemy dead; nothing ever marks it alive again. */
  function OnDeathStep(s: State): (r: State)
    ensures !r.isAlive && !IsAlive(r)
    ensures r.(isAlive := s.isAlive) == s
  {
    s.(isAlive := false)
  }

  /**
   * `TakeDamage`: ignored when not alive. With a component, the damage is
   * passed on; the component's damage event runs the `OnDamageTaken` hook
   * (reported as the second result) and its death event runs `OnDeath`.
   * Without one, the fallback health drops, floored at 0, `OnDeath` runs at
   * 0, and the damage hook is not called.
   */
  function TakeDamageStep(hc: ComponentHealth.Config, s: State, damage: real): (r: (State, bool))
    ensures !IsAlive(s) ==> r == (s, false)
    ensures IsAlive(s) && s.component.None? ==>
              && r.0.health == Max(0.0, s.health - damage) && (r.0.isAlive <==> r.0.health > 0.0)
              && r.0.component == s.component && !r.1
    ensures IsAlive(s) && s.component.Some? ==>
              && r.0.component == Some(ComponentHealth.TakeDamageStep(hc, s.component.value, damage).0)
              && (r.0.isAlive <==> !ComponentHealth.TakeDamageStep(hc, s.component.value, damage).2)
              && (r.1 <==> ComponentHealth.TakeDamageStep(hc, s.component.value, damage).1.Some?)
              && r.0.health == s.health
    ensures r.0.isAggro == s.isAggro && r.0.hasPlayer == s.hasPlayer
    ensures !s.isAlive ==> !r.0.isAlive
  {
    if !IsAlive(s) then (s, false)
    else if s.component.Some? then
      var (cs, dealt, died) := ComponentHealth.TakeDamageStep(hc, s.component.value, damage);
      var s1 := s.(component := Some(cs));
      (if died then OnDeathStep(s1) else s1, dealt.Some?)
    else
      var h := Max(0.0, s.health - damage);
      var s1 := s.(health := h);
      (if h <= 0.0 then OnDeathStep(s1) else s1, false)
  }

  datatype Event = Frame(distance: real) | Hit(damage: real)

  function Run(c: Config, hc: ComponentHealth.Config, s: State, events: seq<Event>): State
    decreases |events|
  {
    if events == [] then s
    else
      var s1 := match events[0]
        case Frame(d) => UpdateStep(c, s, d).0
        case Hit(dmg) => TakeDamageStep(hc, s, dmg).0;
      Run(c, hc, s1, events[1..])
  }

  /** Death is permanent: after `OnDeath` no sequence of frames and hits revives the enemy or changes it. */
  lemma {:induction false} DeadStaysDead(c: Config, hc: ComponentHealth.Config, s: State, events: seq<Event>)
    requires !s.isAlive
    decreases |events|
    ensures Run(c, hc, s, events) == s
  {
    if events != [] {
      DeadStaysDead(c, hc, s, events[1..]);
    }
  }

  /**
   * Hysteresis: with `aggroRange <= deAggroRange`, a frame whose distance
   * lies between the two ranges keeps the aggro flag as it was.
   */
  lemma AggroStableBetweenRanges(c: Config, s: State, distance: real)
    requires c.aggroRange < distance <= c.deAggroRange
    ensures UpdateStep(c, s, distance).0.isAggro == s.isAggro
  {
  }

  class BaseEnemy {
    const cfg: Config
    var health: real
    var isAlive: bool
    var isAggro: bool
    var isPlayerInRange: bool
    var hasPlayer: bool
    var healthComponent: ComponentHealth.HealthComponent?

    function Model(): State
      reads this, healthComponent
    {
      State(health, isAlive, isAggro, isPlayerInRange, hasPlayer,
            if healthComponent == null then None else Some(healthComponent.Model()))
    }

    /** Creation and `Awake`: an optional health component is attached and its death event wired to `OnDeath`. */
    constructor (config: Config, initialHealth: real, component: ComponentHealth.HealthComponent?)
      ensures cfg == config && healthComponent == component
      ensures health == initialHealth && isAlive && !isAggro && !isPlayerInRange && !hasPlayer
    {
      cfg := config;
      health := initialHealth;
      isAlive := true;
      isAggro, isPlayerInRange, hasPlayer := false, false, false;
      healthComponent := component;
    }

    /** `Start`: `FindPlayer` records whether a player-tagged object exists. */
    method Start(playerFound: bool)
      modifies this
      ensures Model() == old(Model()).(hasPlayer := playerFound)
      ensures healthComponent == old(healthComponent)
    {
      hasPlayer := playerFound;
    }

    /** The attached component's settings (any value will do without one). */
    function HealthConfig(): ComponentHealth.Config
      reads this, healthComponent
    {
      if healthComponent == null then ComponentHealth.Defaults else healthComponent.cfg
    }

    predicate Alive()
      reads this, healthComponent
    {
      isAlive && (healthComponent == null || healthComponent.currentHealth > 0.0)
    }

    method UpdatePlayerDetection(distance: real) returns (change: AggroChange)
      modifies this
      ensures (Model(), change) == DetectionStep(cfg, old(Model()), distance)
      ensures healthComponent == old(healthComponent)
    {
      change := NoChange;
      if !hasPlayer {
        return;
      }
      isPlayerInRange := distance <= cfg.detectionRange;
      if !isAggro && distance <= cfg.aggroRange {
        isAggro := true;
        change := EnteredAggro;
      } else if isAggro && distance > cfg.deAggroRange {
        isAggro := false;
        change := ExitedAggro;
      }
    }

    method Update(distance: real) returns (change: AggroChange, behaviorRan: bool)
      modifies this
      ensures (Model(), change, behaviorRan) == UpdateStep(cfg, old(Model()), distance)
      ensures healthComponent == old(healthComponent)
    {
      assert Alive() == IsAlive(Model());
      if !Alive() {
        return NoChange, false;
      }
      change := UpdatePlayerDetection(distance);
      behaviorRan := true;
    }

    method TakeDamage(damage: real) returns (damageHook: bool)
      modifies this, healthComponent
      ensures (Model(), damageHook) == TakeDamageStep(HealthConfig(), old(Model()), damage)
      ensures healthComponent == old(healthComponent)
    {
      damageHook := false;
      assert Alive() == IsAlive(Model());
      if !Alive() {
        return;
      }
      if healthComponent != null {
        var dealt, died := healthComponent.TakeDamage(damage);
        damageHook := dealt.Some?;
        if died {
          OnDeath();
        }
      } else {
        health := Max(0.0, health - damage);
        if health <= 0.0 {
          OnDeath();
        }
      }
    }

    method OnDeath()
      modifies this
      ensures Model() == OnDeathStep(old(Model()))
      ensures healthComponent == old(healthComponent)
    {
      isAlive := false;
    }
  }
}
