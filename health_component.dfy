/**
 * The MonoBehaviour health component shared by players and enemies
 * (`HealthComponent`). Invulnerability is either the permanent flag or a
 * timer that `Update` counts down by `Time.deltaTime`. Events are reported as
 * results: the amount passed to `onDamageTaken` / `onHealed` and whether
 * `Die` ran.
 */
module ComponentHealth {
  import opened Common

  datatype Config = Config(invulnerabilityDuration: real)

  const Defaults := Config(0.5)

  datatype State = State(
    maxHealth: real,
    currentHealth: real,
    invulnerable: bool,
    invulnerabilityTimer: real)

  /** Health stays within [0, max] once it is there. */
  predicate Inv(s: State)
  {
    0.0 < s.maxHealth && 0.0 <= s.currentHealth <= s.maxHealth
  }

  predicate IsAlive(s: State)
  {
    s.currentHealth > 0.0
  }

  predicate IsInvulnerable(s: State)
  {
    s.invulnerable || s.invulnerabilityTimer > 0.0
  }

  predicate CanTakeDamage(s: State)
  {
    IsAlive(s) && !IsInvulnerable(s)
  }

  /** `Awake`: an unset (non-positive) current health is filled to the maximum, any other value kept. */
  function AwakeStep(s: State): (r: State)
    ensures s.currentHealth <= 0.0 ==> r.currentHealth == s.maxHealth
    ensures s.currentHealth > 0.0 ==> r == s
    ensures r.(currentHealth := s.currentHealth) == s
    ensures s.maxHealth > 0.0 && s.currentHealth <= s.maxHealth ==> Inv(r) && IsAlive(r)
  {
    if s.currentHealth <= 0.0 then s.(currentHealth := s.maxHealth) else s
  }

  /** `Update`: the timer counts down by `dt` only while it is positive. */
  function UpdateStep(s: State, dt: real): (r: State)
    ensures s.invulnerabilityTimer > 0.0 ==> r.invulnerabilityTimer == s.invulnerabilityTimer - dt
    ensures s.invulnerabilityTimer <= 0.0 ==> r == s
    ensures r.(invulnerabilityTimer := s.invulnerabilityTimer) == s
    ensures dt >= 0.0 ==> r.invulnerabilityTimer <= s.invulnerabilityTimer
  {
    if s.invulnerabilityTimer > 0.0 then s.(invulnerabilityTimer := s.invulnerabilityTimer - dt) else s
  }

  /**
   * `TakeDamage`: ignored for non-positive damage, when dead or when
   * invulnerable. Otherwise health drops by the damage but not below 0, the
   * invulnerability timer restarts when a duration is configured, and `Die`
   * runs when health reaches 0.
   * Results: new state, damage reported (None when ignored), `Die` ran.
   */
  function TakeDamageStep(c: Config, s: State, damage: real): (r: (State, Option<real>, bool))
    ensures !CanTakeDamage(s) || damage <= 0.0 ==> r == (s, None, false)
    ensures CanTakeDamage(s) && damage > 0.0 ==>
              && r.0.currentHealth == Max(0.0, s.currentHealth - damage)
              && r.1 == Some(Min(damage, s.currentHealth))
              && (c.invulnerabilityDuration > 0.0 ==> r.0.invulnerabilityTimer == c.invulnerabilityDuration)
              && (c.invulnerabilityDuration <= 0.0 ==> r.0.invulnerabilityTimer == s.invulnerabilityTimer)
              && (r.2 <==> !IsAlive(r.0))
    ensures r.0.maxHealth == s.maxHealth && r.0.invulnerable == s.invulnerable
    ensures Inv(s) ==> Inv(r.0)
  {
    if !CanTakeDamage(s) || damage <= 0.0 then (s, None, false)
    else
      var actual := Min(damage, s.currentHealth);
      var cur := Max(0.0, s.currentHealth - actual);
      var timer := if c.invulnerabilityDuration > 0.0 then c.invulnerabilityDuration else s.invulnerabilityTimer;
      var r := s.(currentHealth := cur, invulnerabilityTimer := timer);
      (r, Some(actual), !IsAlive(r))
  }

  /**
   * `Heal`: ignored when dead or for a non-positive amount; otherwise heals by
   * the amount but never above the maximum, and reports the amount healed.
   */
  function HealStep(s: State, amount: real): (r: (State, Option<real>))
    ensures !IsAlive(s) || amount <= 0.0 ==> r == (s, None)
    ensures IsAlive(s) && amount > 0.0 && Inv(s) ==>
              && r.0.currentHealth == Min(s.maxHealth, s.currentHealth + amount)
              && r.1 == Some(r.0.currentHealth - s.currentHealth)
    ensures r.0.(currentHealth := s.currentHealth) == s
    ensures Inv(s) ==> Inv(r.0) && r.0.currentHealth >= s.currentHealth
  {
    if !IsAlive(s) || amount <= 0.0 then (s, None)
    else
      var actual := Min(amount, s.maxHealth - s.currentHealth);
      (s.(currentHealth := Min(s.maxHealth, s.currentHealth + actual)), Some(actual))
  }

  /** `RestoreFullHealth`: a living component returns to full health; the heal event fires only if it was hurt. */
  function RestoreFullHealthStep(s: State): (r: (State, Option<real>))
    ensures !IsAlive(s) ==> r == (s, None)
    ensures IsAlive(s) ==> r.0.currentHealth == s.maxHealth
    ensures r.1.Some? <==> IsAlive(s) && s.currentHealth < s.maxHealth
    ensures r.1.Some? ==> r.1.value == s.maxHealth - s.currentHealth
    ensures r.0.(currentHealth := s.currentHealth) == s
  {
    if !IsAlive(s) then (s, None)
    else
      var healAmount := s.maxHealth - s.currentHealth;
      (s.(currentHealth := s.maxHealth), if healAmount > 0.0 then Some(healAmount) else None)
  }

  /** `SetMaxHealth`: non-positive maxima are ignored; the ratio is kept, or health only lowered to fit. */
  function SetMaxHealthStep(s: State, newMax: real, adjust: bool): (r: State)
    ensures newMax <= 0.0 ==> r == s
    ensures newMax > 0.0 ==> r.maxHealth == newMax
    ensures newMax > 0.0 && adjust && s.maxHealth > 0.0 ==>
              r.currentHealth * s.maxHealth == s.currentHealth * newMax
    ensures newMax > 0.0 && !(adjust && s.maxHealth > 0.0) ==>
              r.currentHealth == Min(s.currentHealth, newMax)
    ensures Inv(s) ==> Inv(r)
    ensures r.invulnerable == s.invulnerable && r.invulnerabilityTimer == s.invulnerabilityTimer
  {
    if newMax <= 0.0 then s
    else if adjust && s.maxHealth > 0.0 then
      s.(currentHealth := Scale(newMax, s.currentHealth, s.maxHealth), maxHealth := newMax)
    else if s.currentHealth > newMax then s.(currentHealth := newMax, maxHealth := newMax)
    else s.(maxHealth := newMax)
  }

  /** `ApplyTemporaryInvulnerability` never shortens the remaining invulnerability. */
  function ApplyTemporaryInvulnerabilityStep(s: State, duration: real): (r: State)
    ensures r.invulnerabilityTimer >= s.invulnerabilityTimer && r.invulnerabilityTimer >= duration
    ensures r.invulnerabilityTimer == s.invulnerabilityTimer || r.invulnerabilityTimer == duration
    ensures r.(invulnerabilityTimer := s.invulnerabilityTimer) == s
  {
    s.(invulnerabilityTimer := Max(s.invulnerabilityTimer, duration))
  }

  /** `SetCurrentHealth`: the value is clamped into [0, max]; `Die` runs when the result is 0. */
  function SetCurrentHealthStep(s: State, value: real): (r: (State, bool))
    ensures s.maxHealth >= 0.0 ==> 0.0 <= r.0.currentHealth <= s.maxHealth
    ensures 0.0 <= value <= s.maxHealth ==> r.0.currentHealth == value
    ensures r.1 <==> !IsAlive(r.0)
    ensures r.0.(currentHealth := s.currentHealth) == s
    ensures Inv(s) ==> Inv(r.0)
  {
    var r := s.(currentHealth := Clamp(value, 0.0, s.maxHealth));
    (r, !IsAlive(r))
  }

  /** After a hit with a positive duration configured, the next hit within that duration is ignored. */
  lemma SecondHitIgnoredWhileTimerRuns(c: Config, s: State, d1: real, d2: real, dt: real)
    requires c.invulnerabilityDuration > 0.0 && 0.0 <= dt < c.invulnerabilityDuration
    requires TakeDamageStep(c, s, d1).1.Some?
    ensures var s1 := UpdateStep(TakeDamageStep(c, s, d1).0, dt);
            TakeDamageStep(c, s1, d2) == (s1, None, false)
  {
  }

  class HealthComponent {
    const cfg: Config
    var maxHealth: real
    var currentHealth: real
    var invulnerable: bool
    var invulnerabilityTimer: real

    function Model(): State
      reads this
    {
      State(maxHealth, currentHealth, invulnerable, invulnerabilityTimer)
    }

    /** Serialised values before `Awake`. */
    constructor (config: Config, initialMax: real, initialCurrent: real, initialInvulnerable: bool)
      ensures cfg == config && Model() == State(initialMax, initialCurrent, initialInvulnerable, 0.0)
    {
      cfg := config;
      maxHealth := initialMax;
      currentHealth := initialCurrent;
      invulnerable := initialInvulnerable;
      invulnerabilityTimer := 0.0;
    }

    method Awake()
      modifies this
      ensures Model() == AwakeStep(old(Model()))
    {
      if currentHealth <= 0.0 {
        currentHealth := maxHealth;
      }
    }

    method Update(dt: real)
      modifies this
      ensures Model() == UpdateStep(old(Model()), dt)
    {
      if invulnerabilityTimer > 0.0 {
        invulnerabilityTimer := invulnerabilityTimer - dt;
      }
    }

    method TakeDamage(damage: real) returns (dealt: Option<real>, died: bool)
      modifies this
      ensures (Model(), dealt, died) == TakeDamageStep(cfg, old(Model()), damage)
    {
      dealt, died := None, false;
      if !CanTakeDamage(Model()) || damage <= 0.0 {
        return;
      }
      var actualDamage := Min(damage, currentHealth);
      currentHealth := Max(0.0, currentHealth - actualDamage);
      if cfg.invulnerabilityDuration > 0.0 {
        invulnerabilityTimer := cfg.invulnerabilityDuration;
      }
      dealt := Some(actualDamage);
      died := !(currentHealth > 0.0);
    }

    method Heal(amount: real) returns (healed: Option<real>)
      modifies this
      ensures (Model(), healed) == HealStep(old(Model()), amount)
    {
      healed := None;
      if !(currentHealth > 0.0) || amount <= 0.0 {
        return;
      }
      var actualHeal := Min(amount, maxHealth - currentHealth);
      currentHealth := Min(maxHealth, currentHealth + actualHeal);
      healed := Some(actualHeal);
    }

    method RestoreFullHealth() returns (healed: Option<real>)
      modifies this
      ensures (Model(), healed) == RestoreFullHealthStep(old(Model()))
    {
      healed := None;
      if !(currentHealth > 0.0) {
        return;
      }
      var healAmount := maxHealth - currentHealth;
      currentHealth := maxHealth;
      if healAmount > 0.0 {
        healed := Some(healAmount);
      }
    }

    method SetMaxHealth(newMax: real, adjust: bool)
      modifies this
      ensures Model() == SetMaxHealthStep(old(Model()), newMax, adjust)
    {
      if newMax <= 0.0 {
        return;
      }
      if adjust && maxHealth > 0.0 {
        var healthRatio := currentHealth / maxHealth;
        currentHealth := newMax * healthRatio;
      } else if currentHealth > newMax {
        currentHealth := newMax;
      }
      maxHealth := newMax;
    }

    method SetInvulnerable(value: bool)
      modifies this
      ensures Model() == old(Model()).(invulnerable := value)
    {
      invulnerable := value;
    }

    method ApplyTemporaryInvulnerability(duration: real)
      modifies this
      ensures Model() == ApplyTemporaryInvulnerabilityStep(old(Model()), duration)
    {
      invulnerabilityTimer := Max(invulnerabilityTimer, duration);
    }

    method SetCurrentHealth(value: real) returns (died: bool)
      modifies this
      ensures (Model(), died) == SetCurrentHealthStep(old(Model()), value)
    {
      currentHealth := Clamp(value, 0.0, maxHealth);
      died := !(currentHealth > 0.0);
    }
  }
}
