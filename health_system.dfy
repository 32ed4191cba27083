/**
 * The float health system with invulnerability and regeneration
 * (namespace ElderCloak.Health).
 *
 * `Time.time` and `Time.deltaTime` are parameters. Events are reported as
 * results: the damage passed to `OnDamageTaken`, whether `OnDeath` fired,
 * whether `OnHealthRestored` fired. `SetInvulnerable` with a duration starts
 * a coroutine that clears the flag later; pending coroutines are kept as
 * their due times in `pendingClears`.
 */
module Health {
  import opened Common

  /** Inspector setting the code never writes. */
  datatype Config = Config(invulnerabilityDuration: real)

  const Defaults := Config(1.0)

  datatype State = State(
    maxHealth: real,
    currentHealth: real,
    canTakeDamage: bool,
    regenerateHealth: bool,
    regenerationRate: real,
    regenerationDelay: real,
    isInvulnerable: bool,
    lastDamageTime: real,
    isDead: bool,
    hasOwner: bool,
    pendingClears: seq<real>)

  /** The health bounds every operation keeps once they hold. */
  predicate Inv(s: State)
  {
    0.0 <= s.maxHealth && 0.0 <= s.currentHealth <= s.maxHealth
  }

  predicate IsAlive(s: State)
  {
    !s.isDead && s.currentHealth > 0.0
  }

  predicate CanTakeDamageNow(s: State)
  {
    s.canTakeDamage && !s.isDead && !s.isInvulnerable
  }

  function HealthPercentage(s: State): (p: real)
    ensures s.maxHealth <= 0.0 ==> p == 0.0
    ensures Inv(s) ==> 0.0 <= p <= 1.0
    ensures Inv(s) && s.maxHealth > 0.0 ==> (p == 1.0 <==> s.currentHealth == s.maxHealth)
  {
    if s.maxHealth > 0.0 then s.currentHealth / s.maxHealth else 0.0
  }

  /** `Initialize`: full health, alive, not invulnerable. */
  function InitializeStep(s: State): (r: State)
    ensures r.currentHealth == r.maxHealth == s.maxHealth
    ensures !r.isDead && !r.isInvulnerable && r.hasOwner
    ensures s.maxHealth >= 0.0 ==> Inv(r) && (s.maxHealth > 0.0 ==> IsAlive(r))
  {
    s.(currentHealth := s.maxHealth, isDead := false, isInvulnerable := false, hasOwner := true)
  }

  /** `SetMaxHealth`: the new maximum is never negative; the ratio is kept or the value clamped. */
  function SetMaxHealthStep(s: State, newMax: real, adjustCurrent: bool): (r: State)
    ensures r.maxHealth == Max(0.0, newMax)
    ensures adjustCurrent && s.maxHealth > 0.0 ==>
              r.currentHealth * s.maxHealth == s.currentHealth * r.maxHealth
    ensures !(adjustCurrent && s.maxHealth > 0.0) ==>
              r.currentHealth <= r.maxHealth && r.currentHealth <= s.currentHealth
              && (s.currentHealth <= r.maxHealth ==> r.currentHealth == s.currentHealth)
    ensures Inv(s) ==> Inv(r)
    ensures r.isDead == s.isDead && r.canTakeDamage == s.canTakeDamage
  {
    var m := Max(0.0, newMax);
    var cur := if adjustCurrent && s.maxHealth > 0.0
               then Scale(m, s.currentHealth, s.maxHealth)
               else Min(s.currentHealth, m);
    s.(maxHealth := m, currentHealth := cur)
  }

  /**
   * `RestoreHealth`: ignored when dead or for a non-positive amount;
   * otherwise raises health by `amount` but never above the maximum. The
   * second result says whether the restore events fired (the value changed).
   */
  function RestoreHealthStep(s: State, amount: real): (r: (State, bool))
    ensures s.isDead || amount <= 0.0 ==> r == (s, false)
    ensures !s.isDead && amount > 0.0 ==>
              r.0.currentHealth <= s.maxHealth
              && (s.currentHealth + amount <= s.maxHealth ==> r.0.currentHealth == s.currentHealth + amount)
              && (s.currentHealth + amount >= s.maxHealth ==> r.0.currentHealth == s.maxHealth)
    ensures r.1 <==> r.0.currentHealth != s.currentHealth
    ensures r.0.(currentHealth := s.currentHealth) == s
    ensures Inv(s) ==> Inv(r.0) && r.0.currentHealth >= s.currentHealth
  {
    if s.isDead || amount <= 0.0 then (s, false)
    else
      var cur := Min(s.currentHealth + amount, s.maxHealth);
      (s.(currentHealth := cur), cur != s.currentHealth)
  }

  /** `RestoreToFull`: restores the maximum, so a living character ends at full health. */
  function RestoreToFullStep(s: State): (r: (State, bool))
    ensures Inv(s) && !s.isDead && s.maxHealth > 0.0 ==> r.0.currentHealth == s.maxHealth
    ensures s.isDead ==> r.0 == s
  {
    RestoreHealthStep(s, s.maxHealth)
  }

  /**
   * `TakeDamage` at time `now`: ignored for non-positive damage, when dead,
   * when damage is disabled or while invulnerable. Otherwise health drops by
   * the damage but not below 0, the damage reported is what was actually
   * removed, invulnerability starts when a duration is configured, and
   * death fires exactly when health reaches 0.
   * Results: new state, reported damage (None when ignored), death fired.
   */
  function TakeDamageStep(c: Config, s: State, damage: real, now: real): (r: (State, Option<real>, bool))
    ensures !CanTakeDamageNow(s) || damage <= 0.0 ==> r == (s, None, false)
    ensures CanTakeDamageNow(s) && damage > 0.0 ==>
              && r.0.currentHealth == Max(0.0, s.currentHealth - damage)
              && r.1 == Some(Min(damage, s.currentHealth))
              && r.0.lastDamageTime == now
              && r.0.isInvulnerable == (c.invulnerabilityDuration > 0.0)
              && (r.2 <==> r.0.currentHealth <= 0.0)
              && r.0.maxHealth == s.maxHealth
    ensures r.2 ==> r.0.isDead && !r.0.canTakeDamage && !s.isDead
    ensures !r.2 ==> r.0.isDead == s.isDead && r.0.canTakeDamage == s.canTakeDamage
    ensures r.0.currentHealth <= s.currentHealth || r.0.currentHealth == 0.0
    ensures Inv(s) ==> Inv(r.0)
  {
    if !CanTakeDamageNow(s) || damage <= 0.0 then (s, None, false)
    else
      var actual := Min(damage, s.currentHealth);
      var cur := Max(0.0, s.currentHealth - actual);
      var s1 := s.(currentHealth := cur, lastDamageTime := now,
                   isInvulnerable := c.invulnerabilityDuration > 0.0);
      if cur <= 0.0 && !s1.isDead then (s1.(isDead := true, canTakeDamage := false), Some(actual), true)
      else (s1, Some(actual), false)
  }

  /** `SetInvulnerable`: a positive duration with an owner schedules a clear at `now + duration`. */
  function SetInvulnerableStep(s: State, invulnerable: bool, duration: real, now: real): (r: State)
    ensures r.isInvulnerable == invulnerable
    ensures invulnerable && duration > 0.0 && s.hasOwner ==> r.pendingClears == s.pendingClears + [now + duration]
    ensures !(invulnerable && duration > 0.0 && s.hasOwner) ==> r.pendingClears == s.pendingClears
    ensures r.currentHealth == s.currentHealth && r.isDead == s.isDead
  {
    s.(isInvulnerable := invulnerable,
       pendingClears := if invulnerable && duration > 0.0 && s.hasOwner then s.pendingClears + [now + duration]
                        else s.pendingClears)
  }

  function Due(clears: seq<real>, now: real): (r: seq<real>)
    ensures forall t :: t in r ==> t in clears && t <= now
    ensures forall t :: t in clears && t <= now ==> t in r
  {
    if clears == [] then []
    else (if clears[0] <= now then [clears[0]] else []) + Due(clears[1..], now)
  }

  function NotDue(clears: seq<real>, now: real): (r: seq<real>)
    ensures forall t :: t in r ==> t in clears && t > now
    ensures forall t :: t in clears && t > now ==> t in r
  {
    if clears == [] then []
    else (if clears[0] > now then [clears[0]] else []) + NotDue(clears[1..], now)
  }

  /** The invulnerability coroutines whose wait has elapsed by `now` clear the flag. */
  function FireClearsStep(s: State, now: real): (r: State)
    ensures Due(s.pendingClears, now) != [] ==> !r.isInvulnerable
    ensures Due(s.pendingClears, now) == [] ==> r.isInvulnerable == s.isInvulnerable
    ensures forall t :: t in r.pendingClears ==> t > now
    ensures r.currentHealth == s.currentHealth && r.isDead == s.isDead
  {
    s.(isInvulnerable := if Due(s.pendingClears, now) != [] then false else s.isInvulnerable,
       pendingClears := NotDue(s.pendingClears, now))
  }

  /** `HandleInvulnerability`: the damage invulnerability ends once its duration has passed. */
  function HandleInvulnerabilityStep(c: Config, s: State, now: real): (r: State)
    ensures s.isInvulnerable && c.invulnerabilityDuration > 0.0 && now >= s.lastDamageTime + c.invulnerabilityDuration
            ==> !r.isInvulnerable
    ensures !(s.isInvulnerable && c.invulnerabilityDuration > 0.0 && now >= s.lastDamageTime + c.invulnerabilityDuration)
            ==> r == s
    ensures r.isInvulnerable ==> s.isInvulnerable
    ensures r.(isInvulnerable := s.isInvulnerable) == s
  {
    if s.isInvulnerable && c.invulnerabilityDuration > 0.0 && now >= s.lastDamageTime + c.invulnerabilityDuration
    then s.(isInvulnerable := false) else s
  }

  /** Regeneration is enabled, the character is alive and hurt, and the delay since the last hit has passed. */
  predicate RegenerationApplies(s: State, now: real)
  {
    s.regenerateHealth && !s.isDead && s.currentHealth < s.maxHealth
    && now >= s.lastDamageTime + s.regenerationDelay
  }

  /** `HandleRegeneration`: heals `rate * dt`, only when enabled, alive, hurt and past the delay. */
  function HandleRegenerationStep(s: State, now: real, dt: real): (r: State)
    ensures !RegenerationApplies(s, now) ==> r == s
    ensures RegenerationApplies(s, now) ==> r == RestoreHealthStep(s, s.regenerationRate * dt).0
    ensures r.currentHealth != s.currentHealth ==>
              s.regenerateHealth && !s.isDead && now >= s.lastDamageTime + s.regenerationDelay
              && r.currentHealth <= s.maxHealth
    ensures r.(currentHealth := s.currentHealth) == s
    ensures Inv(s) ==> Inv(r)
  {
    if s.regenerateHealth && !s.isDead && s.currentHealth < s.maxHealth then
      if now >= s.lastDamageTime + s.regenerationDelay then RestoreHealthStep(s, s.regenerationRate * dt).0
      else s
    else s
  }

  /** `Update`: invulnerability timing, then regeneration. */
  function UpdateStep(c: Config, s: State, now: real, dt: real): (r: State)
    ensures Inv(s) ==> Inv(r)
    ensures r.isDead == s.isDead && r.maxHealth == s.maxHealth && r.canTakeDamage == s.canTakeDamage
  {
    HandleRegenerationStep(HandleInvulnerabilityStep(c, s, now), now, dt)
  }

  /** `Revive`: a negative amount means full health; the character is alive and damageable again. */
  function ReviveStep(s: State, amount: real): (r: State)
    ensures amount < 0.0 ==> r.currentHealth == s.maxHealth
    ensures amount >= 0.0 ==> r.currentHealth == Min(amount, s.maxHealth)
    ensures !r.isDead && r.canTakeDamage
    ensures s.maxHealth >= 0.0 ==> Inv(r)
  {
    var a := if amount < 0.0 then s.maxHealth else amount;
    s.(isDead := false, currentHealth := Min(a, s.maxHealth), canTakeDamage := true)
  }

  /** Once death has fired, every later hit is ignored until a revive. */
  lemma DeadIgnoresDamage(c: Config, s: State, d1: real, t1: real, d2: real, t2: real)
    requires TakeDamageStep(c, s, d1, t1).2
    ensures var s1 := TakeDamageStep(c, s, d1, t1).0;
            TakeDamageStep(c, s1, d2, t2) == (s1, None, false)
  {
  }

  /**
   * The invulnerability a landed hit starts holds for the configured
   * duration: a frame's `Update` before it has passed keeps the flag, and a
   * second hit on that frame is ignored; the first frame at or after it
   * clears the flag.
   */
  lemma SecondHitInsideWindowIgnored(c: Config, s: State, d1: real, t1: real, t2: real, dt: real, d2: real)
    requires c.invulnerabilityDuration > 0.0
    requires TakeDamageStep(c, s, d1, t1).1.Some?
    ensures var s2 := UpdateStep(c, TakeDamageStep(c, s, d1, t1).0, t2, dt);
            t2 < t1 + c.invulnerabilityDuration ==> s2.isInvulnerable && TakeDamageStep(c, s2, d2, t2) == (s2, None, false)
    ensures var s2 := UpdateStep(c, TakeDamageStep(c, s, d1, t1).0, t2, dt);
            t2 >= t1 + c.invulnerabilityDuration ==> !s2.isInvulnerable
  {
  }

  /** A run of regeneration ticks: pairs of `Time.time` and `Time.deltaTime`. */
  function Regenerate(s: State, ticks: seq<(real, real)>): State
    decreases |ticks|
  {
    if ticks == [] then s else Regenerate(HandleRegenerationStep(s, ticks[0].0, ticks[0].1), ticks[1..])
  }

  /** However long it regenerates, health never exceeds the maximum and never falls. */
  lemma {:induction false} RegenerationBounded(s: State, ticks: seq<(real, real)>)
    requires Inv(s)
    decreases |ticks|
    ensures Inv(Regenerate(s, ticks))
    ensures Regenerate(s, ticks).currentHealth >= s.currentHealth
  {
    if ticks != [] {
      var s1 := HandleRegenerationStep(s, ticks[0].0, ticks[0].1);
      assert s1.currentHealth >= s.currentHealth by {
        if s.regenerateHealth && !s.isDead && s.currentHealth < s.maxHealth
           && ticks[0].0 >= s.lastDamageTime + s.regenerationDelay {
          assert s1 == RestoreHealthStep(s, s.regenerationRate * ticks[0].1).0;
        }
      }
      RegenerationBounded(s1, ticks[1..]);
    }
  }

  class HealthSystem {
    const cfg: Config
    var maxHealth: real
    var currentHealth: real
    var canTakeDamage: bool
    var regenerateHealth: bool
    var regenerationRate: real
    var regenerationDelay: real
    var isInvulnerable: bool
    var lastDamageTime: real
    var isDead: bool
    /** Whether `Initialize` has recorded an owner to run coroutines on. */
    var hasOwner: bool
    /** Due times of the running invulnerability coroutines. */
    var pendingClears: seq<real>

    function Model(): State
      reads this
    {
      State(maxHealth, currentHealth, canTakeDamage, regenerateHealth, regenerationRate,
            regenerationDelay, isInvulnerable, lastDamageTime, isDead, hasOwner, pendingClears)
    }

    /** Field initialisers; `maxHealth` and `currentHealth` come from the inspector. */
    constructor (config: Config, initialMax: real, initialCurrent: real)
      ensures cfg == config
      ensures Model() == State(initialMax, initialCurrent, true, false, 5.0, 3.0, false, 0.0, false, false, [])
    {
      cfg := config;
      maxHealth := initialMax;
      currentHealth := initialCurrent;
      canTakeDamage := true;
      regenerateHealth := false;
      regenerationRate := 5.0;
      regenerationDelay := 3.0;
      isInvulnerable := false;
      lastDamageTime := 0.0;
      isDead := false;
      hasOwner := false;
      pendingClears := [];
    }

    method Initialize()
      modifies this
      ensures Model() == InitializeStep(old(Model()))
    {
      hasOwner := true;
      currentHealth := maxHealth;
      isDead := false;
      isInvulnerable := false;
    }

    method Update(now: real, dt: real)
      modifies this
      ensures Model() == UpdateStep(cfg, old(Model()), now, dt)
    {
      if isInvulnerable && cfg.invulnerabilityDuration > 0.0 && now >= lastDamageTime + cfg.invulnerabilityDuration {
        isInvulnerable := false;
      }
      if regenerateHealth && !isDead && currentHealth < maxHealth {
        if now >= lastDamageTime + regenerationDelay {
          var _ := RestoreHealth(regenerationRate * dt);
        }
      }
    }

    method SetMaxHealth(newMax: real, adjustCurrent: bool)
      modifies this
      ensures Model() == SetMaxHealthStep(old(Model()), newMax, adjustCurrent)
    {
      var previousMaxHealth := maxHealth;
      maxHealth := Max(0.0, newMax);
      if adjustCurrent && previousMaxHealth > 0.0 {
        var healthRatio := currentHealth / previousMaxHealth;
        currentHealth := maxHealth * healthRatio;
      } else {
        currentHealth := Min(currentHealth, maxHealth);
      }
    }

    method RestoreHealth(amount: real) returns (restored: bool)
      modifies this
      ensures (Model(), restored) == RestoreHealthStep(old(Model()), amount)
    {
      restored := false;
      if isDead || amount <= 0.0 {
        return;
      }
      var previousHealth := currentHealth;
      currentHealth := Min(currentHealth + amount, maxHealth);
      restored := currentHealth != previousHealth;
    }

    method RestoreToFull() returns (restored: bool)
      modifies this
      ensures (Model(), restored) == RestoreToFullStep(old(Model()))
    {
      restored := RestoreHealth(maxHealth);
    }

    method TakeDamage(damage: real, now: real) returns (dealt: Option<real>, died: bool)
      modifies this
      ensures (Model(), dealt, died) == TakeDamageStep(cfg, old(Model()), damage, now)
    {
      dealt, died := None, false;
      if !(canTakeDamage && !isDead && !isInvulnerable) || damage <= 0.0 {
        return;
      }
      var actualDamage := Min(damage, currentHealth);
      currentHealth := Max(0.0, currentHealth - actualDamage);
      lastDamageTime := now;
      isInvulnerable := cfg.invulnerabilityDuration > 0.0;
      dealt := Some(actualDamage);
      if currentHealth <= 0.0 && !isDead {
        // HandleDeath
        isDead := true;
        canTakeDamage := false;
        died := true;
      }
    }

    method SetCanTakeDamage(value: bool)
      modifies this
      ensures Model() == old(Model()).(canTakeDamage := value)
    {
      canTakeDamage := value;
    }

    method SetRegeneration(regenerate: bool, rate: real, delay: real)
      modifies this
      ensures Model() == old(Model()).(regenerateHealth := regenerate, regenerationRate := rate,
                                       regenerationDelay := delay)
    {
      regenerateHealth := regenerate;
      regenerationRate := rate;
      regenerationDelay := delay;
    }

    method SetInvulnerable(invulnerable: bool, duration: real, now: real)
      modifies this
      ensures Model() == SetInvulnerableStep(old(Model()), invulnerable, duration, now)
    {
      isInvulnerable := invulnerable;
      if invulnerable && duration > 0.0 {
        if hasOwner {
          pendingClears := pendingClears + [now + duration];
        }
      }
    }

    /** Resumes the invulnerability coroutines that are due at `now`. */
    method ResumeInvulnerabilityCoroutines(now: real)
      modifies this
      ensures Model() == FireClearsStep(old(Model()), now)
    {
      if Due(pendingClears, now) != [] {
        isInvulnerable := false;
      }
      pendingClears := NotDue(pendingClears, now);
    }

    method Revive(amount: real)
      modifies this
      ensures Model() == ReviveStep(old(Model()), amount)
    {
      var healthAmount := amount;
      if healthAmount < 0.0 {
        healthAmount := maxHealth;
      }
      isDead := false;
      currentHealth := Min(healthAmount, maxHealth);
      canTakeDamage := true;
    }
  }
}
