/**
 * The player's integer health system (namespace ElderCloak.Player.Health).
 * A non-lethal hit starts an invulnerability window that `Update` counts
 * down by `Time.deltaTime`; a lethal hit only reports death. Health is a
 * C# `int`, so the subtraction and the heal's sum wrap around at 32 bits.
 */
module PlayerHealthInt {
  import opened Common

  datatype Config = Config(invulnerabilityTime: real)

  const Defaults := Config(1.5)

  datatype State = State(
    maxHealth: Int32,
    currentHealth: Int32,
    isInvulnerable: bool,
    invulnerabilityTimer: real)

  predicate Inv(s: State)
  {
    0 <= s.currentHealth <= s.maxHealth
  }

  predicate IsDead(s: State)
  {
    s.currentHealth <= 0
  }

  /** `Awake`: full health. */
  function AwakeStep(s: State): (r: State)
    ensures r.currentHealth == r.maxHealth == s.maxHealth
    ensures s.maxHealth >= 0 ==> Inv(r)
    ensures s.maxHealth > 0 ==> !IsDead(r)
  {
    s.(currentHealth := s.maxHealth)
  }

  /** `Update`: while invulnerable the timer runs down, and the flag clears once it reaches 0. */
  function UpdateStep(s: State, dt: real): (r: State)
    ensures !s.isInvulnerable ==> r == s
    ensures s.isInvulnerable ==> r.invulnerabilityTimer == s.invulnerabilityTimer - dt
    ensures s.isInvulnerable ==> (r.isInvulnerable <==> s.invulnerabilityTimer - dt > 0.0)
    ensures r.currentHealth == s.currentHealth && r.maxHealth == s.maxHealth
  {
    if s.isInvulnerable then
      var timer := s.invulnerabilityTimer - dt;
      s.(invulnerabilityTimer := timer, isInvulnerable := !(timer <= 0.0))
    else s
  }

  /**
   * `TakeDamage`: ignored when dead or invulnerable. Otherwise health drops
   * by the damage, floored at 0; a lethal hit reports death, any other hit
   * starts the invulnerability window. A negative damage so large that the
   * 32-bit difference overflows wraps to a negative value and kills.
   * Results: new state, whether the hit landed, whether `Die` ran.
   */
  function TakeDamageStep(c: Config, s: State, damage: Int32): (r: (State, bool, bool))
    ensures IsDead(s) || s.isInvulnerable ==> r == (s, false, false)
    ensures !IsDead(s) && !s.isInvulnerable && s.currentHealth as int - damage as int <= Int32Max ==>
              r.0.currentHealth as int == MaxInt(0, s.currentHealth as int - damage as int)
    ensures !IsDead(s) && !s.isInvulnerable && s.currentHealth as int - damage as int > Int32Max ==>
              r.0.currentHealth == 0 && r.2
    ensures !IsDead(s) && !s.isInvulnerable ==>
              && r.1
              && (r.2 <==> IsDead(r.0))
              && (r.2 ==> !r.0.isInvulnerable && r.0.invulnerabilityTimer == s.invulnerabilityTimer)
              && (!r.2 ==> r.0.isInvulnerable && r.0.invulnerabilityTimer == c.invulnerabilityTime)
    ensures r.0.maxHealth == s.maxHealth
    ensures Inv(s) && damage >= 0 ==> Inv(r.0)
  {
    if IsDead(s) || s.isInvulnerable then (s, false, false)
    else
      var diff := Wrap32(s.currentHealth as int - damage as int);
      var cur := if diff > 0 then diff else 0;
      if cur <= 0 then (s.(currentHealth := cur), true, true)
      else (s.(currentHealth := cur, isInvulnerable := true, invulnerabilityTimer := c.invulnerabilityTime), true, false)
  }

  /**
   * `Heal`: ignored when dead; never raises health above the maximum.
   * Reports whether health changed. A sum past 2^31 - 1 wraps to a negative
   * health, which no later call treats as a death.
   */
  function HealStep(s: State, amount: Int32): (r: (State, bool))
    ensures IsDead(s) ==> r == (s, false)
    ensures !IsDead(s) && s.currentHealth as int + amount as int <= Int32Max ==>
              r.0.currentHealth as int == MinInt(s.maxHealth as int, s.currentHealth as int + amount as int)
    ensures !IsDead(s) && s.currentHealth as int + amount as int > Int32Max ==>
              r.0.currentHealth as int == MinInt(s.maxHealth as int, s.currentHealth as int + amount as int - 0x1_0000_0000)
              && r.0.currentHealth < 0
    ensures !IsDead(s) ==> r.0.currentHealth <= s.maxHealth
    ensures r.1 <==> r.0.currentHealth != s.currentHealth
    ensures r.0.(currentHealth := s.currentHealth) == s
    ensures Inv(s) && amount >= 0 && s.currentHealth as int + amount as int <= Int32Max ==> Inv(r.0)
  {
    if IsDead(s) then (s, false)
    else
      var sum := Wrap32(s.currentHealth as int + amount as int);
      var cur := if s.maxHealth < sum then s.maxHealth else sum;
      (s.(currentHealth := cur), cur != s.currentHealth)
  }

  /** `SetMaxHealth`: current health is lowered to the new maximum when it exceeds it. */
  function SetMaxHealthStep(s: State, newMax: Int32): (r: State)
    ensures r.maxHealth == newMax && r.currentHealth <= newMax
    ensures s.currentHealth <= newMax ==> r.currentHealth == s.currentHealth
    ensures s.currentHealth > newMax ==> r.currentHealth == newMax
    ensures r.isInvulnerable == s.isInvulnerable
    ensures Inv(s) && newMax >= 0 ==> Inv(r)
  {
    s.(maxHealth := newMax, currentHealth := if s.currentHealth < newMax then s.currentHealth else newMax)
  }

  /** `Respawn`: full health with invulnerability and its timer cleared. */
  function RespawnStep(s: State): (r: State)
    ensures r.currentHealth == s.maxHealth && !r.isInvulnerable && r.invulnerabilityTimer == 0.0
    ensures s.maxHealth >= 0 ==> Inv(r)
  {
    s.(currentHealth := s.maxHealth, isInvulnerable := false, invulnerabilityTimer := 0.0)
  }

  /** Without an upper clamp, a negative damage value heals past the maximum. */
  lemma NegativeDamageExceedsMax()
    ensures var s := State(100, 100, false, 0.0);
            TakeDamageStep(Defaults, s, -5).0.currentHealth == 105
  {
  }

  /** The most negative damage overflows the difference, and the hit kills instead of healing. */
  lemma MostNegativeDamageKills()
    ensures var s := State(100, 100, false, 0.0);
            TakeDamageStep(Defaults, s, -0x8000_0000) == (s.(currentHealth := 0), true, true)
  {
  }

  /** Healing a full player by `int.MaxValue` wraps health to a negative value without reporting a death. */
  lemma HealOverflowLeavesNegativeHealth()
    ensures var s := State(100, 100, false, 0.0);
            HealStep(s, 0x7fff_ffff) == (s.(currentHealth := -2147483549), true)
            && IsDead(HealStep(s, 0x7fff_ffff).0)
  {
  }

  /** A non-lethal hit protects the player from a second hit until the window runs out. */
  lemma SecondHitBlockedDuringWindow(c: Config, s: State, d1: Int32, d2: Int32, dt: real)
    requires c.invulnerabilityTime > 0.0 && 0.0 <= dt < c.invulnerabilityTime
    requires TakeDamageStep(c, s, d1).1 && !TakeDamageStep(c, s, d1).2
    ensures var s1 := UpdateStep(TakeDamageStep(c, s, d1).0, dt);
            TakeDamageStep(c, s1, d2) == (s1, false, false)
  {
  }

  class HealthSystem {
    const cfg: Config
    var maxHealth: Int32
    var currentHealth: Int32
    var isInvulnerable: bool
    var invulnerabilityTimer: real

    function Model(): State
      reads this
    {
      State(maxHealth, currentHealth, isInvulnerable, invulnerabilityTimer)
    }

    constructor (config: Config, initialMax: Int32)
      ensures cfg == config && Model() == State(initialMax, 0, false, 0.0)
    {
      cfg := config;
      maxHealth := initialMax;
      currentHealth := 0;
      isInvulnerable := false;
      invulnerabilityTimer := 0.0;
    }

    method Awake()
      modifies this
      ensures Model() == AwakeStep(old(Model()))
    {
      currentHealth := maxHealth;
    }

    method Update(dt: real)
      modifies this
      ensures Model() == UpdateStep(old(Model()), dt)
    {
      if isInvulnerable {
        invulnerabilityTimer := invulnerabilityTimer - dt;
        if invulnerabilityTimer <= 0.0 {
          isInvulnerable := false;
        }
      }
    }

    method TakeDamage(damage: Int32) returns (landed: bool, died: bool)
      modifies this
      ensures (Model(), landed, died) == TakeDamageStep(cfg, old(Model()), damage)
    {
      landed, died := false, false;
      if currentHealth <= 0 || isInvulnerable {
        return;
      }
      var diff := Wrap32(currentHealth as int - damage as int);
      currentHealth := if diff > 0 then diff else 0;
      landed := true;
      if currentHealth <= 0 {
        died := true;
      } else {
        // StartInvulnerability
        isInvulnerable := true;
        invulnerabilityTimer := cfg.invulnerabilityTime;
      }
    }

    method Heal(amount: Int32) returns (changed: bool)
      modifies this
      ensures (Model(), changed) == HealStep(old(Model()), amount)
    {
      changed := false;
      if currentHealth <= 0 {
        return;
      }
      var oldHealth := currentHealth;
      var sum := Wrap32(currentHealth as int + amount as int);
      currentHealth := if maxHealth < sum then maxHealth else sum;
      changed := currentHealth != oldHealth;
    }

    method SetMaxHealth(newMax: Int32)
      modifies this
      ensures Model() == SetMaxHealthStep(old(Model()), newMax)
    {
      maxHealth := newMax;
      currentHealth := if currentHealth < maxHealth then currentHealth else maxHealth;
    }

    method Respawn()
      modifies this
      ensures Model() == RespawnStep(old(Model()))
    {
      currentHealth := maxHealth;
      isInvulnerable := false;
      invulnerabilityTimer := 0.0;
    }
  }
}
