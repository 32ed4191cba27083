/**
 * The player's timer-based melee attack (namespace
 * ElderCloak.Player.Combat, `MeleeAttackSystem`): a cooldown timer and an
 * attack timer counted down each frame, and one overlap query per attack
 * whose targets with a health system take `attackDamage`. The overlap
 * result is given as a sequence of collider ids, and the colliders that
 * carry a player-style health system as a set.
 */
module PlayerMelee {

  type ColliderId = nat

  datatype Config = Config(attackDamage: int, attackCooldown: real, attackDuration: real)

  const Defaults := Config(25, 0.5, 0.3)

  datatype State = State(cooldownTimer: real, isAttacking: bool, attackTimer: real)

  /** `CanAttack`: the cooldown has run out and no attack is in progress. */
  predicate CanAttack(s: State)
  {
    s.cooldownTimer <= 0.0 && !s.isAttacking
  }

  /** `Initialize` and `ResetCooldown`: the cooldown is cleared; an attack in progress is left alone. */
  function ResetCooldownStep(s: State): (r: State)
    ensures r.cooldownTimer == 0.0 && r.isAttacking == s.isAttacking && r.attackTimer == s.attackTimer
    ensures !s.isAttacking ==> CanAttack(r)
  {
    s.(cooldownTimer := 0.0)
  }

  /**
   * `Update`: the cooldown counts down only while positive; an attack in
   * progress counts down and ends on the frame its timer reaches 0.
   */
  function UpdateStep(s: State, dt: real): (r: State)
    ensures s.cooldownTimer > 0.0 ==> r.cooldownTimer == s.cooldownTimer - dt
    ensures s.cooldownTimer <= 0.0 ==> r.cooldownTimer == s.cooldownTimer
    ensures s.isAttacking ==> r.attackTimer == s.attackTimer - dt && (r.isAttacking <==> s.attackTimer - dt > 0.0)
    ensures !s.isAttacking ==> !r.isAttacking && r.attackTimer == s.attackTimer
  {
    var cd := if s.cooldownTimer > 0.0 then s.cooldownTimer - dt else s.cooldownTimer;
    if s.isAttacking then
      var t := s.attackTimer - dt;
      State(cd, !(t <= 0.0), t)
    else s.(cooldownTimer := cd)
  }

  /** `TryAttack`: refused with nothing changed unless `CanAttack`; otherwise both timers start. */
  function TryAttackStep(c: Config, s: State): (r: (State, bool))
    ensures r.1 <==> CanAttack(s)
    ensures !r.1 ==> r.0 == s
    ensures r.1 ==> r.0 == State(c.attackCooldown, true, c.attackDuration)
    ensures r.1 ==> !CanAttack(r.0)
  {
    if !CanAttack(s) then (s, false)
    else (State(c.attackCooldown, true, c.attackDuration), true)
  }

  /** `PerformAttack`: the colliders hit, in query order, that carry a health system. */
  function Damaged(hits: seq<ColliderId>, damageable: set<ColliderId>): (r: seq<ColliderId>)
    ensures |r| <= |hits|
    ensures forall t :: t in r <==> t in hits && t in damageable
  {
    if hits == [] then []
    else (if hits[0] in damageable then [hits[0]] else []) + Damaged(hits[1..], damageable)
  }

  /**
   * `Damaged` keeps the query order: filtering a concatenation filters each
   * part in turn (see `DamagedOne` for a single collider).
   */
  lemma {:induction false} DamagedKeepsQueryOrder(a: seq<ColliderId>, b: seq<ColliderId>, damageable: set<ColliderId>)
    ensures Damaged(a + b, damageable) == Damaged(a, damageable) + Damaged(b, damageable)
    decreases |a|
  {
    if a == [] {
      assert a + b == b;
    } else {
      var head := if a[0] in damageable then [a[0]] else [];
      assert (a + b)[0] == a[0];
      assert (a + b)[1..] == a[1..] + b;
      assert Damaged(a + b, damageable) == head + Damaged(a[1..] + b, damageable);
      DamagedKeepsQueryOrder(a[1..], b, damageable);
      assert Damaged(a, damageable) == head + Damaged(a[1..], damageable);
    }
  }

  /** A single collider hit is damaged exactly when it carries a health system. */
  lemma DamagedOne(t: ColliderId, damageable: set<ColliderId>)
    ensures Damaged([t], damageable) == if t in damageable then [t] else []
  {
    assert [t][1..] == [];
  }

  function Sum(dts: seq<real>): real
    decreases |dts|
  {
    if dts == [] then 0.0 else dts[0] + Sum(dts[1..])
  }

  function UpdateAll(s: State, dts: seq<real>): State
    decreases |dts|
  {
    if dts == [] then s else UpdateAll(UpdateStep(s, dts[0]), dts[1..])
  }

  predicate NonNegative(dts: seq<real>)
  {
    forall i :: 0 <= i < |dts| ==> dts[i] >= 0.0
  }

  /** While less time than the remaining cooldown has passed, the cooldown has exactly that much less left. */
  lemma {:induction false} CooldownCountsDown(s: State, dts: seq<real>)
    requires NonNegative(dts) && Sum(dts) < s.cooldownTimer
    decreases |dts|
    ensures UpdateAll(s, dts).cooldownTimer == s.cooldownTimer - Sum(dts)
  {
    if dts != [] {
      assert NonNegative(dts[1..]) by {
        forall i | 0 <= i < |dts[1..]| ensures dts[1..][i] >= 0.0 {
          assert dts[1..][i] == dts[i + 1];
        }
      }
      SumNonNegative(dts[1..]);
      CooldownCountsDown(UpdateStep(s, dts[0]), dts[1..]);
    }
  }

  lemma {:induction false} SumNonNegative(dts: seq<real>)
    requires NonNegative(dts)
    ensures Sum(dts) >= 0.0
  {
    if dts != [] {
      assert NonNegative(dts[1..]) by {
        forall i | 0 <= i < |dts[1..]| ensures dts[1..][i] >= 0.0 {
          assert dts[1..][i] == dts[i + 1];
        }
      }
      SumNonNegative(dts[1..]);
    }
  }

  /** After an attack starts, no second attack is accepted until `attackCooldown` has elapsed. */
  lemma NoAttackWithinCooldown(c: Config, s: State, dts: seq<real>)
    requires TryAttackStep(c, s).1 && NonNegative(dts) && Sum(dts) < c.attackCooldown
    ensures !TryAttackStep(c, UpdateAll(TryAttackStep(c, s).0, dts)).1
  {
    CooldownCountsDown(TryAttackStep(c, s).0, dts);
  }

  class MeleeAttackSystem {
    const cfg: Config
    var cooldownTimer: real
    var isAttacking: bool
    var attackTimer: real

    function Model(): State
      reads this
    {
      State(cooldownTimer, isAttacking, attackTimer)
    }

    constructor (config: Config)
      ensures cfg == config && Model() == State(0.0, false, 0.0)
    {
      cfg := config;
      cooldownTimer, isAttacking, attackTimer := 0.0, false, 0.0;
    }

    method Initialize()
      modifies this
      ensures Model() == ResetCooldownStep(old(Model()))
    {
      cooldownTimer := 0.0;
    }

    method ResetCooldown()
      modifies this
      ensures Model() == ResetCooldownStep(old(Model()))
    {
      cooldownTimer := 0.0;
    }

    method Update(dt: real)
      modifies this
      ensures Model() == UpdateStep(old(Model()), dt)
    {
      if cooldownTimer > 0.0 {
        cooldownTimer := cooldownTimer - dt;
      }
      if isAttacking {
        attackTimer := attackTimer - dt;
        if attackTimer <= 0.0 {
          isAttacking := false;
        }
      }
    }

    /** Returns whether the attack started and, if so, the colliders that took `attackDamage`. */
    method TryAttack(hits: seq<ColliderId>, damageable: set<ColliderId>) returns (started: bool, damaged: seq<ColliderId>)
      modifies this
      ensures (Model(), started) == TryAttackStep(cfg, old(Model()))
      ensures damaged == if started then Damaged(hits, damageable) else []
    {
      damaged := [];
      if !(cooldownTimer <= 0.0 && !isAttacking) {
        return false, damaged;
      }
      isAttacking := true;
      attackTimer := cfg.attackDuration;
      cooldownTimer := cfg.attackCooldown;
      damaged := PerformAttack(hits, damageable);
      started := true;
    }

    method PerformAttack(hits: seq<ColliderId>, damageable: set<ColliderId>) returns (damaged: seq<ColliderId>)
      ensures damaged == Damaged(hits, damageable)
    {
      damaged := [];
      var i := 0;
      while i < |hits|
        invariant 0 <= i <= |hits|
        invariant damaged + Damaged(hits[i..], damageable) == Damaged(hits, damageable)
      {
        assert hits[i..] == [hits[i]] + hits[i + 1..];
        if hits[i] in damageable {
          damaged := damaged + [hits[i]];
        }
        i := i + 1;
      }
      assert hits[i..] == [];
    }
  }
}
