/**
 * The basic damageable enemy (namespace ElderCloak.Enemy, `BasicEnemy`):
 * integer health, negative amounts treated as 0, and `Die` on the hit that
 * empties health. Death effects (disabling components, fading, destroying)
 * are outside the model; `Die` is reported as a result. Health is a C#
 * `int`: the heal's sum wraps around past 2^31 - 1.
 */
module BasicEnemyHealth {

  import opened Common

  datatype State = State(maxHealth: Int32, currentHealth: Int32)

  predicate Inv(s: State)
  {
    0 <= s.currentHealth <= s.maxHealth
  }

  predicate IsAlive(s: State)
  {
    s.currentHealth > 0
  }

  function AwakeStep(s: State): (r: State)
    ensures r.currentHealth == r.maxHealth == s.maxHealth
    ensures s.maxHealth >= 0 ==> Inv(r)
  {
    s.(currentHealth := s.maxHealth)
  }

  /**
   * `TakeDamage`: ignored when dead; a negative amount counts as 0; health
   * never drops below 0, and `Die` runs exactly when this hit empties it.
   * The second result says whether `Die` ran.
   */
  function TakeDamageStep(s: State, damage: Int32): (r: (State, bool))
    ensures !IsAlive(s) ==> r == (s, false)
    ensures IsAlive(s) ==> r.0.currentHealth as int == MaxInt(0, s.currentHealth as int - MaxInt(0, damage as int))
    ensures r.1 <==> IsAlive(s) && !IsAlive(r.0)
    ensures r.0.currentHealth <= s.currentHealth && r.0.maxHealth == s.maxHealth
    ensures Inv(s) ==> Inv(r.0)
  {
    if !IsAlive(s) then (s, false)
    else
      var d := MaxInt(0, damage as int);
      var r := s.(currentHealth := MaxInt(0, Wrap32(s.currentHealth as int - d) as int) as Int32);
      (r, !IsAlive(r))
  }

  /**
   * `Heal`: ignored when dead; a negative amount counts as 0; never above
   * the maximum. The `int` sum wraps: a heal that carries it past 2^31 - 1
   * leaves it 2^32 lower, so health becomes negative.
   */
  function HealStep(s: State, amount: Int32): (r: State)
    ensures !IsAlive(s) ==> r == s
    ensures IsAlive(s) && s.currentHealth as int + MaxInt(0, amount as int) <= Int32Max ==>
              r.currentHealth as int == MinInt(s.maxHealth as int, s.currentHealth as int + MaxInt(0, amount as int))
    ensures IsAlive(s) && s.currentHealth as int + MaxInt(0, amount as int) > Int32Max ==>
              r.currentHealth as int
              == MinInt(s.maxHealth as int, s.currentHealth as int + amount as int - 0x1_0000_0000)
              && r.currentHealth < 0
    ensures Inv(s) && s.currentHealth as int + MaxInt(0, amount as int) <= Int32Max ==>
              Inv(r) && r.currentHealth >= s.currentHealth
    ensures r.maxHealth == s.maxHealth
  {
    if !IsAlive(s) then s
    else
      var sum := Wrap32(s.currentHealth as int + MaxInt(0, amount as int));
      s.(currentHealth := if s.maxHealth < sum then s.maxHealth else sum)
  }

  /** A full enemy healed by `int.MaxValue` ends with negative health, so it is dead without `Die` having run. */
  lemma HealOverflowKillsSilently()
    ensures HealStep(State(50, 50), 0x7fff_ffff) == State(50, -2147483599)
    ensures !IsAlive(HealStep(State(50, 50), 0x7fff_ffff))
  {
  }

  /** No heal of `ops` can carry health past 2^31 - 1 from a health at most `maxHealth`. */
  predicate HealsFit(maxHealth: Int32, ops: seq<Op>)
  {
    forall i :: 0 <= i < |ops| && ops[i].Heal? ==> maxHealth as int + MaxInt(0, ops[i].amount as int) <= Int32Max
  }

  datatype Op = Damage(amount: Int32) | Heal(amount: Int32)

  /** Applies a sequence of calls, counting how often `Die` ran. */
  function Run(s: State, ops: seq<Op>): (State, nat)
    decreases |ops|
  {
    if ops == [] then (s, 0)
    else
      match ops[0]
      case Damage(d) =>
        var (s1, died) := TakeDamageStep(s, d);
        var (s2, n) := Run(s1, ops[1..]);
        (s2, n + if died then 1 else 0)
      case Heal(h) => Run(HealStep(s, h), ops[1..])
  }

  /**
   * Across any sequence of hits and heals, health stays in [0, max], and
   * `Die` runs once if the enemy started alive and ended dead, never
   * otherwise.
   */
  lemma {:induction false} RunKeepsBoundsAndDiesOnce(s: State, ops: seq<Op>)
    requires Inv(s) && HealsFit(s.maxHealth, ops)
    decreases |ops|
    ensures Inv(Run(s, ops).0)
    ensures Run(s, ops).1 == if IsAlive(s) && !IsAlive(Run(s, ops).0) then 1 else 0
  {
    if ops != [] {
      match ops[0]
      case Damage(d) =>
        var (s1, died) := TakeDamageStep(s, d);
        HealsFitTail(s.maxHealth, ops);
        RunKeepsBoundsAndDiesOnce(s1, ops[1..]);
        if !IsAlive(s1) {
          DeadStaysDead(s1, ops[1..]);
        }
      case Heal(h) =>
        HealsFitTail(s.maxHealth, ops);
        RunKeepsBoundsAndDiesOnce(HealStep(s, h), ops[1..]);
    }
  }

  lemma HealsFitTail(maxHealth: Int32, ops: seq<Op>)
    requires ops != [] && HealsFit(maxHealth, ops)
    ensures HealsFit(maxHealth, ops[1..])
    ensures ops[0].Heal? ==> maxHealth as int + MaxInt(0, ops[0].amount as int) <= Int32Max
  {
    forall i | 0 <= i < |ops[1..]| && ops[1..][i].Heal?
      ensures maxHealth as int + MaxInt(0, ops[1..][i].amount as int) <= Int32Max
    {
      assert ops[1..][i] == ops[i + 1];
    }
  }

  /** Once dead, every later call is ignored. */
  lemma {:induction false} DeadStaysDead(s: State, ops: seq<Op>)
    requires !IsAlive(s)
    decreases |ops|
    ensures Run(s, ops) == (s, 0)
  {
    if ops != [] {
      DeadStaysDead(s, ops[1..]);
    }
  }

  class BasicEnemy {
    var maxHealth: Int32
    var currentHealth: Int32

    function Model(): State
      reads this
    {
      State(maxHealth, currentHealth)
    }

    constructor (initialMax: Int32)
      ensures Model() == State(initialMax, 0)
    {
      maxHealth := initialMax;
      currentHealth := 0;
    }

    method Awake()
      modifies this
      ensures Model() == AwakeStep(old(Model()))
    {
      currentHealth := maxHealth;
    }

    method TakeDamage(damage: Int32) returns (died: bool)
      modifies this
      ensures (Model(), died) == TakeDamageStep(old(Model()), damage)
    {
      died := false;
      if !(currentHealth > 0) {
        return;
      }
      var d := if damage > 0 then damage else 0;
      var diff := Wrap32(currentHealth as int - d as int);
      currentHealth := if diff > 0 then diff else 0;
      if !(currentHealth > 0) {
        died := true;
      }
    }

    method Heal(amount: Int32)
      modifies this
      ensures Model() == HealStep(old(Model()), amount)
    {
      if !(currentHealth > 0) {
        return;
      }
      var h := if amount > 0 then amount else 0;
      var sum := Wrap32(currentHealth as int + h as int);
      currentHealth := if maxHealth < sum then maxHealth else sum;
    }
  }
}
