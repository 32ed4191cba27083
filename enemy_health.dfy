/**
 * The simplest enemy health draft (`EnemyHealth`): integer health that a
 * hit lowers by exactly the amount, with no clamp and no guard, and `Die`
 * on every hit that leaves health at or below 0. `Die` destroys the object
 * at the end of the frame, so it is reported as a result here. Health is
 * a C# `int`, so the subtraction wraps around at -2^31.
 */
module SimpleEnemyHealth {
  import opened Common

  datatype State = State(maxHealth: Int32, currentHealth: Int32)

  function AwakeStep(s: State): (r: State)
    ensures r.currentHealth == r.maxHealth == s.maxHealth
  {
    s.(currentHealth := s.maxHealth)
  }

  /**
   * `TakeDamage`: subtracts the amount in 32-bit arithmetic; the second
   * result says whether `Die` ran.
   */
  function TakeDamageStep(s: State, amount: Int32): (r: (State, bool))
    ensures InInt32(s.currentHealth as int - amount as int) ==>
              r.0.currentHealth as int + amount as int == s.currentHealth as int
    ensures s.currentHealth as int - amount as int < Int32Min ==>
              r.0.currentHealth as int == s.currentHealth as int - amount as int + 0x1_0000_0000 && !r.1
    ensures s.currentHealth as int - amount as int > Int32Max ==>
              r.0.currentHealth as int == s.currentHealth as int - amount as int - 0x1_0000_0000 && r.1
    ensures r.0.maxHealth == s.maxHealth
    ensures r.1 <==> r.0.currentHealth <= 0
  {
    var r := s.(currentHealth := Wrap32(s.currentHealth as int - amount as int));
    (r, r.currentHealth <= 0)
  }

  /** Applies a sequence of hits; the second result counts the calls to `Die`. */
  function Run(s: State, amounts: seq<Int32>): (State, nat)
    decreases |amounts|
  {
    if amounts == [] then (s, 0)
    else
      var (s1, died) := TakeDamageStep(s, amounts[0]);
      var (s2, n) := Run(s1, amounts[1..]);
      (s2, n + if died then 1 else 0)
  }

  predicate AllNonNegative(amounts: seq<Int32>)
  {
    forall i :: 0 <= i < |amounts| ==> amounts[i] >= 0
  }

  /** The sum of the hits, in unbounded integers. */
  function Total(amounts: seq<Int32>): int
  {
    if amounts == [] then 0 else amounts[0] as int + Total(amounts[1..])
  }

  lemma {:induction false} TotalNonNegative(amounts: seq<Int32>)
    requires AllNonNegative(amounts)
    ensures Total(amounts) >= 0
    ensures amounts != [] ==> AllNonNegative(amounts[1..])
    decreases |amounts|
  {
    if amounts != [] {
      assert amounts[0] >= 0;
      assert AllNonNegative(amounts[1..]) by {
        forall i | 0 <= i < |amounts[1..]| ensures amounts[1..][i] >= 0 {
          assert amounts[1..][i] == amounts[i + 1];
        }
      }
      TotalNonNegative(amounts[1..]);
    }
  }

  /**
   * With non-negative hits that together stay above -2^31, health never
   * rises, so it never exceeds a maximum it started under.
   */
  lemma {:induction false} NonNegativeHitsNeverRaise(s: State, amounts: seq<Int32>)
    requires AllNonNegative(amounts)
    requires s.currentHealth as int - Total(amounts) >= Int32Min
    decreases |amounts|
    ensures Run(s, amounts).0.currentHealth <= s.currentHealth
    ensures Run(s, amounts).0.maxHealth == s.maxHealth
    ensures s.currentHealth <= s.maxHealth ==> Run(s, amounts).0.currentHealth <= s.maxHealth
  {
    if amounts != [] {
      TotalNonNegative(amounts);
      TotalNonNegative(amounts[1..]);
      var s1 := TakeDamageStep(s, amounts[0]).0;
      NonNegativeHitsNeverRaise(s1, amounts[1..]);
    }
  }

  /**
   * Nothing stops later hits: once dead, every further non-negative hit
   * calls `Die` again, as long as the hits together stay above -2^31.
   */
  lemma {:induction false} DieOnEveryLaterHit(s: State, amounts: seq<Int32>)
    requires s.currentHealth <= 0 && AllNonNegative(amounts)
    requires s.currentHealth as int - Total(amounts) >= Int32Min
    decreases |amounts|
    ensures Run(s, amounts).1 == |amounts|
  {
    if amounts != [] {
      TotalNonNegative(amounts);
      TotalNonNegative(amounts[1..]);
      var s1 := TakeDamageStep(s, amounts[0]).0;
      DieOnEveryLaterHit(s1, amounts[1..]);
    }
  }

  /**
   * Past -2^31 the health wraps to a large positive value: three hits of
   * 10^9 on a dead enemy call `Die` only twice and leave it alive.
   */
  lemma LateHitsWrapBackToLife()
    ensures Run(State(10, 0), [1_000_000_000, 1_000_000_000, 1_000_000_000]) == (State(10, 1_294_967_296), 2)
  {
    var h := 1_000_000_000 as Int32;
    assert TakeDamageStep(State(10, 0), h) == (State(10, -1_000_000_000), true);
    assert TakeDamageStep(State(10, -1_000_000_000), h) == (State(10, -2_000_000_000), true);
    assert TakeDamageStep(State(10, -2_000_000_000), h) == (State(10, 1_294_967_296), false);
    assert [h, h, h][1..] == [h, h];
    assert [h, h][1..] == [h];
    assert [h][1..] == [];
  }

  class EnemyHealth {
    var maxHealth: Int32
    var currentHealth: Int32

    function Model(): State
      reads this
    {
      State(maxHealth, currentHealth)
    }

    constructor (initialMax: Int32)
      ensures Model() == State(initialMax, 0)
    {
      maxHealth := initialMax;
      currentHealth := 0;
    }

    method Awake()
      modifies this
      ensures Model() == AwakeStep(old(Model()))
    {
      currentHealth := maxHealth;
    }

    method TakeDamage(amount: Int32) returns (died: bool)
      modifies this
      ensures (Model(), died) == TakeDamageStep(old(Model()), amount)
    {
      currentHealth := Wrap32(currentHealth as int - amount as int);
      died := currentHealth <= 0;
    }
  }
}
