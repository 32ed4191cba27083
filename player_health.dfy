/**
 * The player's first health draft (`PlayerHealth`): integer health, an
 * i-frame window started by every accepted hit, and `Die` deactivating the
 * player object. The i-frame coroutine is modelled by the time its wait
 * ends; deactivating the object stops it, so the flag then stays set.
 * Health is a C# `int`: the subtraction wraps around at 32 bits.
 */
module PlayerIFrameHealth {

  import opened Common

  datatype Config = Config(iFrameDuration: real)

  const Defaults := Config(1.5)

  datatype State = State(
    maxHealth: Int32,
    currentHealth: Int32,
    isInvincible: bool,
    iFrameEnd: Option<real>,  // when the running i-frame coroutine resumes
    active: bool)

  function AwakeStep(s: State): (r: State)
    ensures r.currentHealth == r.maxHealth == s.maxHealth
  {
    s.(currentHealth := s.maxHealth)
  }

  /**
   * `TakeDamage` at time `now`: ignored while invincible; otherwise health
   * drops by exactly the amount (in 32-bit arithmetic), the i-frame window
   * starts, and a hit that leaves health at or below 0 deactivates the
   * object, which stops the window's coroutine. The second result says
   * whether `Die` ran.
   */
  function TakeDamageStep(c: Config, s: State, amount: Int32, now: real): (r: (State, bool))
    ensures s.isInvincible ==> r == (s, false)
    ensures !s.isInvincible ==> r.0.currentHealth == Wrap32(s.currentHealth as int - amount as int) && r.0.isInvincible
    ensures !s.isInvincible && InInt32(s.currentHealth as int - amount as int) ==>
              r.0.currentHealth as int == s.currentHealth as int - amount as int
    ensures !s.isInvincible ==> (r.1 <==> r.0.currentHealth <= 0)
    ensures !s.isInvincible && !r.1 ==> r.0.iFrameEnd == Some(now + c.iFrameDuration) && r.0.active == s.active
    ensures r.1 ==> r.0.iFrameEnd == None && !r.0.active
    ensures r.0.maxHealth == s.maxHealth
  {
    if s.isInvincible then (s, false)
    else
      var cur := Wrap32(s.currentHealth as int - amount as int);
      if cur <= 0 then (s.(currentHealth := cur, isInvincible := true, iFrameEnd := None, active := false), true)
      else (s.(currentHealth := cur, isInvincible := true, iFrameEnd := Some(now + c.iFrameDuration)), false)
  }

  /** A frame at time `now`: the i-frame coroutine resumes once its wait has elapsed and clears the flag. */
  function TickStep(s: State, now: real): (r: State)
    ensures s.iFrameEnd.Some? && now >= s.iFrameEnd.value ==> !r.isInvincible && r.iFrameEnd == None
    ensures !(s.iFrameEnd.Some? && now >= s.iFrameEnd.value) ==> r == s
    ensures r.currentHealth == s.currentHealth && r.active == s.active
  {
    if s.iFrameEnd.Some? && now >= s.iFrameEnd.value then s.(isInvincible := false, iFrameEnd := None)
    else s
  }

  /** Of two hits less than `iFrameDuration` apart, only the first changes health. */
  lemma SecondHitWithinWindowIgnored(c: Config, s: State, a1: Int32, a2: Int32, t1: real, t2: real)
    requires !s.isInvincible && t1 <= t2 < t1 + c.iFrameDuration
    ensures var s1 := TickStep(TakeDamageStep(c, s, a1, t1).0, t2);
            TakeDamageStep(c, s1, a2, t2) == (s1, false)
  {
  }

  /**
   * Once `iFrameDuration` has passed, the next hit lands again (if the
   * player is still alive): health is the 32-bit result of taking both
   * amounts, which is the exact difference when that fits in an `int`.
   */
  lemma HitAfterWindowLands(c: Config, s: State, a1: Int32, a2: Int32, t1: real, t2: real)
    requires !s.isInvincible && t2 >= t1 + c.iFrameDuration
    requires !TakeDamageStep(c, s, a1, t1).1
    ensures var s1 := TickStep(TakeDamageStep(c, s, a1, t1).0, t2);
            TakeDamageStep(c, s1, a2, t2).0.currentHealth == Wrap32(s.currentHealth as int - a1 as int - a2 as int)
    ensures var s1 := TickStep(TakeDamageStep(c, s, a1, t1).0, t2);
            InInt32(s.currentHealth as int - a1 as int - a2 as int) ==>
            TakeDamageStep(c, s1, a2, t2).0.currentHealth as int == s.currentHealth as int - a1 as int - a2 as int
  {
    Wrap32Sum(s.currentHealth as int - a1 as int, -(a2 as int));
  }

  /** A lethal hit leaves the flag set for good: no frame clears it and every later hit is ignored. */
  lemma DeadPlayerIgnoresHits(c: Config, s: State, a1: Int32, a2: Int32, t1: real, t2: real)
    requires TakeDamageStep(c, s, a1, t1).1
    ensures var s1 := TickStep(TakeDamageStep(c, s, a1, t1).0, t2);
            s1.isInvincible && TakeDamageStep(c, s1, a2, t2) == (s1, false)
  {
  }

  class PlayerHealth {
    const cfg: Config
    var maxHealth: Int32
    var currentHealth: Int32
    var isInvincible: bool
    var iFrameEnd: Option<real>
    var active: bool

    function Model(): State
      reads this
    {
      State(maxHealth, currentHealth, isInvincible, iFrameEnd, active)
    }

    constructor (config: Config, initialMax: Int32)
      ensures cfg == config && Model() == State(initialMax, 0, false, None, true)
    {
      cfg := config;
      maxHealth := initialMax;
      currentHealth := 0;
      isInvincible := false;
      iFrameEnd := None;
      active := true;
    }

    method Awake()
      modifies this
      ensures Model() == AwakeStep(old(Model()))
    {
      currentHealth := maxHealth;
    }

    method TakeDamage(amount: Int32, now: real) returns (died: bool)
      modifies this
      ensures (Model(), died) == TakeDamageStep(cfg, old(Model()), amount, now)
    {
      died := false;
      if isInvincible {
        return;
      }
      currentHealth := Wrap32(currentHealth as int - amount as int);
      // HandleIFrames runs up to its wait
      isInvincible := true;
      iFrameEnd := Some(now + cfg.iFrameDuration);
      if currentHealth <= 0 {
        // Die: deactivating the object stops its coroutines
        active := false;
        iFrameEnd := None;
        died := true;
      }
    }

    method Tick(now: real)
      modifies this
      ensures Model() == TickStep(old(Model()), now)
    {
      if iFrameEnd.Some? && now >= iFrameEnd.value {
        isInvincible := false;
        iFrameEnd := None;
      }
    }
  }
}
