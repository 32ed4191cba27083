/**
 * The stamina pool (`PlayerStamina`): consuming stamina needs at least 1
 * point, takes what is asked or what is left, and restarts a regeneration
 * that waits `staminaRegenDelay` and then refills `staminaRegenRate` per
 * second up to `maxStamina`. The `RegenerateStamina` coroutine becomes a
 * phase advanced by `Tick(now, dt)` once per frame; the change event and
 * the unused skill-bar lookup are left out.
 */
module Stamina {

  import opened Common

  datatype Config = Config(maxStamina: real, staminaRegenRate: real, staminaRegenDelay: real)

  const Defaults := Config(100.0, 30.0, 1.5)

  /** Where `RegenerateStamina` is: not running, in its initial wait, or in its refill loop. */
  datatype Regen = NotRunning | Waiting(until: real) | Refilling

  datatype State = State(currentStamina: real, regen: Regen)

  predicate Inv(c: Config, s: State)
  {
    0.0 <= s.currentStamina <= c.maxStamina
  }

  /** `Start`: the pool is full. */
  function StartStep(c: Config, s: State): (r: State)
    ensures r.currentStamina == c.maxStamina && r.regen == s.regen
    ensures c.maxStamina >= 0.0 ==> Inv(c, r)
  {
    s.(currentStamina := c.maxStamina)
  }

  /** `HasEnoughStamina`: at least 1 point is left, whatever amount is asked for. */
  predicate HasEnoughStamina(s: State, amount: real)
  {
    s.currentStamina >= 1.0
  }

  /**
   * `ConsumeStamina`: with at least 1 point left, the smaller of the
   * amount and what is left is taken, and the regeneration restarts its
   * wait from now; otherwise nothing changes. Stamina never goes negative.
   * The second result says whether stamina was consumed.
   */
  function ConsumeStep(c: Config, s: State, now: real, amount: real): (r: (State, bool))
    ensures r.1 <==> HasEnoughStamina(s, amount)
    ensures r.1 ==> r.0.currentStamina == s.currentStamina - Min(amount, s.currentStamina)
    ensures r.1 ==> r.0.regen == Waiting(now + c.staminaRegenDelay)
    ensures !r.1 ==> r.0 == s
    ensures r.1 ==> r.0.currentStamina >= 0.0
    ensures r.1 && amount >= 0.0 ==> r.0.currentStamina <= s.currentStamina
    ensures Inv(c, s) && amount >= 0.0 ==> Inv(c, r.0)
  {
    if s.currentStamina >= 1.0 then
      (State(s.currentStamina - Min(amount, s.currentStamina), Waiting(now + c.staminaRegenDelay)), true)
    else (s, false)
  }

  /** What one frame of `dt` seconds of regeneration adds. */
  function RegenAmount(c: Config, dt: real): real
  {
    c.staminaRegenRate * dt
  }

  /**
   * One pass of the refill loop: below the maximum, the frame's regeneration
   * is added and clamped to [0, maxStamina]; at the maximum the loop ends.
   */
  function RefillStep(c: Config, s: State, dt: real): (r: State)
    ensures s.currentStamina < c.maxStamina ==>
              r == State(Clamp(s.currentStamina + RegenAmount(c, dt), 0.0, c.maxStamina), Refilling)
    ensures s.currentStamina >= c.maxStamina ==> r == State(s.currentStamina, NotRunning)
  {
    if s.currentStamina < c.maxStamina then
      State(Clamp(s.currentStamina + RegenAmount(c, dt), 0.0, c.maxStamina), Refilling)
    else s.(regen := NotRunning)
  }

  /**
   * One frame of `RegenerateStamina`: nothing while it is not running or
   * still waiting; once the wait is over the refill loop runs a pass in
   * the same frame, and one pass each frame after that. Regeneration keeps
   * stamina within [0, maxStamina] and never lowers it when the rate is
   * non-negative.
   */
  function TickStep(c: Config, s: State, now: real, dt: real): (r: State)
    ensures s.regen.NotRunning? || (s.regen.Waiting? && now < s.regen.until) ==> r == s
    ensures s.regen.Refilling? || (s.regen.Waiting? && now >= s.regen.until) ==> r == RefillStep(c, s, dt)
    ensures Inv(c, s) ==> Inv(c, r)
    ensures Inv(c, s) && RegenAmount(c, dt) >= 0.0 ==> r.currentStamina >= s.currentStamina
  {
    match s.regen
    case NotRunning => s
    case Waiting(u) => if now >= u then RefillStep(c, s, dt) else s
    case Refilling => RefillStep(c, s, dt)
  }

  /** A consumption or a frame. */
  datatype Event = Consume(now: real, amount: real) | Frame(now: real, dt: real)

  function Run(c: Config, s: State, events: seq<Event>): State
    decreases |events|
  {
    if events == [] then s
    else
      match events[0]
      case Consume(now, a) => Run(c, ConsumeStep(c, s, now, a).0, events[1..])
      case Frame(now, dt) => Run(c, TickStep(c, s, now, dt), events[1..])
  }

  /** Whatever the sequence of non-negative consumptions and frames, stamina stays within [0, maxStamina]. */
  lemma {:induction false} StaminaStaysInRange(c: Config, s: State, events: seq<Event>)
    requires Inv(c, s)
    requires forall i :: 0 <= i < |events| && events[i].Consume? ==> events[i].amount >= 0.0
    decreases |events|
    ensures Inv(c, Run(c, s, events))
  {
    if events != [] {
      assert events[0].Consume? ==> events[0].amount >= 0.0;
      match events[0]
      case Consume(now, a) => StaminaStaysInRange(c, ConsumeStep(c, s, now, a).0, events[1..]);
      case Frame(now, dt) => StaminaStaysInRange(c, TickStep(c, s, now, dt), events[1..]);
    }
  }

  /** A negative amount, which the source does not reject, raises stamina past the maximum. */
  lemma NegativeConsumptionOverfills()
    ensures ConsumeStep(Defaults, State(100.0, NotRunning), 0.0, -10.0).0.currentStamina == 110.0
  {
  }

  class PlayerStamina {
    const cfg: Config
    var currentStamina: real
    var regen: Regen

    function Model(): State
      reads this
    {
      State(currentStamina, regen)
    }

    constructor (config: Config)
      ensures cfg == config && Model() == State(0.0, NotRunning)
    {
      cfg := config;
      currentStamina, regen := 0.0, NotRunning;
    }

    method Start()
      modifies this
      ensures Model() == StartStep(cfg, old(Model()))
    {
      currentStamina := cfg.maxStamina;
    }

    /** Returns whether stamina was consumed. */
    method ConsumeStamina(now: real, amount: real) returns (consumed: bool)
      modifies this
      ensures (Model(), consumed) == ConsumeStep(cfg, old(Model()), now, amount)
    {
      consumed := false;
      if currentStamina >= 1.0 {
        var consumeAmount := Min(amount, currentStamina);
        currentStamina := currentStamina - consumeAmount;
        regen := Waiting(now + cfg.staminaRegenDelay);
        consumed := true;
      }
    }

    method Tick(now: real, dt: real)
      modifies this
      ensures Model() == TickStep(cfg, old(Model()), now, dt)
    {
      if regen.NotRunning? || (regen.Waiting? && now < regen.until) {
        return;
      }
      if currentStamina < cfg.maxStamina {
        currentStamina := Clamp(currentStamina + RegenAmount(cfg, dt), 0.0, cfg.maxStamina);
        regen := Refilling;
      } else {
        regen := NotRunning;
      }
    }
  }
}
