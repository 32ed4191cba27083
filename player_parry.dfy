/**
 * The parry (`PlayerParry`): a performed parry input, when allowed, opens
 * a window of `parryDuration` during which the player is parrying, then a
 * cooldown of `parryCooldown` before the next parry is allowed; a
 * successful parry fills the skill bar to the top. The `ParryWindow`
 * coroutine becomes a phase holding the time it resumes at, advanced by
 * `Tick(now)` once per frame; a wait that ends resumes on the first frame
 * at or after its end time. The colour flash is display only.
 */
module Parry {

  import opened Common
  import SkillRegen

  datatype Config = Config(parryDuration: real, parryCooldown: real)

  const Defaults := Config(0.3, 1.0)

  /** Where `ParryWindow` is suspended: not running, in the parry wait, or in the cooldown wait. */
  datatype Phase = Idle | Parrying(until: real) | CoolingDown(until: real)

  datatype State = State(isParrying: bool, canParry: bool, phase: Phase)

  const Initial := State(false, true, Idle)

  /** A parry is allowed exactly when no window is running, and the player parries exactly during the first wait. */
  predicate Inv(s: State)
  {
    (s.canParry <==> s.phase.Idle?) && (s.isParrying <==> s.phase.Parrying?)
  }

  /**
   * `OnParry`: a performed input while a parry is allowed starts
   * `ParryWindow`, whose first part runs at once: parrying, no further
   * parry allowed, resuming after `parryDuration`. Anything else changes
   * nothing. The second result says whether a parry started.
   */
  function OnParryStep(c: Config, s: State, now: real, performed: bool): (r: (State, bool))
    ensures r.1 <==> performed && s.canParry
    ensures r.1 ==> r.0 == State(true, false, Parrying(now + c.parryDuration))
    ensures !r.1 ==> r.0 == s
    ensures Inv(s) ==> Inv(r.0)
  {
    if performed && s.canParry then (State(true, false, Parrying(now + c.parryDuration)), true)
    else (s, false)
  }

  /**
   * One frame of `ParryWindow`: when the parry wait is over the player
   * stops parrying and the cooldown wait starts from this frame; when the
   * cooldown wait is over a parry is allowed again.
   */
  function TickStep(c: Config, s: State, now: real): (r: State)
    ensures s.phase.Parrying? && now >= s.phase.until ==>
              r == State(false, s.canParry, CoolingDown(now + c.parryCooldown))
    ensures s.phase.CoolingDown? && now >= s.phase.until ==> r == s.(canParry := true, phase := Idle)
    ensures s.phase.Idle? || now < s.phase.until ==> r == s
    ensures Inv(s) ==> Inv(r)
  {
    match s.phase
    case Idle => s
    case Parrying(u) => if now >= u then s.(isParrying := false, phase := CoolingDown(now + c.parryCooldown)) else s
    case CoolingDown(u) => if now >= u then s.(canParry := true, phase := Idle) else s
  }

  /** A parry input or a frame, at time `now`. */
  datatype Event = Press(now: real, performed: bool) | Frame(now: real)

  /** Applies a sequence of events: the final state and the times parries started. */
  function Run(c: Config, s: State, events: seq<Event>): (State, seq<real>)
    decreases |events|
  {
    if events == [] then (s, [])
    else
      match events[0]
      case Press(now, p) =>
        var (s1, started) := OnParryStep(c, s, now, p);
        var (s2, starts) := Run(c, s1, events[1..]);
        (s2, (if started then [now] else []) + starts)
      case Frame(now) => Run(c, TickStep(c, s, now), events[1..])
  }

  /** Event times never go backwards, starting from `clock`. */
  predicate Ordered(clock: real, events: seq<Event>)
    decreases |events|
  {
    events == [] || (events[0].now >= clock && Ordered(events[0].now, events[1..]))
  }


  /** What a window started at `t0` guarantees, with `clock` the time of the last event seen. */
  predicate SinceStart(c: Config, s: State, t0: real, clock: real)
  {
    && Inv(s)
    && (s.phase.Parrying? ==> s.phase.until == t0 + c.parryDuration)
    && (s.phase.CoolingDown? ==> s.phase.until >= t0 + c.parryDuration + c.parryCooldown)
    && (s.phase.Idle? ==> clock >= t0 + c.parryDuration + c.parryCooldown)
  }

  lemma {:induction false} StartsSpaced(c: Config, s: State, t0: real, clock: real, events: seq<Event>)
    requires SinceStart(c, s, t0, clock) && Ordered(clock, events)
    decreases |events|
    ensures Spaced(t0, Run(c, s, events).1, c.parryDuration + c.parryCooldown)
  {
    if events != [] {
      match events[0]
      case Press(now, p) =>
        var (s1, started) := OnParryStep(c, s, now, p);
        var rest := Run(c, s1, events[1..]).1;
        if started {
          StartsSpaced(c, s1, now, now, events[1..]);
          assert Run(c, s, events).1 == [now] + rest;
          SpacedCons(t0, now, rest, c.parryDuration + c.parryCooldown);
        } else {
          StartsSpaced(c, s1, t0, now, events[1..]);
          assert Run(c, s, events).1 == [] + rest == rest;
        }
      case Frame(now) =>
        StartsSpaced(c, TickStep(c, s, now), t0, now, events[1..]);
    }
  }

  /**
   * Parry windows never overlap: after a parry starts at `t0`, with events
   * arriving in time order, every later parry starts at least
   * `parryDuration + parryCooldown` after the one before it.
   */
  lemma ParryWindowsNeverOverlap(c: Config, s: State, t0: real, events: seq<Event>)
    requires Inv(s) && OnParryStep(c, s, t0, true).1 && Ordered(t0, events)
    ensures Spaced(t0, Run(c, OnParryStep(c, s, t0, true).0, events).1, c.parryDuration + c.parryCooldown)
  {
    StartsSpaced(c, OnParryStep(c, s, t0, true).0, t0, t0, events);
  }

  class PlayerParry {
    const cfg: Config
    const skillRegenSystem: SkillRegen.SkillRegenSystem?
    var isParrying: bool
    var canParry: bool
    var phase: Phase

    function Model(): State
      reads this
    {
      State(isParrying, canParry, phase)
    }

    /** `Awake`: the skill bar controller, once looked up, is either there or not. */
    constructor (config: Config, skills: SkillRegen.SkillRegenSystem?)
      ensures cfg == config && skillRegenSystem == skills && Model() == Initial
    {
      cfg := config;
      skillRegenSystem := skills;
      isParrying, canParry, phase := false, true, Idle;
    }

    method OnParry(now: real, performed: bool) returns (started: bool)
      modifies this
      ensures (Model(), started) == OnParryStep(cfg, old(Model()), now, performed)
    {
      started := false;
      if performed && canParry {
        canParry := false;
        isParrying := true;
        phase := Parrying(now + cfg.parryDuration);
        started := true;
      }
    }

    method Tick(now: real)
      modifies this
      ensures Model() == TickStep(cfg, old(Model()), now)
    {
      match phase
      case Idle =>
      case Parrying(u) =>
        if now >= u {
          isParrying := false;
          phase := CoolingDown(now + cfg.parryCooldown);
        }
      case CoolingDown(u) =>
        if now >= u {
          canParry := true;
          phase := Idle;
        }
    }

    /** `OnSuccessfulParry`: the skill bar, if any, is filled to the top. */
    method OnSuccessfulParry()
      modifies if skillRegenSystem == null then {} else {skillRegenSystem.skillRegenUI}
      ensures skillRegenSystem != null ==>
                skillRegenSystem.Bar() == SkillRegen.FillToMaxStep(skillRegenSystem.cfg, old(skillRegenSystem.Bar()))
    {
      if skillRegenSystem != null {
        skillRegenSystem.FillToMax();
      }
    }
  }
}
