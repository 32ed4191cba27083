/**
 * The player's dash (namespace ElderCloak.Player.Movement, `DashSystem`):
 * a bounded number of dashes between landings, a cooldown after each dash
 * and a fixed dash duration, during which gravity may be switched off.
 * Vectors are kept un-normalised: the dash direction records which vector
 * (input or facing) would be normalised.
 */
module Dash {

  datatype Vec = Vec(x: real, y: real)

  datatype Config = Config(
    dashDuration: real,
    dashCooldown: real,
    maxDashes: int,
    disableGravityDuringDash: bool)

  const Defaults := Config(0.2, 1.0, 1, true)

  datatype State = State(
    dashCount: int,
    dashTimer: real,
    cooldownTimer: real,
    dashDirection: Vec,
    isDashing: bool,
    wasGrounded: bool,
    gravityScale: real,
    originalGravityScale: real)

  /**
   * The dash counter never goes negative and never passes `maxDashes`
   * (a negative `maxDashes` leaves it at 0); the body has its own gravity
   * except during a dash that switches gravity off.
   */
  predicate Inv(c: Config, s: State)
  {
    && 0 <= s.dashCount
    && (s.dashCount == 0 || s.dashCount <= c.maxDashes)
    && (!s.isDashing || !c.disableGravityDuringDash ==> s.gravityScale == s.originalGravityScale)
  }

  predicate CanDash(c: Config, s: State)
  {
    s.dashCount < c.maxDashes && s.cooldownTimer <= 0.0 && !s.isDashing
  }

  function RemainingDashes(c: Config, s: State): (n: int)
    ensures n >= 0
    ensures Inv(c, s) && c.maxDashes >= 0 ==> n == c.maxDashes - s.dashCount
    ensures n > 0 <==> s.dashCount < c.maxDashes
  {
    if c.maxDashes - s.dashCount > 0 then c.maxDashes - s.dashCount else 0
  }

  /** `CooldownProgress`: how far the cooldown has run, 1 once it is over. */
  function CooldownProgress(c: Config, s: State): (p: real)
    requires c.dashCooldown > 0.0
    ensures 0.0 <= s.cooldownTimer <= c.dashCooldown ==> 0.0 <= p <= 1.0
    ensures s.cooldownTimer == 0.0 ==> p == 1.0
    ensures s.cooldownTimer == c.dashCooldown ==> p == 0.0
  {
    1.0 - s.cooldownTimer / c.dashCooldown
  }

  /** `Initialize`: the body's gravity is remembered; no dashes used, no cooldown. */
  function InitializeStep(s: State, bodyGravity: real): (r: State)
    ensures r.dashCount == 0 && r.cooldownTimer == 0.0 && r.originalGravityScale == bodyGravity
    ensures r.gravityScale == bodyGravity
    ensures r.isDashing == s.isDashing && r.dashTimer == s.dashTimer && r.wasGrounded == s.wasGrounded
  {
    s.(originalGravityScale := bodyGravity, gravityScale := bodyGravity, dashCount := 0, cooldownTimer := 0.0)
  }

  /** `EndDash`: the dash flag clears and gravity is restored when it was switched off. */
  function EndDashStep(c: Config, s: State): (r: State)
    ensures !r.isDashing
    ensures r.gravityScale == (if c.disableGravityDuringDash then s.originalGravityScale else s.gravityScale)
    ensures r.dashCount == s.dashCount && r.cooldownTimer == s.cooldownTimer && r.dashTimer == s.dashTimer
  {
    s.(isDashing := false, gravityScale := if c.disableGravityDuringDash then s.originalGravityScale else s.gravityScale)
  }

  /**
   * `Update`: the cooldown counts down only while positive, the dash timer
   * while dashing; a dash ends on the first update that finds its timer at
   * or below 0.
   */
  function UpdateStep(c: Config, s: State, dt: real): (r: State)
    ensures r.cooldownTimer == (if s.cooldownTimer > 0.0 then s.cooldownTimer - dt else s.cooldownTimer)
    ensures s.isDashing ==> r.dashTimer == s.dashTimer - dt && (r.isDashing <==> s.dashTimer - dt > 0.0)
    ensures !s.isDashing ==> !r.isDashing && r.dashTimer == s.dashTimer
    ensures r.dashCount == s.dashCount
    ensures Inv(c, s) ==> Inv(c, r)
  {
    var cd := if s.cooldownTimer > 0.0 then s.cooldownTimer - dt else s.cooldownTimer;
    var t := if s.isDashing then s.dashTimer - dt else s.dashTimer;
    var s1 := s.(cooldownTimer := cd, dashTimer := t);
    if s1.isDashing && s1.dashTimer <= 0.0 then EndDashStep(c, s1) else s1
  }

  /** `GetDashDirection`: the input when its length exceeds 0.1, else the facing direction. */
  function DashDirection(input: Vec, facing: Vec): (d: Vec)
    ensures d == input || d == facing
    ensures input.x * input.x + input.y * input.y > 0.01 ==> d == input
    ensures input.x * input.x + input.y * input.y <= 0.01 ==> d == facing
  {
    if input.x * input.x + input.y * input.y > 0.01 then input else facing
  }

  /**
   * `TryDash`: refused with nothing changed unless `CanDash`; otherwise a
   * dash starts, using up one dash and starting the cooldown.
   */
  function TryDashStep(c: Config, s: State, input: Vec, facing: Vec): (r: (State, bool))
    ensures r.1 <==> CanDash(c, s)
    ensures !r.1 ==> r.0 == s
    ensures r.1 ==> && r.0.isDashing && r.0.dashTimer == c.dashDuration
                    && r.0.dashCount == s.dashCount + 1 && r.0.cooldownTimer == c.dashCooldown
                    && r.0.dashDirection == DashDirection(input, facing)
                    && (c.disableGravityDuringDash ==> r.0.gravityScale == 0.0)
    ensures Inv(c, s) ==> Inv(c, r.0)
    ensures r.1 ==> RemainingDashes(c, r.0) == RemainingDashes(c, s) - 1
  {
    if !CanDash(c, s) then (s, false)
    else
      (s.(isDashing := true, dashDirection := DashDirection(input, facing), dashTimer := c.dashDuration,
          dashCount := s.dashCount + 1, cooldownTimer := c.dashCooldown,
          gravityScale := if c.disableGravityDuringDash then 0.0 else s.gravityScale),
       true)
  }

  /** `ResetDashes`: every dash is available again and the cooldown is cleared. */
  function ResetDashesStep(s: State): (r: State)
    ensures r.dashCount == 0 && r.cooldownTimer == 0.0
    ensures r.(dashCount := s.dashCount, cooldownTimer := s.cooldownTimer) == s
  {
    s.(dashCount := 0, cooldownTimer := 0.0)
  }

  /** `OnGroundedChanged`: only a landing edge resets the dashes; the grounded flag is remembered. */
  function OnGroundedChangedStep(s: State, isGrounded: bool): (r: State)
    ensures isGrounded && !s.wasGrounded ==> r == ResetDashesStep(s).(wasGrounded := true)
    ensures !(isGrounded && !s.wasGrounded) ==> r == s.(wasGrounded := isGrounded)
    ensures r.wasGrounded == isGrounded
  {
    var s1 := if isGrounded && !s.wasGrounded then ResetDashesStep(s) else s;
    s1.(wasGrounded := isGrounded)
  }

  /** `ForceCancelDash`: ends a dash in progress and does nothing otherwise. */
  function ForceCancelDashStep(c: Config, s: State): (r: State)
    ensures s.isDashing ==> r == EndDashStep(c, s)
    ensures !s.isDashing ==> r == s
    ensures !r.isDashing
    ensures Inv(c, s) ==> Inv(c, r)
  {
    if s.isDashing then EndDashStep(c, s) else s
  }

  /** The calls a frame sequence makes on the dash system, landings excluded. */
  datatype Op = Tick(dt: real) | Try(input: Vec, facing: Vec) | Cancel

  /** Applies the calls in order; returns the final state and how many dashes started. */
  function Run(c: Config, s: State, ops: seq<Op>): (State, nat)
    decreases |ops|
  {
    if ops == [] then (s, 0)
    else
      match ops[0]
      case Tick(dt) => Run(c, UpdateStep(c, s, dt), ops[1..])
      case Cancel => Run(c, ForceCancelDashStep(c, s), ops[1..])
      case Try(i, f) =>
        var (s1, ok) := TryDashStep(c, s, i, f);
        var (s2, n) := Run(c, s1, ops[1..]);
        (s2, n + if ok then 1 else 0)
  }

  /**
   * Without a landing, every dash started uses one up: the counter grows by
   * the number of dashes, which therefore never exceeds those remaining at
   * the outset.
   */
  lemma {:induction false} AirDashesBounded(c: Config, s: State, ops: seq<Op>)
    requires Inv(c, s)
    decreases |ops|
    ensures Run(c, s, ops).0.dashCount == s.dashCount + Run(c, s, ops).1
    ensures Inv(c, Run(c, s, ops).0)
    ensures Run(c, s, ops).1 <= RemainingDashes(c, s)
  {
    if ops != [] {
      match ops[0]
      case Tick(dt) =>
        AirDashesBounded(c, UpdateStep(c, s, dt), ops[1..]);
      case Cancel =>
        AirDashesBounded(c, ForceCancelDashStep(c, s), ops[1..]);
      case Try(i, f) =>
        AirDashesBounded(c, TryDashStep(c, s, i, f).0, ops[1..]);
    }
  }

  class DashSystem {
    const cfg: Config
    var dashCount: int
    var dashTimer: real
    var cooldownTimer: real
    var dashDirection: Vec
    var isDashing: bool
    var wasGrounded: bool
    /** The controlled body's gravity scale, and the value it had at `Initialize`. */
    var gravityScale: real
    var originalGravityScale: real

    function Model(): State
      reads this
    {
      State(dashCount, dashTimer, cooldownTimer, dashDirection, isDashing, wasGrounded, gravityScale, originalGravityScale)
    }

    constructor (config: Config, bodyGravity: real)
      ensures cfg == config && Model() == State(0, 0.0, 0.0, Vec(0.0, 0.0), false, false, bodyGravity, bodyGravity)
      ensures Inv(cfg, Model())
    {
      cfg := config;
      dashCount, dashTimer, cooldownTimer, dashDirection := 0, 0.0, 0.0, Vec(0.0, 0.0);
      isDashing, wasGrounded := false, false;
      gravityScale, originalGravityScale := bodyGravity, bodyGravity;
    }

    method Initialize(bodyGravity: real)
      modifies this
      ensures Model() == InitializeStep(old(Model()), bodyGravity)
    {
      originalGravityScale := bodyGravity;
      gravityScale := bodyGravity;
      dashCount := 0;
      cooldownTimer := 0.0;
    }

    method Update(dt: real)
      modifies this
      ensures Model() == UpdateStep(cfg, old(Model()), dt)
    {
      // UpdateTimers
      if cooldownTimer > 0.0 {
        cooldownTimer := cooldownTimer - dt;
      }
      if isDashing {
        dashTimer := dashTimer - dt;
      }
      // UpdateDash
      if isDashing && dashTimer <= 0.0 {
        EndDash();
      }
    }

    method TryDash(input: Vec, facing: Vec) returns (started: bool)
      modifies this
      ensures (Model(), started) == TryDashStep(cfg, old(Model()), input, facing)
    {
      if !(dashCount < cfg.maxDashes && cooldownTimer <= 0.0 && !isDashing) {
        return false;
      }
      var direction := if input.x * input.x + input.y * input.y > 0.01 then input else facing;
      // StartDash
      isDashing := true;
      dashDirection := direction;
      dashTimer := cfg.dashDuration;
      dashCount := dashCount + 1;
      cooldownTimer := cfg.dashCooldown;
      if cfg.disableGravityDuringDash {
        gravityScale := 0.0;
      }
      started := true;
    }

    method EndDash()
      modifies this
      ensures Model() == EndDashStep(cfg, old(Model()))
    {
      isDashing := false;
      if cfg.disableGravityDuringDash {
        gravityScale := originalGravityScale;
      }
    }

    method OnGroundedChanged(isGrounded: bool)
      modifies this
      ensures Model() == OnGroundedChangedStep(old(Model()), isGrounded)
    {
      if isGrounded && !wasGrounded {
        ResetDashes();
      }
      wasGrounded := isGrounded;
    }

    method ResetDashes()
      modifies this
      ensures Model() == ResetDashesStep(old(Model()))
    {
      dashCount := 0;
      cooldownTimer := 0.0;
    }

    method ForceCancelDash()
      modifies this
      ensures Model() == ForceCancelDashStep(cfg, old(Model()))
    {
      if isDashing {
        EndDash();
      }
    }
  }
}
