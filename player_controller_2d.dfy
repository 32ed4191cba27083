/**
 * The input-system character controller (namespace
 * ElderCloak.Player.Movement, `PlayerController2D`): a jump counter reset on
 * the ground, a latched jump press consumed only by a jump, variable jump
 * height, and a timed dash behind a cooldown. The ground overlap query and
 * `Time.time` are parameters. The rigid body's velocity as the engine last
 * left it is passed in, the velocity the controller leaves is returned, and
 * forces and impulses the controller adds are reported for the engine to
 * integrate.
 */
module Controller2D {

  import opened Common

  datatype Vec = Vec(x: real, y: real)

  datatype Config = Config(
    moveSpeed: real,
    acceleration: real,
    deceleration: real,
    airAcceleration: real,
    jumpForce: real,
    jumpCutMultiplier: real,
    fallGravityMultiplier: real,
    lowJumpGravityMultiplier: real,
    maxJumps: int,
    dashForce: real,
    dashDuration: real,
    dashCooldown: real,
    canDashInAir: bool)

  const Defaults := Config(8.0, 15.0, 20.0, 10.0, 16.0, 0.5, 2.5, 3.0, 2, 20.0, 0.15, 0.8, true)

  /** The input callbacks' latches. */
  datatype Latches = Latches(jumpInputPressed: bool, jumpInputReleased: bool, dashInputPressed: bool)

  datatype DashState = DashState(isDashing: bool, dashTimer: real, lastDashTime: real, dashDirection: Vec, wasDashing: bool)

  datatype State = State(
    moveInput: Vec,
    /** `transform.localScale.x < 0`. */
    facingLeft: bool,
    latches: Latches,
    jumpCount: int,
    isGrounded: bool,
    dash: DashState,
    gravityScale: real)

  const Initial := State(Vec(0.0, 0.0), false, Latches(false, false, false), 0, false,
                         DashState(false, 0.0, -1.0, Vec(0.0, 0.0), false), 1.0)

  /** The jump counter never goes negative and, once used, never passes `maxJumps`. */
  predicate Inv(c: Config, s: State)
  {
    0 <= s.jumpCount && (s.jumpCount == 0 || s.jumpCount <= c.maxJumps)
  }

  // ---- Input callbacks ----

  /** `OnMove`: the input is stored and the sprite turns when |x| > 0.1. */
  function OnMoveStep(s: State, input: Vec): (r: State)
    ensures r.moveInput == input
    ensures input.x > 0.1 ==> !r.facingLeft
    ensures input.x < -0.1 ==> r.facingLeft
    ensures -0.1 <= input.x <= 0.1 ==> r.facingLeft == s.facingLeft
    ensures r.(moveInput := s.moveInput, facingLeft := s.facingLeft) == s
  {
    s.(moveInput := input, facingLeft := if input.x > 0.1 then false else if input.x < -0.1 then true else s.facingLeft)
  }

  /** `OnJump`: a start latches a press, a cancel latches a release. */
  function OnJumpStep(s: State, started: bool, canceled: bool): (r: State)
    ensures started ==> r.latches == s.latches.(jumpInputPressed := true)
    ensures !started && canceled ==> r.latches == s.latches.(jumpInputReleased := true)
    ensures !started && !canceled ==> r == s
    ensures r.(latches := s.latches) == s
  {
    if started then s.(latches := s.latches.(jumpInputPressed := true))
    else if canceled then s.(latches := s.latches.(jumpInputReleased := true))
    else s
  }

  /** `OnDash`: a start latches a press. */
  function OnDashStep(s: State, started: bool): (r: State)
    ensures r.latches.dashInputPressed == (s.latches.dashInputPressed || started)
    ensures r.latches.(dashInputPressed := s.latches.dashInputPressed) == s.latches && r.(latches := s.latches) == s
  {
    if started then s.(latches := s.latches.(dashInputPressed := true)) else s
  }

  // ---- Update ----

  /** `CheckGroundStatus` then `HandleJumpCount`: the counter resets on landing and whenever grounded and not rising faster than 0.1. */
  function GroundStep(s: State, grounded: bool, vy: real): (r: State)
    ensures r.isGrounded == grounded
    ensures (grounded && !s.isGrounded) || (grounded && vy <= 0.1) ==> r.jumpCount == 0
    ensures !((grounded && !s.isGrounded) || (grounded && vy <= 0.1)) ==> r.jumpCount == s.jumpCount
    ensures r.(isGrounded := s.isGrounded, jumpCount := s.jumpCount) == s
  {
    var count := if !s.isGrounded && grounded then 0 else s.jumpCount;
    var count2 := if grounded && vy <= 0.1 then 0 else count;
    s.(isGrounded := grounded, jumpCount := count2)
  }

  /** `CanDash`: the cooldown since the last dash has passed, and grounded or air dashes allowed. */
  predicate CanDash(c: Config, s: State, now: real)
  {
    now - s.dash.lastDashTime >= c.dashCooldown && (s.isGrounded || c.canDashInAir)
  }

  /** The `StartDash` direction: the input when longer than 0.1, else the side the sprite faces. */
  function DashDirection(s: State): (d: Vec)
    ensures s.moveInput.x * s.moveInput.x + s.moveInput.y * s.moveInput.y > 0.01 ==> d == s.moveInput
    ensures s.moveInput.x * s.moveInput.x + s.moveInput.y * s.moveInput.y <= 0.01 ==>
              d == (if s.facingLeft then Vec(-1.0, 0.0) else Vec(1.0, 0.0))
  {
    if s.moveInput.x * s.moveInput.x + s.moveInput.y * s.moveInput.y > 0.01 then s.moveInput
    else if s.facingLeft then Vec(-1.0, 0.0) else Vec(1.0, 0.0)
  }

  /** The dash impulse: the direction scaled by `dashForce`. */
  function DashImpulse(c: Config, d: Vec): Vec
  {
    Vec(d.x * c.dashForce, d.y * c.dashForce)
  }

  /** Result of an `Update`: new state, the velocity left on the body, the dash impulse added if any. */
  datatype Frame = Frame(s: State, velocity: Vec, impulse: Option<Vec>)

  /**
   * The first half of `HandleDash`: a latched press starts a dash when
   * `CanDash` (`StartDash` stamps `now`, stops the body and adds the dash
   * impulse), and only then is the latch cleared.
   */
  function StartDashStep(c: Config, s: State, now: real, v: Vec): (r: Frame)
    ensures s.latches.dashInputPressed && CanDash(c, s, now) ==>
              && r.s == s.(dash := s.dash.(isDashing := true, dashTimer := c.dashDuration, lastDashTime := now,
                                           dashDirection := DashDirection(s)),
                           latches := s.latches.(dashInputPressed := false))
              && r.velocity == Vec(0.0, 0.0)
              && r.impulse == Some(DashImpulse(c, DashDirection(s)))
    ensures !(s.latches.dashInputPressed && CanDash(c, s, now)) ==> r == Frame(s, v, None)
  {
    if s.latches.dashInputPressed && CanDash(c, s, now) then
      Frame(s.(dash := s.dash.(isDashing := true, dashTimer := c.dashDuration, lastDashTime := now,
                               dashDirection := DashDirection(s)),
               latches := s.latches.(dashInputPressed := false)),
            Vec(0.0, 0.0), Some(DashImpulse(c, DashDirection(s))))
    else Frame(s, v, None)
  }

  /** The second half of `HandleDash`: a dash counts down and ends, halving the velocity, on the frame its timer reaches 0. */
  function DashTimerStep(s: State, dt: real, v: Vec): (r: (State, Vec))
    ensures s.dash.isDashing ==> r.0.dash.dashTimer == s.dash.dashTimer - dt && (r.0.dash.isDashing <==> s.dash.dashTimer - dt > 0.0)
    ensures s.dash.isDashing && s.dash.dashTimer - dt <= 0.0 ==> r.0.dash.wasDashing && r.1 == Vec(v.x * 0.5, v.y * 0.5)
    ensures s.dash.isDashing && s.dash.dashTimer - dt > 0.0 ==> r.0.dash.wasDashing == s.dash.wasDashing && r.1 == v
    ensures !s.dash.isDashing ==> r == (s, v)
    ensures r.0.(dash := s.dash) == s
    ensures r.0.dash.lastDashTime == s.dash.lastDashTime && r.0.dash.dashDirection == s.dash.dashDirection
  {
    if s.dash.isDashing then
      var t := s.dash.dashTimer - dt;
      if t <= 0.0 then (s.(dash := s.dash.(dashTimer := t, isDashing := false, wasDashing := true)), Vec(v.x * 0.5, v.y * 0.5))
      else (s.(dash := s.dash.(dashTimer := t)), v)
    else (s, v)
  }

  /** `HandleDash`: a dash started this frame already counts down this frame. */
  function HandleDashStep(c: Config, s: State, now: real, dt: real, v: Vec): (r: Frame)
    ensures var f := StartDashStep(c, s, now, v);
            r == Frame(DashTimerStep(f.s, dt, f.velocity).0, DashTimerStep(f.s, dt, f.velocity).1, f.impulse)
    ensures r.s.jumpCount == s.jumpCount && r.s.isGrounded == s.isGrounded
  {
    var f := StartDashStep(c, s, now, v);
    var (s1, v1) := DashTimerStep(f.s, dt, f.velocity);
    Frame(s1, v1, f.impulse)
  }

  /** `Update`: the ground check, the jump counter reset, then the dash. */
  function UpdateStep(c: Config, s: State, now: real, dt: real, grounded: bool, v: Vec): (r: Frame)
    ensures r == HandleDashStep(c, GroundStep(s, grounded, v.y), now, dt, v)
    ensures Inv(c, s) ==> Inv(c, r.s)
  {
    HandleDashStep(c, GroundStep(s, grounded, v.y), now, dt, v)
  }

  // ---- FixedUpdate ----

  /**
   * The horizontal force `HandleMovement` adds: the gap to the target speed
   * times the ground acceleration (or deceleration when there is no input
   * to speak of) or the air acceleration. With positive rates it pushes
   * towards the target speed.
   */
  function MovementForce(c: Config, s: State, vx: real): (f: real)
    ensures c.acceleration > 0.0 && c.deceleration > 0.0 && c.airAcceleration > 0.0 ==>
              (f > 0.0 <==> s.moveInput.x * c.moveSpeed > vx) && (f < 0.0 <==> s.moveInput.x * c.moveSpeed < vx)
  {
    var target := s.moveInput.x * c.moveSpeed;
    var rate := if s.isGrounded then (if Abs(target) > 0.01 then c.acceleration else c.deceleration) else c.airAcceleration;
    assert c.acceleration > 0.0 && c.deceleration > 0.0 && c.airAcceleration > 0.0 ==> rate > 0.0;
    (target - vx) * rate
  }

  /** Result of a `FixedUpdate`: new state, velocity left, horizontal force added, jump impulse added. */
  datatype Physics = Physics(s: State, velocity: Vec, force: real, jumpImpulse: Option<real>)

  /**
   * The first half of `HandleJump`: a latched press jumps while
   * `jumpCount < maxJumps`, stopping vertical motion, adding the jump
   * impulse, counting the jump and clearing the latch; a press beyond the
   * limit stays latched.
   */
  function JumpPressStep(c: Config, s: State, v: Vec): (r: (State, Vec, Option<real>))
    ensures s.latches.jumpInputPressed && s.jumpCount < c.maxJumps ==>
              r == (s.(jumpCount := s.jumpCount + 1, latches := s.latches.(jumpInputPressed := false)), Vec(v.x, 0.0), Some(c.jumpForce))
    ensures !(s.latches.jumpInputPressed && s.jumpCount < c.maxJumps) ==> r == (s, v, None)
    ensures Inv(c, s) ==> Inv(c, r.0)
  {
    if s.latches.jumpInputPressed && s.jumpCount < c.maxJumps then
      (s.(jumpCount := s.jumpCount + 1, latches := s.latches.(jumpInputPressed := false)), Vec(v.x, 0.0), Some(c.jumpForce))
    else (s, v, None)
  }

  /** The second half of `HandleJump`: a latched release while rising cuts the upward speed and clears that latch. */
  function JumpCutStep(c: Config, s: State, v: Vec): (r: (State, Vec))
    ensures s.latches.jumpInputReleased && v.y > 0.0 ==>
              r == (s.(latches := s.latches.(jumpInputReleased := false)), Vec(v.x, v.y * c.jumpCutMultiplier))
    ensures !(s.latches.jumpInputReleased && v.y > 0.0) ==> r == (s, v)
  {
    if s.latches.jumpInputReleased && v.y > 0.0 then
      (s.(latches := s.latches.(jumpInputReleased := false)), Vec(v.x, v.y * c.jumpCutMultiplier))
    else (s, v)
  }

  /** `HandleJump`: the press, then the cut (which sees the stopped vertical speed after a jump). */
  function HandleJumpStep(c: Config, s: State, v: Vec): (r: (State, Vec, Option<real>))
    ensures var (s1, v1, imp) := JumpPressStep(c, s, v);
            r == (JumpCutStep(c, s1, v1).0, JumpCutStep(c, s1, v1).1, imp)
    ensures r.2.Some? <==> s.latches.jumpInputPressed && s.jumpCount < c.maxJumps
    ensures r.0.jumpCount == s.jumpCount + (if r.2.Some? then 1 else 0)
    ensures Inv(c, s) ==> Inv(c, r.0)
  {
    var (s1, v1, imp) := JumpPressStep(c, s, v);
    var (s2, v2) := JumpCutStep(c, s1, v1);
    (s2, v2, imp)
  }

  /** `AdjustGravity`: heavy gravity while falling, low-jump gravity while rising without a latched press, else 1. */
  function AdjustGravityStep(c: Config, s: State, vy: real): (r: State)
    ensures r.gravityScale == (if vy < 0.0 then c.fallGravityMultiplier
                               else if vy > 0.0 && !s.latches.jumpInputPressed then c.lowJumpGravityMultiplier
                               else 1.0)
    ensures r.(gravityScale := s.gravityScale) == s
  {
    s.(gravityScale := if vy < 0.0 then c.fallGravityMultiplier
                       else if vy > 0.0 && !s.latches.jumpInputPressed then c.lowJumpGravityMultiplier
                       else 1.0)
  }

  /** `FixedUpdate`: movement, jump and gravity, or while dashing only the dash velocity. */
  function FixedUpdateStep(c: Config, s: State, v: Vec): (r: Physics)
    ensures s.dash.isDashing ==>
              r == Physics(s, DashImpulse(c, s.dash.dashDirection), 0.0, None)
    ensures !s.dash.isDashing ==>
              var (s1, v1, imp) := HandleJumpStep(c, s, v);
              r == Physics(AdjustGravityStep(c, s1, v1.y), v1, MovementForce(c, s, v.x), imp)
    ensures Inv(c, s) ==> Inv(c, r.s)
  {
    if s.dash.isDashing then
      Physics(s, DashImpulse(c, s.dash.dashDirection), 0.0, None)
    else
      var f := MovementForce(c, s, v.x);
      var (s1, v1, imp) := HandleJumpStep(c, s, v);
      Physics(AdjustGravityStep(c, s1, v1.y), v1, f, imp)
  }

  // ---- Properties ----

  /** The engine's physics steps while the player stays airborne, with what it hands the controller. */
  datatype AirTick = AirTick(now: real, dt: real, updateVelocity: Vec, fixedVelocity: Vec, jumpPress: bool)

  /** Applies one airborne frame: a possible jump press, `Update`, then `FixedUpdate`. */
  function AirFrame(c: Config, s: State, t: AirTick): (r: (State, bool))
    ensures !s.isGrounded ==> !r.0.isGrounded
    ensures r.1 ==> r.0.jumpCount == s.jumpCount + 1
    ensures !r.1 && !s.isGrounded ==> r.0.jumpCount == s.jumpCount
    ensures Inv(c, s) ==> Inv(c, r.0)
  {
    var s0 := OnJumpStep(s, t.jumpPress, false);
    var u := UpdateStep(c, s0, t.now, t.dt, false, t.updateVelocity);
    var p := FixedUpdateStep(c, u.s, t.fixedVelocity);
    (p.s, p.jumpImpulse.Some?)
  }

  function RunAir(c: Config, s: State, ticks: seq<AirTick>): (State, nat)
    decreases |ticks|
  {
    if ticks == [] then (s, 0)
    else
      var (s1, jumped) := AirFrame(c, s, ticks[0]);
      var (s2, n) := RunAir(c, s1, ticks[1..]);
      (s2, n + if jumped then 1 else 0)
  }

  /** Between landings the jumps made never exceed `maxJumps` minus those already counted. */
  lemma {:induction false} AirJumpsBounded(c: Config, s: State, ticks: seq<AirTick>)
    requires Inv(c, s) && !s.isGrounded
    decreases |ticks|
    ensures RunAir(c, s, ticks).0.jumpCount == s.jumpCount + RunAir(c, s, ticks).1
    ensures Inv(c, RunAir(c, s, ticks).0) && !RunAir(c, s, ticks).0.isGrounded
    ensures s.jumpCount + RunAir(c, s, ticks).1 <= MaxInt(c.maxJumps, 0)
  {
    if ticks != [] {
      AirJumpsBounded(c, AirFrame(c, s, ticks[0]).0, ticks[1..]);
    }
  }

  /** A dash started at `t` blocks the next dash until `dashCooldown` has passed. */
  lemma NoDashWithinCooldown(c: Config, s: State, t: real, dt: real, v: Vec, later: real)
    requires s.latches.dashInputPressed && CanDash(c, s, t) && later - t < c.dashCooldown
    ensures !CanDash(c, HandleDashStep(c, s, t, dt, v).s, later)
  {
  }

  class PlayerController2D {
    const cfg: Config
    var moveInput: Vec
    var facingLeft: bool
    var jumpInputPressed: bool
    var jumpInputReleased: bool
    var dashInputPressed: bool
    var jumpCount: int
    var isGrounded: bool
    var wasDashing: bool
    var lastDashTime: real
    var isDashing: bool
    var dashTimer: real
    var dashDirection: Vec
    /** The rigid body's gravity scale, which only this controller writes. */
    var gravityScale: real

    function Model(): State
      reads this
    {
      State(moveInput, facingLeft, Latches(jumpInputPressed, jumpInputReleased, dashInputPressed),
            jumpCount, isGrounded, DashState(isDashing, dashTimer, lastDashTime, dashDirection, wasDashing), gravityScale)
    }

    constructor (config: Config)
      ensures cfg == config && Model() == Initial && Inv(cfg, Model())
    {
      cfg := config;
      moveInput, facingLeft := Vec(0.0, 0.0), false;
      jumpInputPressed, jumpInputReleased, dashInputPressed := false, false, false;
      jumpCount, isGrounded := 0, false;
      wasDashing, lastDashTime, isDashing, dashTimer, dashDirection := false, -1.0, false, 0.0, Vec(0.0, 0.0);
      gravityScale := 1.0;
    }

    method OnMove(input: Vec)
      modifies this
      ensures Model() == OnMoveStep(old(Model()), input)
    {
      moveInput := input;
      if moveInput.x > 0.1 {
        facingLeft := false;
      } else if moveInput.x < -0.1 {
        facingLeft := true;
      }
    }

    method OnJump(started: bool, canceled: bool)
      modifies this
      ensures Model() == OnJumpStep(old(Model()), started, canceled)
    {
      if started {
        jumpInputPressed := true;
      } else if canceled {
        jumpInputReleased := true;
      }
    }

    method OnDash(started: bool)
      modifies this
      ensures Model() == OnDashStep(old(Model()), started)
    {
      if started {
        dashInputPressed := true;
      }
    }

    /** `Move` (and `StopMovement` with the zero vector): the input only, no turning. */
    method Move(direction: Vec)
      modifies this
      ensures Model() == old(Model()).(moveInput := direction)
    {
      moveInput := direction;
    }

    method Update(now: real, dt: real, grounded: bool, v: Vec) returns (velocity: Vec, impulse: Option<Vec>)
      modifies this
      ensures Frame(Model(), velocity, impulse) == UpdateStep(cfg, old(Model()), now, dt, grounded, v)
    {
      // CheckGroundStatus
      var was := isGrounded;
      isGrounded := grounded;
      if !was && isGrounded {
        jumpCount := 0;
      }
      // HandleJumpCount
      if isGrounded && v.y <= 0.1 {
        jumpCount := 0;
      }
      velocity, impulse := HandleDash(now, dt, v);
    }

    method HandleDash(now: real, dt: real, v: Vec) returns (velocity: Vec, impulse: Option<Vec>)
      modifies this
      ensures Frame(Model(), velocity, impulse) == HandleDashStep(cfg, old(Model()), now, dt, v)
    {
      velocity, impulse := StartDash(now, v);
      velocity := DashTimer(dt, velocity);
    }

    method StartDash(now: real, v: Vec) returns (velocity: Vec, impulse: Option<Vec>)
      modifies this
      ensures Frame(Model(), velocity, impulse) == StartDashStep(cfg, old(Model()), now, v)
    {
      velocity, impulse := v, None;
      if dashInputPressed && CanDash(cfg, Model(), now) {
        var dir := DashDirection(Model());
        isDashing := true;
        dashTimer := cfg.dashDuration;
        lastDashTime := now;
        dashDirection := dir;
        velocity := Vec(0.0, 0.0);
        impulse := Some(DashImpulse(cfg, dir));
        dashInputPressed := false;
      }
    }

    method DashTimer(dt: real, v: Vec) returns (velocity: Vec)
      modifies this
      ensures (Model(), velocity) == DashTimerStep(old(Model()), dt, v)
    {
      velocity := v;
      if isDashing {
        dashTimer := dashTimer - dt;
        if dashTimer <= 0.0 {
          // EndDash
          isDashing := false;
          wasDashing := true;
          velocity := Vec(velocity.x * 0.5, velocity.y * 0.5);
        }
      }
    }

    method FixedUpdate(v: Vec) returns (velocity: Vec, force: real, jumpImpulse: Option<real>)
      modifies this
      ensures Physics(Model(), velocity, force, jumpImpulse) == FixedUpdateStep(cfg, old(Model()), v)
    {
      if !isDashing {
        force := MovementForce(cfg, Model(), v.x);
        velocity, jumpImpulse := HandleJump(v);
        AdjustGravity(velocity.y);
      } else {
        velocity := DashImpulse(cfg, dashDirection);
        force, jumpImpulse := 0.0, None;
      }
    }

    method HandleJump(v: Vec) returns (velocity: Vec, impulse: Option<real>)
      modifies this
      ensures (Model(), velocity, impulse) == HandleJumpStep(cfg, old(Model()), v)
    {
      velocity, impulse := JumpPress(v);
      velocity := JumpCut(velocity);
    }

    method JumpPress(v: Vec) returns (velocity: Vec, impulse: Option<real>)
      modifies this
      ensures (Model(), velocity, impulse) == JumpPressStep(cfg, old(Model()), v)
    {
      velocity, impulse := v, None;
      if jumpInputPressed && jumpCount < cfg.maxJumps {
        velocity := Vec(velocity.x, 0.0);
        impulse := Some(cfg.jumpForce);
        jumpCount := jumpCount + 1;
        jumpInputPressed := false;
      }
    }

    method JumpCut(v: Vec) returns (velocity: Vec)
      modifies this
      ensures (Model(), velocity) == JumpCutStep(cfg, old(Model()), v)
    {
      velocity := v;
      if jumpInputReleased && v.y > 0.0 {
        velocity := Vec(v.x, v.y * cfg.jumpCutMultiplier);
        jumpInputReleased := false;
        assert velocity == JumpCutStep(cfg, old(Model()), v).1;
      }
    }

    method AdjustGravity(vy: real)
      modifies this
      ensures Model() == AdjustGravityStep(cfg, old(Model()), vy)
    {
      if vy < 0.0 {
        gravityScale := cfg.fallGravityMultiplier;
      } else if vy > 0.0 && !jumpInputPressed {
        gravityScale := cfg.lowJumpGravityMultiplier;
      } else {
        gravityScale := 1.0;
      }
    }
  }
}
