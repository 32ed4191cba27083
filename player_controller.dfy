/**
 * The platformer character controller (namespace ElderCloak.Player,
 * `PlayerController`): ground and coyote jumps, a limited number of air
 * jumps and air dashes between landings, a jump buffer, a timed dash, wall
 * sliding and facing. The ground and wall overlap queries, `Time.time` and
 * the frame times are parameters; the rigid body is kept as the velocity
 * and gravity scale the controller writes, and the horizontal force it
 * applies is reported rather than integrated.
 */
module PlatformerController {

  import opened Common
  import Health

  datatype Vec = Vec(x: real, y: real)

  datatype Config = Config(
    moveSpeed: real,
    sprintMultiplier: real,
    acceleration: real,
    deceleration: real,
    airAcceleration: real,
    airDeceleration: real,
    jumpForce: real,
    fallGravityMultiplier: real,
    maxFallSpeed: real,
    coyoteTime: real,
    jumpBufferTime: real,
    enableDoubleJump: bool,
    doubleJumpForce: real,
    maxAirJumps: int,
    enableDash: bool,
    dashForce: real,
    dashDuration: real,
    dashCooldown: real,
    maxAirDashes: int,
    dashResetsAirJumps: bool,
    wallSlideSpeed: real,
    enableWallSlide: bool)

  const Defaults := Config(8.0, 1.5, 20.0, 25.0, 15.0, 10.0, 16.0, 2.5, 25.0, 0.15, 0.2,
                           true, 14.0, 1, true, 20.0, 0.2, 1.0, 1, false, 3.0, true)

  /** What the controller writes to its rigid body. */
  datatype Body = Body(vx: real, vy: real, gravityScale: real)

  /** Movement input and facing. */
  datatype Motion = Motion(moveInput: Vec, isFacingRight: bool, isSprinting: bool)

  /** What the ground and wall checks found. */
  datatype Contact = Contact(isGrounded: bool, wasGrounded: bool, isTouchingWall: bool, wallDirection: int)

  datatype Jumping = Jumping(
    isJumpPressed: bool,
    isJumpHeld: bool,
    coyoteTimer: real,
    jumpBufferTimer: real,
    airJumpsUsed: int)

  datatype Dashing = Dashing(
    isDashing: bool,
    dashTimer: real,
    lastDashTime: real,
    airDashesUsed: int,
    dashDirection: Vec)

  /** The controller's fields, grouped by concern. */
  datatype State = State(motion: Motion, contact: Contact, jump: Jumping, dash: Dashing, body: Body)

  /** The field initialisers, with `Awake`'s gravity scale of 1. */
  function Initial(velocity: Vec): State
  {
    State(Motion(Vec(0.0, 0.0), true, false), Contact(false, false, false, 0),
          Jumping(false, false, 0.0, 0.0, 0), Dashing(false, 0.0, 0.0, 0, Vec(0.0, 0.0)),
          Body(velocity.x, velocity.y, 1.0))
  }

  /** The air-ability counters stay within their limits (a negative limit keeps its counter at 0). */
  predicate Inv(c: Config, s: State)
  {
    && 0 <= s.jump.airJumpsUsed && (s.jump.airJumpsUsed == 0 || s.jump.airJumpsUsed <= c.maxAirJumps)
    && 0 <= s.dash.airDashesUsed && (s.dash.airDashesUsed == 0 || s.dash.airDashesUsed <= c.maxAirDashes)
  }

  // ---- Input handlers ----

  /** `HandleJumpPressed`: the press is latched, held, and buffered for `jumpBufferTime`. */
  function JumpPressedStep(c: Config, s: State): (r: State)
    ensures r.jump == s.jump.(isJumpPressed := true, isJumpHeld := true, jumpBufferTimer := c.jumpBufferTime)
    ensures r.(jump := s.jump) == s
  {
    s.(jump := s.jump.(isJumpPressed := true, isJumpHeld := true, jumpBufferTimer := c.jumpBufferTime))
  }

  // ---- Update ----

  /** A timer that runs down by `dt` while positive. */
  function Countdown(t: real, dt: real): (r: real)
    ensures t > 0.0 ==> r == t - dt
    ensures t <= 0.0 ==> r == t
  {
    if t > 0.0 then t - dt else t
  }

  /**
   * `HandleTimers`: a leaving edge seen by the previous ground check starts
   * coyote time, otherwise coyote time runs down while positive; the jump
   * buffer and the dash timer run down while positive.
   */
  function HandleTimersStep(c: Config, s: State, dt: real): (r: State)
    ensures !s.contact.isGrounded && s.contact.wasGrounded ==> r.jump.coyoteTimer == c.coyoteTime
    ensures !(!s.contact.isGrounded && s.contact.wasGrounded) ==> r.jump.coyoteTimer == Countdown(s.jump.coyoteTimer, dt)
    ensures r.jump.jumpBufferTimer == Countdown(s.jump.jumpBufferTimer, dt)
    ensures r.dash.dashTimer == Countdown(s.dash.dashTimer, dt)
    ensures r.jump.(coyoteTimer := s.jump.coyoteTimer, jumpBufferTimer := s.jump.jumpBufferTimer) == s.jump
    ensures r.dash.(dashTimer := s.dash.dashTimer) == s.dash
    ensures r.(jump := s.jump, dash := s.dash) == s
  {
    var coyote := if !s.contact.isGrounded && s.contact.wasGrounded then c.coyoteTime else Countdown(s.jump.coyoteTimer, dt);
    s.(jump := s.jump.(coyoteTimer := coyote, jumpBufferTimer := Countdown(s.jump.jumpBufferTimer, dt)),
       dash := s.dash.(dashTimer := Countdown(s.dash.dashTimer, dt)))
  }

  /** `CheckGroundedState`: a landing edge restores every air jump and air dash and starts coyote time. */
  function CheckGroundedStep(c: Config, s: State, grounded: bool): (r: State)
    ensures r.contact == s.contact.(wasGrounded := s.contact.isGrounded, isGrounded := grounded)
    ensures grounded && !s.contact.isGrounded ==>
              r.jump == s.jump.(airJumpsUsed := 0, coyoteTimer := c.coyoteTime) && r.dash == s.dash.(airDashesUsed := 0)
    ensures !(grounded && !s.contact.isGrounded) ==> r.jump == s.jump && r.dash == s.dash
    ensures r.(contact := s.contact, jump := s.jump, dash := s.dash) == s
    ensures Inv(c, s) ==> Inv(c, r)
  {
    var s1 := s.(contact := s.contact.(wasGrounded := s.contact.isGrounded, isGrounded := grounded));
    if grounded && !s.contact.isGrounded then
      s1.(jump := s.jump.(airJumpsUsed := 0, coyoteTimer := c.coyoteTime), dash := s.dash.(airDashesUsed := 0))
    else s1
  }

  /** `CheckWallState`: touching a wall counts only while airborne; the wall is on the facing side. */
  function CheckWallStep(s: State, touching: bool): (r: State)
    ensures r.contact.isTouchingWall <==> touching && !s.contact.isGrounded
    ensures r.contact.wallDirection == (if s.motion.isFacingRight then 1 else -1)
    ensures r.contact.isGrounded == s.contact.isGrounded && r.contact.wasGrounded == s.contact.wasGrounded
    ensures r.(contact := s.contact) == s
  {
    s.(contact := s.contact.(isTouchingWall := touching && !s.contact.isGrounded,
                             wallDirection := if s.motion.isFacingRight then 1 else -1))
  }

  /** `CanJump`: a ground (or coyote) jump, or an air jump still available. */
  predicate CanJump(c: Config, s: State)
  {
    (s.contact.isGrounded || s.jump.coyoteTimer > 0.0) || (c.enableDoubleJump && s.jump.airJumpsUsed < c.maxAirJumps)
  }

  datatype JumpKind = NoJump | GroundJump | AirJump

  /**
   * `Jump`: a ground or coyote jump sets the upward speed to `jumpForce`
   * and ends coyote time without using an air jump; otherwise an enabled,
   * still available air jump sets it to `doubleJumpForce` and uses one up;
   * otherwise nothing happens. A jump happens exactly when `CanJump` holds.
   */
  function JumpStep(c: Config, s: State): (r: (State, JumpKind))
    ensures r.1 != NoJump <==> CanJump(c, s)
    ensures r.1 == GroundJump <==> s.contact.isGrounded || s.jump.coyoteTimer > 0.0
    ensures r.1 == GroundJump ==> r.0 == s.(body := s.body.(vy := c.jumpForce), jump := s.jump.(coyoteTimer := 0.0))
    ensures r.1 == AirJump ==>
              r.0 == s.(body := s.body.(vy := c.doubleJumpForce), jump := s.jump.(airJumpsUsed := s.jump.airJumpsUsed + 1))
    ensures r.1 == NoJump ==> r.0 == s
    ensures Inv(c, s) ==> Inv(c, r.0)
  {
    if s.contact.isGrounded || s.jump.coyoteTimer > 0.0 then
      (s.(body := s.body.(vy := c.jumpForce), jump := s.jump.(coyoteTimer := 0.0)), GroundJump)
    else if c.enableDoubleJump && s.jump.airJumpsUsed < c.maxAirJumps then
      (s.(body := s.body.(vy := c.doubleJumpForce), jump := s.jump.(airJumpsUsed := s.jump.airJumpsUsed + 1)), AirJump)
    else (s, NoJump)
  }

  /**
   * `HandleJumpInput`: a buffered press jumps once `CanJump` holds, which
   * empties the buffer; a blocked press stays buffered. The press latch is
   * cleared every frame.
   */
  function HandleJumpInputStep(c: Config, s: State): (r: (State, JumpKind))
    ensures r.1 != NoJump <==> s.jump.jumpBufferTimer > 0.0 && CanJump(c, s)
    ensures r.1 != NoJump ==>
              var j := JumpStep(c, s).0;
              r.0 == j.(jump := j.jump.(jumpBufferTimer := 0.0, isJumpPressed := false)) && r.1 == JumpStep(c, s).1
    ensures r.1 == NoJump ==> r.0 == s.(jump := s.jump.(isJumpPressed := false))
    ensures Inv(c, s) ==> Inv(c, r.0)
  {
    if s.jump.jumpBufferTimer > 0.0 && CanJump(c, s) then
      var (j, kind) := JumpStep(c, s);
      (j.(jump := j.jump.(jumpBufferTimer := 0.0, isJumpPressed := false)), kind)
    else (s.(jump := s.jump.(isJumpPressed := false)), NoJump)
  }

  /** `Update` without the health system: timers, ground check, wall check, buffered jump. */
  function UpdateStep(c: Config, s: State, dt: real, grounded: bool, touchingWall: bool): (r: (State, JumpKind))
    ensures var s1 := CheckWallStep(CheckGroundedStep(c, HandleTimersStep(c, s, dt), grounded), touchingWall);
            r == HandleJumpInputStep(c, s1)
    ensures r.0.contact.isGrounded == grounded
    ensures Inv(c, s) ==> Inv(c, r.0)
  {
    HandleJumpInputStep(c, CheckWallStep(CheckGroundedStep(c, HandleTimersStep(c, s, dt), grounded), touchingWall))
  }

  // ---- Dash ----

  /** `CanDash`: enabled, the cooldown since the last dash has passed, and grounded or an air dash left. */
  predicate CanDash(c: Config, s: State, now: real)
  {
    c.enableDash && now >= s.dash.lastDashTime + c.dashCooldown && (s.contact.isGrounded || s.dash.airDashesUsed < c.maxAirDashes)
  }

  /**
   * `Dash`: nothing happens unless `CanDash`; otherwise the dash starts and
   * is stamped with `now`; an airborne dash uses an air dash and, when so
   * configured, gives back every air jump.
   */
  function DashStep(c: Config, s: State, direction: Vec, now: real): (r: State)
    ensures !CanDash(c, s, now) ==> r == s
    ensures CanDash(c, s, now) ==>
              && r.dash == Dashing(true, c.dashDuration, now,
                                   if s.contact.isGrounded then s.dash.airDashesUsed else s.dash.airDashesUsed + 1,
                                   direction)
              && r.jump.airJumpsUsed == (if c.dashResetsAirJumps && !s.contact.isGrounded then 0 else s.jump.airJumpsUsed)
              && r.jump.(airJumpsUsed := s.jump.airJumpsUsed) == s.jump
              && r.(dash := s.dash, jump := s.jump) == s
    ensures Inv(c, s) ==> Inv(c, r)
  {
    if !CanDash(c, s, now) then s
    else
      var used := if s.contact.isGrounded then s.dash.airDashesUsed else s.dash.airDashesUsed + 1;
      var jumps := if c.dashResetsAirJumps && !s.contact.isGrounded then 0 else s.jump.airJumpsUsed;
      s.(dash := Dashing(true, c.dashDuration, now, used, direction), jump := s.jump.(airJumpsUsed := jumps))
  }

  /** The direction `HandleDashPressed` dashes in: the movement input when longer than 0.1, else the facing. */
  function DashDirection(m: Motion): (d: Vec)
    ensures m.moveInput.x * m.moveInput.x + m.moveInput.y * m.moveInput.y > 0.01 ==> d == m.moveInput
    ensures m.moveInput.x * m.moveInput.x + m.moveInput.y * m.moveInput.y <= 0.01 ==>
              d == (if m.isFacingRight then Vec(1.0, 0.0) else Vec(-1.0, 0.0))
  {
    if m.moveInput.x * m.moveInput.x + m.moveInput.y * m.moveInput.y > 0.01 then m.moveInput
    else if m.isFacingRight then Vec(1.0, 0.0) else Vec(-1.0, 0.0)
  }

  // ---- FixedUpdate ----

  /** `HandleDash`: a spent dash timer ends the dash and restores gravity; otherwise the dash drives the body without gravity. */
  function HandleDashStep(c: Config, s: State): (r: State)
    ensures s.dash.dashTimer <= 0.0 ==> !r.dash.isDashing && r.body == s.body.(gravityScale := 1.0)
    ensures s.dash.dashTimer > 0.0 ==>
              r.dash == s.dash && r.body == Body(s.dash.dashDirection.x * c.dashForce, s.dash.dashDirection.y * c.dashForce, 0.0)
    ensures r.dash.(isDashing := s.dash.isDashing) == s.dash
    ensures r.(dash := s.dash, body := s.body) == s
  {
    if s.dash.dashTimer <= 0.0 then s.(dash := s.dash.(isDashing := false), body := s.body.(gravityScale := 1.0))
    else s.(body := Body(s.dash.dashDirection.x * c.dashForce, s.dash.dashDirection.y * c.dashForce, 0.0))
  }

  predicate PositiveRates(c: Config)
  {
    c.acceleration > 0.0 && c.deceleration > 0.0 && c.airAcceleration > 0.0 && c.airDeceleration > 0.0
  }

  /**
   * The horizontal force `HandleMovement` applies per second: the gap to the
   * target speed times the acceleration while speeding up, the deceleration
   * while slowing down or when the gap is under 0.01, on the ground or in
   * the air. With positive rates it always pushes towards the target speed.
   */
  function MovementForce(c: Config, s: State): (f: real)
    ensures PositiveRates(c) ==>
              var target := s.motion.moveInput.x * c.moveSpeed * (if s.motion.isSprinting then c.sprintMultiplier else 1.0);
              (f > 0.0 <==> target > s.body.vx) && (f < 0.0 <==> target < s.body.vx)
  {
    var target := s.motion.moveInput.x * c.moveSpeed * (if s.motion.isSprinting then c.sprintMultiplier else 1.0);
    var accel := if s.contact.isGrounded then c.acceleration else c.airAcceleration;
    var decel := if s.contact.isGrounded then c.deceleration else c.airDeceleration;
    var dif := target - s.body.vx;
    var k := if Abs(dif) > 0.01 then (if Abs(dif) > Abs(target) then decel else accel) else decel;
    assert PositiveRates(c) ==> k > 0.0;
    dif * k
  }

  /** `Flip` as `HandleMovement` uses it: the sprite turns towards a non-zero horizontal input. */
  function FaceInput(m: Motion): (r: Motion)
    ensures m.moveInput.x > 0.0 ==> r.isFacingRight
    ensures m.moveInput.x < 0.0 ==> !r.isFacingRight
    ensures m.moveInput.x == 0.0 ==> r == m
    ensures r.(isFacingRight := m.isFacingRight) == m
  {
    if m.moveInput.x > 0.0 && !m.isFacingRight then m.(isFacingRight := true)
    else if m.moveInput.x < 0.0 && m.isFacingRight then m.(isFacingRight := false)
    else m
  }

  /** `HandleMovement` apart from the force: turn towards the input, and a wall slide caps the fall speed. */
  function HandleMovementStep(c: Config, s: State): (r: State)
    ensures r.motion == FaceInput(s.motion)
    ensures c.enableWallSlide && s.contact.isTouchingWall && s.body.vy < 0.0 ==>
              r.body == s.body.(vy := Max(s.body.vy, -c.wallSlideSpeed))
    ensures !(c.enableWallSlide && s.contact.isTouchingWall && s.body.vy < 0.0) ==> r.body == s.body
    ensures r.(motion := s.motion, body := s.body) == s
  {
    var vy := if c.enableWallSlide && s.contact.isTouchingWall && s.body.vy < 0.0 then Max(s.body.vy, -c.wallSlideSpeed)
              else s.body.vy;
    s.(motion := FaceInput(s.motion), body := s.body.(vy := vy))
  }

  /**
   * `HandleGravity`: heavier gravity while falling or while rising with the
   * button released, normal gravity otherwise; the fall speed is capped at
   * `maxFallSpeed`.
   */
  function HandleGravityStep(c: Config, s: State): (r: State)
    ensures r.body.gravityScale ==
              (if s.body.vy < 0.0 || (!s.jump.isJumpHeld && s.body.vy > 0.0) then c.fallGravityMultiplier else 1.0)
    ensures r.body.vy == Max(s.body.vy, -c.maxFallSpeed)
    ensures r.body.vx == s.body.vx && r.(body := s.body) == s
  {
    var g := if s.body.vy < 0.0 || (!s.jump.isJumpHeld && s.body.vy > 0.0) then c.fallGravityMultiplier else 1.0;
    var vy := if s.body.vy < -c.maxFallSpeed then -c.maxFallSpeed else s.body.vy;
    s.(body := Body(s.body.vx, vy, g))
  }

  /** `FixedUpdate`: the dash alone while dashing, else movement (reporting its force) and gravity. */
  function FixedUpdateStep(c: Config, s: State): (r: (State, Option<real>))
    ensures s.dash.isDashing ==> r == (HandleDashStep(c, s), None)
    ensures !s.dash.isDashing ==> r == (HandleGravityStep(c, HandleMovementStep(c, s)), Some(MovementForce(c, s)))
    ensures r.0.jump == s.jump && r.0.contact == s.contact
  {
    if s.dash.isDashing then (HandleDashStep(c, s), None)
    else (HandleGravityStep(c, HandleMovementStep(c, s)), Some(MovementForce(c, s)))
  }

  /** `SetFacing`: flips only when the requested facing differs. */
  function SetFacingStep(s: State, faceRight: bool): (r: State)
    ensures r.motion.isFacingRight == faceRight
    ensures r == s.(motion := s.motion.(isFacingRight := faceRight))
    ensures s.motion.isFacingRight == faceRight ==> r == s
  {
    if faceRight != s.motion.isFacingRight then s.(motion := s.motion.(isFacingRight := !s.motion.isFacingRight)) else s
  }

  // ---- Properties over frame sequences ----

  /** Calls made while the player stays airborne. */
  datatype AirOp = AirFrame(dt: real, touchingWall: bool) | PressJump | ReleaseJump | PressDash(now: real)

  function ApplyAir(c: Config, s: State, op: AirOp): (r: (State, JumpKind))
    ensures r.1 == AirJump ==> r.0.jump.airJumpsUsed == s.jump.airJumpsUsed + 1
    ensures r.1 != AirJump && !c.dashResetsAirJumps && !s.contact.isGrounded ==> r.0.jump.airJumpsUsed == s.jump.airJumpsUsed
    ensures !s.contact.isGrounded ==> !r.0.contact.isGrounded
    ensures Inv(c, s) ==> Inv(c, r.0)
  {
    match op
    case AirFrame(dt, w) => UpdateStep(c, s, dt, false, w)
    case PressJump => (JumpPressedStep(c, s), NoJump)
    case ReleaseJump => (s.(jump := s.jump.(isJumpHeld := false)), NoJump)
    case PressDash(now) => (DashStep(c, s, DashDirection(s.motion), now), NoJump)
  }

  function RunAir(c: Config, s: State, ops: seq<AirOp>): (State, nat)
    decreases |ops|
  {
    if ops == [] then (s, 0)
    else
      var (s1, kind) := ApplyAir(c, s, ops[0]);
      var (s2, n) := RunAir(c, s1, ops[1..]);
      (s2, n + if kind == AirJump then 1 else 0)
  }

  /**
   * While airborne, and unless dashes give air jumps back, every air jump
   * uses one up, so no more air jumps happen than `maxAirJumps` minus those
   * already used; ground and coyote jumps never count.
   */
  lemma {:induction false} AirJumpsBounded(c: Config, s: State, ops: seq<AirOp>)
    requires Inv(c, s) && !s.contact.isGrounded && !c.dashResetsAirJumps
    decreases |ops|
    ensures RunAir(c, s, ops).0.jump.airJumpsUsed == s.jump.airJumpsUsed + RunAir(c, s, ops).1
    ensures Inv(c, RunAir(c, s, ops).0) && !RunAir(c, s, ops).0.contact.isGrounded
    ensures s.jump.airJumpsUsed + RunAir(c, s, ops).1 <= MaxInt(c.maxAirJumps, 0)
  {
    if ops != [] {
      AirJumpsBounded(c, ApplyAir(c, s, ops[0]).0, ops[1..]);
    }
  }

  /** A dash started at `t` blocks every dash request before `t + dashCooldown`. */
  lemma NoDashWithinCooldown(c: Config, s: State, dir: Vec, t: real, later: real)
    requires CanDash(c, s, t) && later < t + c.dashCooldown
    ensures DashStep(c, DashStep(c, s, dir, t), dir, later) == DashStep(c, s, dir, t)
  {
  }

  class PlayerController {
    const cfg: Config
    const healthSystem: Health.HealthSystem
    var moveInput: Vec
    var isFacingRight: bool
    var isGrounded: bool
    var wasGrounded: bool
    var isTouchingWall: bool
    var wallDirection: int
    var isJumpPressed: bool
    var isJumpHeld: bool
    var coyoteTimer: real
    var jumpBufferTimer: real
    var airJumpsUsed: int
    var isDashing: bool
    var dashTimer: real
    var lastDashTime: real
    var airDashesUsed: int
    var dashDirection: Vec
    var isSprinting: bool
    var body: Body

    function Model(): State
      reads this
    {
      State(Motion(moveInput, isFacingRight, isSprinting),
            Contact(isGrounded, wasGrounded, isTouchingWall, wallDirection),
            Jumping(isJumpPressed, isJumpHeld, coyoteTimer, jumpBufferTimer, airJumpsUsed),
            Dashing(isDashing, dashTimer, lastDashTime, airDashesUsed, dashDirection),
            body)
    }

    /** `Awake`: a new health system, initialised; gravity scale 1. */
    constructor (config: Config, velocity: Vec, healthConfig: Health.Config, maxHealth: real, currentHealth: real)
      ensures cfg == config && Model() == Initial(velocity) && Inv(cfg, Model()) && fresh(healthSystem)
      ensures healthSystem.cfg == healthConfig
      ensures healthSystem.Model() ==
              Health.InitializeStep(Health.State(maxHealth, currentHealth, true, false, 5.0, 3.0, false, 0.0, false, false, []))
    {
      cfg := config;
      moveInput, isFacingRight, isSprinting := Vec(0.0, 0.0), true, false;
      isGrounded, wasGrounded, isTouchingWall, wallDirection := false, false, false, 0;
      isJumpPressed, isJumpHeld, coyoteTimer, jumpBufferTimer, airJumpsUsed := false, false, 0.0, 0.0, 0;
      isDashing, dashTimer, lastDashTime, airDashesUsed, dashDirection := false, 0.0, 0.0, 0, Vec(0.0, 0.0);
      body := Body(velocity.x, velocity.y, 1.0);
      var h := new Health.HealthSystem(healthConfig, maxHealth, currentHealth);
      h.Initialize();
      healthSystem := h;
    }

    method Move(direction: Vec)
      modifies this
      ensures Model() == old(Model()).(motion := old(Model()).motion.(moveInput := direction))
    {
      moveInput := direction;
    }

    method HandleJumpPressed()
      modifies this
      ensures Model() == JumpPressedStep(cfg, old(Model()))
    {
      isJumpPressed := true;
      isJumpHeld := true;
      jumpBufferTimer := cfg.jumpBufferTime;
    }

    method HandleJumpReleased()
      modifies this
      ensures Model() == old(Model()).(jump := old(Model()).jump.(isJumpHeld := false))
    {
      isJumpHeld := false;
    }

    /** `HandleSprintPressed` and `HandleSprintReleased`. */
    method SetSprinting(sprinting: bool)
      modifies this
      ensures Model() == old(Model()).(motion := old(Model()).motion.(isSprinting := sprinting))
    {
      isSprinting := sprinting;
    }

    /** `Update`: the health system first, then this controller's frame. */
    method Update(now: real, dt: real, grounded: bool, touchingWall: bool) returns (kind: JumpKind)
      modifies this, healthSystem
      ensures (Model(), kind) == UpdateStep(cfg, old(Model()), dt, grounded, touchingWall)
      ensures healthSystem.Model() == Health.UpdateStep(healthSystem.cfg, old(healthSystem.Model()), now, dt)
    {
      healthSystem.Update(now, dt);
      HandleTimers(dt);
      CheckGroundedState(grounded);
      CheckWallState(touchingWall);
      kind := HandleJumpInput();
    }

    method HandleTimers(dt: real)
      modifies this
      ensures Model() == HandleTimersStep(cfg, old(Model()), dt)
    {
      if !isGrounded && wasGrounded {
        coyoteTimer := cfg.coyoteTime;
      } else if coyoteTimer > 0.0 {
        coyoteTimer := coyoteTimer - dt;
      }
      if jumpBufferTimer > 0.0 {
        jumpBufferTimer := jumpBufferTimer - dt;
      }
      if dashTimer > 0.0 {
        dashTimer := dashTimer - dt;
      }
    }

    method CheckGroundedState(grounded: bool)
      modifies this
      ensures Model() == CheckGroundedStep(cfg, old(Model()), grounded)
    {
      wasGrounded := isGrounded;
      isGrounded := grounded;
      if isGrounded && !wasGrounded {
        airJumpsUsed := 0;
        airDashesUsed := 0;
        coyoteTimer := cfg.coyoteTime;
      }
    }

    method CheckWallState(touching: bool)
      modifies this
      ensures Model() == CheckWallStep(old(Model()), touching)
    {
      isTouchingWall := touching && !isGrounded;
      wallDirection := if isFacingRight then 1 else -1;
    }

    method HandleJumpInput() returns (kind: JumpKind)
      modifies this
      ensures (Model(), kind) == HandleJumpInputStep(cfg, old(Model()))
    {
      kind := NoJump;
      if jumpBufferTimer > 0.0 && CanJump(cfg, Model()) {
        kind := Jump();
        jumpBufferTimer := 0.0;
      }
      isJumpPressed := false;
    }

    method Jump() returns (kind: JumpKind)
      modifies this
      ensures (Model(), kind) == JumpStep(cfg, old(Model()))
    {
      if isGrounded || coyoteTimer > 0.0 {
        body := body.(vy := cfg.jumpForce);
        coyoteTimer := 0.0;
        kind := GroundJump;
      } else if cfg.enableDoubleJump && airJumpsUsed < cfg.maxAirJumps {
        body := body.(vy := cfg.doubleJumpForce);
        airJumpsUsed := airJumpsUsed + 1;
        kind := AirJump;
      } else {
        kind := NoJump;
      }
    }

    method HandleDashPressed(now: real)
      modifies this
      ensures Model() == DashStep(cfg, old(Model()), DashDirection(old(Model()).motion), now)
    {
      if CanDash(cfg, Model(), now) {
        var dir := if moveInput.x * moveInput.x + moveInput.y * moveInput.y > 0.01 then moveInput
                   else if isFacingRight then Vec(1.0, 0.0) else Vec(-1.0, 0.0);
        Dash(dir, now);
      }
    }

    method Dash(direction: Vec, now: real)
      modifies this
      ensures Model() == DashStep(cfg, old(Model()), direction, now)
    {
      if !CanDash(cfg, Model(), now) {
        return;
      }
      isDashing := true;
      dashDirection := direction;
      dashTimer := cfg.dashDuration;
      lastDashTime := now;
      if !isGrounded {
        airDashesUsed := airDashesUsed + 1;
      }
      if cfg.dashResetsAirJumps && !isGrounded {
        airJumpsUsed := 0;
      }
    }

    method FixedUpdate() returns (force: Option<real>)
      modifies this
      ensures (Model(), force) == FixedUpdateStep(cfg, old(Model()))
    {
      if isDashing {
        HandleDash();
        force := None;
      } else {
        force := Some(MovementForce(cfg, Model()));
        HandleMovement();
        HandleGravity();
      }
    }

    method HandleDash()
      modifies this
      ensures Model() == HandleDashStep(cfg, old(Model()))
    {
      if dashTimer <= 0.0 {
        isDashing := false;
        body := body.(gravityScale := 1.0);
        return;
      }
      body := Body(dashDirection.x * cfg.dashForce, dashDirection.y * cfg.dashForce, 0.0);
    }

    method HandleMovement()
      modifies this
      ensures Model() == HandleMovementStep(cfg, old(Model()))
    {
      if moveInput.x > 0.0 && !isFacingRight {
        isFacingRight := !isFacingRight;
      } else if moveInput.x < 0.0 && isFacingRight {
        isFacingRight := !isFacingRight;
      }
      if cfg.enableWallSlide && isTouchingWall && body.vy < 0.0 {
        body := body.(vy := Max(body.vy, -cfg.wallSlideSpeed));
      }
    }

    method HandleGravity()
      modifies this
      ensures Model() == HandleGravityStep(cfg, old(Model()))
    {
      if body.vy < 0.0 || (!isJumpHeld && body.vy > 0.0) {
        body := body.(gravityScale := cfg.fallGravityMultiplier);
      } else {
        body := body.(gravityScale := 1.0);
      }
      if body.vy < -cfg.maxFallSpeed {
        body := body.(vy := -cfg.maxFallSpeed);
      }
    }

    method SetFacing(faceRight: bool)
      modifies this
      ensures Model() == SetFacingStep(old(Model()), faceRight)
    {
      if faceRight != isFacingRight {
        isFacingRight := !isFacingRight;
      }
    }

    /** `TakeDamage` forwards to the health system. */
    method TakeDamage(damage: real, now: real) returns (dealt: Option<real>, died: bool)
      modifies healthSystem
      ensures (healthSystem.Model(), dealt, died) == Health.TakeDamageStep(healthSystem.cfg, old(healthSystem.Model()), damage, now)
    {
      dealt, died := healthSystem.TakeDamage(damage, now);
    }

    function IsAlive(): bool
      reads healthSystem
    {
      Health.IsAlive(healthSystem.Model())
    }
  }
}
