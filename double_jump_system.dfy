/**
 * The player's multi-jump (namespace ElderCloak.Player.Movement,
 * `DoubleJumpSystem`): a jump counter reset on landing, coyote time after
 * leaving the ground and a jump buffer. The ground ray cast is passed to
 * `Update` as a boolean; the jump impulse is reported as the force used.
 *
 * As written, the coyote-time disjunct of `CanJump` ignores the jump
 * counter, and leaving the ground by jumping starts coyote time, so a
 * second jump is allowed even with `maxJumps == 1`
 * (`CoyoteJumpExceedsMaxJumps`). The component below uses the gate with
 * the counter check added (`CanJump`), under which the counter never
 * passes `maxJumps` (`AirJumpsBounded`).
 */
module DoubleJump {

  import opened Common

  datatype Config = Config(
    jumpForce: real,
    doubleJumpForce: real,
    maxJumps: int,
    coyoteTime: real,
    jumpBufferTime: real)

  const Defaults := Config(12.0, 10.0, 2, 0.1, 0.1)

  datatype State = State(
    jumpCount: int,
    coyoteTimer: real,
    jumpBufferTimer: real,
    wasGrounded: bool,
    isGrounded: bool)

  /** The counter never goes negative and, once used, never passes `maxJumps`. */
  predicate Inv(c: Config, s: State)
  {
    0 <= s.jumpCount && (s.jumpCount == 0 || s.jumpCount <= c.maxJumps)
  }

  function RemainingJumps(c: Config, s: State): (n: int)
    ensures n >= 0
    ensures Inv(c, s) && c.maxJumps >= 0 ==> n == c.maxJumps - s.jumpCount
    ensures n > 0 <==> s.jumpCount < c.maxJumps
  {
    if c.maxJumps - s.jumpCount > 0 then c.maxJumps - s.jumpCount else 0
  }

  /** `CanJump` as written: coyote time allows a jump whatever the counter says. */
  predicate CanJumpAsWritten(c: Config, s: State)
  {
    (s.isGrounded && s.jumpCount == 0) || (s.jumpCount < c.maxJumps && s.jumpCount > 0) || s.coyoteTimer > 0.0
  }

  /** `CanJump` with every route, coyote time included, limited by the counter. */
  predicate CanJump(c: Config, s: State)
  {
    s.jumpCount < c.maxJumps && ((s.isGrounded && s.jumpCount == 0) || s.jumpCount > 0 || s.coyoteTimer > 0.0)
  }

  /** With at least one jump configured, the correction removes exactly the over-budget coyote jumps. */
  lemma CorrectionOnlyBlocksOverBudgetCoyote(c: Config, s: State)
    requires c.maxJumps >= 1
    ensures CanJump(c, s) <==> CanJumpAsWritten(c, s) && !(s.coyoteTimer > 0.0 && s.jumpCount >= c.maxJumps)
  {
  }

  /** `Initialize`: no jumps used. */
  function InitializeStep(s: State): (r: State)
    ensures r.jumpCount == 0 && r.(jumpCount := s.jumpCount) == s
  {
    s.(jumpCount := 0)
  }

  /** `CheckGrounded`: a landing edge resets the counter, a leaving edge starts coyote time. */
  function CheckGroundedStep(c: Config, s: State, grounded: bool): (r: State)
    ensures r.isGrounded == grounded && r.wasGrounded == grounded
    ensures grounded && !s.wasGrounded ==> r.jumpCount == 0
    ensures !(grounded && !s.wasGrounded) ==> r.jumpCount == s.jumpCount
    ensures !grounded && s.wasGrounded ==> r.coyoteTimer == c.coyoteTime
    ensures !(!grounded && s.wasGrounded) ==> r.coyoteTimer == s.coyoteTimer
    ensures r.jumpBufferTimer == s.jumpBufferTimer
    ensures Inv(c, s) ==> Inv(c, r)
  {
    var count := if grounded && !s.wasGrounded then 0 else s.jumpCount;
    var coyote := if !grounded && s.wasGrounded then c.coyoteTime else s.coyoteTimer;
    s.(isGrounded := grounded, jumpCount := count, coyoteTimer := coyote, wasGrounded := grounded)
  }

  /** `UpdateTimers`: both timers count down only while positive. */
  function UpdateTimersStep(s: State, dt: real): (r: State)
    ensures r.coyoteTimer == (if s.coyoteTimer > 0.0 then s.coyoteTimer - dt else s.coyoteTimer)
    ensures r.jumpBufferTimer == (if s.jumpBufferTimer > 0.0 then s.jumpBufferTimer - dt else s.jumpBufferTimer)
    ensures r.(coyoteTimer := s.coyoteTimer, jumpBufferTimer := s.jumpBufferTimer) == s
  {
    s.(coyoteTimer := if s.coyoteTimer > 0.0 then s.coyoteTimer - dt else s.coyoteTimer,
       jumpBufferTimer := if s.jumpBufferTimer > 0.0 then s.jumpBufferTimer - dt else s.jumpBufferTimer)
  }

  /** `Update`: the ground check, then the timers. */
  function UpdateStep(c: Config, s: State, grounded: bool, dt: real): (r: State)
    ensures r == UpdateTimersStep(CheckGroundedStep(c, s, grounded), dt)
    ensures Inv(c, s) ==> Inv(c, r)
  {
    UpdateTimersStep(CheckGroundedStep(c, s, grounded), dt)
  }

  /** `RequestJump`: the buffer is (re)filled. */
  function RequestJumpStep(c: Config, s: State): (r: State)
    ensures r.jumpBufferTimer == c.jumpBufferTime && r.(jumpBufferTimer := s.jumpBufferTimer) == s
  {
    s.(jumpBufferTimer := c.jumpBufferTime)
  }

  /** `ResetJumps`: the counter is cleared. */
  function ResetJumpsStep(s: State): (r: State)
    ensures r.jumpCount == 0 && r.(jumpCount := s.jumpCount) == s
  {
    s.(jumpCount := 0)
  }

  /**
   * `TryJump` behind the gate `can`: without a buffered request nothing
   * happens; a buffered request jumps when the gate is open, with the
   * ground force for the first jump and the double-jump force after, uses
   * up one jump, ends coyote time and empties the buffer; a blocked request
   * stays buffered. The second result is the impulse applied, if any.
   */
  function TryJumpWith(c: Config, s: State, can: bool): (r: (State, Option<real>))
    ensures s.jumpBufferTimer <= 0.0 || !can ==> r == (s, None)
    ensures s.jumpBufferTimer > 0.0 && can ==>
              && r.0 == s.(jumpCount := s.jumpCount + 1, coyoteTimer := 0.0, jumpBufferTimer := 0.0)
              && r.1 == Some(if s.jumpCount == 0 then c.jumpForce else c.doubleJumpForce)
  {
    if s.jumpBufferTimer <= 0.0 || !can then (s, None)
    else
      var power := if s.jumpCount == 0 then c.jumpForce else c.doubleJumpForce;
      (s.(jumpCount := s.jumpCount + 1, coyoteTimer := 0.0, jumpBufferTimer := 0.0), Some(power))
  }

  /** `TryJump` exactly as written. */
  function TryJumpAsWrittenStep(c: Config, s: State): (r: (State, Option<real>))
    ensures r.1.Some? <==> s.jumpBufferTimer > 0.0 && CanJumpAsWritten(c, s)
    ensures r.1.Some? ==> r.0.jumpCount == s.jumpCount + 1
  {
    TryJumpWith(c, s, CanJumpAsWritten(c, s))
  }

  /** `TryJump` with the corrected gate: a jump happens only while one remains. */
  function TryJumpStep(c: Config, s: State): (r: (State, Option<real>))
    ensures r.1.Some? <==> s.jumpBufferTimer > 0.0 && CanJump(c, s)
    ensures r.1.Some? ==> r.0.jumpCount == s.jumpCount + 1 && RemainingJumps(c, r.0) == RemainingJumps(c, s) - 1
    ensures r.1.None? ==> r.0 == s
    ensures Inv(c, s) ==> Inv(c, r.0)
  {
    TryJumpWith(c, s, CanJump(c, s))
  }

  /**
   * With `maxJumps == 1`: land, jump, leave the ground on the next frame
   * (which starts coyote time) and jump again; the counter reaches 2.
   */
  lemma CoyoteJumpExceedsMaxJumps()
    ensures var c := Config(12.0, 10.0, 1, 0.1, 0.1);
            var s1 := UpdateStep(c, State(0, 0.0, 0.0, false, false), true, 0.02);
            var (s3, j1) := TryJumpAsWrittenStep(c, RequestJumpStep(c, s1));
            var s4 := UpdateStep(c, s3, false, 0.02);
            var (s6, j2) := TryJumpAsWrittenStep(c, RequestJumpStep(c, s4));
            j1.Some? && j2.Some? && s6.jumpCount == 2 > c.maxJumps
  {
  }

  /** The same frames with the corrected gate: the second jump is refused. */
  lemma CoyoteJumpRefusedWhenSpent()
    ensures var c := Config(12.0, 10.0, 1, 0.1, 0.1);
            var s1 := UpdateStep(c, State(0, 0.0, 0.0, false, false), true, 0.02);
            var (s3, j1) := TryJumpStep(c, RequestJumpStep(c, s1));
            var s4 := UpdateStep(c, s3, false, 0.02);
            var (s6, j2) := TryJumpStep(c, RequestJumpStep(c, s4));
            j1.Some? && j2.None? && s6.jumpCount == 1
  {
  }

  /** What happens to the system between two landings. */
  datatype AirOp = AirFrame(dt: real) | Request | Try

  function RunAir(c: Config, s: State, ops: seq<AirOp>): (State, nat)
    decreases |ops|
  {
    if ops == [] then (s, 0)
    else
      match ops[0]
      case AirFrame(dt) => RunAir(c, UpdateStep(c, s, false, dt), ops[1..])
      case Request => RunAir(c, RequestJumpStep(c, s), ops[1..])
      case Try =>
        var (s1, j) := TryJumpStep(c, s);
        var (s2, n) := RunAir(c, s1, ops[1..]);
        (s2, n + if j.Some? then 1 else 0)
  }

  /** Airborne, every jump uses one up, so no more jumps happen than remained, coyote time or not. */
  lemma {:induction false} AirJumpsBounded(c: Config, s: State, ops: seq<AirOp>)
    requires Inv(c, s)
    decreases |ops|
    ensures RunAir(c, s, ops).0.jumpCount == s.jumpCount + RunAir(c, s, ops).1
    ensures Inv(c, RunAir(c, s, ops).0)
    ensures RunAir(c, s, ops).1 <= RemainingJumps(c, s)
  {
    if ops != [] {
      match ops[0]
      case AirFrame(dt) =>
        AirJumpsBounded(c, UpdateStep(c, s, false, dt), ops[1..]);
      case Request =>
        AirJumpsBounded(c, RequestJumpStep(c, s), ops[1..]);
      case Try =>
        AirJumpsBounded(c, TryJumpStep(c, s).0, ops[1..]);
    }
  }

  class DoubleJumpSystem {
    const cfg: Config
    var jumpCount: int
    var coyoteTimer: real
    var jumpBufferTimer: real
    var wasGrounded: bool
    var isGrounded: bool

    function Model(): State
      reads this
    {
      State(jumpCount, coyoteTimer, jumpBufferTimer, wasGrounded, isGrounded)
    }

    constructor (config: Config)
      ensures cfg == config && Model() == State(0, 0.0, 0.0, false, false) && Inv(cfg, Model())
    {
      cfg := config;
      jumpCount, coyoteTimer, jumpBufferTimer := 0, 0.0, 0.0;
      wasGrounded, isGrounded := false, false;
    }

    method Initialize()
      modifies this
      ensures Model() == InitializeStep(old(Model()))
    {
      jumpCount := 0;
    }

    method Update(grounded: bool, dt: real)
      modifies this
      ensures Model() == UpdateStep(cfg, old(Model()), grounded, dt)
    {
      // CheckGrounded
      isGrounded := grounded;
      if isGrounded && !wasGrounded {
        jumpCount := 0;
      }
      if !isGrounded && wasGrounded {
        coyoteTimer := cfg.coyoteTime;
      }
      wasGrounded := isGrounded;
      // UpdateTimers
      if coyoteTimer > 0.0 {
        coyoteTimer := coyoteTimer - dt;
      }
      if jumpBufferTimer > 0.0 {
        jumpBufferTimer := jumpBufferTimer - dt;
      }
    }

    method RequestJump()
      modifies this
      ensures Model() == RequestJumpStep(cfg, old(Model()))
    {
      jumpBufferTimer := cfg.jumpBufferTime;
    }

    method TryJump() returns (jumped: bool, power: real)
      modifies this
      ensures (Model(), if jumped then Some(power) else None) == TryJumpStep(cfg, old(Model()))
    {
      jumped, power := false, 0.0;
      if jumpBufferTimer <= 0.0 {
        return;
      }
      if jumpCount < cfg.maxJumps && ((isGrounded && jumpCount == 0) || jumpCount > 0 || coyoteTimer > 0.0) {
        // PerformJump
        power := if jumpCount == 0 then cfg.jumpForce else cfg.doubleJumpForce;
        jumpCount := jumpCount + 1;
        coyoteTimer := 0.0;
        jumpBufferTimer := 0.0;
        jumped := true;
      }
    }

    method ResetJumps()
      modifies this
      ensures Model() == ResetJumpsStep(old(Model()))
    {
      jumpCount := 0;
    }
  }
}
