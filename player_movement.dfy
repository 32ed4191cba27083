/**
 * The simple player movement script (`PlayerMovement`): horizontal walking,
 * a jump counter refilled by touching ground, and a timed dash that
 * switches gravity off. The rigidbody's velocity and gravity scale are
 * fields written by the script; the physics engine's integration between
 * frames is outside the model. An input callback's `performed` phase is a
 * parameter, and so is whether a collision's collider is tagged "Ground".
 */
module SimpleMovement {

  datatype Vec = Vec(x: real, y: real)

  datatype Config = Config(moveSpeed: real, jumpForce: real, maxJumps: int, dashForce: real, dashDuration: real)

  const Defaults := Config(5.0, 12.0, 2, 15.0, 0.2)

  /** The gravity scale restored when a dash ends. */
  const RestoredGravity: real := 3.0

  datatype State = State(
    moveInput: Vec,
    jumpsLeft: int,
    isDashing: bool,
    dashTime: real,
    velocity: Vec,
    gravityScale: real)

  /** The jump counter never leaves [0, maxJumps]. */
  predicate Inv(c: Config, s: State)
  {
    0 <= s.jumpsLeft <= c.maxJumps
  }

  /** `Start` and a collision with ground: the jumps are refilled. */
  function ResetJumpCountStep(c: Config, s: State): (r: State)
    ensures r.jumpsLeft == c.maxJumps && r.(jumpsLeft := s.jumpsLeft) == s
    ensures c.maxJumps >= 0 ==> Inv(c, r)
  {
    s.(jumpsLeft := c.maxJumps)
  }

  /** `OnCollisionEnter2D`: only a collider tagged "Ground" refills the jumps. */
  function CollisionStep(c: Config, s: State, isGround: bool): (r: State)
    ensures isGround ==> r == ResetJumpCountStep(c, s)
    ensures !isGround ==> r == s
  {
    if isGround then ResetJumpCountStep(c, s) else s
  }

  /** `OnMove`: the stick value is stored for the next physics step. */
  function OnMoveStep(s: State, input: Vec): (r: State)
    ensures r.moveInput == input && r.(moveInput := s.moveInput) == s
  {
    s.(moveInput := input)
  }

  /**
   * `OnJump`: a performed press with a jump left sets the vertical velocity
   * to `jumpForce` and spends one jump; anything else changes nothing.
   * The second result says whether the jump happened.
   */
  function OnJumpStep(c: Config, s: State, performed: bool): (r: (State, bool))
    ensures r.1 <==> performed && s.jumpsLeft > 0
    ensures r.1 ==> r.0 == s.(jumpsLeft := s.jumpsLeft - 1, velocity := Vec(s.velocity.x, c.jumpForce))
    ensures !r.1 ==> r.0 == s
    ensures Inv(c, s) ==> Inv(c, r.0)
  {
    if performed && s.jumpsLeft > 0 then
      (s.(velocity := Vec(s.velocity.x, c.jumpForce), jumpsLeft := s.jumpsLeft - 1), true)
    else (s, false)
  }

  /**
   * `OnDash`: a performed press while not dashing starts a dash of
   * `dashDuration` with gravity off and the velocity set to the horizontal
   * input times `dashForce`; a press during a dash is ignored.
   */
  function OnDashStep(c: Config, s: State, performed: bool): (r: State)
    ensures performed && !s.isDashing ==>
              && r.isDashing && r.dashTime == c.dashDuration && r.gravityScale == 0.0
              && r.velocity == Vec(s.moveInput.x * c.dashForce, 0.0)
              && r.jumpsLeft == s.jumpsLeft && r.moveInput == s.moveInput
    ensures !(performed && !s.isDashing) ==> r == s
  {
    if performed && !s.isDashing then
      s.(isDashing := true, dashTime := c.dashDuration, gravityScale := 0.0,
         velocity := Vec(s.moveInput.x * c.dashForce, 0.0))
    else s
  }

  /**
   * `Update` (`HandleDashTimer`): a dash counts down and ends, restoring a
   * gravity scale of 3, on the frame its timer reaches 0.
   */
  function UpdateStep(s: State, dt: real): (r: State)
    ensures s.isDashing ==> r.dashTime == s.dashTime - dt && (r.isDashing <==> s.dashTime - dt > 0.0)
    ensures s.isDashing && s.dashTime - dt <= 0.0 ==> r.gravityScale == RestoredGravity
    ensures s.isDashing && s.dashTime - dt > 0.0 ==> r.gravityScale == s.gravityScale
    ensures !s.isDashing ==> r == s
    ensures r.jumpsLeft == s.jumpsLeft && r.velocity == s.velocity && r.moveInput == s.moveInput
  {
    if s.isDashing then
      var t := s.dashTime - dt;
      if t <= 0.0 then s.(dashTime := t, isDashing := false, gravityScale := RestoredGravity)
      else s.(dashTime := t)
    else s
  }

  /**
   * `FixedUpdate` (`ApplyMovement`): the horizontal velocity follows the
   * input, except during a dash, when the input is not applied at all.
   */
  function FixedUpdateStep(c: Config, s: State): (r: State)
    ensures s.isDashing ==> r == s
    ensures !s.isDashing ==> r.velocity == Vec(s.moveInput.x * c.moveSpeed, s.velocity.y)
    ensures r.(velocity := s.velocity) == s
  {
    if !s.isDashing then s.(velocity := Vec(s.moveInput.x * c.moveSpeed, s.velocity.y)) else s
  }

  /** One callback or frame of the script. */
  datatype Op =
    | Move(input: Vec)
    | Jump(performed: bool)
    | Dash(performed: bool)
    | Frame(dt: real)
    | Physics
    | Collide(isGround: bool)

  /** Applies a sequence of callbacks and frames, counting the jumps that happened. */
  function Run(c: Config, s: State, ops: seq<Op>): (State, nat)
    decreases |ops|
  {
    if ops == [] then (s, 0)
    else
      match ops[0]
      case Move(v) => Run(c, OnMoveStep(s, v), ops[1..])
      case Jump(p) =>
        var (s1, jumped) := OnJumpStep(c, s, p);
        var (s2, n) := Run(c, s1, ops[1..]);
        (s2, n + if jumped then 1 else 0)
      case Dash(p) => Run(c, OnDashStep(c, s, p), ops[1..])
      case Frame(dt) => Run(c, UpdateStep(s, dt), ops[1..])
      case Physics => Run(c, FixedUpdateStep(c, s), ops[1..])
      case Collide(g) => Run(c, CollisionStep(c, s, g), ops[1..])
  }

  predicate Airborne(ops: seq<Op>)
  {
    forall i :: 0 <= i < |ops| ==> ops[i] != Collide(true)
  }

  /**
   * Between two touches of ground the player jumps at most `jumpsLeft`
   * times, each jump spending exactly one, and the counter stays in
   * [0, maxJumps] whatever happens.
   */
  lemma {:induction false} JumpsBetweenGroundings(c: Config, s: State, ops: seq<Op>)
    requires Inv(c, s)
    decreases |ops|
    ensures Inv(c, Run(c, s, ops).0)
    ensures Airborne(ops) ==> Run(c, s, ops).1 + Run(c, s, ops).0.jumpsLeft == s.jumpsLeft
    ensures Airborne(ops) ==> Run(c, s, ops).1 <= s.jumpsLeft
  {
    if ops != [] {
      assert Airborne(ops) ==> Airborne(ops[1..]) by {
        if Airborne(ops) {
          forall i | 0 <= i < |ops[1..]| ensures ops[1..][i] != Collide(true) {
            assert ops[1..][i] == ops[i + 1];
          }
        }
      }
      match ops[0]
      case Move(v) => JumpsBetweenGroundings(c, OnMoveStep(s, v), ops[1..]);
      case Jump(p) => JumpsBetweenGroundings(c, OnJumpStep(c, s, p).0, ops[1..]);
      case Dash(p) => JumpsBetweenGroundings(c, OnDashStep(c, s, p), ops[1..]);
      case Frame(dt) => JumpsBetweenGroundings(c, UpdateStep(s, dt), ops[1..]);
      case Physics => JumpsBetweenGroundings(c, FixedUpdateStep(c, s), ops[1..]);
      case Collide(g) => JumpsBetweenGroundings(c, CollisionStep(c, s, g), ops[1..]);
    }
  }

  class PlayerMovement {
    const cfg: Config
    var moveInput: Vec
    var jumpsLeft: int
    var isDashing: bool
    var dashTime: real
    var velocity: Vec
    var gravityScale: real

    function Model(): State
      reads this
    {
      State(moveInput, jumpsLeft, isDashing, dashTime, velocity, gravityScale)
    }

    /** `Awake` and `Start`: the component with the jumps filled. */
    constructor (config: Config, initialVelocity: Vec, initialGravity: real)
      ensures cfg == config
      ensures Model() == State(Vec(0.0, 0.0), config.maxJumps, false, 0.0, initialVelocity, initialGravity)
    {
      cfg := config;
      moveInput := Vec(0.0, 0.0);
      isDashing, dashTime := false, 0.0;
      velocity, gravityScale := initialVelocity, initialGravity;
      jumpsLeft := config.maxJumps;
    }

    method Update(dt: real)
      modifies this
      ensures Model() == UpdateStep(old(Model()), dt)
    {
      if isDashing {
        dashTime := dashTime - dt;
        if dashTime <= 0.0 {
          EndDash();
        }
      }
    }

    method FixedUpdate()
      modifies this
      ensures Model() == FixedUpdateStep(cfg, old(Model()))
    {
      if !isDashing {
        velocity := Vec(moveInput.x * cfg.moveSpeed, velocity.y);
      }
    }

    method OnMove(input: Vec)
      modifies this
      ensures Model() == OnMoveStep(old(Model()), input)
    {
      moveInput := input;
    }

    method OnJump(performed: bool) returns (jumped: bool)
      modifies this
      ensures (Model(), jumped) == OnJumpStep(cfg, old(Model()), performed)
    {
      jumped := false;
      if performed && jumpsLeft > 0 {
        Jump();
        jumped := true;
      }
    }

    method OnDash(performed: bool)
      modifies this
      ensures Model() == OnDashStep(cfg, old(Model()), performed)
    {
      if performed && !isDashing {
        Dash();
      }
    }

    method ResetJumpCount()
      modifies this
      ensures Model() == ResetJumpCountStep(cfg, old(Model()))
    {
      jumpsLeft := cfg.maxJumps;
    }

    method Jump()
      modifies this
      ensures Model() == old(Model()).(jumpsLeft := old(jumpsLeft) - 1, velocity := Vec(old(velocity).x, cfg.jumpForce))
    {
      velocity := Vec(velocity.x, cfg.jumpForce);
      jumpsLeft := jumpsLeft - 1;
    }

    method Dash()
      modifies this
      ensures Model() == old(Model()).(isDashing := true, dashTime := cfg.dashDuration, gravityScale := 0.0,
                                       velocity := Vec(old(moveInput).x * cfg.dashForce, 0.0))
    {
      isDashing := true;
      dashTime := cfg.dashDuration;
      gravityScale := 0.0;
      velocity := Vec(moveInput.x * cfg.dashForce, 0.0);
    }

    method EndDash()
      modifies this
      ensures Model() == old(Model()).(isDashing := false, gravityScale := RestoredGravity)
    {
      isDashing := false;
      gravityScale := RestoredGravity;
    }

    method OnCollisionEnter(isGround: bool)
      modifies this
      ensures Model() == CollisionStep(cfg, old(Model()), isGround)
    {
      if isGround {
        ResetJumpCount();
      }
    }
  }
}
