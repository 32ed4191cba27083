/**
 * The ground enemy's patrol AI (`PatrolScript`): Patrol between the x
 * positions of two points, Idle at a border, Chase inside a box around the
 * player. An aggro box starts a chase and a larger chase box ends it, and a
 * chase that stays outside the aggro box times out.
 *
 * Only x moves. The player's x and the vertical offset to the player are
 * given each frame; the patrol points are assumed not to move.
 */
module GroundPatrol {

  import opened Common

  datatype Config = Config(
    pointAX: real,
    pointBX: real,
    patrolSpeed: real,
    chaseSpeed: real,
    aggroHorizontalRange: real,
    aggroVerticalRange: real,
    chaseHorizontalRange: real,
    chaseVerticalRange: real,
    idleTime: real,
    chaseTimeout: real)

  /** Inspector defaults; the patrol points belong to the scene. */
  function Defaults(ax: real, bx: real): Config
  {
    Config(ax, bx, 2.0, 5.0, 5.0, 2.0, 10.0, 4.0, 3.0, 5.0)
  }

  datatype State = State(
    x: real,
    targetX: real,
    isChasing: bool,
    isIdle: bool,
    isPaused: bool,
    idleTimer: real,
    chaseTimer: real)

  /** The patrol target is always one of the two borders, and the enemy is never both chasing and idle. */
  predicate Inv(c: Config, s: State)
  {
    && (s.targetX == c.pointAX || s.targetX == c.pointBX)
    && !(s.isChasing && s.isIdle)
  }

  predicate InAggroBox(c: Config, dx: real, dy: real)
  {
    dx <= c.aggroHorizontalRange && dy <= c.aggroVerticalRange
  }

  predicate OutsideChaseBox(c: Config, dx: real, dy: real)
  {
    dx > c.chaseHorizontalRange || dy > c.chaseVerticalRange
  }

  /** `Start`: the first patrol target is point A. */
  function StartStep(c: Config, s: State): (r: State)
    ensures r.targetX == c.pointAX
    ensures !s.isChasing || !s.isIdle ==> Inv(c, r)
  {
    s.(targetX := c.pointAX)
  }

  /** The border other than the current target (point B when the target is A, else A). */
  function OtherBorder(c: Config, targetX: real): (r: real)
    ensures targetX == c.pointAX ==> r == c.pointBX
    ensures targetX != c.pointAX ==> r == c.pointAX
  {
    if targetX == c.pointAX then c.pointBX else c.pointAX
  }

  /** `ClosestPatrolPoint`: the nearer border by |dx|; a tie goes to point B. */
  function ClosestPatrolPoint(c: Config, x: real): (r: real)
    ensures r == c.pointAX || r == c.pointBX
    ensures Abs(x - r) <= Abs(x - c.pointAX) && Abs(x - r) <= Abs(x - c.pointBX)
    ensures Abs(x - c.pointAX) == Abs(x - c.pointBX) ==> r == c.pointBX
  {
    if Abs(x - c.pointAX) < Abs(x - c.pointBX) then c.pointAX else c.pointBX
  }

  /**
   * `Patrol`: the aggro box starts a chase (timer reset, no movement);
   * otherwise step towards the target, and within 0.1 of a border go Idle.
   */
  function PatrolStep(c: Config, s: State, dt: real, dx: real, dy: real): (r: State)
    requires !s.isChasing && !s.isIdle
    ensures InAggroBox(c, dx, dy) ==> r == s.(isChasing := true, chaseTimer := 0.0)
    ensures !InAggroBox(c, dx, dy) ==>
              && !r.isChasing
              && r.x == MoveTowards(s.x, s.targetX, c.patrolSpeed * dt)
              && (r.isIdle <==> Abs(r.x - s.targetX) < 0.1 && (s.targetX == c.pointAX || s.targetX == c.pointBX))
    ensures !InAggroBox(c, dx, dy) && Abs(r.x - s.targetX) >= 0.1 ==> r == s.(x := r.x)
    ensures !InAggroBox(c, dx, dy) && Abs(r.x - s.targetX) < 0.1 && (s.targetX == c.pointAX || s.targetX == c.pointBX) ==>
              r == s.(x := r.x, isIdle := true, idleTimer := 0.0)
    ensures !InAggroBox(c, dx, dy) && Abs(r.x - s.targetX) < 0.1 && !(s.targetX == c.pointAX || s.targetX == c.pointBX) ==>
              r == s.(x := r.x, targetX := OtherBorder(c, s.targetX))
    ensures r.isPaused == s.isPaused
  {
    if InAggroBox(c, dx, dy) then s.(isChasing := true, chaseTimer := 0.0)
    else
      var s1 := s.(x := MoveTowards(s.x, s.targetX, c.patrolSpeed * dt));
      if Abs(s1.x - s1.targetX) < 0.1 then
        if s1.targetX == c.pointAX || s1.targetX == c.pointBX then s1.(isIdle := true, idleTimer := 0.0)
        else s1.(targetX := OtherBorder(c, s1.targetX))
      else s1
  }

  /** One chase step on x: towards the player at `chaseSpeed`, clamped to the patrol span. */
  function ChaseX(c: Config, x: real, dt: real, playerX: real): (r: real)
    ensures Min(c.pointAX, c.pointBX) <= r <= Max(c.pointAX, c.pointBX)
    ensures c.chaseSpeed * dt >= 0.0 && Min(c.pointAX, c.pointBX) <= x <= Max(c.pointAX, c.pointBX) ==>
              Abs(r - x) <= c.chaseSpeed * dt
  {
    Clamp(MoveTowards(x, playerX, c.chaseSpeed * dt), Min(c.pointAX, c.pointBX), Max(c.pointAX, c.pointBX))
  }

  /**
   * `ChasePlayer`: leaving the chase box ends the chase towards the closer
   * border; inside the aggro box the timer resets, otherwise it accrues and
   * a timeout ends the chase without retargeting; a continuing chase steps
   * towards the player, clamped to the patrol span.
   */
  function ChaseStep(c: Config, s: State, dt: real, playerX: real, dx: real, dy: real): (r: State)
    requires s.isChasing
    ensures OutsideChaseBox(c, dx, dy) ==>
              r == s.(isChasing := false, targetX := ClosestPatrolPoint(c, s.x), chaseTimer := 0.0)
    ensures !OutsideChaseBox(c, dx, dy) && InAggroBox(c, dx, dy) ==> r.isChasing && r.chaseTimer == 0.0
    ensures !OutsideChaseBox(c, dx, dy) && !InAggroBox(c, dx, dy) ==>
              (r.isChasing <==> s.chaseTimer + dt < c.chaseTimeout)
    ensures !OutsideChaseBox(c, dx, dy) && !InAggroBox(c, dx, dy) && r.isChasing ==> r.chaseTimer == s.chaseTimer + dt
    ensures r.isChasing ==> r == s.(x := r.x, chaseTimer := r.chaseTimer)
    ensures !OutsideChaseBox(c, dx, dy) && !InAggroBox(c, dx, dy) && !r.isChasing ==>
              r == s.(isChasing := false, chaseTimer := 0.0)
    ensures r.isChasing ==> r.x == ChaseX(c, s.x, dt, playerX)
    ensures r.isChasing ==> Min(c.pointAX, c.pointBX) <= r.x <= Max(c.pointAX, c.pointBX)
    ensures r.isChasing ==> r.targetX == s.targetX
    ensures r.isIdle == s.isIdle && r.isPaused == s.isPaused
  {
    if OutsideChaseBox(c, dx, dy) then
      s.(isChasing := false, targetX := ClosestPatrolPoint(c, s.x), chaseTimer := 0.0)
    else
      var timer := if InAggroBox(c, dx, dy) then 0.0 else s.chaseTimer + dt;
      if !InAggroBox(c, dx, dy) && timer >= c.chaseTimeout then
        s.(isChasing := false, chaseTimer := 0.0)
      else
        s.(chaseTimer := timer, x := ChaseX(c, s.x, dt, playerX))
  }

  /**
   * `HandleIdleState`: the aggro box resumes the chase; otherwise the idle
   * timer accrues, and reaching `idleTime` returns to Patrol towards the
   * opposite border.
   */
  function IdleStep(c: Config, s: State, dt: real, dx: real, dy: real): (r: State)
    requires s.isIdle
    ensures InAggroBox(c, dx, dy) ==> r == s.(isIdle := false, isChasing := true, chaseTimer := 0.0)
    ensures !InAggroBox(c, dx, dy) ==> r.idleTimer == s.idleTimer + dt && r.isChasing == s.isChasing
    ensures !InAggroBox(c, dx, dy) ==> (r.isIdle <==> s.idleTimer + dt < c.idleTime)
    ensures !InAggroBox(c, dx, dy) && !r.isIdle ==> r.targetX == OtherBorder(c, s.targetX)
    ensures !InAggroBox(c, dx, dy) ==> r == s.(idleTimer := r.idleTimer, isIdle := r.isIdle, targetX := r.targetX)
    ensures !InAggroBox(c, dx, dy) && r.isIdle ==> r.targetX == s.targetX
    ensures r.x == s.x && r.isPaused == s.isPaused
  {
    if InAggroBox(c, dx, dy) then s.(isIdle := false, isChasing := true, chaseTimer := 0.0)
    else
      var s1 := s.(idleTimer := s.idleTimer + dt);
      if s1.idleTimer >= c.idleTime then s1.(isIdle := false, targetX := OtherBorder(c, s1.targetX))
      else s1
  }

  /** `Update`: nothing while paused; otherwise one step of the current state's handler. */
  function UpdateStep(c: Config, s: State, dt: real, playerX: real, playerDy: real): (r: State)
    ensures s.isPaused ==> r == s
    ensures !s.isPaused && s.isChasing ==> r == ChaseStep(c, s, dt, playerX, Abs(s.x - playerX), Abs(playerDy))
    ensures !s.isPaused && !s.isChasing && s.isIdle ==> r == IdleStep(c, s, dt, Abs(s.x - playerX), Abs(playerDy))
    ensures !s.isPaused && !s.isChasing && !s.isIdle ==> r == PatrolStep(c, s, dt, Abs(s.x - playerX), Abs(playerDy))
    ensures Inv(c, s) ==> Inv(c, r)
  {
    if s.isPaused then s
    else
      var dx := Abs(s.x - playerX);
      var dy := Abs(playerDy);
      if s.isChasing then ChaseStep(c, s, dt, playerX, dx, dy)
      else if s.isIdle then IdleStep(c, s, dt, dx, dy)
      else PatrolStep(c, s, dt, dx, dy)
  }

  /** With the target on a border, reaching it always means Idle: the "switch target" branch never runs. */
  lemma ReachingBorderAlwaysIdles(c: Config, s: State, dt: real, dx: real, dy: real)
    requires Inv(c, s) && !s.isChasing && !s.isIdle && !InAggroBox(c, dx, dy)
    requires Abs(PatrolStep(c, s, dt, dx, dy).x - s.targetX) < 0.1
    ensures PatrolStep(c, s, dt, dx, dy).isIdle
    ensures PatrolStep(c, s, dt, dx, dy).targetX == s.targetX
  {
  }

  /**
   * Hysteresis: when the chase box contains the aggro box, a chase that
   * sees the player inside the aggro box neither ends nor times out.
   */
  lemma ChaseHoldsInsideAggroBox(c: Config, s: State, dt: real, playerX: real, playerDy: real)
    requires c.aggroHorizontalRange <= c.chaseHorizontalRange && c.aggroVerticalRange <= c.chaseVerticalRange
    requires !s.isPaused && s.isChasing && InAggroBox(c, Abs(s.x - playerX), Abs(playerDy))
    ensures UpdateStep(c, s, dt, playerX, playerDy).isChasing
    ensures UpdateStep(c, s, dt, playerX, playerDy).chaseTimer == 0.0
  {
  }

  /** Pausing and resuming touch only the pause flag, and a paused enemy stays exactly where it is. */
  lemma {:induction false} PausedFramesChangeNothing(c: Config, s: State, dts: seq<real>, playerX: real, playerDy: real)
    requires s.isPaused
    decreases |dts|
    ensures UpdateAll(c, s, dts, playerX, playerDy) == s
  {
    if dts != [] {
      PausedFramesChangeNothing(c, s, dts[1..], playerX, playerDy);
    }
  }

  /** Runs a sequence of frames against a stationary player. */
  function UpdateAll(c: Config, s: State, dts: seq<real>, playerX: real, playerDy: real): State
    decreases |dts|
  {
    if dts == [] then s else UpdateAll(c, UpdateStep(c, s, dts[0], playerX, playerDy), dts[1..], playerX, playerDy)
  }

  class PatrolScript {
    const cfg: Config
    var x: real
    var targetX: real
    var isChasing: bool
    var isIdle: bool
    var isPaused: bool
    var idleTimer: real
    var chaseTimer: real

    function Model(): State
      reads this
    {
      State(x, targetX, isChasing, isIdle, isPaused, idleTimer, chaseTimer)
    }

    ghost predicate Valid()
      reads this
    {
      Inv(cfg, Model())
    }

    constructor (config: Config, startX: real)
      ensures cfg == config && Model() == State(startX, 0.0, false, false, false, 0.0, 0.0)
    {
      cfg := config;
      x := startX;
      targetX := 0.0;
      isChasing, isIdle, isPaused := false, false, false;
      idleTimer, chaseTimer := 0.0, 0.0;
    }

    method Start()
      modifies this
      ensures Model() == StartStep(cfg, old(Model()))
      ensures old(!isChasing || !isIdle) ==> Valid()
    {
      targetX := cfg.pointAX;
    }

    method Update(dt: real, playerX: real, playerDy: real)
      modifies this
      ensures Model() == UpdateStep(cfg, old(Model()), dt, playerX, playerDy)
      ensures old(Valid()) ==> Valid()
    {
      if isPaused {
        return;
      }
      var dx := Abs(x - playerX);
      var dy := Abs(playerDy);
      if isChasing {
        ChasePlayer(dt, playerX, dx, dy);
      } else if isIdle {
        HandleIdleState(dt, dx, dy);
      } else {
        Patrol(dt, dx, dy);
      }
    }

    method Patrol(dt: real, dx: real, dy: real)
      requires !isChasing && !isIdle
      modifies this
      ensures Model() == PatrolStep(cfg, old(Model()), dt, dx, dy)
    {
      if InAggroBox(cfg, dx, dy) {
        isChasing := true;
        chaseTimer := 0.0;
        return;
      }
      x := MoveTowards(x, targetX, cfg.patrolSpeed * dt);
      if Abs(x - targetX) < 0.1 {
        if targetX == cfg.pointAX || targetX == cfg.pointBX {
          isIdle := true;
          idleTimer := 0.0;
          return;
        }
        targetX := if targetX == cfg.pointAX then cfg.pointBX else cfg.pointAX;
      }
    }

    method ChasePlayer(dt: real, playerX: real, dx: real, dy: real)
      requires isChasing
      modifies this
      ensures Model() == ChaseStep(cfg, old(Model()), dt, playerX, dx, dy)
    {
      if OutsideChaseBox(cfg, dx, dy) {
        isChasing := false;
        targetX := ClosestPatrolPoint(cfg, x);
        chaseTimer := 0.0;
        return;
      }
      if InAggroBox(cfg, dx, dy) {
        chaseTimer := 0.0;
      } else {
        chaseTimer := chaseTimer + dt;
        if chaseTimer >= cfg.chaseTimeout {
          isChasing := false;
          chaseTimer := 0.0;
          return;
        }
      }
      x := ChaseX(cfg, x, dt, playerX);
    }

    method HandleIdleState(dt: real, dx: real, dy: real)
      requires isIdle
      modifies this
      ensures Model() == IdleStep(cfg, old(Model()), dt, dx, dy)
    {
      if InAggroBox(cfg, dx, dy) {
        isIdle := false;
        isChasing := true;
        chaseTimer := 0.0;
        return;
      }
      idleTimer := idleTimer + dt;
      if idleTimer >= cfg.idleTime {
        isIdle := false;
        targetX := if targetX == cfg.pointAX then cfg.pointBX else cfg.pointAX;
      }
    }

    method PauseAI()
      modifies this
      ensures Model() == old(Model()).(isPaused := true)
    {
      isPaused := true;
    }

    method ResumeAI()
      modifies this
      ensures Model() == old(Model()).(isPaused := false)
    {
      isPaused := false;
    }
  }
}
