/**
 * The distance-based enemy AI draft (`EnemyAI`): Patrol between the x
 * positions of two points and Chase the player, with a larger distance to
 * give up the chase than to start it. It also has an Idle handler, but no
 * code ever sets the idle flag. The distance to the player and the
 * player's x are given each frame; the patrol points are assumed fixed.
 */
module EnemyPatrolAI {

  import opened Common

  datatype Config = Config(
    pointAX: real,
    pointBX: real,
    patrolSpeed: real,
    chaseSpeed: real,
    aggroRange: real,
    chaseBoundaryRange: real,
    idleTime: real)

  function Defaults(ax: real, bx: real): Config
  {
    Config(ax, bx, 2.0, 5.0, 5.0, 10.0, 3.0)
  }

  datatype State = State(
    x: real,
    targetX: real,
    isChasing: bool,
    isIdle: bool,
    idleTimer: real)

  /** `ClosestPatrolPoint`: the nearer border by |dx|; a tie goes to point B. */
  function ClosestPatrolPoint(c: Config, x: real): (r: real)
    ensures r == c.pointAX || r == c.pointBX
    ensures Abs(x - r) <= Abs(x - c.pointAX) && Abs(x - r) <= Abs(x - c.pointBX)
    ensures Abs(x - c.pointAX) == Abs(x - c.pointBX) ==> r == c.pointBX
  {
    if Abs(x - c.pointAX) < Abs(x - c.pointBX) then c.pointAX else c.pointBX
  }

  /** `IsPlayerInPatrolArea`: the player's x lies within the chase boundary of either point. */
  function IsPlayerInPatrolArea(c: Config, playerX: real): (r: bool)
    ensures r <==> ((c.pointAX - c.chaseBoundaryRange <= playerX <= c.pointAX + c.chaseBoundaryRange)
                    || (c.pointBX - c.chaseBoundaryRange <= playerX <= c.pointBX + c.chaseBoundaryRange))
  {
    Abs(playerX - c.pointAX) <= c.chaseBoundaryRange || Abs(playerX - c.pointBX) <= c.chaseBoundaryRange
  }

  function StartStep(c: Config, s: State): (r: State)
    ensures r.targetX == c.pointAX
  {
    s.(targetX := c.pointAX)
  }

  /**
   * `Patrol`: within `aggroRange` the chase starts without moving;
   * otherwise step towards the target, and within 0.1 of it flip to the
   * other point.
   */
  function PatrolStep(c: Config, s: State, dt: real, distance: real): (r: State)
    ensures distance <= c.aggroRange ==> r == s.(isChasing := true)
    ensures distance > c.aggroRange ==> r.x == MoveTowards(s.x, s.targetX, c.patrolSpeed * dt) && r.isChasing == s.isChasing
    ensures distance > c.aggroRange && Abs(r.x - s.targetX) < 0.1 ==>
              r.targetX == (if s.targetX == c.pointAX then c.pointBX else c.pointAX)
    ensures distance > c.aggroRange && !(Abs(r.x - s.targetX) < 0.1) ==> r.targetX == s.targetX
    ensures distance > c.aggroRange ==> r == s.(x := r.x, targetX := r.targetX)
    ensures r.isIdle == s.isIdle
  {
    if distance <= c.aggroRange then s.(isChasing := true)
    else
      var s1 := s.(x := MoveTowards(s.x, s.targetX, c.patrolSpeed * dt));
      if Abs(s1.x - s1.targetX) < 0.1 then
        s1.(targetX := if s1.targetX == c.pointAX then c.pointBX else c.pointAX)
      else s1
  }

  /** `ChasePlayer`: beyond the chase boundary return to the closer point; otherwise step towards the player. */
  function ChaseStep(c: Config, s: State, dt: real, distance: real, playerX: real): (r: State)
    ensures distance > c.chaseBoundaryRange ==> r == s.(isChasing := false, targetX := ClosestPatrolPoint(c, s.x))
    ensures distance <= c.chaseBoundaryRange ==> r == s.(x := MoveTowards(s.x, playerX, c.chaseSpeed * dt))
  {
    if distance > c.chaseBoundaryRange then s.(isChasing := false, targetX := ClosestPatrolPoint(c, s.x))
    else s.(x := MoveTowards(s.x, playerX, c.chaseSpeed * dt))
  }

  /** `HandleIdleState`: resume the chase when the player is near and in the patrol area; else time out to Patrol. */
  function IdleStep(c: Config, s: State, dt: real, distance: real, playerX: real): (r: State)
    ensures distance <= c.chaseBoundaryRange && IsPlayerInPatrolArea(c, playerX) ==>
              r == s.(isIdle := false, isChasing := true)
    ensures !(distance <= c.chaseBoundaryRange && IsPlayerInPatrolArea(c, playerX)) ==>
              r.idleTimer == s.idleTimer + dt && (r.isIdle <==> s.isIdle && s.idleTimer + dt < c.idleTime)
    ensures !(distance <= c.chaseBoundaryRange && IsPlayerInPatrolArea(c, playerX)) && s.idleTimer + dt >= c.idleTime ==>
              r == s.(idleTimer := s.idleTimer + dt, isIdle := false, targetX := ClosestPatrolPoint(c, s.x))
    ensures !(distance <= c.chaseBoundaryRange && IsPlayerInPatrolArea(c, playerX)) && s.idleTimer + dt < c.idleTime ==>
              r == s.(idleTimer := s.idleTimer + dt)
  {
    if distance <= c.chaseBoundaryRange && IsPlayerInPatrolArea(c, playerX) then s.(isIdle := false, isChasing := true)
    else
      var s1 := s.(idleTimer := s.idleTimer + dt);
      if s1.idleTimer >= c.idleTime then s1.(isIdle := false, targetX := ClosestPatrolPoint(c, s1.x))
      else s1
  }

  function UpdateStep(c: Config, s: State, dt: real, distance: real, playerX: real): (r: State)
    ensures s.isChasing ==> r == ChaseStep(c, s, dt, distance, playerX)
    ensures !s.isChasing && s.isIdle ==> r == IdleStep(c, s, dt, distance, playerX)
    ensures !s.isChasing && !s.isIdle ==> r == PatrolStep(c, s, dt, distance)
    ensures !s.isIdle ==> !r.isIdle
  {
    if s.isChasing then ChaseStep(c, s, dt, distance, playerX)
    else if s.isIdle then IdleStep(c, s, dt, distance, playerX)
    else PatrolStep(c, s, dt, distance)
  }

  /** Runs a sequence of frames, each with its delta time, distance and player x. */
  function UpdateAll(c: Config, s: State, frames: seq<(real, real, real)>): State
    decreases |frames|
  {
    if frames == [] then s
    else UpdateAll(c, UpdateStep(c, s, frames[0].0, frames[0].1, frames[0].2), frames[1..])
  }

  /** The idle flag is never set, so from a non-idle start the Idle handler never runs. */
  lemma {:induction false} NeverIdle(c: Config, s: State, frames: seq<(real, real, real)>)
    requires !s.isIdle
    decreases |frames|
    ensures !UpdateAll(c, s, frames).isIdle
  {
    if frames != [] {
      NeverIdle(c, UpdateStep(c, s, frames[0].0, frames[0].1, frames[0].2), frames[1..]);
    }
  }

  /**
   * Hysteresis: between `aggroRange` (exclusive) and `chaseBoundaryRange`
   * (inclusive) the chasing flag does not change, either way.
   */
  lemma ModeStableInBand(c: Config, s: State, dt: real, distance: real, playerX: real)
    requires !s.isIdle && c.aggroRange < distance <= c.chaseBoundaryRange
    ensures UpdateStep(c, s, dt, distance, playerX).isChasing == s.isChasing
  {
  }

  /** The chase starts exactly within `aggroRange` and ends exactly beyond `chaseBoundaryRange`. */
  lemma ModeSwitchesExactly(c: Config, s: State, dt: real, distance: real, playerX: real)
    requires !s.isIdle
    ensures !s.isChasing ==> (UpdateStep(c, s, dt, distance, playerX).isChasing <==> distance <= c.aggroRange)
    ensures s.isChasing ==> (!UpdateStep(c, s, dt, distance, playerX).isChasing <==> distance > c.chaseBoundaryRange)
  {
  }

  class EnemyAI {
    const cfg: Config
    var x: real
    var targetX: real
    var isChasing: bool
    var isIdle: bool
    var idleTimer: real

    function Model(): State
      reads this
    {
      State(x, targetX, isChasing, isIdle, idleTimer)
    }

    constructor (config: Config, startX: real)
      ensures cfg == config && Model() == State(startX, 0.0, false, false, 0.0)
    {
      cfg := config;
      x := startX;
      targetX := 0.0;
      isChasing, isIdle := false, false;
      idleTimer := 0.0;
    }

    method Start()
      modifies this
      ensures Model() == StartStep(cfg, old(Model()))
    {
      targetX := cfg.pointAX;
    }

    method Update(dt: real, distance: real, playerX: real)
      modifies this
      ensures Model() == UpdateStep(cfg, old(Model()), dt, distance, playerX)
    {
      if isChasing {
        ChasePlayer(dt, distance, playerX);
      } else if isIdle {
        HandleIdleState(dt, distance, playerX);
      } else {
        Patrol(dt, distance);
      }
    }

    method Patrol(dt: real, distance: real)
      modifies this
      ensures Model() == PatrolStep(cfg, old(Model()), dt, distance)
    {
      if distance <= cfg.aggroRange {
        isChasing := true;
        return;
      }
      x := MoveTowards(x, targetX, cfg.patrolSpeed * dt);
      if Abs(x - targetX) < 0.1 {
        targetX := if targetX == cfg.pointAX then cfg.pointBX else cfg.pointAX;
      }
    }

    method ChasePlayer(dt: real, distance: real, playerX: real)
      modifies this
      ensures Model() == ChaseStep(cfg, old(Model()), dt, distance, playerX)
    {
      if distance > cfg.chaseBoundaryRange {
        isChasing := false;
        targetX := ClosestPatrolPoint(cfg, x);
        return;
      }
      x := MoveTowards(x, playerX, cfg.chaseSpeed * dt);
    }

    method HandleIdleState(dt: real, distance: real, playerX: real)
      modifies this
      ensures Model() == IdleStep(cfg, old(Model()), dt, distance, playerX)
    {
      if distance <= cfg.chaseBoundaryRange && IsPlayerInPatrolArea(cfg, playerX) {
        isIdle := false;
        isChasing := true;
        return;
      }
      idleTimer := idleTimer + dt;
      if idleTimer >= cfg.idleTime {
        isIdle := false;
        targetX := ClosestPatrolPoint(cfg, x);
      }
    }
  }
}
