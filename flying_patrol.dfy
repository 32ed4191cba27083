/**
 * The flying enemy's patrol AI (`FlyingEnemyAI`): the same Patrol / Idle /
 * Chase machine as the ground patrol, but movement is delegated to a
 * path-finding agent. The model keeps what the script writes to that
 * agent: its destination (a patrol point or the player) and whether it
 * may move. Distances are given each frame.
 */
module FlyingPatrol {

  datatype Config = Config(
    aggroHorizontalRange: real,
    aggroVerticalRange: real,
    chaseHorizontalRange: real,
    chaseVerticalRange: real,
    idleTime: real,
    chaseTimeout: real)

  const Defaults := Config(5.0, 2.0, 10.0, 4.0, 3.0, 5.0)

  datatype PatrolPoint = PointA | PointB

  datatype Destination = ToPoint(point: PatrolPoint) | ToPlayer

  /** What the enemy knows of the scene on one frame. */
  datatype Sensing = Sensing(
    dx: real,            // |x| distance to the player
    dy: real,            // |y| distance to the player
    distToTarget: real,  // distance to the current patrol point
    distToA: real,
    distToB: real)

  datatype State = State(
    targetPoint: PatrolPoint,
    destination: Destination,
    canMove: bool,
    isChasing: bool,
    isIdle: bool,
    isPaused: bool,
    idleTimer: real,
    chaseTimer: real)

  /**
   * Never both chasing and idle; the agent heads for the player exactly
   * while chasing, and for the patrol target otherwise.
   */
  predicate Inv(s: State)
  {
    && !(s.isChasing && s.isIdle)
    && (s.isChasing ==> s.destination == ToPlayer)
    && (!s.isChasing ==> s.destination == ToPoint(s.targetPoint))
  }

  predicate InAggroBox(c: Config, e: Sensing)
  {
    e.dx <= c.aggroHorizontalRange && e.dy <= c.aggroVerticalRange
  }

  predicate OutsideChaseBox(c: Config, e: Sensing)
  {
    e.dx > c.chaseHorizontalRange || e.dy > c.chaseVerticalRange
  }

  function Other(p: PatrolPoint): (r: PatrolPoint)
    ensures r != p
  {
    if p == PointA then PointB else PointA
  }

  /** `ClosestPatrolPoint`: the nearer point by distance; a tie goes to point B. */
  function ClosestPatrolPoint(e: Sensing): (r: PatrolPoint)
    ensures r == PointA <==> e.distToA < e.distToB
  {
    if e.distToA < e.distToB then PointA else PointB
  }

  /** `Start`: patrol towards point A. */
  function StartStep(s: State): (r: State)
    ensures r.targetPoint == PointA && r.destination == ToPoint(PointA)
    ensures !s.isChasing ==> Inv(r)
  {
    s.(targetPoint := PointA, destination := ToPoint(PointA))
  }

  /**
   * `Patrol`: the aggro box starts a chase aimed at the player; otherwise
   * the agent heads for the target, and within 0.2 of it the enemy goes
   * Idle and stops moving.
   */
  function PatrolStep(c: Config, s: State, e: Sensing): (r: State)
    requires !s.isChasing && !s.isIdle
    ensures InAggroBox(c, e) ==> r == s.(isChasing := true, chaseTimer := 0.0, destination := ToPlayer)
    ensures !InAggroBox(c, e) ==> r.destination == ToPoint(s.targetPoint) && r.targetPoint == s.targetPoint
    ensures !InAggroBox(c, e) ==> (r.isIdle <==> e.distToTarget < 0.2)
    ensures !InAggroBox(c, e) && r.isIdle ==>
              r == s.(destination := ToPoint(s.targetPoint), isIdle := true, idleTimer := 0.0, canMove := false)
    ensures !InAggroBox(c, e) && !r.isIdle ==> r == s.(destination := ToPoint(s.targetPoint))
  {
    if InAggroBox(c, e) then s.(isChasing := true, chaseTimer := 0.0, destination := ToPlayer)
    else
      var s1 := s.(destination := ToPoint(s.targetPoint));
      if e.distToTarget < 0.2 then
        // both patrol points are borders, so reaching the target always idles
        s1.(isIdle := true, idleTimer := 0.0, canMove := false)
      else s1
  }

  /**
   * `ChasePlayer`: leaving the chase box, or a timeout outside the aggro
   * box, ends the chase towards the closer patrol point; the aggro box
   * resets the timer; a continuing chase keeps the player as destination.
   */
  function ChaseStep(c: Config, s: State, dt: real, e: Sensing): (r: State)
    requires s.isChasing
    ensures OutsideChaseBox(c, e) ==>
              r == s.(isChasing := false, targetPoint := ClosestPatrolPoint(e),
                      destination := ToPoint(ClosestPatrolPoint(e)), chaseTimer := 0.0)
    ensures !OutsideChaseBox(c, e) && InAggroBox(c, e) ==> r == s.(chaseTimer := 0.0, destination := ToPlayer)
    ensures !OutsideChaseBox(c, e) && !InAggroBox(c, e) ==>
              (r.isChasing <==> s.chaseTimer + dt < c.chaseTimeout)
    ensures !OutsideChaseBox(c, e) && !InAggroBox(c, e) && r.isChasing ==>
              r == s.(chaseTimer := s.chaseTimer + dt, destination := ToPlayer)
    ensures !OutsideChaseBox(c, e) && !InAggroBox(c, e) && !r.isChasing ==>
              r == s.(isChasing := false, chaseTimer := 0.0, targetPoint := ClosestPatrolPoint(e),
                      destination := ToPoint(ClosestPatrolPoint(e)))
    ensures r.isChasing ==> r.destination == ToPlayer && r.targetPoint == s.targetPoint
    ensures r.isIdle == s.isIdle && r.canMove == s.canMove
  {
    var closest := ClosestPatrolPoint(e);
    if OutsideChaseBox(c, e) then
      s.(isChasing := false, targetPoint := closest, destination := ToPoint(closest), chaseTimer := 0.0)
    else if InAggroBox(c, e) then
      s.(chaseTimer := 0.0, destination := ToPlayer)
    else if s.chaseTimer + dt >= c.chaseTimeout then
      s.(isChasing := false, chaseTimer := 0.0, targetPoint := closest, destination := ToPoint(closest))
    else
      s.(chaseTimer := s.chaseTimer + dt, destination := ToPlayer)
  }

  /**
   * `HandleIdleState`: the aggro box resumes the chase and movement; the
   * idle timeout flips the patrol target and re-enables movement.
   */
  function IdleStep(c: Config, s: State, dt: real, e: Sensing): (r: State)
    requires s.isIdle
    ensures InAggroBox(c, e) ==>
              r == s.(isIdle := false, isChasing := true, chaseTimer := 0.0, canMove := true, destination := ToPlayer)
    ensures !InAggroBox(c, e) ==> r.idleTimer == s.idleTimer + dt && r.isChasing == s.isChasing
    ensures !InAggroBox(c, e) ==> (r.isIdle <==> s.idleTimer + dt < c.idleTime)
    ensures !InAggroBox(c, e) && !r.isIdle ==>
              r == s.(idleTimer := s.idleTimer + dt, isIdle := false, targetPoint := Other(s.targetPoint),
                      destination := ToPoint(Other(s.targetPoint)), canMove := true)
    ensures !InAggroBox(c, e) && r.isIdle ==> r == s.(idleTimer := s.idleTimer + dt)
  {
    if InAggroBox(c, e) then
      s.(isIdle := false, isChasing := true, chaseTimer := 0.0, canMove := true, destination := ToPlayer)
    else
      var s1 := s.(idleTimer := s.idleTimer + dt);
      if s1.idleTimer >= c.idleTime then
        s1.(isIdle := false, targetPoint := Other(s1.targetPoint), destination := ToPoint(Other(s1.targetPoint)), canMove := true)
      else s1
  }

  function UpdateStep(c: Config, s: State, dt: real, e: Sensing): (r: State)
    ensures s.isPaused ==> r == s
    ensures !s.isPaused && s.isChasing ==> r == ChaseStep(c, s, dt, e)
    ensures !s.isPaused && !s.isChasing && s.isIdle ==> r == IdleStep(c, s, dt, e)
    ensures !s.isPaused && !s.isChasing && !s.isIdle ==> r == PatrolStep(c, s, e)
    ensures Inv(s) ==> Inv(r)
  {
    if s.isPaused then s
    else if s.isChasing then ChaseStep(c, s, dt, e)
    else if s.isIdle then IdleStep(c, s, dt, e)
    else PatrolStep(c, s, e)
  }

  /** `PauseAI` stops the agent; `ResumeAI` lets it move again, even in Idle. */
  function PauseStep(s: State): (r: State)
    ensures r.isPaused && !r.canMove
    ensures r == s.(isPaused := true, canMove := false)
    ensures Inv(s) ==> Inv(r)
  {
    s.(isPaused := true, canMove := false)
  }

  function ResumeStep(s: State): (r: State)
    ensures !r.isPaused && r.canMove
    ensures r == s.(isPaused := false, canMove := true)
    ensures Inv(s) ==> Inv(r)
  {
    s.(isPaused := false, canMove := true)
  }

  /** Unlike the ground patrol, a chase timeout retargets the nearer patrol point. */
  lemma TimeoutRetargetsClosest(c: Config, s: State, dt: real, e: Sensing)
    requires !s.isPaused && s.isChasing && !OutsideChaseBox(c, e) && !InAggroBox(c, e)
    requires s.chaseTimer + dt >= c.chaseTimeout
    ensures var r := UpdateStep(c, s, dt, e);
            !r.isChasing && r.targetPoint == ClosestPatrolPoint(e) && r.destination == ToPoint(r.targetPoint)
  {
  }

  /** One frame of the update loop: the time step and what the enemy senses. */
  datatype Frame = Frame(dt: real, sensing: Sensing)

  /** `Update` called once per frame, in order. */
  function Run(c: Config, s: State, frames: seq<Frame>): (r: State)
    ensures s.isPaused ==> r == s
    decreases |frames|
  {
    if frames == [] then s
    else Run(c, UpdateStep(c, s, frames[0].dt, frames[0].sensing), frames[1..])
  }

  function TotalTime(frames: seq<Frame>): real
    decreases |frames|
  {
    if frames == [] then 0.0 else frames[0].dt + TotalTime(frames[1..])
  }

  /** The player stays inside the chase box but outside the aggro box on every frame. */
  predicate Lingering(c: Config, frames: seq<Frame>)
  {
    forall i :: 0 <= i < |frames| ==>
      !OutsideChaseBox(c, frames[i].sensing) && !InAggroBox(c, frames[i].sensing)
  }

  /**
   * A patrolling or idle enemy that never sees the player in its aggro box
   * stays out of the chase and keeps heading for its patrol target.
   */
  lemma {:induction false} NoAggroNoChase(c: Config, s: State, frames: seq<Frame>)
    requires !s.isPaused && !s.isChasing && s.destination == ToPoint(s.targetPoint)
    requires forall i :: 0 <= i < |frames| ==> !InAggroBox(c, frames[i].sensing)
    ensures var r := Run(c, s, frames);
            !r.isPaused && !r.isChasing && r.destination == ToPoint(r.targetPoint)
    decreases |frames|
  {
    if frames != [] {
      var s1 := UpdateStep(c, s, frames[0].dt, frames[0].sensing);
      assert !InAggroBox(c, frames[0].sensing);
      assert !s1.isPaused && !s1.isChasing && s1.destination == ToPoint(s1.targetPoint);
      forall i | 0 <= i < |frames[1..]|
        ensures !InAggroBox(c, frames[1..][i].sensing)
      {
        assert frames[1..][i] == frames[i + 1];
      }
      NoAggroNoChase(c, s1, frames[1..]);
    }
  }

  /**
   * A chase whose player lingers between the aggro box and the edge of the
   * chase box ends once the frame times add up to the chase timeout, and the
   * enemy heads back to a patrol point.
   */
  lemma {:induction false} LingeringChaseTimesOut(c: Config, s: State, frames: seq<Frame>)
    requires !s.isPaused && s.isChasing && frames != [] && Lingering(c, frames)
    requires s.chaseTimer + TotalTime(frames) >= c.chaseTimeout
    ensures var r := Run(c, s, frames);
            !r.isPaused && !r.isChasing && r.destination == ToPoint(r.targetPoint)
    decreases |frames|
  {
    var f := frames[0];
    var rest := frames[1..];
    var s1 := UpdateStep(c, s, f.dt, f.sensing);
    assert Run(c, s, frames) == Run(c, s1, rest);
    assert !OutsideChaseBox(c, f.sensing) && !InAggroBox(c, f.sensing);
    forall i | 0 <= i < |rest|
      ensures !OutsideChaseBox(c, rest[i].sensing) && !InAggroBox(c, rest[i].sensing)
    {
      assert rest[i] == frames[i + 1];
    }
    if s.chaseTimer + f.dt >= c.chaseTimeout {
      assert !s1.isPaused && !s1.isChasing && s1.destination == ToPoint(s1.targetPoint);
      NoAggroNoChase(c, s1, rest);
    } else {
      assert s1 == s.(chaseTimer := s.chaseTimer + f.dt, destination := ToPlayer);
      assert TotalTime(frames) == f.dt + TotalTime(rest);
      LingeringChaseTimesOut(c, s1, rest);
    }
  }

  /** Resuming from a pause taken while idle leaves the enemy idle but free to move. */
  lemma ResumeWhileIdleMoves(s: State)
    requires s.isIdle && !s.canMove
    ensures var r := ResumeStep(PauseStep(s));
            r.isIdle && r.canMove
  {
  }

  class FlyingEnemyAI {
    const cfg: Config
    var targetPoint: PatrolPoint
    var destination: Destination
    var canMove: bool
    var isChasing: bool
    var isIdle: bool
    var isPaused: bool
    var idleTimer: real
    var chaseTimer: real

    function Model(): State
      reads this
    {
      State(targetPoint, destination, canMove, isChasing, isIdle, isPaused, idleTimer, chaseTimer)
    }

    ghost predicate Valid()
      reads this
    {
      Inv(Model())
    }

    /** Creation followed by `Start`. */
    constructor (config: Config)
      ensures cfg == config && Valid()
      ensures Model() == State(PointA, ToPoint(PointA), true, false, false, false, 0.0, 0.0)
    {
      cfg := config;
      targetPoint := PointA;
      destination := ToPoint(PointA);
      canMove := true;
      isChasing, isIdle, isPaused := false, false, false;
      idleTimer, chaseTimer := 0.0, 0.0;
    }

    method Update(dt: real, e: Sensing)
      modifies this
      ensures Model() == UpdateStep(cfg, old(Model()), dt, e)
      ensures old(Valid()) ==> Valid()
    {
      if isPaused {
        return;
      }
      if isChasing {
        ChasePlayer(dt, e);
      } else if isIdle {
        HandleIdleState(dt, e);
      } else {
        Patrol(e);
      }
    }

    method Patrol(e: Sensing)
      requires !isChasing && !isIdle
      modifies this
      ensures Model() == PatrolStep(cfg, old(Model()), e)
    {
      if InAggroBox(cfg, e) {
        isChasing := true;
        chaseTimer := 0.0;
        destination := ToPlayer;
        return;
      }
      destination := ToPoint(targetPoint);
      if e.distToTarget < 0.2 {
        isIdle := true;
        idleTimer := 0.0;
        canMove := false;
      }
    }

    method ChasePlayer(dt: real, e: Sensing)
      requires isChasing
      modifies this
      ensures Model() == ChaseStep(cfg, old(Model()), dt, e)
    {
      if OutsideChaseBox(cfg, e) {
        isChasing := false;
        targetPoint := ClosestPatrolPoint(e);
        destination := ToPoint(targetPoint);
        chaseTimer := 0.0;
        return;
      }
      if InAggroBox(cfg, e) {
        chaseTimer := 0.0;
      } else {
        chaseTimer := chaseTimer + dt;
        if chaseTimer >= cfg.chaseTimeout {
          isChasing := false;
          chaseTimer := 0.0;
          targetPoint := ClosestPatrolPoint(e);
          destination := ToPoint(targetPoint);
          return;
        }
      }
      destination := ToPlayer;
    }

    method HandleIdleState(dt: real, e: Sensing)
      requires isIdle
      modifies this
      ensures Model() == IdleStep(cfg, old(Model()), dt, e)
    {
      if InAggroBox(cfg, e) {
        isIdle := false;
        isChasing := true;
        chaseTimer := 0.0;
        canMove := true;
        destination := ToPlayer;
        return;
      }
      idleTimer := idleTimer + dt;
      if idleTimer >= cfg.idleTime {
        isIdle := false;
        targetPoint := Other(targetPoint);
        destination := ToPoint(targetPoint);
        canMove := true;
      }
    }

    method PauseAI()
      modifies this
      ensures Model() == PauseStep(old(Model()))
    {
      isPaused := true;
      canMove := false;
    }

    method ResumeAI()
      modifies this
      ensures Model() == ResumeStep(old(Model()))
    {
      isPaused := false;
      canMove := true;
    }
  }
}
