/**
 * The player's coroutine-driven punch (namespace ElderCloak.Player.Combat,
 * `MeleeAttack`). An attack runs as a coroutine: it starts at once, checks
 * for hits after 0.3 × `attackDuration`, and ends after a further
 * 0.7 × `attackDuration`. The coroutine's position is modelled as a
 * `Phase` holding the time it waits for; `Resume` is the engine resuming it
 * on a frame. The overlap query is given as the sequence of the ids of the
 * objects whose colliders it returned.
 */
module PlayerMeleeAttack {

  type ObjectId = nat

  datatype Config = Config(attackDamage: int, attackCooldown: real, attackDuration: real)

  const Defaults := Config(25, 0.5, 0.2)

  /** Where the `AttackSequence` coroutine is: not running, waiting to check hits, waiting to end. */
  datatype Phase = Ready | WindUp(hitAt: real) | Recover(endAt: real)

  datatype State = State(isAttacking: bool, lastAttackTime: real, attackInputPressed: bool, phase: Phase)

  /** The events the component raises. */
  datatype Event = AttackStart | AttackHit | AttackEnd

  const Initial := State(false, -1.0, false, Ready)

  /** A coroutine is running exactly while `isAttacking` is set. */
  predicate Inv(s: State)
  {
    s.isAttacking <==> !s.phase.Ready?
  }

  /** `CanAttack`: not attacking and at least `attackCooldown` since the last attack started. */
  predicate CanAttack(c: Config, s: State, now: real)
  {
    !s.isAttacking && now - s.lastAttackTime >= c.attackCooldown
  }

  /** `OnAttack`: a press in the `started` phase latches the input. */
  function OnAttackStep(s: State, started: bool): (r: State)
    ensures r.attackInputPressed == (s.attackInputPressed || started)
    ensures r.(attackInputPressed := s.attackInputPressed) == s
  {
    if started then s.(attackInputPressed := true) else s
  }

  /**
   * `Attack`: nothing happens unless `CanAttack`; otherwise the coroutine
   * starts, runs up to its first wait (flag set, start time stamped,
   * `OnAttackStart` raised) and waits 0.3 × `attackDuration`.
   */
  function AttackStep(c: Config, s: State, now: real): (r: (State, seq<Event>))
    ensures !CanAttack(c, s, now) ==> r == (s, [])
    ensures CanAttack(c, s, now) ==>
              && r.0 == s.(isAttacking := true, lastAttackTime := now, phase := WindUp(now + 0.3 * c.attackDuration))
              && r.1 == [AttackStart]
    ensures Inv(s) ==> Inv(r.0)
  {
    if !CanAttack(c, s, now) then (s, [])
    else (s.(isAttacking := true, lastAttackTime := now, phase := WindUp(now + 0.3 * c.attackDuration)), [AttackStart])
  }

  /**
   * `Update` (`HandleAttackInput`): a latched press starts an attack when
   * `CanAttack`, and only then is the latch cleared; a press made while
   * blocked stays buffered.
   */
  function UpdateStep(c: Config, s: State, now: real): (r: (State, seq<Event>))
    ensures s.attackInputPressed && CanAttack(c, s, now) ==>
              r.0 == AttackStep(c, s, now).0.(attackInputPressed := false) && r.1 == [AttackStart]
    ensures !(s.attackInputPressed && CanAttack(c, s, now)) ==> r == (s, [])
    ensures Inv(s) ==> Inv(r.0)
  {
    if s.attackInputPressed && CanAttack(c, s, now) then
      var (a, ev) := AttackStep(c, s, now);
      (a.(attackInputPressed := false), ev)
    else (s, [])
  }

  /** `PerformAttack`: every returned object other than the attacker itself, in query order. */
  function Struck(hits: seq<ObjectId>, self: ObjectId): (r: seq<ObjectId>)
    ensures |r| <= |hits|
    ensures forall o :: o in r <==> o in hits && o != self
  {
    if hits == [] then []
    else (if hits[0] == self then [] else [hits[0]]) + Struck(hits[1..], self)
  }

  /**
   * `Struck` keeps the query order: filtering a concatenation filters each
   * part in turn (and `StruckOne` keeps a single object exactly when it is
   * not the attacker).
   */
  lemma {:induction false} StruckKeepsQueryOrder(a: seq<ObjectId>, b: seq<ObjectId>, self: ObjectId)
    ensures Struck(a + b, self) == Struck(a, self) + Struck(b, self)
    decreases |a|
  {
    if a == [] {
      assert a + b == b;
    } else {
      var head := if a[0] == self then [] else [a[0]];
      assert (a + b)[0] == a[0];
      assert (a + b)[1..] == a[1..] + b;
      assert Struck(a + b, self) == head + Struck(a[1..] + b, self);
      StruckKeepsQueryOrder(a[1..], b, self);
      assert Struck(a, self) == head + Struck(a[1..], self);
    }
  }

  lemma StruckOne(o: ObjectId, self: ObjectId)
    ensures Struck([o], self) == if o == self then [] else [o]
  {
    assert [o][1..] == [];
  }

  /** Of the struck objects, those with a damageable component; each takes `attackDamage`. */
  function Damaged(struck: seq<ObjectId>, damageable: set<ObjectId>): (r: seq<ObjectId>)
    ensures forall o :: o in r <==> o in struck && o in damageable
  {
    if struck == [] then []
    else (if struck[0] in damageable then [struck[0]] else []) + Damaged(struck[1..], damageable)
  }

  /** `Damaged` keeps the order of the struck objects in the same way (see `DamagedOne` for a single object). */
  lemma {:induction false} DamagedKeepsQueryOrder(a: seq<ObjectId>, b: seq<ObjectId>, damageable: set<ObjectId>)
    ensures Damaged(a + b, damageable) == Damaged(a, damageable) + Damaged(b, damageable)
    decreases |a|
  {
    if a == [] {
      assert a + b == b;
    } else {
      var head := if a[0] in damageable then [a[0]] else [];
      assert (a + b)[0] == a[0];
      assert (a + b)[1..] == a[1..] + b;
      assert Damaged(a + b, damageable) == head + Damaged(a[1..] + b, damageable);
      DamagedKeepsQueryOrder(a[1..], b, damageable);
      assert Damaged(a, damageable) == head + Damaged(a[1..], damageable);
    }
  }

  /** A single struck object is damaged exactly when it has a damageable component. */
  lemma DamagedOne(o: ObjectId, damageable: set<ObjectId>)
    ensures Damaged([o], damageable) == if o in damageable then [o] else []
  {
    assert [o][1..] == [];
  }

  /**
   * The coroutine resumed on a frame at `now`. Before its wait is over
   * nothing happens. At the end of the wind-up it does the one hit check
   * (raising `OnAttackHit` iff some object other than the attacker was
   * found) and waits 0.7 × `attackDuration`; at the end of the recovery it
   * clears the flag and raises `OnAttackEnd`.
   * Results: state, events, the objects damaged.
   */
  function ResumeStep(c: Config, s: State, now: real, hits: seq<ObjectId>, self: ObjectId, damageable: set<ObjectId>)
    : (r: (State, seq<Event>, seq<ObjectId>))
    ensures s.phase.Ready? ==> r == (s, [], [])
    ensures s.phase.WindUp? && now < s.phase.hitAt ==> r == (s, [], [])
    ensures s.phase.WindUp? && now >= s.phase.hitAt ==>
              && r.0 == s.(phase := Recover(now + 0.7 * c.attackDuration))
              && (r.1 == [AttackHit] <==> exists o :: o in hits && o != self)
              && (r.1 == [] <==> forall o :: o in hits ==> o == self)
              && (forall o :: o in r.2 <==> o in hits && o != self && o in damageable)
    ensures s.phase.Recover? && now < s.phase.endAt ==> r == (s, [], [])
    ensures s.phase.Recover? && now >= s.phase.endAt ==> r == (s.(isAttacking := false, phase := Ready), [AttackEnd], [])
    ensures Inv(s) ==> Inv(r.0)
  {
    match s.phase
    case Ready => (s, [], [])
    case WindUp(at) =>
      if now < at then (s, [], [])
      else
        var struck := Struck(hits, self);
        assert struck != [] ==> struck[0] in struck;
        (s.(phase := Recover(now + 0.7 * c.attackDuration)),
         if struck != [] then [AttackHit] else [],
         Damaged(struck, damageable))
    case Recover(at) =>
      if now < at then (s, [], [])
      else (s.(isAttacking := false, phase := Ready), [AttackEnd], [])
  }

  /** One frame of the coroutine alone: the time, and what the overlap query would return then. */
  datatype Tick = Tick(now: real, hits: seq<ObjectId>)

  /** Resumes the coroutine on each tick; returns the final state and how many hit checks ran. */
  function ResumeAll(c: Config, s: State, ticks: seq<Tick>, self: ObjectId, damageable: set<ObjectId>): (State, nat)
    decreases |ticks|
  {
    if ticks == [] then (s, 0)
    else
      var t := ticks[0];
      var (s1, _, _) := ResumeStep(c, s, t.now, t.hits, self, damageable);
      var (s2, n) := ResumeAll(c, s1, ticks[1..], self, damageable);
      (s2, n + if s.phase.WindUp? && s1.phase.Recover? then 1 else 0)
  }

  /** One attack sequence does at most one hit check, and none once it is past the wind-up. */
  lemma {:induction false} OneHitCheckPerAttack(c: Config, s: State, ticks: seq<Tick>, self: ObjectId, damageable: set<ObjectId>)
    decreases |ticks|
    ensures ResumeAll(c, s, ticks, self, damageable).1 <= (if s.phase.WindUp? then 1 else 0)
    ensures s.phase.Ready? ==> ResumeAll(c, s, ticks, self, damageable).0 == s
  {
    if ticks != [] {
      var t := ticks[0];
      var (s1, _, _) := ResumeStep(c, s, t.now, t.hits, self, damageable);
      OneHitCheckPerAttack(c, s1, ticks[1..], self, damageable);
    }
  }

  /** The hit check happens on the first tick at or after 0.3 × `attackDuration` from the start, not earlier. */
  lemma HitCheckWaitsForWindUp(c: Config, s: State, now: real, t: Tick, self: ObjectId, damageable: set<ObjectId>)
    requires c.attackDuration > 0.0
    requires s.attackInputPressed && CanAttack(c, s, now)
    requires t.now < now + 0.3 * c.attackDuration
    ensures var s1 := UpdateStep(c, s, now).0;
            ResumeStep(c, s1, t.now, t.hits, self, damageable) == (s1, [], [])
  {
  }

  /** The attacker never damages itself. */
  lemma NeverHitsSelf(c: Config, s: State, now: real, hits: seq<ObjectId>, self: ObjectId, damageable: set<ObjectId>)
    ensures self !in ResumeStep(c, s, now, hits, self, damageable).2
  {
  }

  class MeleeAttack {
    const cfg: Config
    /** The id of the attacker's own object, skipped by the hit check. */
    const self: ObjectId
    var isAttacking: bool
    var lastAttackTime: real
    var attackInputPressed: bool
    var phase: Phase

    function Model(): State
      reads this
    {
      State(isAttacking, lastAttackTime, attackInputPressed, phase)
    }

    constructor (config: Config, selfId: ObjectId)
      ensures cfg == config && self == selfId && Model() == Initial
    {
      cfg, self := config, selfId;
      isAttacking, lastAttackTime, attackInputPressed, phase := false, -1.0, false, Ready;
    }

    method OnAttack(started: bool)
      modifies this
      ensures Model() == OnAttackStep(old(Model()), started)
    {
      if started {
        attackInputPressed := true;
      }
    }

    method Update(now: real) returns (events: seq<Event>)
      modifies this
      ensures (Model(), events) == UpdateStep(cfg, old(Model()), now)
    {
      events := [];
      if attackInputPressed && !isAttacking && now - lastAttackTime >= cfg.attackCooldown {
        events := Attack(now);
        attackInputPressed := false;
      }
    }

    method Attack(now: real) returns (events: seq<Event>)
      modifies this
      ensures (Model(), events) == AttackStep(cfg, old(Model()), now)
    {
      if !(!isAttacking && now - lastAttackTime >= cfg.attackCooldown) {
        return [];
      }
      isAttacking := true;
      lastAttackTime := now;
      events := [AttackStart];
      phase := WindUp(now + 0.3 * cfg.attackDuration);
    }

    method Resume(now: real, hits: seq<ObjectId>, damageable: set<ObjectId>) returns (events: seq<Event>, damaged: seq<ObjectId>)
      modifies this
      ensures (Model(), events, damaged) == ResumeStep(cfg, old(Model()), now, hits, self, damageable)
    {
      events, damaged := [], [];
      match phase
      case Ready =>
      case WindUp(at) =>
        if now >= at {
          var hitSomething;
          hitSomething, damaged := PerformAttack(hits, damageable);
          if hitSomething {
            events := [AttackHit];
          }
          phase := Recover(now + 0.7 * cfg.attackDuration);
        }
      case Recover(at) =>
        if now >= at {
          isAttacking := false;
          events := [AttackEnd];
          phase := Ready;
        }
    }

    method PerformAttack(hits: seq<ObjectId>, damageable: set<ObjectId>) returns (hitSomething: bool, damaged: seq<ObjectId>)
      ensures hitSomething <==> Struck(hits, self) != []
      ensures damaged == Damaged(Struck(hits, self), damageable)
    {
      hitSomething, damaged := false, [];
      var i := 0;
      while i < |hits|
        invariant 0 <= i <= |hits|
        invariant (hitSomething || Struck(hits[i..], self) != []) <==> Struck(hits, self) != []
        invariant damaged + Damaged(Struck(hits[i..], self), damageable) == Damaged(Struck(hits, self), damageable)
      {
        StruckStep(hits, i, self, damageable);
        if hits[i] != self {
          hitSomething := true;
          if hits[i] in damageable {
            damaged := damaged + [hits[i]];
          }
        }
        i := i + 1;
      }
      assert hits[i..] == [];
    }
  }

  /** Unfolds the hit check by one collider: what the loop's state becomes once `hits[i]` is looked at. */
  lemma StruckStep(hits: seq<ObjectId>, i: nat, self: ObjectId, damageable: set<ObjectId>)
    requires i < |hits|
    ensures hits[i] != self ==> Struck(hits[i..], self) != []
    ensures hits[i] == self ==> Struck(hits[i..], self) == Struck(hits[i + 1..], self)
    ensures forall done: seq<ObjectId> ::
              done + Damaged(Struck(hits[i..], self), damageable)
              == (if hits[i] != self && hits[i] in damageable then done + [hits[i]] else done)
                 + Damaged(Struck(hits[i + 1..], self), damageable)
  {
    assert hits[i..][0] == hits[i] && hits[i..][1..] == hits[i + 1..];
    var rest := Struck(hits[i + 1..], self);
    var later := Damaged(rest, damageable);
    if hits[i] != self {
      assert Struck(hits[i..], self) == [hits[i]] + rest;
      assert ([hits[i]] + rest)[0] == hits[i] && ([hits[i]] + rest)[1..] == rest;
      if hits[i] in damageable {
        forall done: seq<ObjectId> ensures done + ([hits[i]] + later) == (done + [hits[i]]) + later { }
      } else {
        assert [] + later == later;
      }
    }
  }
}
