/**
 * The combo-capable melee attack system (namespace ElderCloak.Combat).
 *
 * A swing is started by `Attack`, which picks an attack variation from the
 * combo count, updates the combo, empties the per-swing hit registry and
 * starts the swing coroutine. The coroutine is modelled by the `swing`
 * field: each resumption either advances `attackTime` by the frame's delta
 * and, inside the hitbox window, processes the colliders the physics query
 * returned, or leaves the loop and ends the swing.
 */
module ComboMelee {
  import opened Common

  /** A collider returned by a physics query, identified by its object id. */
  type ColliderId = nat

  /** The serialised `AttackData` fields that affect gameplay state. */
  datatype AttackData = AttackData(
    damage: real,
    duration: real,
    hitboxStartTime: real,
    hitboxEndTime: real,
    comboDamageMultiplier: real)

  /** Inspector settings; the component never writes them. */
  datatype Config = Config(
    attackDamage: real,
    attackDuration: real,
    attackCooldown: real,
    enableComboSystem: bool,
    comboWindow: real,
    maxComboCount: int)

  const Defaults := Config(25.0, 0.3, 0.5, true, 1.5, 3)

  /** Damage dealt to one damageable target. */
  datatype Hit = Hit(target: ColliderId, damage: real)

  /** The swing coroutine: not running, or inside its loop at `attackTime`. */
  datatype Swing = NotSwinging | Swinging(data: AttackData, attackTime: real)

  datatype State = State(
    variations: seq<AttackData>,
    owner: Option<ColliderId>,
    isAttacking: bool,
    lastAttackTime: real,
    currentCombo: int,
    comboTimer: real,
    hitTargets: seq<ColliderId>,
    swing: Swing)

  predicate NoDup(s: seq<ColliderId>)
  {
    forall i, j :: 0 <= i < j < |s| ==> s[i] != s[j]
  }

  /** Largest combo count a swing can leave behind (a start always yields at least 1). */
  function ComboCap(c: Config): int
  {
    MaxInt(1, c.maxComboCount)
  }

  /**
   * What every reachable state satisfies: a running swing belongs to an
   * initialised system and keeps `isAttacking` set, the combo count stays in
   * range, and the hit registry holds each collider at most once and never
   * the owner.
   */
  predicate Inv(c: Config, s: State)
  {
    && (s.swing.Swinging? ==> s.isAttacking && s.owner.Some? && s.swing.attackTime >= 0.0)
    && (s.owner.Some? ==> |s.variations| > 0)
    && 0 <= s.currentCombo <= ComboCap(c)
    && NoDup(s.hitTargets)
    && (s.owner.Some? ==> s.owner.value !in s.hitTargets)
  }

  /** The attack created when no variation is configured. */
  function DefaultAttack(c: Config): AttackData
  {
    AttackData(c.attackDamage, c.attackDuration, 0.3, 0.7, 1.0)
  }

  function Init(c: Config, variations: seq<AttackData>): (s: State)
    ensures Inv(c, s)
    ensures !s.isAttacking && s.currentCombo == 0 && s.hitTargets == [] && s.owner == None
  {
    State(variations, None, false, 0.0, 0, 0.0, [], NotSwinging)
  }

  /** `Initialize`: records the owner and guarantees at least one variation. */
  function InitializeStep(c: Config, s: State, owner: ColliderId): (r: State)
    ensures |r.variations| >= 1
    ensures |s.variations| > 0 ==> r.variations == s.variations
    ensures |s.variations| == 0 ==> r.variations == [DefaultAttack(c)]
    ensures r.owner == Some(owner)
    ensures r.isAttacking == s.isAttacking && r.currentCombo == s.currentCombo && r.swing == s.swing
    ensures Inv(c, s) && owner !in s.hitTargets ==> Inv(c, r)
  {
    s.(variations := if |s.variations| == 0 then [DefaultAttack(c)] else s.variations,
       owner := Some(owner))
  }

  /** The cooldown runs from the start of the previous swing, not from its end. */
  predicate CanAttack(c: Config, s: State, now: real)
  {
    !s.isAttacking && now >= s.lastAttackTime + c.attackCooldown
  }

  /** Index of the variation used for the next swing; always in bounds. */
  function VariationIndex(c: Config, combo: int, n: nat): (i: nat)
    requires n > 0
    ensures i < n
    ensures (!c.enableComboSystem || combo <= 0) ==> i == 0
    ensures c.enableComboSystem && combo > 0 ==> i <= combo - 1 && (i == combo - 1 || i == n - 1)
  {
    if c.enableComboSystem && combo > 0 then MinInt(combo - 1, n - 1) else 0
  }

  /** `GetCurrentAttackData`: null only when there is no variation, otherwise the variation the combo selects. */
  function CurrentAttackData(c: Config, s: State): (r: Option<AttackData>)
    ensures r.None? <==> |s.variations| == 0
    ensures r.Some? ==> r.value == s.variations[VariationIndex(c, s.currentCombo, |s.variations|)]
    ensures r.Some? && (!c.enableComboSystem || s.currentCombo <= 0) ==> r.value == s.variations[0]
  {
    if |s.variations| == 0 then None
    else Some(s.variations[VariationIndex(c, s.currentCombo, |s.variations|)])
  }

  /** `GetAttackDamage`: the chosen variation's damage as stored, or the base damage without one. */
  function GetAttackDamage(c: Config, s: State): (d: real)
    ensures |s.variations| == 0 ==> d == c.attackDamage
    ensures |s.variations| > 0 ==> d == s.variations[VariationIndex(c, s.currentCombo, |s.variations|)].damage
  {
    match CurrentAttackData(c, s)
    case None => c.attackDamage
    case Some(data) => data.damage
  }

  /** The combo count after a swing starts at `now`. */
  function NextCombo(c: Config, combo: int, comboTimer: real, now: real): (r: int)
    ensures combo >= 0 ==> r >= 1
    ensures now <= comboTimer + c.comboWindow && combo < c.maxComboCount ==> r == combo + 1
    ensures now > comboTimer + c.comboWindow || combo >= c.maxComboCount ==> r == 1
    ensures 0 <= combo <= ComboCap(c) ==> r <= ComboCap(c)
  {
    if now <= comboTimer + c.comboWindow && combo < c.maxComboCount then combo + 1 else 1
  }

  /** Damage one hit of `data` deals at combo count `combo`. */
  function HitDamage(c: Config, data: AttackData, combo: int): (d: real)
    ensures !(c.enableComboSystem && combo > 1) ==>
              d == (if data.damage > 0.0 then data.damage else c.attackDamage)
    ensures c.enableComboSystem && combo > 1 ==>
              d == (if data.damage > 0.0 then data.damage else c.attackDamage) * data.comboDamageMultiplier
  {
    var base := if data.damage > 0.0 then data.damage else c.attackDamage;
    if c.enableComboSystem && combo > 1 then base * data.comboDamageMultiplier else base
  }

  /** Hits for the newly registered colliders that can take damage, in order. */
  function HitsFor(added: seq<ColliderId>, damageable: set<ColliderId>, damage: real): (r: seq<Hit>)
    ensures forall h :: h in r ==> h.target in added && h.target in damageable && h.damage == damage
    ensures forall x :: x in added && x in damageable ==> Hit(x, damage) in r
  {
    if added == [] then []
    else (if added[0] in damageable then [Hit(added[0], damage)] else [])
         + HitsFor(added[1..], damageable, damage)
  }

  /**
   * `ProcessHits`: each collider of one query that is neither registered
   * already nor the owner is hit (when damageable) and registered.
   * Returns the new registry and the hits dealt.
   */
  function ProcessHitsStep(registry: seq<ColliderId>, hits: seq<ColliderId>, owner: Option<ColliderId>,
                           damageable: set<ColliderId>, damage: real): (seq<ColliderId>, seq<Hit>)
    decreases |hits|
  {
    if hits == [] then (registry, [])
    else if hits[0] in registry || Some(hits[0]) == owner then
      ProcessHitsStep(registry, hits[1..], owner, damageable, damage)
    else
      var rest := ProcessHitsStep(registry + [hits[0]], hits[1..], owner, damageable, damage);
      (rest.0, (if hits[0] in damageable then [Hit(hits[0], damage)] else []) + rest.1)
  }

  /**
   * Within one query: the registry only grows; what is added comes from the
   * query, was not registered before and is never the owner; every
   * non-owner collider of the query ends up registered; the registry stays
   * free of duplicates; and exactly the added damageable colliders are hit.
   */
  lemma {:induction false} ProcessHitsSound(registry: seq<ColliderId>, hits: seq<ColliderId>, owner: Option<ColliderId>,
                                            damageable: set<ColliderId>, damage: real)
    decreases |hits|
    ensures var r := ProcessHitsStep(registry, hits, owner, damageable, damage);
            && registry <= r.0
            && r.1 == HitsFor(r.0[|registry|..], damageable, damage)
            && (forall x :: x in r.0[|registry|..] ==> x in hits && x !in registry && Some(x) != owner)
            && (forall k :: 0 <= k < |hits| && Some(hits[k]) != owner ==> hits[k] in r.0)
            && (NoDup(registry) ==> NoDup(r.0))
  {
    if hits == [] {
    } else if hits[0] in registry || Some(hits[0]) == owner {
      ProcessHitsSound(registry, hits[1..], owner, damageable, damage);
      var r := ProcessHitsStep(registry, hits, owner, damageable, damage);
      forall k | 0 <= k < |hits| && Some(hits[k]) != owner
        ensures hits[k] in r.0
      {
        if k > 0 { assert hits[k] == hits[1..][k - 1]; }
      }
    } else {
      var reg1 := registry + [hits[0]];
      ProcessHitsSound(reg1, hits[1..], owner, damageable, damage);
      var rest := ProcessHitsStep(reg1, hits[1..], owner, damageable, damage);
      var r := ProcessHitsStep(registry, hits, owner, damageable, damage);
      assert r.0 == rest.0;
      assert r.0[|registry|..] == [hits[0]] + rest.0[|reg1|..];
      assert r.0[|registry|..][1..] == rest.0[|reg1|..];
      forall k | 0 <= k < |hits| && Some(hits[k]) != owner
        ensures hits[k] in r.0
      {
        if k > 0 { assert hits[k] == hits[1..][k - 1]; } else { assert hits[0] == reg1[|registry|]; }
      }
      if NoDup(registry) {
        assert NoDup(reg1);
      }
    }
  }

  function TotalDuration(c: Config, data: AttackData): real
  {
    if data.duration > 0.0 then data.duration else c.attackDuration
  }

  predicate InHitbox(data: AttackData, attackTime: real, total: real)
    requires total > 0.0
  {
    data.hitboxStartTime <= attackTime / total <= data.hitboxEndTime
  }

  /**
   * One resumption of the swing coroutine with frame delta `dt`; `hits` is
   * what the hitbox query would return this frame.
   */
  function ResumeStep(c: Config, s: State, dt: real, hits: seq<ColliderId>, damageable: set<ColliderId>): (r: (State, seq<Hit>))
    requires dt >= 0.0
    requires s.swing.Swinging? ==> s.swing.attackTime >= 0.0
    ensures s.swing.NotSwinging? ==> r == (s, [])
    ensures s.swing.Swinging? ==>
              (r.0.swing.NotSwinging? <==> s.swing.attackTime >= TotalDuration(c, s.swing.data))
    ensures r.0.swing.NotSwinging? && s.swing.Swinging? ==> !r.0.isAttacking && r.1 == []
    ensures r.0.swing.Swinging? ==>
              r.0.swing.data == s.swing.data && r.0.swing.attackTime == s.swing.attackTime + dt
              && r.0.isAttacking == s.isAttacking
    ensures r.1 != [] ==> (s.swing.Swinging? && r.0.swing.Swinging?
              && InHitbox(s.swing.data, r.0.swing.attackTime, TotalDuration(c, s.swing.data)))
    ensures s.swing.Swinging? && r.0.swing.Swinging?
              && InHitbox(s.swing.data, r.0.swing.attackTime, TotalDuration(c, s.swing.data)) ==>
              (r.0.hitTargets, r.1)
              == ProcessHitsStep(s.hitTargets, hits, s.owner, damageable, HitDamage(c, s.swing.data, s.currentCombo))
    ensures !(s.swing.Swinging? && r.0.swing.Swinging?
              && InHitbox(s.swing.data, r.0.swing.attackTime, TotalDuration(c, s.swing.data))) ==>
              r.0.hitTargets == s.hitTargets && r.1 == []
    ensures s.hitTargets <= r.0.hitTargets
    ensures forall x :: x in r.0.hitTargets ==> x in s.hitTargets || x in hits
    ensures forall h :: h in r.1 ==> h.target !in s.hitTargets && h.target in r.0.hitTargets && Some(h.target) != s.owner
    ensures r.0.currentCombo == s.currentCombo && r.0.lastAttackTime == s.lastAttackTime
    ensures Inv(c, s) ==> Inv(c, r.0)
  {
    match s.swing
    case NotSwinging => (s, [])
    case Swinging(data, t) =>
      var total := TotalDuration(c, data);
      if t < total then
        var t' := t + dt;
        var s1 := s.(swing := Swinging(data, t'));
        if InHitbox(data, t', total) then
          var damage := HitDamage(c, data, s.currentCombo);
          var p := ProcessHitsStep(s.hitTargets, hits, s.owner, damageable, damage);
          ProcessHitsSound(s.hitTargets, hits, s.owner, damageable, damage);
          (s1.(hitTargets := p.0), p.1)
        else (s1, [])
      else (s.(isAttacking := false, swing := NotSwinging), [])
  }

  /** `StartAttack`: the state right before the coroutine first runs. */
  function StartAttack(c: Config, s: State, now: real, data: AttackData): (r: State)
    ensures r.isAttacking && r.lastAttackTime == now && r.hitTargets == []
    ensures c.enableComboSystem ==>
              r.currentCombo == NextCombo(c, s.currentCombo, s.comboTimer, now) && r.comboTimer == now
    ensures !c.enableComboSystem ==> r.currentCombo == s.currentCombo && r.comboTimer == s.comboTimer
    ensures s.owner.Some? ==> r.swing == Swinging(data, 0.0)
    ensures s.owner.None? ==> r.swing == s.swing
    ensures r.variations == s.variations && r.owner == s.owner
  {
    var combo := if c.enableComboSystem then NextCombo(c, s.currentCombo, s.comboTimer, now) else s.currentCombo;
    var timer := if c.enableComboSystem then now else s.comboTimer;
    s.(isAttacking := true, lastAttackTime := now, hitTargets := [],
       currentCombo := combo, comboTimer := timer,
       swing := if s.owner.Some? then Swinging(data, 0.0) else s.swing)
  }

  /**
   * `Attack`: a no-op unless `CanAttack` holds and a variation exists;
   * otherwise starts a swing with the variation chosen from the combo count
   * BEFORE this swing's combo update, and runs the coroutine's first step
   * in the same frame (as `StartCoroutine` does) when an owner is set.
   */
  function AttackStep(c: Config, s: State, now: real, dt: real, hits: seq<ColliderId>,
                  damageable: set<ColliderId>): (r: (State, seq<Hit>))
    requires dt >= 0.0
    ensures !CanAttack(c, s, now) || |s.variations| == 0 ==> r == (s, [])
    ensures CanAttack(c, s, now) && |s.variations| > 0 ==>
              && r.0.lastAttackTime == now
              && (c.enableComboSystem ==>
                    r.0.currentCombo == NextCombo(c, s.currentCombo, s.comboTimer, now) && r.0.comboTimer == now)
              && (!c.enableComboSystem ==> r.0.currentCombo == s.currentCombo && r.0.comboTimer == s.comboTimer)
              && (forall x :: x in r.0.hitTargets ==> x in hits)
              && (s.owner.Some? ==> r.0.swing.Swinging? || TotalDuration(c, CurrentAttackData(c, s).value) <= 0.0)
              && (s.owner.Some? && r.0.swing.Swinging? ==>
                    r.0.swing.data == CurrentAttackData(c, s).value && r.0.swing.attackTime == dt)
              && (s.owner.None? ==> r.0.isAttacking && r.1 == [])
              && (forall h :: h in r.1 ==> Some(h.target) != s.owner)
    ensures Inv(c, s) ==> Inv(c, r.0)
  {
    if !CanAttack(c, s, now) then (s, [])
    else
      match CurrentAttackData(c, s)
      case None => (s, [])
      case Some(data) =>
        var s1 := StartAttack(c, s, now, data);
        if s1.owner.Some? then ResumeStep(c, s1, dt, hits, damageable) else (s1, [])
  }

  /** `Update` (`UpdateComboTimer`): the combo lapses once the window has passed. */
  function UpdateStep(c: Config, s: State, now: real): (r: State)
    ensures c.enableComboSystem && now > s.comboTimer + c.comboWindow ==> r.currentCombo == 0
    ensures !(c.enableComboSystem && now > s.comboTimer + c.comboWindow) ==> r == s
    ensures r.(currentCombo := s.currentCombo) == s
    ensures Inv(c, s) ==> Inv(c, r)
  {
    if c.enableComboSystem && now > s.comboTimer + c.comboWindow then s.(currentCombo := 0) else s
  }

  function ResetComboStep(s: State): (r: State)
    ensures r.currentCombo == 0 && r.(currentCombo := s.currentCombo) == s
  {
    s.(currentCombo := 0)
  }

  /**
   * Within one swing a collider is damaged at most once: hits of a later
   * resumption never repeat a target hit earlier in the same swing.
   */
  lemma {:induction false} NoRepeatHitWithinSwing(c: Config, s: State, dt1: real, dt2: real,
                                                  hits1: seq<ColliderId>, hits2: seq<ColliderId>,
                                                  dmg: set<ColliderId>)
    requires dt1 >= 0.0 && dt2 >= 0.0 && Inv(c, s)
    ensures var r1 := ResumeStep(c, s, dt1, hits1, dmg);
            var r2 := ResumeStep(c, r1.0, dt2, hits2, dmg);
            forall h1, h2 :: h1 in r1.1 && h2 in r2.1 ==> h1.target != h2.target
  {
  }

  /**
   * A swing damages what its hitbox touches: on a frame inside the hitbox
   * window, every queried collider that can take damage and is neither the
   * owner nor already hit in this swing takes `HitDamage` at the current
   * combo count, and nothing else is hit.
   */
  lemma {:induction false} SwingDamagesWhatItTouches(c: Config, s: State, dt: real, hits: seq<ColliderId>,
                                                     damageable: set<ColliderId>)
    requires dt >= 0.0 && Inv(c, s) && s.swing.Swinging?
    requires s.swing.attackTime < TotalDuration(c, s.swing.data)
    requires InHitbox(s.swing.data, s.swing.attackTime + dt, TotalDuration(c, s.swing.data))
    ensures var r := ResumeStep(c, s, dt, hits, damageable);
            var d := HitDamage(c, s.swing.data, s.currentCombo);
            && (forall x :: x in hits && x in damageable && x !in s.hitTargets && Some(x) != s.owner ==> Hit(x, d) in r.1)
            && (forall h :: h in r.1 ==> h.target in hits && h.target in damageable && h.damage == d)
  {
    var r := ResumeStep(c, s, dt, hits, damageable);
    var d := HitDamage(c, s.swing.data, s.currentCombo);
    assert (r.0.hitTargets, r.1) == ProcessHitsStep(s.hitTargets, hits, s.owner, damageable, d);
    ProcessHitsSound(s.hitTargets, hits, s.owner, damageable, d);
    var added := r.0.hitTargets[|s.hitTargets|..];
    forall x | x in hits && x in damageable && x !in s.hitTargets && Some(x) != s.owner
      ensures Hit(x, d) in r.1
    {
      var k :| 0 <= k < |hits| && hits[k] == x;
      assert x in r.0.hitTargets;
      var j :| 0 <= j < |r.0.hitTargets| && r.0.hitTargets[j] == x;
      assert added[j - |s.hitTargets|] == x;
    }
  }

  /**
   * With combos on, the first swing of a combo deals the variation's own
   * damage (or the base damage when that is not positive), and every later
   * swing of the combo deals that amount scaled by the combo multiplier.
   */
  lemma ComboBonusFromSecondSwing(c: Config, data: AttackData, combo: int)
    requires c.enableComboSystem
    ensures HitDamage(c, data, 1) == (if data.damage > 0.0 then data.damage else c.attackDamage)
    ensures combo >= 2 ==> HitDamage(c, data, combo) == HitDamage(c, data, 1) * data.comboDamageMultiplier
  {
  }

  /** Three swings chained inside the window with a cap of 3 give combo counts 1, 2, 3 and then 1 again. */
  lemma ComboWrapsAtCap(c: Config, t: real)
    requires c.enableComboSystem && c.maxComboCount == 3 && c.comboWindow >= 0.0
    ensures NextCombo(c, 0, t, t) == 1
    ensures NextCombo(c, 1, t, t) == 2 && NextCombo(c, 2, t, t) == 3
    ensures NextCombo(c, 3, t, t) == 1
    ensures NextCombo(c, 2, t, t + c.comboWindow + 1.0) == 1
  {
  }

  /**
   * Because the variation is read before the combo increments, the first
   * two swings of a fresh combo both use the first variation.
   */
  lemma {:induction false} FirstTwoSwingsShareVariation(c: Config, s: State, t1: real)
    requires c.enableComboSystem && c.maxComboCount >= 2 && |s.variations| >= 2
    requires s.currentCombo == 0 && s.owner.None? && CanAttack(c, s, t1)
    ensures var r1 := AttackStep(c, s, t1, 0.0, [], {}).0;
            r1.currentCombo == 1 && CurrentAttackData(c, r1) == Some(s.variations[0])
  {
  }

  /** The component, with the fields the source keeps. */
  class MeleeAttackSystem {
    const cfg: Config
    var attackVariations: seq<AttackData>
    var owner: Option<ColliderId>
    var isAttacking: bool
    var lastAttackTime: real
    var currentCombo: int
    var comboTimer: real
    var hitTargets: seq<ColliderId>
    /** The running `ExecuteAttack` coroutine's frame, if any. */
    var swing: Swing

    function Model(): State
      reads this
    {
      State(attackVariations, owner, isAttacking, lastAttackTime, currentCombo, comboTimer, hitTargets, swing)
    }

    ghost predicate Valid()
      reads this
    {
      Inv(cfg, Model())
    }

    constructor (config: Config, variations: seq<AttackData>)
      ensures cfg == config && Model() == Init(config, variations) && Valid()
    {
      cfg := config;
      attackVariations := variations;
      owner := None;
      isAttacking := false;
      lastAttackTime := 0.0;
      currentCombo := 0;
      comboTimer := 0.0;
      hitTargets := [];
      swing := NotSwinging;
    }

    method Initialize(ownerId: ColliderId)
      requires Valid() && ownerId !in hitTargets
      modifies this
      ensures Model() == InitializeStep(cfg, old(Model()), ownerId) && Valid()
    {
      owner := Some(ownerId);
      if |attackVariations| == 0 {
        attackVariations := [DefaultAttack(cfg)];
      }
    }

    method Update(now: real)
      requires Valid()
      modifies this
      ensures Model() == UpdateStep(cfg, old(Model()), now) && Valid()
    {
      if cfg.enableComboSystem && now > comboTimer + cfg.comboWindow {
        currentCombo := 0;
      }
    }

    method ResetCombo()
      requires Valid()
      modifies this
      ensures Model() == ResetComboStep(old(Model())) && Valid()
    {
      currentCombo := 0;
    }

    /** The `ProcessHits` loop over one query result. */
    method ProcessHits(hits: seq<ColliderId>, damageable: set<ColliderId>, damage: real) returns (dealt: seq<Hit>)
      modifies this`hitTargets
      ensures (hitTargets, dealt) == ProcessHitsStep(old(hitTargets), hits, owner, damageable, damage)
    {
      ghost var want := ProcessHitsStep(hitTargets, hits, owner, damageable, damage);
      dealt := [];
      var i := 0;
      while i < |hits|
        invariant 0 <= i <= |hits|
        invariant ProcessHitsStep(hitTargets, hits[i..], owner, damageable, damage).0 == want.0
        invariant dealt + ProcessHitsStep(hitTargets, hits[i..], owner, damageable, damage).1 == want.1
      {
        var hit := hits[i];
        assert hits[i..][1..] == hits[i + 1..];
        if hit in hitTargets || Some(hit) == owner {
          i := i + 1;
          continue;
        }
        if hit in damageable {
          dealt := dealt + [Hit(hit, damage)];
        }
        hitTargets := hitTargets + [hit];
        i := i + 1;
      }
      assert hits[i..] == [];
      assert dealt + [] == dealt;
    }

    /** One resumption of the `ExecuteAttack` coroutine. */
    method ResumeSwing(dt: real, hits: seq<ColliderId>, damageable: set<ColliderId>) returns (dealt: seq<Hit>)
      requires Valid() && dt >= 0.0
      modifies this
      ensures (Model(), dealt) == ResumeStep(cfg, old(Model()), dt, hits, damageable) && Valid()
    {
      dealt := [];
      if swing.NotSwinging? {
        return;
      }
      var data := swing.data;
      var total := TotalDuration(cfg, data);
      if swing.attackTime < total {
        var attackTime := swing.attackTime + dt;
        swing := Swinging(data, attackTime);
        if data.hitboxStartTime <= attackTime / total <= data.hitboxEndTime {
          dealt := ProcessHits(hits, damageable, HitDamage(cfg, data, currentCombo));
        }
      } else {
        isAttacking := false;
        swing := NotSwinging;
      }
    }

    method Attack(now: real, dt: real, hits: seq<ColliderId>, damageable: set<ColliderId>) returns (dealt: seq<Hit>)
      requires Valid() && dt >= 0.0
      modifies this
      ensures (Model(), dealt) == AttackStep(cfg, old(Model()), now, dt, hits, damageable) && Valid()
    {
      dealt := [];
      if !CanAttack(cfg, Model(), now) {
        return;
      }
      var data := CurrentAttackData(cfg, Model());
      if data.None? {
        return;
      }
      // StartAttack
      isAttacking := true;
      lastAttackTime := now;
      hitTargets := [];
      if cfg.enableComboSystem {
        if now <= comboTimer + cfg.comboWindow && currentCombo < cfg.maxComboCount {
          currentCombo := currentCombo + 1;
        } else {
          currentCombo := 1;
        }
        comboTimer := now;
      }
      if owner.Some? {
        swing := Swinging(data.value, 0.0);
        dealt := ResumeSwing(dt, hits, damageable);
      }
    }
  }
}
