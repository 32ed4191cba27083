/**
 * The contact-damage enemy (namespace ElderCloak.Enemy, `EnemyDamager`):
 * trigger enter, trigger stay and collision all go through one gate that
 * deals `contactDamage` to a live damageable on the player layers, at most
 * once per `damageCooldown`. The touching collider is described by its
 * layer and by what its `IDamageable` component reports; the damage itself
 * and the knockback impulse are the effects outside this component.
 */
module ContactDamage {

  import opened Common

  /** A Unity layer index. */
  type Layer = l: int | 0 <= l < 32

  datatype Config = Config(contactDamage: int, damageCooldown: real, playerLayerMask: bv32)

  const Defaults := Config(20, 1.0, 1)

  /** The collider that touched the enemy: its layer, whether it has an `IDamageable`, and that component's `IsAlive`. */
  datatype Contact = Contact(layer: Layer, damageable: bool, isAlive: bool)

  /** `(1 << layer) & playerLayerMask` is non-zero. */
  predicate OnPlayerLayer(mask: bv32, layer: Layer)
  {
    (1 as bv32 << layer) & mask != 0
  }

  /**
   * `TryDamagePlayer`: damage is dealt only once `damageCooldown` has passed
   * since the last damage, to a collider on a player layer whose
   * damageable is alive; `lastDamageTime` moves to `now` exactly then.
   * Results: the new `lastDamageTime`, whether damage was dealt.
   */
  function TryDamageStep(c: Config, lastDamageTime: real, now: real, t: Contact): (r: (real, bool))
    ensures r.1 <==> now - lastDamageTime >= c.damageCooldown && OnPlayerLayer(c.playerLayerMask, t.layer)
                     && t.damageable && t.isAlive
    ensures r.1 ==> r.0 == now
    ensures !r.1 ==> r.0 == lastDamageTime
  {
    if now - lastDamageTime < c.damageCooldown then (lastDamageTime, false)
    else if !OnPlayerLayer(c.playerLayerMask, t.layer) then (lastDamageTime, false)
    else if t.damageable && t.isAlive then (now, true)
    else (lastDamageTime, false)
  }

  /** A collider touching the enemy at time `now`, through any of the three callbacks. */
  datatype Touch = Touch(now: real, contact: Contact)

  /** Runs the gate over a sequence of touches: the final `lastDamageTime` and the times damage was dealt. */
  function Run(c: Config, lastDamageTime: real, touches: seq<Touch>): (real, seq<real>)
    decreases |touches|
  {
    if touches == [] then (lastDamageTime, [])
    else
      var (l1, dealt) := TryDamageStep(c, lastDamageTime, touches[0].now, touches[0].contact);
      var (l2, times) := Run(c, l1, touches[1..]);
      (l2, (if dealt then [touches[0].now] else []) + times)
  }


  /**
   * Whatever mix of enter, stay and collision events arrives, damage is
   * dealt at most once per cooldown window: every damage comes at least
   * `damageCooldown` after the previous one, and `lastDamageTime` ends at
   * the last damage dealt.
   */
  lemma {:induction false} OneDamagePerWindow(c: Config, lastDamageTime: real, touches: seq<Touch>)
    decreases |touches|
    ensures Spaced(lastDamageTime, Run(c, lastDamageTime, touches).1, c.damageCooldown)
    ensures Run(c, lastDamageTime, touches).0 == LastOr(lastDamageTime, Run(c, lastDamageTime, touches).1)
  {
    if touches != [] {
      var step := TryDamageStep(c, lastDamageTime, touches[0].now, touches[0].contact);
      var rest := Run(c, step.0, touches[1..]);
      OneDamagePerWindow(c, step.0, touches[1..]);
      assert Run(c, lastDamageTime, touches) == (rest.0, (if step.1 then [touches[0].now] else []) + rest.1);
      if step.1 {
        SpacedCons(lastDamageTime, touches[0].now, rest.1, c.damageCooldown);
        LastOrCons(lastDamageTime, touches[0].now, rest.1);
      } else {
        assert [] + rest.1 == rest.1;
      }
    }
  }

  /** With the default mask (layer 0 only) a collider on any other layer is never damaged. */
  lemma DefaultMaskIsLayerZero(layer: Layer)
    ensures OnPlayerLayer(Defaults.playerLayerMask, layer) <==> layer == 0
  {
    if layer != 0 {
      assert (1 as bv32 << layer) & 1 == 0;
    }
  }

  class EnemyDamager {
    const cfg: Config
    var lastDamageTime: real

    constructor (config: Config)
      ensures cfg == config && lastDamageTime == -1.0
    {
      cfg := config;
      lastDamageTime := -1.0;
    }

    method OnTriggerEnter(now: real, other: Contact) returns (dealt: bool)
      modifies this
      ensures (lastDamageTime, dealt) == TryDamageStep(cfg, old(lastDamageTime), now, other)
    {
      dealt := TryDamagePlayer(now, other);
    }

    method OnTriggerStay(now: real, other: Contact) returns (dealt: bool)
      modifies this
      ensures (lastDamageTime, dealt) == TryDamageStep(cfg, old(lastDamageTime), now, other)
    {
      dealt := TryDamagePlayer(now, other);
    }

    method OnCollisionEnter(now: real, other: Contact) returns (dealt: bool)
      modifies this
      ensures (lastDamageTime, dealt) == TryDamageStep(cfg, old(lastDamageTime), now, other)
    {
      dealt := TryDamagePlayer(now, other);
    }

    /** Returns whether `contactDamage` was dealt to the collider's damageable. */
    method TryDamagePlayer(now: real, other: Contact) returns (dealt: bool)
      modifies this
      ensures (lastDamageTime, dealt) == TryDamageStep(cfg, old(lastDamageTime), now, other)
    {
      dealt := false;
      if now - lastDamageTime < cfg.damageCooldown {
        return;
      }
      if !OnPlayerLayer(cfg.playerLayerMask, other.layer) {
        return;
      }
      if other.damageable && other.isAlive {
        lastDamageTime := now;
        dealt := true;
      }
    }
  }
}
