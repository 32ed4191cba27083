/**
 * The healing-item counter (`HealthItemSystem`): `Start` stocks
 * `initialItemCount` items, and a performed heal input spends one to heal
 * `healPercentage` percent of the player's maximum health, refused when
 * no item is left, the health component is missing or health is already
 * full. The heal is reported as the percentage requested, since the
 * `HealPercentage` it calls is not part of this model; the counter text is
 * display only.
 */
module HealthItems {

  import opened Common

  datatype Config = Config(initialItemCount: int, healPercentage: real)

  const Defaults := Config(3, 30.0)

  /**
   * `UseItem`: refused, with the count unchanged, when no item is left, the
   * health component is missing or health is full; otherwise one item is
   * spent and `healPercentage` is healed.
   * Results: the new count, the percentage healed if any.
   */
  function UseItemStep(c: Config, count: int, hasHealth: bool, atMaxHealth: bool): (r: (int, Option<real>))
    ensures r.1.Some? <==> count > 0 && hasHealth && !atMaxHealth
    ensures r.1.Some? ==> r.0 == count - 1 && r.1.value == c.healPercentage
    ensures r.1.None? ==> r.0 == count
    ensures count >= 0 ==> r.0 >= 0
  {
    if count <= 0 || !hasHealth || atMaxHealth then (count, None)
    else (count - 1, Some(c.healPercentage))
  }

  /** `OnHeal`: only the performed phase uses an item. */
  function OnHealStep(c: Config, count: int, performed: bool, hasHealth: bool, atMaxHealth: bool)
    : (r: (int, Option<real>))
    ensures performed ==> r == UseItemStep(c, count, hasHealth, atMaxHealth)
    ensures !performed ==> r == (count, None)
  {
    if performed then UseItemStep(c, count, hasHealth, atMaxHealth) else (count, None)
  }

  /** One heal input: its phase and whether health was full at the time. */
  datatype Press = Press(performed: bool, atMaxHealth: bool)

  /** Applies a sequence of heal inputs, counting the heals. */
  function Run(c: Config, count: int, hasHealth: bool, presses: seq<Press>): (int, nat)
    decreases |presses|
  {
    if presses == [] then (count, 0)
    else
      var (n1, healed) := OnHealStep(c, count, presses[0].performed, hasHealth, presses[0].atMaxHealth);
      var (n2, heals) := Run(c, n1, hasHealth, presses[1..]);
      (n2, heals + if healed.Some? then 1 else 0)
  }

  /**
   * Whatever the inputs, every heal spends exactly one item: the heals
   * plus the items left add up to the starting stock, so the count never
   * goes negative and at most that many heals happen.
   */
  lemma {:induction false} HealsSpendItems(c: Config, count: int, hasHealth: bool, presses: seq<Press>)
    requires count >= 0
    decreases |presses|
    ensures Run(c, count, hasHealth, presses).0 >= 0
    ensures Run(c, count, hasHealth, presses).0 + Run(c, count, hasHealth, presses).1 == count
  {
    if presses != [] {
      var (n1, _) := OnHealStep(c, count, presses[0].performed, hasHealth, presses[0].atMaxHealth);
      HealsSpendItems(c, n1, hasHealth, presses[1..]);
    }
  }

  class HealthItemSystem {
    const cfg: Config
    const hasPlayerHealth: bool
    var currentItemCount: int

    /** `Awake`: the health component, once looked up, is either there or not. */
    constructor (config: Config, healthFound: bool)
      ensures cfg == config && hasPlayerHealth == healthFound && currentItemCount == 0
    {
      cfg := config;
      hasPlayerHealth := healthFound;
      currentItemCount := 0;
    }

    /** `Start`: the stock is set to `initialItemCount`. */
    method Start()
      modifies this
      ensures currentItemCount == cfg.initialItemCount
    {
      currentItemCount := cfg.initialItemCount;
    }

    /** Returns the percentage healed, if an item was used. */
    method OnHeal(performed: bool, atMaxHealth: bool) returns (healed: Option<real>)
      modifies this
      ensures (currentItemCount, healed) == OnHealStep(cfg, old(currentItemCount), performed, hasPlayerHealth, atMaxHealth)
    {
      healed := None;
      if performed {
        healed := UseItem(atMaxHealth);
      }
    }

    method UseItem(atMaxHealth: bool) returns (healed: Option<real>)
      modifies this
      ensures (currentItemCount, healed) == UseItemStep(cfg, old(currentItemCount), hasPlayerHealth, atMaxHealth)
    {
      if currentItemCount <= 0 || !hasPlayerHealth || atMaxHealth {
        return None;
      }
      currentItemCount := currentItemCount - 1;
      healed := Some(cfg.healPercentage);
    }
  }
}
