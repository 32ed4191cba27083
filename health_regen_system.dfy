/**
 * The heal-from-bar controller (`HealthRegenSystem`): hits fill the health
 * bar by `fillPerHit`, and a performed heal input with a full bar heals the
 * player by `healAmount` and empties the bar. The bar component is optional
 * (`null` on the class); whether the player's health component was found
 * is a flag. The heal itself is reported as the amount requested, since
 * the `Heal` it calls is not part of this model.
 */
module HealthRegen {

  import opened Common
  import HealthBar

  datatype Config = Config(maxFillAmount: real, fillPerHit: real, healAmount: int)

  const Defaults := Config(100.0, 25.0, 1)

  /** `Start`: an attached bar gets `maxFillAmount` as its maximum. */
  function StartStep(c: Config, b: Option<HealthBar.Bar>): (r: Option<HealthBar.Bar>)
    ensures b.None? ==> r.None?
    ensures b.Some? ==> r == Some(HealthBar.InitializeStep(b.value, c.maxFillAmount))
  {
    if b.None? then None else Some(HealthBar.InitializeStep(b.value, c.maxFillAmount))
  }

  /**
   * `OnHeal`: only the performed phase acts, and only with both the bar
   * and the health component present; then a full bar heals `healAmount`
   * and is emptied, and a bar that is not full changes nothing.
   * Results: the bar, the amount healed if any.
   */
  function OnHealStep(c: Config, performed: bool, b: Option<HealthBar.Bar>, hasHealth: bool)
    : (r: (Option<HealthBar.Bar>, Option<int>))
    ensures r.1.Some? <==> performed && hasHealth && b.Some? && HealthBar.IsFull(b.value)
    ensures r.1.Some? ==> r.1.value == c.healAmount && r.0 == Some(HealthBar.UseStep(b.value))
    ensures r.1.None? ==> r.0 == b
  {
    if !performed || b.None? || !hasHealth then (b, None)
    else if HealthBar.IsFull(b.value) then (Some(HealthBar.UseStep(b.value)), Some(c.healAmount))
    else (b, None)
  }

  /** `AddFill`: a hit adds `fillPerHit` through the bar. */
  function AddFillStep(c: Config, b: Option<HealthBar.Bar>): (r: Option<HealthBar.Bar>)
    ensures b.None? ==> r.None?
    ensures b.Some? ==> r == Some(HealthBar.AddFillStep(b.value, c.fillPerHit))
  {
    if b.None? then None else Some(HealthBar.AddFillStep(b.value, c.fillPerHit))
  }

  /** A heal spends the whole bar: straight after one, a second heal does nothing. */
  lemma NoSecondHealWithoutRefill(c: Config, b: Option<HealthBar.Bar>, hasHealth: bool)
    requires OnHealStep(c, true, b, hasHealth).1.Some? && b.value.maxFill > 0.0
    ensures var b1 := OnHealStep(c, true, b, hasHealth).0;
            OnHealStep(c, true, b1, hasHealth) == (b1, None)
  {
  }

  /** `n` hits in a row. */
  function Hits(c: Config, b: Option<HealthBar.Bar>, n: nat): (r: Option<HealthBar.Bar>)
    decreases n
  {
    if n == 0 then b else Hits(c, AddFillStep(c, b), n - 1)
  }

  /**
   * From an empty bar of size `maxFillAmount`, as `Start` leaves it,
   * `n` hits with `n * fillPerHit >= maxFillAmount` fill the bar, so the
   * next heal input heals.
   */
  lemma EnoughHitsEnableHeal(c: Config, n: nat)
    requires c.maxFillAmount >= 0.0 && c.fillPerHit > 0.0 && n as real * c.fillPerHit >= c.maxFillAmount
    ensures var b := Hits(c, Some(HealthBar.Bar(0.0, c.maxFillAmount)), n);
            OnHealStep(c, true, b, true).1 == Some(c.healAmount)
  {
    var b0 := HealthBar.Bar(0.0, c.maxFillAmount);
    HitsAreAddMany(c, b0, n);
    HealthBar.AddManyFills(b0, c.fillPerHit, n);
  }

  lemma {:induction false} HitsAreAddMany(c: Config, b: HealthBar.Bar, n: nat)
    decreases n
    ensures Hits(c, Some(b), n) == Some(HealthBar.AddMany(b, c.fillPerHit, n))
  {
    if n > 0 {
      HitsAreAddMany(c, HealthBar.AddFillStep(b, c.fillPerHit), n - 1);
    }
  }

  class HealthRegenSystem {
    const cfg: Config
    const healthRegenUI: HealthBar.HealthRegenUI?
    const hasPlayerHealth: bool

    function Bar(): Option<HealthBar.Bar>
      reads healthRegenUI
    {
      if healthRegenUI == null then None else Some(healthRegenUI.Model())
    }

    /** `Awake` and `Start`: the health component, once looked up, is either there or not. */
    constructor (config: Config, ui: HealthBar.HealthRegenUI?, healthFound: bool)
      modifies ui
      ensures cfg == config && healthRegenUI == ui && hasPlayerHealth == healthFound
      ensures Bar() == StartStep(config, old(if ui == null then None else Some(ui.Model())))
    {
      cfg := config;
      healthRegenUI := ui;
      hasPlayerHealth := healthFound;
      new;
      if ui != null {
        ui.Initialize(config.maxFillAmount);
      }
    }

    /** Returns the amount the player was healed by, if the heal happened. */
    method OnHeal(performed: bool) returns (healed: Option<int>)
      modifies healthRegenUI
      ensures (Bar(), healed) == OnHealStep(cfg, performed, old(Bar()), hasPlayerHealth)
    {
      healed := None;
      if performed {
        if healthRegenUI == null {
          return;
        }
        if !hasPlayerHealth {
          return;
        }
        if healthRegenUI.Full() {
          healed := Some(cfg.healAmount);
          healthRegenUI.Use();
        }
      }
    }

    method AddFill()
      modifies healthRegenUI
      ensures Bar() == AddFillStep(cfg, old(Bar()))
    {
      if healthRegenUI != null {
        healthRegenUI.AddFill(cfg.fillPerHit);
      }
    }
  }
}
