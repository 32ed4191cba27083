/**
 * The earlier skill bar controller (Player/`SkillRegenSystem`): the same
 * bar rules as the Systems version without the shadow-dash flag and
 * without `FillToMax`. The bar component is optional.
 */
module PlayerSkillRegen {

  import opened Common
  import SkillBar
  import SkillRegen

  datatype Config = Config(maxFillAmount: real, fillPerHit: real, fillDecayRate: real)

  const Defaults := Config(100.0, 25.0, 5.0)

  /** `IsFull`: false when no bar is attached. */
  function IsFull(b: Option<SkillBar.Bar>): (r: bool)
    ensures r <==> b.Some? && SkillBar.IsFull(b.value)
  {
    b.Some? && SkillBar.IsFull(b.value)
  }

  /** What one frame of `dt` seconds takes off the bar. */
  function DecayAmount(c: Config, dt: real): real
  {
    c.fillDecayRate * dt
  }

  /** Whether `Update` decays the bar: it exists, is not full and holds something. */
  predicate Decays(b: Option<SkillBar.Bar>)
  {
    b.Some? && !SkillBar.IsFull(b.value) && b.value.currentFill > 0.0
  }

  /** `Start`: an attached bar gets `maxFillAmount` as its maximum. */
  function StartStep(c: Config, b: Option<SkillBar.Bar>): (r: Option<SkillBar.Bar>)
    ensures b.None? ==> r.None?
    ensures b.Some? ==> r == Some(SkillBar.InitializeStep(b.value, c.maxFillAmount))
  {
    if b.None? then None else Some(SkillBar.InitializeStep(b.value, c.maxFillAmount))
  }

  /**
   * `Update`: `fillDecayRate * dt` is taken off only a bar that exists, is
   * not full and holds something; a full bar never decays.
   */
  function UpdateStep(c: Config, b: Option<SkillBar.Bar>, dt: real): (r: Option<SkillBar.Bar>)
    ensures !Decays(b) ==> r == b
    ensures Decays(b) ==> r == Some(SkillBar.AddFillStep(b.value, -DecayAmount(c, dt)))
    ensures IsFull(b) ==> r == b
  {
    if Decays(b)
    then Some(SkillBar.AddFillStep(b.value, -DecayAmount(c, dt)))
    else b
  }

  /** `AddFill`: a hit adds `fillPerHit` through the bar, which clamps it. */
  function AddFillStep(c: Config, b: Option<SkillBar.Bar>): (r: Option<SkillBar.Bar>)
    ensures b.None? ==> r.None?
    ensures b.Some? ==> r == Some(SkillBar.AddFillStep(b.value, c.fillPerHit))
  {
    if b.None? then None else Some(SkillBar.AddFillStep(b.value, c.fillPerHit))
  }

  /** `Use`: an attached bar is emptied. */
  function UseStep(b: Option<SkillBar.Bar>): (r: Option<SkillBar.Bar>)
    ensures b.None? ==> r.None?
    ensures b.Some? ==> r == Some(SkillBar.UseStep(b.value))
  {
    if b.None? then None else Some(SkillBar.UseStep(b.value))
  }

  /** The same settings in the Systems version. */
  function AsSystems(c: Config): SkillRegen.Config
  {
    SkillRegen.Config(c.maxFillAmount, c.fillPerHit, c.fillDecayRate)
  }

  /**
   * This draft's bar rules are the Systems version's: with the same
   * settings, start, decay, hit, use and the fullness test agree.
   */
  lemma SameBarRulesAsSystems(c: Config, b: Option<SkillBar.Bar>, dt: real)
    ensures StartStep(c, b) == SkillRegen.StartStep(AsSystems(c), b)
    ensures UpdateStep(c, b, dt) == SkillRegen.DecayStep(AsSystems(c), b, dt)
    ensures AddFillStep(c, b) == SkillRegen.AddFillStep(AsSystems(c), b)
    ensures UseStep(b) == SkillRegen.UseStep(b)
    ensures IsFull(b) == SkillRegen.IsFull(b)
  {
    assert DecayAmount(c, dt) == SkillRegen.DecayAmount(AsSystems(c), dt);
  }

  class SkillRegenSystem {
    const cfg: Config
    const skillRegenUI: SkillBar.SkillRegenUI?

    function Bar(): Option<SkillBar.Bar>
      reads skillRegenUI
    {
      if skillRegenUI == null then None else Some(skillRegenUI.Model())
    }

    /** `Start` included. */
    constructor (config: Config, ui: SkillBar.SkillRegenUI?)
      modifies ui
      ensures cfg == config && skillRegenUI == ui
      ensures Bar() == StartStep(config, old(if ui == null then None else Some(ui.Model())))
    {
      cfg := config;
      skillRegenUI := ui;
      new;
      if ui != null {
        ui.Initialize(config.maxFillAmount);
      }
    }

    method Update(dt: real)
      modifies skillRegenUI
      ensures Bar() == UpdateStep(cfg, old(Bar()), dt)
    {
      if skillRegenUI != null && !(skillRegenUI.currentFill >= skillRegenUI.maxFill) && skillRegenUI.currentFill > 0.0 {
        skillRegenUI.AddFill(-DecayAmount(cfg, dt));
      }
    }

    method AddFill()
      modifies skillRegenUI
      ensures Bar() == AddFillStep(cfg, old(Bar()))
    {
      if skillRegenUI != null {
        skillRegenUI.AddFill(cfg.fillPerHit);
      }
    }

    /** `IsFull`. */
    function Full(): bool
      reads skillRegenUI
    {
      IsFull(Bar())
    }

    method Use()
      modifies skillRegenUI
      ensures Bar() == UseStep(old(Bar()))
    {
      if skillRegenUI != null {
        skillRegenUI.Use();
      }
    }
  }
}
