/**
 * The skill bar controller (Systems/`SkillRegenSystem`): hits add
 * `fillPerHit`, the bar decays by `fillDecayRate` per second while it is
 * neither full nor empty, a full bar enables the shadow dash, and a parry
 * fills it to the top. The bar component is optional (`Option`, `null` on
 * the class); the movement component's `canShadowDash` flag is kept here,
 * together with whether a movement component was found.
 */
module SkillRegen {

  import opened Common
  import SkillBar

  datatype Config = Config(maxFillAmount: real, fillPerHit: real, fillDecayRate: real)

  const Defaults := Config(100.0, 25.0, 5.0)

  /** `IsFull`: false when no bar is attached. */
  function IsFull(b: Option<SkillBar.Bar>): (r: bool)
    ensures r <==> b.Some? && SkillBar.IsFull(b.value)
    ensures b.None? ==> !r
  {
    match b
    case None => false
    case Some(bar) => SkillBar.IsFull(bar)
  }

  /** What one frame of `dt` seconds takes off the bar. */
  function DecayAmount(c: Config, dt: real): real
  {
    c.fillDecayRate * dt
  }

  /** Whether `Update` decays the bar: it exists, is not full and holds something. */
  predicate Decays(b: Option<SkillBar.Bar>)
  {
    b.Some? && !SkillBar.IsFull(b.value) && b.value.currentFill > 0.0
  }

  /** `Start`: an attached bar gets `maxFillAmount` as its maximum. */
  function StartStep(c: Config, b: Option<SkillBar.Bar>): (r: Option<SkillBar.Bar>)
    ensures b.None? ==> r.None?
    ensures b.Some? ==> r == Some(SkillBar.InitializeStep(b.value, c.maxFillAmount))
  {
    match b
    case None => None
    case Some(bar) => Some(SkillBar.InitializeStep(bar, c.maxFillAmount))
  }

  /**
   * The decay half of `Update`: `fillDecayRate * dt` is taken off only a
   * bar that exists, is not full and holds something, so a full bar never
   * decays and decay never takes the fill below 0.
   */
  function DecayStep(c: Config, b: Option<SkillBar.Bar>, dt: real): (r: Option<SkillBar.Bar>)
    ensures !Decays(b) ==> r == b
    ensures Decays(b) ==> r == Some(SkillBar.AddFillStep(b.value, -DecayAmount(c, dt)))
    ensures IsFull(b) ==> r == b
    ensures r.Some? <==> b.Some?
    ensures Decays(b) && DecayAmount(c, dt) >= 0.0 ==> 0.0 <= r.value.currentFill <= b.value.currentFill
  {
    if Decays(b) then Some(SkillBar.AddFillStep(b.value, -DecayAmount(c, dt))) else b
  }

  /** `Update`: the decay, then `canShadowDash` set to `IsFull` when a movement component exists. */
  function UpdateStep(c: Config, b: Option<SkillBar.Bar>, dt: real, hasMovement: bool, canShadowDash: bool)
    : (r: (Option<SkillBar.Bar>, bool))
    ensures r.0 == DecayStep(c, b, dt)
    ensures hasMovement ==> (r.1 <==> IsFull(r.0))
    ensures !hasMovement ==> r.1 == canShadowDash
  {
    var b1 := DecayStep(c, b, dt);
    (b1, if hasMovement then IsFull(b1) else canShadowDash)
  }

  /** `AddFill`: a hit adds `fillPerHit` through the bar, which clamps it. */
  function AddFillStep(c: Config, b: Option<SkillBar.Bar>): (r: Option<SkillBar.Bar>)
    ensures b.None? ==> r.None?
    ensures b.Some? ==> r == Some(SkillBar.AddFillStep(b.value, c.fillPerHit))
  {
    match b
    case None => None
    case Some(bar) => Some(SkillBar.AddFillStep(bar, c.fillPerHit))
  }

  /**
   * `FillToMax`: `maxFillAmount` is added, which the bar clamps; a
   * well-formed bar whose maximum is at most `maxFillAmount` (as `Start`
   * makes it) ends full, at exactly its maximum.
   */
  function FillToMaxStep(c: Config, b: Option<SkillBar.Bar>): (r: Option<SkillBar.Bar>)
    ensures b.None? ==> r.None?
    ensures b.Some? ==> r == Some(SkillBar.AddFillStep(b.value, c.maxFillAmount))
    ensures b.Some? && SkillBar.Inv(b.value) && b.value.maxFill <= c.maxFillAmount ==>
              IsFull(r) && r.value.currentFill == b.value.maxFill
  {
    match b
    case None => None
    case Some(bar) => Some(SkillBar.AddFillStep(bar, c.maxFillAmount))
  }

  /** `Use`: an attached bar is emptied. */
  function UseStep(b: Option<SkillBar.Bar>): (r: Option<SkillBar.Bar>)
    ensures b.None? ==> r.None?
    ensures b.Some? ==> r == Some(SkillBar.UseStep(b.value))
  {
    match b
    case None => None
    case Some(bar) => Some(SkillBar.UseStep(bar))
  }

  /** Decay over a run of frames. */
  function DecayAll(c: Config, b: Option<SkillBar.Bar>, dts: seq<real>): Option<SkillBar.Bar>
    decreases |dts|
  {
    if dts == [] then b else DecayAll(c, DecayStep(c, b, dts[0]), dts[1..])
  }

  /**
   * Over any run of frames with non-negative decay, a well-formed bar
   * stays within [0, maxFill], never rises, and a full bar stays exactly
   * as it is (so the shadow dash stays available until the bar is used).
   */
  lemma {:induction false} DecayKeepsBarInRange(c: Config, b: Option<SkillBar.Bar>, dts: seq<real>)
    requires b.Some? && SkillBar.Inv(b.value) && c.fillDecayRate >= 0.0
    requires forall i :: 0 <= i < |dts| ==> dts[i] >= 0.0
    decreases |dts|
    ensures DecayAll(c, b, dts).Some? && SkillBar.Inv(DecayAll(c, b, dts).value)
    ensures DecayAll(c, b, dts).value.currentFill <= b.value.currentFill
    ensures DecayAll(c, b, dts).value.maxFill == b.value.maxFill
    ensures IsFull(b) ==> DecayAll(c, b, dts) == b
  {
    if dts != [] {
      var b1 := DecayStep(c, b, dts[0]);
      assert DecayAmount(c, dts[0]) >= 0.0;
      DecayKeepsBarInRange(c, b1, dts[1..]);
    }
  }

  class SkillRegenSystem {
    const cfg: Config
    const skillRegenUI: SkillBar.SkillRegenUI?
    const hasPlayerMovement: bool
    var canShadowDash: bool

    function Bar(): Option<SkillBar.Bar>
      reads skillRegenUI
    {
      if skillRegenUI == null then None else Some(skillRegenUI.Model())
    }

    /** `Start` included: the movement component, once looked up, is either there or not. */
    constructor (config: Config, ui: SkillBar.SkillRegenUI?, movementFound: bool)
      modifies ui
      ensures cfg == config && skillRegenUI == ui && hasPlayerMovement == movementFound && !canShadowDash
      ensures Bar() == StartStep(config, old(if ui == null then None else Some(ui.Model())))
    {
      cfg := config;
      skillRegenUI := ui;
      hasPlayerMovement := movementFound;
      canShadowDash := false;
      new;
      if ui != null {
        ui.Initialize(config.maxFillAmount);
      }
    }

    method Update(dt: real)
      modifies this, skillRegenUI
      ensures (Bar(), canShadowDash) == UpdateStep(cfg, old(Bar()), dt, hasPlayerMovement, old(canShadowDash))
    {
      if skillRegenUI != null && !(skillRegenUI.currentFill >= skillRegenUI.maxFill) && skillRegenUI.currentFill > 0.0 {
        skillRegenUI.AddFill(-DecayAmount(cfg, dt));
      }
      if hasPlayerMovement {
        canShadowDash := Full();
      }
    }

    method AddFill()
      modifies skillRegenUI
      ensures Bar() == AddFillStep(cfg, old(Bar()))
    {
      if skillRegenUI != null {
        skillRegenUI.AddFill(cfg.fillPerHit);
      }
    }

    /** `IsFull`. */
    function Full(): bool
      reads skillRegenUI
    {
      IsFull(Bar())
    }

    method FillToMax()
      modifies skillRegenUI
      ensures Bar() == FillToMaxStep(cfg, old(Bar()))
    {
      if skillRegenUI != null {
        skillRegenUI.AddFill(cfg.maxFillAmount);
      }
    }

    method Use()
      modifies skillRegenUI
      ensures Bar() == UseStep(old(Bar()))
    {
      if skillRegenUI != null {
        skillRegenUI.Use();
      }
    }
  }
}
