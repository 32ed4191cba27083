/**
 * The skill bar's fill arithmetic (`SkillRegenUI`): a fill level kept
 * between 0 and a maximum, raised by hits, lowered by decay, emptied by
 * use. The image's fill fraction is display only and left out.
 */
module SkillBar {

  import opened Common

  datatype Bar = Bar(currentFill: real, maxFill: real)

  /** The bar a fresh component starts with. */
  const Initial := Bar(0.0, 100.0)

  predicate Inv(b: Bar)
  {
    0.0 <= b.currentFill <= b.maxFill
  }

  /** `IsFull`. */
  predicate IsFull(b: Bar)
  {
    b.currentFill >= b.maxFill
  }

  /** `Initialize`: the maximum is set; the fill is left as it is. */
  function InitializeStep(b: Bar, maxFillValue: real): (r: Bar)
    ensures r.maxFill == maxFillValue && r.currentFill == b.currentFill
  {
    b.(maxFill := maxFillValue)
  }

  /**
   * `AddFill`: adding a positive amount to a full bar does nothing;
   * otherwise the fill moves by the amount, clamped to [0, maxFill].
   */
  function AddFillStep(b: Bar, amount: real): (r: Bar)
    ensures amount > 0.0 && IsFull(b) ==> r == b
    ensures !(amount > 0.0 && IsFull(b)) ==> r.currentFill == Clamp(b.currentFill + amount, 0.0, b.maxFill)
    ensures r.maxFill == b.maxFill
    ensures b.maxFill >= 0.0 && !(amount > 0.0 && IsFull(b)) ==> Inv(r)
    ensures Inv(b) ==> Inv(r)
  {
    if amount > 0.0 && IsFull(b) then b
    else b.(currentFill := Clamp(b.currentFill + amount, 0.0, b.maxFill))
  }

  /** `Use`: the bar is emptied. */
  function UseStep(b: Bar): (r: Bar)
    ensures r.currentFill == 0.0 && r.maxFill == b.maxFill
    ensures b.maxFill >= 0.0 ==> Inv(r)
    ensures b.maxFill > 0.0 ==> !IsFull(r)
  {
    b.(currentFill := 0.0)
  }

  /** On a well-formed bar, a non-negative amount never lowers the fill and a non-positive one never raises it. */
  lemma AddFillMonotone(b: Bar, amount: real)
    requires Inv(b)
    ensures amount >= 0.0 ==> AddFillStep(b, amount).currentFill >= b.currentFill
    ensures amount <= 0.0 ==> AddFillStep(b, amount).currentFill <= b.currentFill
  {
  }

  /** Adding at least the missing amount fills a well-formed bar completely. */
  lemma AddingTheGapFills(b: Bar, amount: real)
    requires Inv(b) && amount >= b.maxFill - b.currentFill
    ensures IsFull(AddFillStep(b, amount)) && AddFillStep(b, amount).currentFill == b.maxFill
  {
  }

  class SkillRegenUI {
    var currentFill: real
    var maxFill: real

    function Model(): Bar
      reads this
    {
      Bar(currentFill, maxFill)
    }

    constructor ()
      ensures Model() == Initial
    {
      currentFill, maxFill := 0.0, 100.0;
    }

    /** `IsFull`. */
    function Full(): bool
      reads this
    {
      IsFull(Model())
    }

    method Initialize(maxFillValue: real)
      modifies this
      ensures Model() == InitializeStep(old(Model()), maxFillValue)
    {
      maxFill := maxFillValue;
    }

    method AddFill(amount: real)
      modifies this
      ensures Model() == AddFillStep(old(Model()), amount)
    {
      if amount > 0.0 && currentFill >= maxFill {
        return;
      }
      currentFill := Clamp(currentFill + amount, 0.0, maxFill);
    }

    method Use()
      modifies this
      ensures Model() == UseStep(old(Model()))
    {
      currentFill := 0.0;
    }
  }
}
