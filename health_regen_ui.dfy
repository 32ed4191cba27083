/**
 * The health bar's fill arithmetic (`HealthRegenUI`): like the skill bar,
 * but any `AddFill` on a full bar is refused and the fill is capped only
 * from above. The image's fill fraction and the log line are left out.
 */
module HealthBar {

  datatype Bar = Bar(currentFill: real, maxFill: real)

  /** The bar a fresh component starts with. */
  const Initial := Bar(0.0, 100.0)

  predicate Inv(b: Bar)
  {
    0.0 <= b.currentFill <= b.maxFill
  }

  /** `IsFull`. */
  predicate IsFull(b: Bar)
  {
    b.currentFill >= b.maxFill
  }

  /** `Initialize`: the maximum is set; the fill is left as it is. */
  function InitializeStep(b: Bar, maxFillValue: real): (r: Bar)
    ensures r.maxFill == maxFillValue && r.currentFill == b.currentFill
  {
    b.(maxFill := maxFillValue)
  }

  /**
   * `AddFill`: a full bar is left alone whatever the amount; otherwise the
   * amount is added and the result capped at `maxFill`, with no floor.
   */
  function AddFillStep(b: Bar, amount: real): (r: Bar)
    ensures IsFull(b) ==> r == b
    ensures !IsFull(b) ==> r.currentFill == (if b.currentFill + amount > b.maxFill then b.maxFill else b.currentFill + amount)
    ensures !IsFull(b) ==> r.currentFill <= b.maxFill
    ensures r.maxFill == b.maxFill
    ensures Inv(b) && amount >= 0.0 ==> Inv(r)
  {
    if IsFull(b) then b
    else
      var f := b.currentFill + amount;
      b.(currentFill := if f > b.maxFill then b.maxFill else f)
  }

  /** `Use`: the bar is emptied. */
  function UseStep(b: Bar): (r: Bar)
    ensures r.currentFill == 0.0 && r.maxFill == b.maxFill
    ensures b.maxFill >= 0.0 ==> Inv(r)
  {
    b.(currentFill := 0.0)
  }

  /** Having no lower clamp, a negative amount drives the fill below 0. */
  lemma NegativeAmountGoesBelowZero()
    ensures AddFillStep(Bar(10.0, 100.0), -25.0).currentFill == -15.0
  {
  }

  /** `n` calls of `AddFill` with the same amount. */
  function AddMany(b: Bar, amount: real, n: nat): Bar
    decreases n
  {
    if n == 0 then b else AddMany(AddFillStep(b, amount), amount, n - 1)
  }

  /** `n` hits of a positive size raise a well-formed bar by `n` times that size, capped at the maximum. */
  lemma {:induction false} AddManyFills(b: Bar, amount: real, n: nat)
    requires Inv(b) && amount > 0.0
    decreases n
    ensures Inv(AddMany(b, amount, n)) && AddMany(b, amount, n).maxFill == b.maxFill
    ensures AddMany(b, amount, n).currentFill == (if b.currentFill + n as real * amount > b.maxFill then b.maxFill
                                                   else b.currentFill + n as real * amount)
  {
    if n > 0 {
      var b1 := AddFillStep(b, amount);
      AddManyFills(b1, amount, n - 1);
      if IsFull(b) {
        assert b.currentFill == b.maxFill;
        assert b1 == b;
        assert AddMany(b1, amount, n - 1).currentFill == b.maxFill;
      } else if b.currentFill + amount > b.maxFill {
        assert b1.currentFill == b.maxFill;
        assert AddMany(b1, amount, n - 1).currentFill == b.maxFill;
        assert b.currentFill + n as real * amount > b.maxFill;
      } else {
        assert b1.currentFill == b.currentFill + amount;
        assert b.currentFill + n as real * amount == b1.currentFill + (n - 1) as real * amount;
      }
    }
  }

  class HealthRegenUI {
    var currentFill: real
    var maxFill: real

    function Model(): Bar
      reads this
    {
      Bar(currentFill, maxFill)
    }

    constructor ()
      ensures Model() == Initial
    {
      currentFill, maxFill := 0.0, 100.0;
    }

    /** `IsFull`. */
    function Full(): bool
      reads this
    {
      IsFull(Model())
    }

    method Initialize(maxFillValue: real)
      modifies this
      ensures Model() == InitializeStep(old(Model()), maxFillValue)
    {
      maxFill := maxFillValue;
    }

    method AddFill(amount: real)
      modifies this
      ensures Model() == AddFillStep(old(Model()), amount)
    {
      if currentFill >= maxFill {
        return;
      }
      currentFill := currentFill + amount;
      if currentFill > maxFill {
        currentFill := maxFill;
      }
    }

    method Use()
      modifies this
      ensures Model() == UseStep(old(Model()))
    {
      currentFill := 0.0;
    }
  }
}
