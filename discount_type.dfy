/**
 * The discount policies a product can carry and the per-unit price each one
 * charges for a given quantity and base unit price.
 */
module Discounts {
  import Constants

  /**
   * The `Bulk` policy: below `limitAmount` units the base price applies,
   * from `limitAmount` units on the per-unit price is `discountFormula`.
   * It is an ordinary class, not a record, so two policies are the same
   * only when they are the same object, whatever their formulas compute.
   */
  class BulkDiscount {
    const limitAmount: int
    const discountFormula: (int, real) -> real

    /** The limit defaults to `Constants.BulkAmountLimit` when it is not given. */
    constructor (limitAmount: int := Constants.BulkAmountLimit, discountFormula: (int, real) -> real)
      ensures this.limitAmount == limitAmount
      ensures this.discountFormula == discountFormula
    {
      this.limitAmount := limitAmount;
      this.discountFormula := discountFormula;
    }
  }

  /** Number of units charged under two-for-one: `amount / 2` rounded half up. */
  function ChargeableUnits(amount: int): int
  {
    (amount + 1) / 2
  }

  datatype DiscountType = None | TwoForOne | Bulk(policy: BulkDiscount)
  {
    /**
     * Effective price of one unit when `amount` units are bought at base
     * price `price`. Two-for-one divides by `amount`, so it needs a non-zero
     * amount; the other policies accept any amount.
     */
    function PricePerUnit(amount: int, price: real): (r: real)
      requires TwoForOne? ==> amount != 0
      ensures None? ==> r == price
      ensures TwoForOne? ==> r * amount as real == ChargeableUnits(amount) as real * price
    {
      match this
      case None => price
      case TwoForOne => ChargeableUnits(amount) as real * price / amount as real
      case Bulk(policy) =>
        if amount < policy.limitAmount then price
        else policy.discountFormula(amount, price)
    }
  }

  /** `ChargeableUnits` is the nearest integer to `amount / 2`, halves going up. */
  lemma ChargeableUnitsRoundsHalfUp(amount: int)
    ensures ChargeableUnits(amount) as real <= amount as real / 2.0 + 0.5
    ensures amount as real / 2.0 + 0.5 < ChargeableUnits(amount) as real + 1.0
  {
    var c := ChargeableUnits(amount);
    assert 2 * c <= amount + 1 < 2 * c + 2;
    assert (2 * c) as real <= (amount + 1) as real < (2 * c + 2) as real;
  }

  /** For a positive amount, between half of the units and all of them are charged. */
  lemma ChargeableUnitsBounds(amount: int)
    requires amount >= 1
    ensures amount <= 2 * ChargeableUnits(amount) <= amount + 1
    ensures 1 <= ChargeableUnits(amount) <= amount
  {
  }

  /**
   * For a positive amount and a non-negative price, two-for-one never charges
   * more than the base price per unit and never less than half of it.
   */
  lemma TwoForOneBounds(amount: int, price: real)
    requires amount >= 1 && price >= 0.0
    ensures price / 2.0 <= TwoForOne.PricePerUnit(amount, price) <= price
  {
    var r := TwoForOne.PricePerUnit(amount, price);
    var c := ChargeableUnits(amount) as real;
    var a := amount as real;
    ChargeableUnitsBounds(amount);
    assert r * a == c * price;
    assert a <= 2.0 * c <= 2.0 * a;
    assert c * price <= a * price by {
      assert (a - c) * price >= 0.0;
    }
    assert a * price <= 2.0 * c * price by {
      assert (2.0 * c - a) * price >= 0.0;
    }
    assert r * a <= price * a;
    assert price * a <= 2.0 * r * a;
    CancelPositiveFactor(r, price, a);
    CancelPositiveFactor(price, 2.0 * r, a);
  }

  /** Dividing both sides of `x * a <= y * a` by a positive `a`. */
  lemma CancelPositiveFactor(x: real, y: real, a: real)
    requires a > 0.0 && x * a <= y * a
    ensures x <= y
  {
    assert (y - x) * a >= 0.0;
  }

  /** One unit costs the full price; two and four cost half; three cost two thirds. */
  lemma TwoForOneExamples(price: real)
    ensures TwoForOne.PricePerUnit(1, price) == price
    ensures TwoForOne.PricePerUnit(2, price) == price / 2.0
    ensures TwoForOne.PricePerUnit(3, price) == 2.0 * price / 3.0
    ensures TwoForOne.PricePerUnit(4, price) == price / 2.0
  {
    assert ChargeableUnits(1) == 1;
    assert ChargeableUnits(2) == 1;
    assert ChargeableUnits(3) == 2;
    assert ChargeableUnits(4) == 2;
  }

  /** Below its limit a bulk policy charges the base price. */
  lemma BulkBelowLimit(policy: BulkDiscount, amount: int, price: real)
    requires amount < policy.limitAmount
    ensures Bulk(policy).PricePerUnit(amount, price) == price
  {
  }

  /** From its limit on a bulk policy charges exactly what its formula gives, unclamped. */
  lemma BulkFromLimit(policy: BulkDiscount, amount: int, price: real)
    requires amount >= policy.limitAmount
    ensures Bulk(policy).PricePerUnit(amount, price) == policy.discountFormula(amount, price)
  {
  }
}
