/** The catalogue product, which is also the key of the shopping cart. */
module Products {
  import opened Discounts

  /**
   * An immutable product record. Equality is structural over all six
   * fields; for a bulk discount that means the identity of the policy
   * object, so two products are the same cart key only when they share it.
   * The currency is kept as its ISO 4217 code.
   */
  datatype Product = Product(
    code: string,
    name: string,
    price: real,
    imageUrls: seq<string>,
    discountType: DiscountType,
    currency: string := "EUR")
  {
    /** Effective per-unit price for `amount` units, priced from this product's own base price. */
    function GetDiscountPrice(amount: int): (r: real)
      requires discountType.TwoForOne? ==> amount != 0
      ensures discountType.None? ==> r == price
      ensures discountType.TwoForOne? ==> r * amount as real == ChargeableUnits(amount) as real * price
      ensures discountType.Bulk? && amount < discountType.policy.limitAmount ==> r == price
      ensures discountType.Bulk? && amount >= discountType.policy.limitAmount ==>
                r == discountType.policy.discountFormula(amount, price)
    {
      discountType.PricePerUnit(amount, price)
    }
  }

  /**
   * Giving a product two different bulk policy objects yields two different
   * cart keys, even when the policies have the same limit and formula.
   */
  lemma BulkComparedByIdentity(p: Product, b1: BulkDiscount, b2: BulkDiscount)
    ensures p.(discountType := Bulk(b1)) == p.(discountType := Bulk(b2)) <==> b1 == b2
  {
  }
}
