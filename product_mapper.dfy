/** Conversion of a parsed catalogue entry into a domain product. */
module ProductMapper {
  import Cart
  import Constants
  import opened Discounts
  import opened Products

  /** A catalogue entry as parsed from the bundled JSON. */
  datatype ProductEntity = ProductEntity(code: string, name: string, price: real)

  /** The images of a product code, or none when the code has no entry. */
  function ImageUrlsFor(code: string): (r: seq<string>)
    ensures code in Constants.ImageUrls ==> r == Constants.ImageUrls[code]
    ensures code !in Constants.ImageUrls ==> r == []
  {
    if code in Constants.ImageUrls then Constants.ImageUrls[code] else []
  }

  /** The t-shirt bulk formula: one unit of currency off, never below zero. */
  function TshirtFormula(amount: int, price: real): (r: real)
    ensures r >= 0.0 && r >= price - 1.0
    ensures r == price - 1.0 || r == 0.0
    ensures price >= 0.0 ==> r <= price
  {
    if price - 1.0 < 0.0 then 0.0 else price - 1.0
  }

  /**
   * Builds the product for a catalogue entry: "VOUCHER" gets two-for-one,
   * "TSHIRT" gets a new bulk policy with the default limit, anything else
   * gets no discount.
   */
  method ToProduct(entity: ProductEntity) returns (p: Product)
    ensures p.code == entity.code && p.name == entity.name && p.price == entity.price
    ensures p.imageUrls == ImageUrlsFor(entity.code)
    ensures p.currency == "EUR"
    ensures entity.code == "VOUCHER" ==> p.discountType == TwoForOne
    ensures entity.code == "TSHIRT" ==>
              && p.discountType.Bulk?
              && fresh(p.discountType.policy)
              && p.discountType.policy.limitAmount == Constants.BulkAmountLimit
              && p.discountType.policy.discountFormula == TshirtFormula
    ensures entity.code != "VOUCHER" && entity.code != "TSHIRT" ==> p.discountType == None
  {
    var discountType: DiscountType;
    if entity.code == "VOUCHER" {
      discountType := TwoForOne;
    } else if entity.code == "TSHIRT" {
      var policy := new BulkDiscount(discountFormula := TshirtFormula);
      discountType := Bulk(policy);
    } else {
      discountType := None;
    }
    p := Product(entity.code, entity.name, entity.price, ImageUrlsFor(entity.code), discountType);
  }

  /**
   * Mapping the same t-shirt entry twice yields two products with the same
   * code, name and price that are nevertheless different cart keys, because
   * each carries its own bulk policy object: adding one of each to an empty
   * cart gives two lines of one unit instead of one line of two.
   */
  method MapTshirtTwice(entity: ProductEntity) returns (first: Product, second: Product)
    requires entity.code == "TSHIRT"
    ensures first.code == second.code && first.name == second.name && first.price == second.price
    ensures first != second
    ensures var cart := Cart.AddedToCart(Cart.AddedToCart(map[], first), second);
            cart.Keys == {first, second} && cart[first] == 1 && cart[second] == 1
  {
    first := ToProduct(entity);
    second := ToProduct(entity);
    assert first.discountType.policy != second.discountType.policy;
  }

  /**
   * A product priced with the t-shirt formula and a non-negative base price
   * never costs less than zero nor more than the base price per unit.
   */
  lemma TshirtPriceBounds(p: Product, amount: int)
    requires p.discountType.Bulk? && p.discountType.policy.discountFormula == TshirtFormula
    requires p.price >= 0.0
    ensures 0.0 <= p.GetDiscountPrice(amount) <= p.price
  {
    if amount >= p.discountType.policy.limitAmount {
      assert p.GetDiscountPrice(amount) == TshirtFormula(amount, p.price);
    }
  }

  /** With the default limit of three, the t-shirt discount starts at the third unit. */
  lemma TshirtExamples(policy: BulkDiscount)
    requires policy.limitAmount == Constants.BulkAmountLimit && policy.discountFormula == TshirtFormula
    ensures Bulk(policy).PricePerUnit(2, 20.0) == 20.0
    ensures Bulk(policy).PricePerUnit(3, 20.0) == 19.0
    ensures Bulk(policy).PricePerUnit(10, 0.5) == 0.0
  {
    assert TshirtFormula(3, 20.0) == 19.0;
  }
}
