/**
 * The shopping-cart transitions, as functions from the old cart to the new
 * one. The view model's methods are proved to perform exactly these.
 */
module Cart {
  import opened Products

  /** Every stored quantity is at least one. */
  predicate AllPositive(cart: map<Product, int>)
  {
    forall p :: p in cart ==> cart[p] >= 1
  }

  /** One more unit of `product`; a product not yet in the cart enters with one unit. */
  function AddedToCart(cart: map<Product, int>, product: Product): (r: map<Product, int>)
    ensures r.Keys == cart.Keys + {product}
    ensures r[product] == (if product in cart then cart[product] + 1 else 1)
    ensures forall q :: q != product && q in cart ==> r[q] == cart[q]
  {
    cart[product := (if product in cart then cart[product] else 0) + 1]
  }

  /** `coerceAtLeast`: the value, raised to `minimum` when it is below. */
  function CoerceAtLeast(value: int, minimum: int): (r: int)
    ensures r >= minimum && r >= value && (r == value || r == minimum)
  {
    if value < minimum then minimum else value
  }

  /**
   * One unit less of `product`: nothing happens when it is absent, a line
   * of one unit disappears, and any other quantity drops by one but never
   * below one.
   */
  function SubtractedFromCart(cart: map<Product, int>, product: Product): (r: map<Product, int>)
    ensures product !in cart ==> r == cart
    ensures product in cart && cart[product] == 1 ==> r.Keys == cart.Keys - {product}
    ensures product in cart && cart[product] != 1 ==>
              r.Keys == cart.Keys && r[product] == CoerceAtLeast(cart[product] - 1, 1)
    ensures forall q :: q != product && q in cart ==> r[q] == cart[q]
  {
    if product !in cart then cart
    else if cart[product] == 1 then cart - {product}
    else cart[product := CoerceAtLeast(cart[product] - 1, 1)]
  }

  /** The line of `product` is deleted whatever its quantity; the rest stays. */
  function RemovedFromCart(cart: map<Product, int>, product: Product): (r: map<Product, int>)
    ensures r.Keys == cart.Keys - {product}
    ensures forall q :: q != product && q in cart ==> r[q] == cart[q]
  {
    cart - {product}
  }

  /**
   * Every line whose product is a key of `productsToBuy` leaves the cart;
   * the purchased quantities play no part and the other lines keep theirs.
   */
  function Purchased(cart: map<Product, int>, productsToBuy: map<Product, int>): (r: map<Product, int>)
    ensures r.Keys == cart.Keys - productsToBuy.Keys
    ensures forall q :: q in r ==> r[q] == cart[q]
  {
    cart - productsToBuy.Keys
  }

  /** Each cart operation keeps every stored quantity at one or more. */
  lemma OperationsKeepQuantitiesPositive(cart: map<Product, int>, product: Product, productsToBuy: map<Product, int>)
    requires AllPositive(cart)
    ensures AllPositive(AddedToCart(cart, product))
    ensures AllPositive(SubtractedFromCart(cart, product))
    ensures AllPositive(RemovedFromCart(cart, product))
    ensures AllPositive(Purchased(cart, productsToBuy))
  {
  }

  /** Adding a unit and taking it away again gives back the same cart. */
  lemma SubtractUndoesAdd(cart: map<Product, int>, product: Product)
    requires product in cart ==> cart[product] >= 1
    ensures SubtractedFromCart(AddedToCart(cart, product), product) == cart
  {
    var r := SubtractedFromCart(AddedToCart(cart, product), product);
    assert r.Keys == cart.Keys;
  }

  /** `n` successive additions of `product`. */
  function AddedTimes(cart: map<Product, int>, product: Product, n: nat): map<Product, int>
  {
    if n == 0 then cart else AddedToCart(AddedTimes(cart, product, n - 1), product)
  }

  /** `n` successive subtractions of `product`. */
  function SubtractedTimes(cart: map<Product, int>, product: Product, n: nat): map<Product, int>
  {
    if n == 0 then cart else SubtractedTimes(SubtractedFromCart(cart, product), product, n - 1)
  }

  /** `n` additions stacked on a valid line raise its quantity by exactly `n`. */
  lemma {:induction false} AddedTimesQuantity(cart: map<Product, int>, product: Product, n: nat)
    ensures n > 0 ==> AddedTimes(cart, product, n)[product] == (if product in cart then cart[product] else 0) + n
    ensures AddedTimes(cart, product, n).Keys == if n > 0 then cart.Keys + {product} else cart.Keys
    ensures forall q :: q != product && q in cart ==> AddedTimes(cart, product, n)[q] == cart[q]
  {
    if n > 0 {
      AddedTimesQuantity(cart, product, n - 1);
    }
  }

  /** Adding `n` units and then subtracting `n` units gives back the original cart. */
  lemma {:induction false} SubtractTimesUndoesAddTimes(cart: map<Product, int>, product: Product, n: nat)
    requires product in cart ==> cart[product] >= 1
    ensures SubtractedTimes(AddedTimes(cart, product, n), product, n) == cart
  {
    if n > 0 {
      var before := AddedTimes(cart, product, n - 1);
      AddedTimesQuantity(cart, product, n - 1);
      SubtractUndoesAdd(before, product);
      assert SubtractedFromCart(AddedTimes(cart, product, n), product) == before;
      SubtractTimesUndoesAddTimes(cart, product, n - 1);
    }
  }

  /** Subtracting or removing a product that is not in the cart changes nothing. */
  lemma AbsentProductIsNoOp(cart: map<Product, int>, product: Product)
    requires product !in cart
    ensures SubtractedFromCart(cart, product) == cart
    ensures RemovedFromCart(cart, product) == cart
  {
  }

  /** Purchasing the whole of a two-line cart's first line leaves just the second. */
  lemma PurchaseExample(a: Product, b: Product)
    requires a != b
    ensures Purchased(map[a := 2, b := 1], map[a := 2]) == map[b := 1]
    ensures Purchased(map[a := 2, b := 1], map[a := 7]) == map[b := 1]
  {
    assert Purchased(map[a := 2, b := 1], map[a := 2]).Keys == {b};
    assert Purchased(map[a := 2, b := 1], map[a := 7]).Keys == {b};
  }
}
