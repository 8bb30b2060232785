/** The purchase summary: one row per product to buy, a total and the buy confirmation. */
module PurchaseProductsScreen {
  import Wrappers
  import opened Discounts
  import opened Products
  import opened Cart
  import opened ViewModel

  /** No two-for-one line has quantity zero, so every line can be priced. */
  predicate Priceable(cart: map<Product, int>)
  {
    forall p :: p in cart ==> (p.discountType.TwoForOne? ==> cart[p] != 0)
  }

  /** A cart that keeps the view model's invariant can be priced. */
  lemma PositiveCartIsPriceable(cart: map<Product, int>)
    requires AllPositive(cart)
    ensures Priceable(cart)
  {
  }

  /** Amount charged for `quantity` units of `product`: the discounted unit price times the quantity. */
  function LineAmount(product: Product, quantity: int): (r: real)
    requires product.discountType.TwoForOne? ==> quantity != 0
    ensures product.discountType.None? ==> r == product.price * quantity as real
    ensures product.discountType.TwoForOne? ==> r == ChargeableUnits(quantity) as real * product.price
    ensures product.discountType.Bulk? && quantity < product.discountType.policy.limitAmount ==>
              r == product.price * quantity as real
    ensures product.discountType.Bulk? && quantity >= product.discountType.policy.limitAmount ==>
              r == product.discountType.policy.discountFormula(quantity, product.price) * quantity as real
  {
    product.GetDiscountPrice(quantity) * quantity as real
  }

  /** Sum of the line amounts of every entry of `cart`, in no particular order. */
  ghost function TotalPrice(cart: map<Product, int>): real
    requires Priceable(cart)
    decreases |cart|
  {
    if cart == map[] then 0.0
    else
      var p :| p in cart;
      LineAmount(p, cart[p]) + TotalPrice(cart - {p})
  }

  /** The total does not depend on which line is summed first. */
  lemma {:induction false} TotalPriceWithout(cart: map<Product, int>, p: Product)
    requires Priceable(cart) && p in cart
    ensures TotalPrice(cart) == LineAmount(p, cart[p]) + TotalPrice(cart - {p})
    decreases |cart|
  {
    var q :| q in cart && TotalPrice(cart) == LineAmount(q, cart[q]) + TotalPrice(cart - {q});
    if q != p {
      var rest := cart - {q};
      assert p in rest && rest[p] == cart[p];
      TotalPriceWithout(rest, p);
      var other := cart - {p};
      assert q in other && other[q] == cart[q];
      TotalPriceWithout(other, q);
      assert rest - {p} == other - {q};
    }
  }

  /** An empty cart costs nothing. */
  lemma EmptyCartTotal()
    ensures TotalPrice(map[]) == 0.0
  {
  }

  /** `part` holds some of the lines of `cart`, with the same quantities. */
  predicate IsSubCart(part: map<Product, int>, cart: map<Product, int>)
  {
    part.Keys <= cart.Keys && forall p :: p in part ==> part[p] == cart[p]
  }

  /** Any part of a priceable cart, and what is left without it, are priceable. */
  lemma SubCartPriceable(cart: map<Product, int>, part: map<Product, int>)
    requires Priceable(cart) && IsSubCart(part, cart)
    ensures Priceable(part) && Priceable(cart - part.Keys)
  {
  }

  /** Taking one line out of both a cart and a sub-cart of it keeps the sub-cart relation and the remainder. */
  lemma SubCartStep(cart: map<Product, int>, part: map<Product, int>, p: Product)
    requires IsSubCart(part, cart) && p in part
    ensures IsSubCart(part - {p}, cart - {p})
    ensures (cart - {p}) - (part - {p}).Keys == cart - part.Keys
  {
    assert (cart - {p}) - (part - {p}).Keys == cart - part.Keys by {
      assert ((cart - {p}) - (part - {p}).Keys).Keys == (cart - part.Keys).Keys;
    }
  }

  /** The total of a cart is the total of any part of it plus the total of the remainder. */
  lemma {:induction false} TotalPriceSplit(cart: map<Product, int>, part: map<Product, int>)
    requires Priceable(cart) && IsSubCart(part, cart)
    ensures Priceable(part) && Priceable(cart - part.Keys)
    ensures TotalPrice(cart) == TotalPrice(part) + TotalPrice(cart - part.Keys)
    decreases |part|
  {
    SubCartPriceable(cart, part);
    if part != map[] {
      var p :| p in part;
      TotalPriceWithout(cart, p);
      TotalPriceWithout(part, p);
      SubCartStep(cart, part, p);
      TotalPriceSplit(cart - {p}, part - {p});
    } else {
      assert cart - part.Keys == cart;
    }
  }


  /** One displayed row: a product to buy and its quantity. */
  type Row = (Product, int)

  /** `rows` lists every line of `lines` exactly once, in some order. */
  predicate Enumerates(rows: seq<Row>, lines: map<Product, int>)
  {
    && |rows| == |lines|
    && (forall i :: 0 <= i < |rows| ==> rows[i].0 in lines && lines[rows[i].0] == rows[i].1)
    && (forall i, j :: 0 <= i < j < |rows| ==> rows[i].0 != rows[j].0)
  }

  /** Sum of the amounts shown on the rows, first to last. */
  function RowsTotal(rows: seq<Row>): real
    requires forall i :: 0 <= i < |rows| ==> (rows[i].0.discountType.TwoForOne? ==> rows[i].1 != 0)
  {
    if rows == [] then 0.0 else LineAmount(rows[0].0, rows[0].1) + RowsTotal(rows[1..])
  }

  /** The rows of any listing of a map add up to the map's total. */
  lemma {:induction false} RowsTotalIsTotalPrice(rows: seq<Row>, lines: map<Product, int>)
    requires Priceable(lines) && Enumerates(rows, lines)
    ensures forall i :: 0 <= i < |rows| ==> (rows[i].0.discountType.TwoForOne? ==> rows[i].1 != 0)
    ensures RowsTotal(rows) == TotalPrice(lines)
    decreases |rows|
  {
    if rows != [] {
      var p := rows[0].0;
      var rest := lines - {p};
      assert |rest| == |lines| - 1;
      assert Enumerates(rows[1..], rest) by {
        forall i | 0 <= i < |rows[1..]|
          ensures rows[1..][i].0 in rest && rest[rows[1..][i].0] == rows[1..][i].1
        {
          assert rows[1..][i] == rows[i + 1];
          assert rows[i + 1].0 != rows[0].0;
        }
      }
      RowsTotalIsTotalPrice(rows[1..], rest);
      TotalPriceWithout(lines, p);
    } else {
      assert lines.Keys == {} by {
        assert |lines.Keys| == 0;
      }
      assert lines == map[];
    }
  }

  /**
   * The total the summary displays, as the screen computes it: over every
   * line of the cart, whether or not it is among the products to buy.
   */
  ghost function TotalPriceAsWritten(state: ProductsState, productsToBuy: map<Product, int>): (r: real)
    requires Priceable(state.productsCart)
    ensures IsSubCart(productsToBuy, state.productsCart) ==>
              Priceable(productsToBuy) && Priceable(state.productsCart - productsToBuy.Keys) &&
              r == TotalPrice(productsToBuy) + TotalPrice(state.productsCart - productsToBuy.Keys)
  {
    if IsSubCart(productsToBuy, state.productsCart) then
      TotalPriceSplit(state.productsCart, productsToBuy);
      TotalPrice(state.productsCart)
    else
      TotalPrice(state.productsCart)
  }

  /**
   * With two one-unit lines priced 1 and 2 and only the first one being
   * bought, the summary lists a single row worth 1 but displays a total of 3.
   */
  lemma TotalAsWrittenCountsUnboughtLines(a: Product, b: Product)
    requires a != b && a.discountType.None? && b.discountType.None?
    requires a.price == 1.0 && b.price == 2.0
    ensures var state := ProductsState([a, b], [], map[a := 1, b := 1]);
            var productsToBuy := map[a := 1];
            && Enumerates([(a, 1)], productsToBuy)
            && RowsTotal([(a, 1)]) == 1.0
            && TotalPriceAsWritten(state, productsToBuy) == 3.0
  {
    var cart := map[a := 1, b := 1];
    TotalPriceWithout(cart, a);
    assert cart - {a} == map[b := 1];
    TotalPriceWithout(map[b := 1], b);
    assert map[b := 1] - {b} == map[];
  }

  /**
   * The total the summary should display: the sum over the lines being
   * bought, which is what their rows add up to.
   */
  ghost function SummaryTotal(productsToBuy: map<Product, int>): (r: real)
    requires Priceable(productsToBuy)
    ensures productsToBuy == map[] ==> r == 0.0
  {
    TotalPrice(productsToBuy)
  }

  /**
   * The corrected total equals the sum of the displayed rows, whatever
   * their order, and is the whole cart's total minus the lines left behind.
   */
  lemma SummaryTotalMatchesRows(cart: map<Product, int>, productsToBuy: map<Product, int>, rows: seq<Row>)
    requires Priceable(cart) && IsSubCart(productsToBuy, cart) && Enumerates(rows, productsToBuy)
    ensures Priceable(productsToBuy) && Priceable(cart - productsToBuy.Keys)
    ensures forall i :: 0 <= i < |rows| ==> (rows[i].0.discountType.TwoForOne? ==> rows[i].1 != 0)
    ensures SummaryTotal(productsToBuy) == RowsTotal(rows)
    ensures SummaryTotal(productsToBuy) == TotalPrice(cart) - TotalPrice(cart - productsToBuy.Keys)
  {
    TotalPriceSplit(cart, productsToBuy);
    RowsTotalIsTotalPrice(rows, productsToBuy);
  }

  /** Buying is possible only when there is something to buy. */
  function PurchaseEnabled(productsToBuy: map<Product, int>): (r: bool)
    ensures r <==> |productsToBuy| > 0
  {
    |productsToBuy| != 0
  }

  /** How the confirmation dialog was closed. */
  datatype DialogAction = Accept | Cancel | Dismiss

  /** The event the purchase dialog emits: the shown map on accept, nothing otherwise. */
  function PurchaseDialogEvent(action: DialogAction, productsToBuy: map<Product, int>): (r: Wrappers.Option<ProductsEvent>)
    ensures r.Some? <==> action == Accept
    ensures r.Some? ==> r.value.PurchaseItems? && r.value.productsToBuy == productsToBuy
  {
    if action == Accept then Wrappers.Some(PurchaseItems(productsToBuy)) else Wrappers.None
  }

  /**
   * Accepting the dialog takes exactly the shown lines out of the cart and
   * leaves every other line as it was; cancelling changes nothing.
   */
  lemma AcceptedPurchaseRemovesShownLines(state: ProductsState, productsToBuy: map<Product, int>, action: DialogAction)
    ensures var e := PurchaseDialogEvent(action, productsToBuy);
            var after := if e.Some? then Reduce(state, e.value) else state;
            && after.productsCart.Keys == (if action == Accept then state.productsCart.Keys - productsToBuy.Keys
                                           else state.productsCart.Keys)
            && forall p :: p in after.productsCart ==> after.productsCart[p] == state.productsCart[p]
  {
  }

  /** Four two-for-one units at ten cost twenty. */
  lemma TwoForOneLineExample(p: Product)
    requires p.discountType.TwoForOne? && p.price == 10.0
    ensures LineAmount(p, 4) == 20.0
  {
    assert ChargeableUnits(4) == 2;
  }
}
