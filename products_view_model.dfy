/**
 * The screen-independent application state and the view model that updates
 * it in response to user events.
 */
module ViewModel {
  import opened Wrappers
  import opened Discounts
  import opened Products
  import opened Filters
  import opened Cart

  datatype ProductsState = ProductsState(
    products: seq<Product>,
    productFilters: seq<Filter>,
    productsCart: map<Product, int>)

  datatype ProductsEvent =
    | ProductClicked(product: Product)
    | PurchaseProductClicked(product: Product)
    | ShoppingCartClicked
    | FilterClicked(filter: Filter)
    | ClearFilters
    | ContinuePurchaseButtonClicked(products: seq<Product>)
    | AddToCart(product: Product)
    | SubtractFromCart(product: Product)
    | PurchaseItems(productsToBuy: map<Product, int>)
    | RemoveProductFromCart(product: Product)

  /** Flips the selection of every filter equal to `filter`; the others, and the order, stay. */
  function ToggledFilters(filters: seq<Filter>, filter: Filter): (r: seq<Filter>)
    ensures |r| == |filters|
    ensures forall i :: 0 <= i < |r| ==>
              && r[i].name == filters[i].name
              && r[i].condition == filters[i].condition
              && r[i].isSelected == (if filters[i] == filter then !filters[i].isSelected else filters[i].isSelected)
  {
    seq(|filters|, i requires 0 <= i < |filters| =>
      if filters[i] != filter then filters[i]
      else filters[i].(isSelected := !filters[i].isSelected))
  }

  /** Deselects every filter, keeping names, tests and order. */
  function ClearedFilters(filters: seq<Filter>): (r: seq<Filter>)
    ensures |r| == |filters|
    ensures forall i :: 0 <= i < |r| ==>
              r[i].name == filters[i].name && r[i].condition == filters[i].condition && !r[i].isSelected
  {
    seq(|filters|, i requires 0 <= i < |filters| => filters[i].(isSelected := false))
  }

  /** Clearing twice is clearing once. */
  lemma ClearedFiltersIdempotent(filters: seq<Filter>)
    ensures ClearedFilters(ClearedFilters(filters)) == ClearedFilters(filters)
  {
  }

  /** A toggle touches no filter other than the ones equal to the clicked one. */
  lemma ToggleOnlyTouchesClicked(filters: seq<Filter>, filter: Filter, i: int)
    requires 0 <= i < |filters| && filters[i] != filter
    ensures ToggledFilters(filters, filter)[i] == filters[i]
  {
  }

  /** The state after the view model has handled `event`. */
  function Reduce(state: ProductsState, event: ProductsEvent): (r: ProductsState)
    ensures r.products == state.products
    ensures AllPositive(state.productsCart) ==> AllPositive(r.productsCart)
    ensures !(event.FilterClicked? || event.ClearFilters?) ==> r.productFilters == state.productFilters
  {
    match event
    case FilterClicked(filter) => state.(productFilters := ToggledFilters(state.productFilters, filter))
    case ClearFilters => state.(productFilters := ClearedFilters(state.productFilters))
    case AddToCart(product) => state.(productsCart := AddedToCart(state.productsCart, product))
    case SubtractFromCart(product) => state.(productsCart := SubtractedFromCart(state.productsCart, product))
    case PurchaseItems(productsToBuy) => state.(productsCart := Purchased(state.productsCart, productsToBuy))
    case RemoveProductFromCart(product) => state.(productsCart := RemovedFromCart(state.productsCart, product))
    case _ => state
  }

  class ProductsViewModel {
    var state: ProductsState

    /** The view model's invariant: no cart line with fewer than one unit. */
    predicate Valid()
      reads this
    {
      AllPositive(state.productsCart)
    }

    /**
     * The initial state: no products yet, an empty cart and the two
     * unselected discount filters (two-for-one, then bulk).
     */
    constructor ()
      ensures Valid()
      ensures state.products == [] && state.productsCart == map[]
      ensures |state.productFilters| == 2
      ensures state.productFilters[0].name == "filter_discount_two_for_one"
      ensures state.productFilters[1].name == "filter_discount_bulk"
      ensures !state.productFilters[0].isSelected && !state.productFilters[1].isSelected
      ensures forall p: Product :: state.productFilters[0].condition.test(p) == p.discountType.TwoForOne?
      ensures forall p: Product :: state.productFilters[1].condition.test(p) == p.discountType.Bulk?
    {
      var twoForOne := new FilterPredicate((p: Product) => p.discountType.TwoForOne?);
      var bulk := new FilterPredicate((p: Product) => p.discountType.Bulk?);
      state := ProductsState(
        [],
        [Filter("filter_discount_two_for_one", false, twoForOne),
         Filter("filter_discount_bulk", false, bulk)],
        map[]);
    }

    /** The catalogue arrived: a failed load leaves the product list empty. */
    method ProductsLoaded(result: Option<seq<Product>>)
      modifies this
      ensures state == old(state).(products := if result.Some? then result.value else [])
      ensures old(Valid()) ==> Valid()
    {
      var products := if result.Some? then result.value else [];
      state := state.(products := products);
    }

    /** Dispatches one user event to the matching state update. */
    method OnEvent(event: ProductsEvent)
      modifies this
      ensures state == Reduce(old(state), event)
      ensures old(Valid()) ==> Valid()
    {
      match event
      case ProductClicked(_) =>
      case ShoppingCartClicked =>
      case FilterClicked(filter) => ToggleProductFilter(filter);
      case ClearFilters => ClearProductFilters();
      case AddToCart(product) => AddToCart(product);
      case SubtractFromCart(product) => SubtractFromCart(product);
      case PurchaseProductClicked(_) =>
      case PurchaseItems(productsToBuy) => PurchaseItems(productsToBuy);
      case ContinuePurchaseButtonClicked(_) =>
      case RemoveProductFromCart(product) => RemoveProductFromCart(product);
    }

    method RemoveProductFromCart(product: Product)
      modifies this
      ensures state == old(state).(productsCart := RemovedFromCart(old(state.productsCart), product))
      ensures old(Valid()) ==> Valid()
    {
      var newCart := state.productsCart;
      newCart := newCart - {product};
      state := state.(productsCart := newCart);
    }

    /** Removes, one key at a time, every product bought from the cart. */
    method PurchaseItems(productsToBuy: map<Product, int>)
      modifies this
      ensures state == old(state).(productsCart := Purchased(old(state.productsCart), productsToBuy))
      ensures old(Valid()) ==> Valid()
    {
      var newProductsInCart := state.productsCart;
      var keys := productsToBuy.Keys;
      while keys != {}
        invariant keys <= productsToBuy.Keys
        invariant newProductsInCart == old(state.productsCart) - (productsToBuy.Keys - keys)
        decreases keys
      {
        var key :| key in keys;
        newProductsInCart := newProductsInCart - {key};
        keys := keys - {key};
      }
      state := state.(productsCart := newProductsInCart);
    }

    method SubtractFromCart(product: Product)
      modifies this
      ensures state == old(state).(productsCart := SubtractedFromCart(old(state.productsCart), product))
      ensures old(Valid()) ==> Valid()
    {
      if product !in state.productsCart {
        return;
      }
      var newCart := state.productsCart;
      if newCart[product] == 1 {
        newCart := newCart - {product};
      } else {
        var current := if product in newCart then newCart[product] else 0;
        newCart := newCart[product := CoerceAtLeast(current - 1, 1)];
      }
      state := state.(productsCart := newCart);
    }

    method AddToCart(product: Product)
      modifies this
      ensures state == old(state).(productsCart := AddedToCart(old(state.productsCart), product))
      ensures old(Valid()) ==> Valid()
    {
      var newCart := state.productsCart;
      var current := if product in newCart then newCart[product] else 0;
      newCart := newCart[product := current + 1];
      state := state.(productsCart := newCart);
    }

    method ClearProductFilters()
      modifies this
      ensures state == old(state).(productFilters := ClearedFilters(old(state.productFilters)))
      ensures old(Valid()) ==> Valid()
    {
      state := state.(productFilters := ClearedFilters(state.productFilters));
    }

    method ToggleProductFilter(filter: Filter)
      modifies this
      ensures state == old(state).(productFilters := ToggledFilters(old(state.productFilters), filter))
      ensures old(Valid()) ==> Valid()
    {
      state := state.(productFilters := ToggledFilters(state.productFilters, filter));
    }
  }
}
