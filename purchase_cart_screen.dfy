/**
 * The cart screen: every cart line with a check box (all checked when they
 * first appear), a continue button for the checked lines and a confirmation
 * step before a line is removed.
 */
module PurchaseCartScreen {
  import Wrappers
  import opened Products
  import opened ViewModel

  /** A cart entry: a product together with its quantity. */
  type CartLine = (Product, int)

  /** The entries of a cart. */
  function CartLines(cart: map<Product, int>): (r: set<CartLine>)
    ensures forall line :: line in r ==> line.0 in cart && cart[line.0] == line.1
    ensures forall p :: p in cart ==> (p, cart[p]) in r
  {
    set p | p in cart :: (p, cart[p])
  }

  /**
   * The selection after the cart changed: one flag per current entry, the
   * previous flag when the very same entry (product and quantity) was there
   * before, checked otherwise.
   */
  function Reconciled(cart: map<Product, int>, selection: map<CartLine, bool>): (r: map<CartLine, bool>)
    ensures r.Keys == CartLines(cart)
    ensures forall line :: line in r && line in selection ==> r[line] == selection[line]
    ensures forall line :: line in r && line !in selection ==> r[line]
  {
    map p | p in cart :: (p, cart[p]) := if (p, cart[p]) in selection then selection[(p, cart[p])] else true
  }

  /** The checked entries. */
  function SelectedProducts(selection: map<CartLine, bool>): (r: set<CartLine>)
    ensures forall line :: line in r ==> line in selection && selection[line]
    ensures forall line :: line in selection && selection[line] ==> line in r
  {
    set line | line in selection && selection[line]
  }

  /** Continue is enabled when some entry is checked. */
  function ContinueEnabled(selection: map<CartLine, bool>): (r: bool)
    ensures r <==> exists line :: line in selection && selection[line]
  {
    SelectedProducts(selection) != {}
  }

  /**
   * When a line's quantity changes, the line comes back checked, whatever
   * its flag was before.
   */
  lemma QuantityChangeReselects(oldCart: map<Product, int>, cart: map<Product, int>, selection: map<CartLine, bool>, p: Product)
    requires selection.Keys == CartLines(oldCart)
    requires p in oldCart && p in cart && oldCart[p] != cart[p]
    ensures (p, cart[p]) in Reconciled(cart, selection) && Reconciled(cart, selection)[(p, cart[p])]
  {
    assert (p, cart[p]) !in CartLines(oldCart);
  }

  /** A line left untouched by the cart change keeps its flag. */
  lemma UnchangedLineKeepsFlag(oldCart: map<Product, int>, cart: map<Product, int>, selection: map<CartLine, bool>, p: Product)
    requires selection.Keys == CartLines(oldCart)
    requires p in oldCart && p in cart && oldCart[p] == cart[p]
    ensures Reconciled(cart, selection)[(p, cart[p])] == selection[(p, oldCart[p])]
  {
    assert (p, oldCart[p]) in CartLines(oldCart);
  }

  /** On first display every entry is checked, so continue is enabled exactly when the cart has lines. */
  lemma FirstDisplayAllChecked(cart: map<Product, int>)
    ensures SelectedProducts(Reconciled(cart, map[])) == CartLines(cart)
    ensures ContinueEnabled(Reconciled(cart, map[])) <==> cart != map[]
  {
    if cart != map[] {
      var p :| p in cart;
      assert (p, cart[p]) in SelectedProducts(Reconciled(cart, map[]));
    }
  }

  /** With every box unchecked there is nothing to continue with. */
  lemma AllUncheckedDisablesContinue(selection: map<CartLine, bool>)
    requires forall line :: line in selection ==> !selection[line]
    ensures SelectedProducts(selection) == {} && !ContinueEnabled(selection)
  {
  }

  /** The screen-local state: the check-box flags and the line waiting for removal confirmation. */
  class PurchaseCart {
    var productsToBuy: map<CartLine, bool>
    var productToBeRemovedFromCart: Wrappers.Option<Product>

    constructor ()
      ensures productsToBuy == map[] && productToBeRemovedFromCart == Wrappers.None
    {
      productsToBuy := map[];
      productToBeRemovedFromCart := Wrappers.None;
    }

    /** The cart changed: rebuild the flags from the new entries. */
    method CartChanged(cart: map<Product, int>)
      modifies this
      ensures productsToBuy == Reconciled(cart, old(productsToBuy))
      ensures productToBeRemovedFromCart == old(productToBeRemovedFromCart)
    {
      productsToBuy := Reconciled(cart, productsToBuy);
    }

    /** A check box was clicked: only that entry's flag changes. */
    method SelectionChanged(line: CartLine, isSelected: bool)
      modifies this
      ensures line in productsToBuy && productsToBuy[line] == isSelected
      ensures forall other :: other in old(productsToBuy) && other != line ==>
                other in productsToBuy && productsToBuy[other] == old(productsToBuy)[other]
      ensures productsToBuy.Keys == old(productsToBuy).Keys + {line}
      ensures productToBeRemovedFromCart == old(productToBeRemovedFromCart)
    {
      var newSelection := productsToBuy;
      newSelection := newSelection[line := isSelected];
      productsToBuy := newSelection;
    }

    /** The delete icon of a line was clicked: ask for confirmation. */
    method RemoveProductClicked(product: Product)
      modifies this
      ensures productToBeRemovedFromCart == Wrappers.Some(product)
      ensures productsToBuy == old(productsToBuy)
    {
      productToBeRemovedFromCart := Wrappers.Some(product);
    }

    /** The confirmation was accepted: the pending product is removed from the cart. */
    method RemoveDialogAccepted() returns (event: Wrappers.Option<ProductsEvent>)
      modifies this
      ensures old(productToBeRemovedFromCart).Some? ==>
                event == Wrappers.Some(RemoveProductFromCart(old(productToBeRemovedFromCart).value))
      ensures old(productToBeRemovedFromCart).None? ==> event == Wrappers.None
      ensures productToBeRemovedFromCart == Wrappers.None
      ensures productsToBuy == old(productsToBuy)
    {
      event := Wrappers.None;
      if productToBeRemovedFromCart.Some? {
        event := Wrappers.Some(RemoveProductFromCart(productToBeRemovedFromCart.value));
      }
      productToBeRemovedFromCart := Wrappers.None;
    }

    /** The confirmation was cancelled or dismissed: nothing is emitted. */
    method RemoveDialogClosed()
      modifies this
      ensures productToBeRemovedFromCart == Wrappers.None
      ensures productsToBuy == old(productsToBuy)
    {
      productToBeRemovedFromCart := Wrappers.None;
    }

    /**
     * Continue was clicked: when enabled, emits one product per checked
     * entry.
     */
    method ContinueClicked() returns (event: Wrappers.Option<ProductsEvent>)
      ensures event.Some? <==> ContinueEnabled(productsToBuy)
      ensures event.Some? ==> event.value.ContinuePurchaseButtonClicked?
      ensures event.Some? ==> forall p :: p in event.value.products <==>
                exists line :: line in SelectedProducts(productsToBuy) && line.0 == p
      ensures event.Some? ==> |event.value.products| == |SelectedProducts(productsToBuy)|
    {
      var selected := SelectedProducts(productsToBuy);
      if selected == {} {
        return Wrappers.None;
      }
      var products: seq<Product> := [];
      var left := selected;
      while left != {}
        invariant left <= selected
        invariant |products| + |left| == |selected|
        invariant forall p :: p in products <==> exists line :: line in selected - left && line.0 == p
        decreases left
      {
        var line :| line in left;
        products := products + [line.0];
        left := left - {line};
      }
      event := Wrappers.Some(ContinuePurchaseButtonClicked(products));
    }
  }
}
