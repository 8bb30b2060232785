/**
 * The navigation graph's data handling: the routes it builds, how the
 * purchase route's argument is decoded, and which products each
 * destination receives.
 */
module MainNavGraph {
  import Wrappers
  import Constants
  import opened Products
  import opened Screens

  // ---------------------------------------------------------------------
  // Joining and splitting on a separator
  // ---------------------------------------------------------------------

  /** The strings in order, with `separator` between consecutive ones. */
  function Join(parts: seq<string>, separator: char): string
  {
    if parts == [] then ""
    else if |parts| == 1 then parts[0]
    else parts[0] + [separator] + Join(parts[1..], separator)
  }

  /**
   * The pieces of `s` between occurrences of `separator`, empty pieces
   * included; a string without separator, the empty one too, is one piece.
   */
  function Split(s: string, separator: char): (r: seq<string>)
    ensures |r| >= 1
    ensures |r| == 1 ==> separator !in s
  {
    if s == [] then [""]
    else
      var rest := Split(s[1..], separator);
      if s[0] == separator then [""] + rest
      else [[s[0]] + rest[0]] + rest[1..]
  }

  /** A separator-free prefix is glued onto the first piece of what follows it. */
  lemma {:induction false} SplitSeparatorFreePrefix(a: string, t: string, separator: char)
    requires separator !in a
    ensures Split(a + t, separator) == [a + Split(t, separator)[0]] + Split(t, separator)[1..]
  {
    if a != [] {
      assert (a + t)[0] == a[0];
      assert (a + t)[1..] == a[1..] + t;
      SplitSeparatorFreePrefix(a[1..], t, separator);
      assert [a[0]] + (a[1..] + Split(t, separator)[0]) == a + Split(t, separator)[0];
    } else {
      var pieces := Split(t, separator);
      assert a + t == t && a + pieces[0] == pieces[0];
      assert pieces == [pieces[0]] + pieces[1..];
    }
  }

  /** Splitting a non-empty join of separator-free strings gives back the strings. */
  lemma {:induction false} SplitJoinRoundTrip(parts: seq<string>, separator: char)
    requires parts != []
    requires forall i :: 0 <= i < |parts| ==> separator !in parts[i]
    ensures Split(Join(parts, separator), separator) == parts
  {
    if |parts| == 1 {
      SplitSeparatorFreePrefix(parts[0], "", separator);
      assert parts[0] + "" == parts[0];
    } else {
      var tail := Join(parts[1..], separator);
      SplitJoinRoundTrip(parts[1..], separator);
      assert Split([separator] + tail, separator) == [""] + parts[1..] by {
        assert ([separator] + tail)[0] == separator;
        assert ([separator] + tail)[1..] == tail;
      }
      assert Join(parts, separator) == parts[0] + ([separator] + tail);
      SplitSeparatorFreePrefix(parts[0], [separator] + tail, separator);
      assert parts[0] + "" == parts[0];
    }
  }

  /** An empty list joins to the empty string, which splits into one empty piece. */
  lemma EmptyJoinSplitsToOneEmptyName(separator: char)
    ensures Split(Join([], separator), separator) == [""]
  {
  }

  // ---------------------------------------------------------------------
  // Routes
  // ---------------------------------------------------------------------

  /** The route to a product's detail page, with its name as the title argument. */
  function DetailRoute(product: Product): string
  {
    ProductDetail.Route() + "/" + product.name + "?" + Constants.TitleKey + "=" + product.name
  }

  function Names(products: seq<Product>): (r: seq<string>)
    ensures |r| == |products| && forall i :: 0 <= i < |r| ==> r[i] == products[i].name
  {
    seq(|products|, i requires 0 <= i < |products| => products[i].name)
  }

  /** The route to the purchase summary: the chosen product names joined with '@'. */
  function PurchaseRoute(products: seq<Product>): string
  {
    Purchase.Route() + "/" + Join(Names(products), '@')
  }

  /** Every detail route leads to the detail destination. */
  lemma DetailRouteResolves(product: Product)
    ensures GetScreenByRoute(DetailRoute(product)) == Wrappers.Some(ProductDetail)
  {
    var route := DetailRoute(product);
    assert route[..14] == "product_detail";
    assert route[1] == 'r' && route[8] == 'd';
  }

  /**
   * Every purchase route leads to the purchase destination, and for a
   * non-empty choice of products whose names hold no '@' its argument
   * splits back into exactly their names.
   */
  lemma PurchaseRouteRoundTrip(products: seq<Product>)
    requires products != []
    requires forall i :: 0 <= i < |products| ==> '@' !in products[i].name
    ensures var route := PurchaseRoute(products);
            && GetScreenByRoute(route) == Wrappers.Some(Purchase)
            && route[..9] == "purchase/"
            && Split(route[9..], '@') == Names(products)
  {
    var route := PurchaseRoute(products);
    assert route[..8] == "purchase";
    assert route[1] == 'u';
    assert route[9..] == Join(Names(products), '@');
    SplitJoinRoundTrip(Names(products), '@');
  }

  // ---------------------------------------------------------------------
  // Destinations
  // ---------------------------------------------------------------------

  /** The first product of the catalogue with the given name. */
  function FindByName(products: seq<Product>, name: string): (r: Wrappers.Option<Product>)
    ensures r.Some? ==> exists k :: 0 <= k < |products| && products[k] == r.value && r.value.name == name &&
                          forall j :: 0 <= j < k ==> products[j].name != name
    ensures r.None? <==> forall k :: 0 <= k < |products| ==> products[k].name != name
  {
    if products == [] then Wrappers.None
    else if products[0].name == name then Wrappers.Some(products[0])
    else
      var r := FindByName(products[1..], name);
      assert forall k :: 1 <= k < |products| ==> products[k] == products[1..][k - 1];
      r
  }

  datatype DetailDestination = LeaveDetail | ShowDetail(product: Product)

  /** The detail page shows the named product, or navigates back when there is none. */
  function DetailDestinationFor(products: seq<Product>, name: string): (r: DetailDestination)
    ensures r.LeaveDetail? <==> forall k :: 0 <= k < |products| ==> products[k].name != name
    ensures r.ShowDetail? ==> r.product in products && r.product.name == name
  {
    var found := FindByName(products, name);
    if found.None? then LeaveDetail else ShowDetail(found.value)
  }

  /** The cart lines whose product name is one of `names`, with their cart quantities. */
  function ProductsToBuy(cart: map<Product, int>, names: seq<string>): (r: map<Product, int>)
    ensures r.Keys <= cart.Keys
    ensures forall p :: p in r ==> r[p] == cart[p] && p.name in names
    ensures forall p :: p in cart && p.name in names ==> p in r
  {
    map p | p in cart && p.name in names :: cart[p]
  }

  datatype PurchaseDestination = LeavePurchase | ShowPurchase(productsToBuy: map<Product, int>)

  /**
   * The purchase page receives the cart lines named in the route argument.
   * Splitting never gives an empty list, so only a missing argument
   * navigates back.
   */
  function PurchaseDestinationFor(cart: map<Product, int>, argument: Wrappers.Option<string>): (r: PurchaseDestination)
    ensures r.LeavePurchase? <==> argument.None?
    ensures r.ShowPurchase? ==> r.productsToBuy == ProductsToBuy(cart, Split(argument.value, '@'))
  {
    if argument.None? then LeavePurchase
    else
      var productsNames := Split(argument.value, '@');
      if productsNames == [] then LeavePurchase
      else ShowPurchase(ProductsToBuy(cart, productsNames))
  }

  /**
   * Continuing with some cart products whose names hold no '@' delivers to
   * the purchase page every cart line of those products, unchanged.
   */
  lemma ContinueDeliversChosenLines(cart: map<Product, int>, chosen: seq<Product>)
    requires chosen != []
    requires forall i :: 0 <= i < |chosen| ==> '@' !in chosen[i].name
    ensures var route := PurchaseRoute(chosen);
            var destination := PurchaseDestinationFor(cart, Wrappers.Some(route[9..]));
            && destination.ShowPurchase?
            && (forall p :: p in chosen && p in cart ==> p in destination.productsToBuy && destination.productsToBuy[p] == cart[p])
            && (forall p :: p in destination.productsToBuy ==> exists i :: 0 <= i < |chosen| && chosen[i].name == p.name)
  {
    PurchaseRouteRoundTrip(chosen);
    var names := Names(chosen);
    forall p | p in chosen
      ensures p.name in names
    {
      var i :| 0 <= i < |chosen| && chosen[i] == p;
      assert names[i] == p.name;
    }
  }
}
