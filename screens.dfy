/** The navigation destinations and the lookup of a destination from a route. */
module Screens {
  import Wrappers

  datatype Screen = ProductList | Purchase | ProductDetail
  {
    function Route(): string
    {
      match this
      case ProductList => "product_list"
      case Purchase => "purchase"
      case ProductDetail => "product_detail"
    }
  }

  /** The destinations in declaration order. */
  const Entries: seq<Screen> := [ProductList, Purchase, ProductDetail]

  predicate StartsWith(s: string, prefix: string)
  {
    |prefix| <= |s| && s[..|prefix|] == prefix
  }

  /**
   * Position of the first of `entries` whose route begins `route`;
   * `|entries|` when there is none.
   */
  function FirstMatch(entries: seq<Screen>, route: string): (k: nat)
    ensures k <= |entries|
    ensures k < |entries| ==> StartsWith(route, entries[k].Route())
    ensures forall j :: 0 <= j < k ==> !StartsWith(route, entries[j].Route())
  {
    if entries == [] then 0
    else if StartsWith(route, entries[0].Route()) then 0
    else
      var k := FirstMatch(entries[1..], route);
      assert forall j :: 1 <= j < |entries| ==> entries[j] == entries[1..][j - 1];
      1 + k
  }

  /**
   * The destination a route belongs to: the first, in declaration order,
   * whose route begins it; none when no route begins it.
   */
  function GetScreenByRoute(route: string): (r: Wrappers.Option<Screen>)
    ensures r.Some? ==> StartsWith(route, r.value.Route())
    ensures r == Wrappers.Some(Purchase) ==> !StartsWith(route, ProductList.Route())
    ensures r == Wrappers.Some(ProductDetail) ==>
              !StartsWith(route, ProductList.Route()) && !StartsWith(route, Purchase.Route())
    ensures r.None? <==>
              && !StartsWith(route, ProductList.Route())
              && !StartsWith(route, Purchase.Route())
              && !StartsWith(route, ProductDetail.Route())
  {
    var k := FirstMatch(Entries, route);
    assert Entries[0] == ProductList && Entries[1] == Purchase && Entries[2] == ProductDetail;
    if k < |Entries| then Wrappers.Some(Entries[k]) else Wrappers.None
  }

  /** Routes that begin with none of the destinations resolve to nothing. */
  lemma UnknownRoutes()
    ensures GetScreenByRoute("main_graph").None?
    ensures GetScreenByRoute("cart").None?
  {
    assert "main_graph"[0] == 'm';
    assert "cart"[0] == 'c';
  }
}
