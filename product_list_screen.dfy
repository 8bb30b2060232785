/**
 * What the product list shows: the products matching the search query and
 * the active filters, the filters selected-first, the cart badge and the
 * visibility of the cart button.
 */
module ProductListScreen {
  import Constants
  import opened Products
  import opened Filters
  import opened Discounts
  import opened DirectionalScroll
  import ViewModel

  // ---------------------------------------------------------------------
  // Case-insensitive search
  // ---------------------------------------------------------------------

  /** Lower-case form of an ASCII letter; any other character is kept. */
  function LowerAscii(c: char): char
  {
    if 'A' <= c <= 'Z' then (c as int + 32) as char else c
  }

  predicate CharEqualsIgnoreCase(a: char, b: char)
  {
    LowerAscii(a) == LowerAscii(b)
  }

  /** `query` occurs in `text` at position `i`, ignoring case. */
  ghost predicate OccursAt(text: string, query: string, i: int)
  {
    0 <= i && i + |query| <= |text| &&
    forall j :: 0 <= j < |query| ==> CharEqualsIgnoreCase(text[i + j], query[j])
  }

  /** `text` starts with `query`, ignoring case. */
  function StartsWithIgnoreCase(text: string, query: string): (r: bool)
    ensures r <==> OccursAt(text, query, 0)
  {
    if query == [] then true
    else if text == [] then false
    else CharEqualsIgnoreCase(text[0], query[0]) && StartsWithIgnoreCase(text[1..], query[1..])
  }

  /** `query` occurs somewhere in `text`, ignoring case. */
  function ContainsIgnoreCase(text: string, query: string): (r: bool)
    ensures r <==> exists i :: OccursAt(text, query, i)
  {
    if |query| > |text| then false
    else if StartsWithIgnoreCase(text, query) then true
    else
      var r := ContainsIgnoreCase(text[1..], query);
      assert forall i :: OccursAt(text[1..], query, i) <==> OccursAt(text, query, i + 1);
      assert forall i :: OccursAt(text, query, i) ==> i == 0 || OccursAt(text[1..], query, i - 1);
      r
  }

  /**
   * Length of `s` in UTF-16 code units, the measure of a Kotlin string's
   * `length`: a character outside the Basic Multilingual Plane takes two.
   */
  function Utf16Length(s: string): (n: nat)
    ensures |s| <= n <= 2 * |s|
    ensures (forall i :: 0 <= i < |s| ==> s[i] as int < 0x1_0000) ==> n == |s|
  {
    if s == [] then 0
    else
      var n := Utf16Length(s[1..]);
      assert forall i :: 1 <= i < |s| ==> s[i] == s[1..][i - 1];
      (if s[0] as int < 0x1_0000 then 1 else 2) + n
  }

  /** A single character is one UTF-16 code unit inside the Basic Multilingual Plane and two outside it. */
  lemma Utf16LengthOfChar(c: char)
    ensures Utf16Length([c]) == (if c as int < 0x1_0000 then 1 else 2)
  {
    assert [c][1..] == [];
  }

  /** The UTF-16 length of a concatenation is the sum of the parts' lengths. */
  lemma {:induction false} Utf16LengthAppend(a: string, b: string)
    ensures Utf16Length(a + b) == Utf16Length(a) + Utf16Length(b)
    decreases |a|
  {
    if a == [] {
      assert a + b == b;
    } else {
      assert (a + b)[0] == a[0];
      assert (a + b)[1..] == a[1..] + b;
      Utf16LengthAppend(a[1..], b);
    }
  }

  /**
   * A query shorter than the minimum search length, counted in UTF-16 code
   * units, matches everything; a longer one matches when the name contains
   * it, ignoring case.
   */
  function MatchesQuery(product: Product, query: string): (r: bool)
    ensures Utf16Length(query) < Constants.QueryMinLengthToSearch ==> r
    ensures Utf16Length(query) >= Constants.QueryMinLengthToSearch ==>
              (r <==> exists i :: OccursAt(product.name, query, i))
  {
    Utf16Length(query) < Constants.QueryMinLengthToSearch
    || (Utf16Length(query) >= Constants.QueryMinLengthToSearch && ContainsIgnoreCase(product.name, query))
  }

  // ---------------------------------------------------------------------
  // Filters
  // ---------------------------------------------------------------------

  /** The filters whose selection flag is `selected`, in their original order. */
  function WithSelection(filters: seq<Filter>, selected: bool): (r: seq<Filter>)
    ensures |r| <= |filters|
  {
    if filters == [] then []
    else (if filters[0].isSelected == selected then [filters[0]] else []) + WithSelection(filters[1..], selected)
  }

  /** The filters kept are exactly those of `filters` carrying the flag `selected`. */
  lemma {:induction false} WithSelectionMembers(filters: seq<Filter>, selected: bool)
    ensures forall i :: 0 <= i < |WithSelection(filters, selected)| ==>
              WithSelection(filters, selected)[i] in filters && WithSelection(filters, selected)[i].isSelected == selected
    ensures forall i :: 0 <= i < |filters| && filters[i].isSelected == selected ==> filters[i] in WithSelection(filters, selected)
  {
    if filters != [] {
      WithSelectionMembers(filters[1..], selected);
      var head := if filters[0].isSelected == selected then [filters[0]] else [];
      assert WithSelection(filters, selected) == head + WithSelection(filters[1..], selected);
      assert forall i :: 1 <= i < |filters| ==> filters[i] == filters[1..][i - 1];
    }
  }

  /** Every filter kept carries the flag `selected`. */
  lemma {:induction false} WithSelectionFlags(filters: seq<Filter>, selected: bool)
    ensures forall i :: 0 <= i < |WithSelection(filters, selected)| ==> WithSelection(filters, selected)[i].isSelected == selected
  {
    if filters != [] {
      WithSelectionFlags(filters[1..], selected);
    }
  }

  /** When no filter carries the flag `selected`, none is kept. */
  lemma {:induction false} WithSelectionNone(filters: seq<Filter>, selected: bool)
    requires forall i :: 0 <= i < |filters| ==> filters[i].isSelected != selected
    ensures WithSelection(filters, selected) == []
  {
    if filters != [] {
      assert forall i :: 1 <= i < |filters| ==> filters[i] == filters[1..][i - 1];
      WithSelectionNone(filters[1..], selected);
    }
  }

  /** The filters in effect. */
  function ActiveFilters(filters: seq<Filter>): seq<Filter>
  {
    WithSelection(filters, true)
  }

  /** Places `f` in front of the first filter it does not rank below (selected ranks first). */
  function InsertBySelection(f: Filter, sorted: seq<Filter>): seq<Filter>
  {
    if sorted == [] then [f]
    else if f.isSelected || !sorted[0].isSelected then [f] + sorted
    else [sorted[0]] + InsertBySelection(f, sorted[1..])
  }

  /** Stable sort by descending selection flag: an insertion sort that keeps ties in order. */
  function SortedBySelection(filters: seq<Filter>): seq<Filter>
  {
    if filters == [] then [] else InsertBySelection(filters[0], SortedBySelection(filters[1..]))
  }

  /** Inserting an unselected filter skips the selected block and lands before the unselected ones. */
  lemma {:induction false} InsertUnselected(f: Filter, selected: seq<Filter>, unselected: seq<Filter>)
    requires !f.isSelected
    requires forall i :: 0 <= i < |selected| ==> selected[i].isSelected
    requires unselected == [] || !unselected[0].isSelected
    ensures InsertBySelection(f, selected + unselected) == selected + [f] + unselected
  {
    if selected != [] {
      assert (selected + unselected)[0] == selected[0];
      assert (selected + unselected)[1..] == selected[1..] + unselected;
      InsertUnselected(f, selected[1..], unselected);
    }
  }

  /** An unselected filter inserted into a sorted list lands right after the selected block. */
  lemma InsertUnselectedIntoSorted(f: Filter, rest: seq<Filter>)
    requires !f.isSelected
    ensures InsertBySelection(f, WithSelection(rest, true) + WithSelection(rest, false)) ==
            WithSelection(rest, true) + ([f] + WithSelection(rest, false))
  {
    WithSelectionFlags(rest, true);
    WithSelectionFlags(rest, false);
    InsertUnselected(f, WithSelection(rest, true), WithSelection(rest, false));
  }

  /**
   * The displayed order is all selected filters, then all unselected ones,
   * each group in its original relative order.
   */
  lemma {:induction false} SortedIsSelectedThenUnselected(filters: seq<Filter>)
    ensures SortedBySelection(filters) == WithSelection(filters, true) + WithSelection(filters, false)
  {
    if filters != [] {
      var rest := filters[1..];
      SortedIsSelectedThenUnselected(rest);
      var f := filters[0];
      var sel, unsel := WithSelection(rest, true), WithSelection(rest, false);
      assert SortedBySelection(filters) == InsertBySelection(f, sel + unsel);
      if f.isSelected {
        assert WithSelection(filters, true) == [f] + sel;
        assert WithSelection(filters, false) == unsel;
      } else {
        assert WithSelection(filters, true) == sel;
        assert WithSelection(filters, false) == [f] + unsel;
        InsertUnselectedIntoSorted(f, rest);
      }
    }
  }

  /** Picking by selection distributes over concatenation. */
  lemma {:induction false} WithSelectionAppend(a: seq<Filter>, b: seq<Filter>, selected: bool)
    ensures WithSelection(a + b, selected) == WithSelection(a, selected) + WithSelection(b, selected)
  {
    if a == [] {
      assert a + b == b;
    } else {
      assert (a + b)[0] == a[0];
      assert (a + b)[1..] == a[1..] + b;
      WithSelectionAppend(a[1..], b, selected);
      var head := if a[0].isSelected == selected then [a[0]] else [];
      assert WithSelection(a + b, selected) == head + (WithSelection(a[1..], selected) + WithSelection(b, selected));
    }
  }

  /** Picking by the same flag twice is picking once. */
  lemma {:induction false} WithSelectionTwice(filters: seq<Filter>, selected: bool)
    ensures WithSelection(WithSelection(filters, selected), selected) == WithSelection(filters, selected)
  {
    if filters != [] {
      WithSelectionTwice(filters[1..], selected);
      var head := if filters[0].isSelected == selected then [filters[0]] else [];
      WithSelectionAppend(head, WithSelection(filters[1..], selected), selected);
      assert WithSelection(head, selected) == head by {
        if head != [] { assert head[1..] == []; }
      }
    }
  }

  /**
   * The filters in effect on screen: the selected ones of the sorted list,
   * which are the selected ones of the unsorted list, in the same order.
   */
  function DisplayedActiveFilters(filters: seq<Filter>): (r: seq<Filter>)
    ensures r == ActiveFilters(filters)
  {
    var sorted := SortedBySelection(filters);
    SortedIsSelectedThenUnselected(filters);
    WithSelectionAppend(WithSelection(filters, true), WithSelection(filters, false), true);
    WithSelectionTwice(filters, true);
    WithSelectionFlags(filters, false);
    WithSelectionNone(WithSelection(filters, false), true);
    ActiveFilters(sorted)
  }

  /** Some filter in `active` accepts the product. */
  function AnyAccepts(active: seq<Filter>, product: Product): (r: bool)
    ensures r <==> exists i :: 0 <= i < |active| && active[i].condition.test(product)
  {
    if active == [] then false
    else
      active[0].condition.test(product) || (
        var r := AnyAccepts(active[1..], product);
        assert forall i :: 1 <= i < |active| ==> active[i] == active[1..][i - 1];
        r)
  }

  /** No active filter lets everything through; otherwise one accepting filter suffices. */
  function PassesFilters(product: Product, active: seq<Filter>): (r: bool)
    ensures active == [] ==> r
    ensures active != [] ==> (r <==> exists i :: 0 <= i < |active| && active[i].condition.test(product))
  {
    if active != [] then AnyAccepts(active, product) else true
  }

  predicate IsVisible(product: Product, query: string, active: seq<Filter>)
  {
    MatchesQuery(product, query) && PassesFilters(product, active)
  }

  /** `small` is `large` with some elements left out, order kept. */
  predicate IsSubsequence(small: seq<Product>, large: seq<Product>)
  {
    if small == [] then true
    else if large == [] then false
    else if small[0] == large[0] then IsSubsequence(small[1..], large[1..])
    else IsSubsequence(small, large[1..])
  }

  /** The products the list shows: those matching the query and passing the active filters, in catalogue order. */
  function VisibleProducts(products: seq<Product>, query: string, active: seq<Filter>): (r: seq<Product>)
    ensures IsSubsequence(r, products)
    ensures forall i :: 0 <= i < |r| ==> IsVisible(r[i], query, active)
    ensures forall i :: 0 <= i < |products| && IsVisible(products[i], query, active) ==> products[i] in r
  {
    if products == [] then []
    else if IsVisible(products[0], query, active) then
      [products[0]] + VisibleProducts(products[1..], query, active)
    else
      VisibleProducts(products[1..], query, active)
  }

  /**
   * Filtering keeps every copy of a visible product and no copy of a hidden
   * one: the list shown is the catalogue filtered, duplicates included.
   */
  lemma {:induction false} VisibleProductsKeepsMultiplicity(products: seq<Product>, query: string, active: seq<Filter>, x: Product)
    ensures multiset(VisibleProducts(products, query, active))[x] ==
              (if IsVisible(x, query, active) then multiset(products)[x] else 0)
  {
    if products != [] {
      var rest := VisibleProducts(products[1..], query, active);
      VisibleProductsKeepsMultiplicity(products[1..], query, active, x);
      assert products == [products[0]] + products[1..];
      assert multiset(products) == multiset{products[0]} + multiset(products[1..]);
      if IsVisible(products[0], query, active) {
        assert multiset([products[0]] + rest) == multiset{products[0]} + multiset(rest);
      }
    }
  }

  /** With a short query and no active filter the whole catalogue shows. */
  lemma {:induction false} NothingHiddenWithoutCriteria(products: seq<Product>, query: string)
    requires Utf16Length(query) < Constants.QueryMinLengthToSearch
    ensures VisibleProducts(products, query, []) == products
  {
    if products != [] {
      NothingHiddenWithoutCriteria(products[1..], query);
    }
  }

  /** Once the filters are cleared, the short-query list is the whole catalogue again. */
  lemma ClearedFiltersShowEverything(products: seq<Product>, filters: seq<Filter>, query: string)
    requires Utf16Length(query) < Constants.QueryMinLengthToSearch
    ensures VisibleProducts(products, query, DisplayedActiveFilters(ViewModel.ClearedFilters(filters))) == products
  {
    WithSelectionNone(ViewModel.ClearedFilters(filters), true);
    NothingHiddenWithoutCriteria(products, query);
  }

  /** A query holding a character that the text lacks, ignoring case, is not contained in it. */
  lemma MissingCharacterNotContained(text: string, query: string, k: int)
    requires 0 <= k < |query|
    requires forall j :: 0 <= j < |text| ==> !CharEqualsIgnoreCase(text[j], query[k])
    ensures !ContainsIgnoreCase(text, query)
  {
    forall i ensures !OccursAt(text, query, i) {
      if 0 <= i && i + |query| <= |text| {
        assert !CharEqualsIgnoreCase(text[i + k], query[k]);
      }
    }
  }

  /**
   * Two characters, one of them an emoji, are three UTF-16 code units, so
   * such a query is searched rather than ignored: a name without the emoji
   * does not match it.
   */
  lemma AstralQueryIsSearched(product: Product)
    requires forall j :: 0 <= j < |product.name| ==> product.name[j] != '\U{1F600}'
    ensures Utf16Length("a\U{1F600}") == 3
    ensures !MatchesQuery(product, "a\U{1F600}")
  {
    var query := "a\U{1F600}";
    assert query[1..][1..] == [];
    assert Utf16Length(query) == 3;
    MissingCharacterNotContained(product.name, query, 1);
  }

  /** A three-product catalogue shows exactly its visible products, in order. */
  lemma {:induction false} VisibleAmongThree(a: Product, b: Product, c: Product, query: string, active: seq<Filter>)
    ensures VisibleProducts([a, b, c], query, active) ==
            (if IsVisible(a, query, active) then [a] else []) +
            (if IsVisible(b, query, active) then [b] else []) +
            (if IsVisible(c, query, active) then [c] else [])
  {
    assert [c][1..] == [];
    assert VisibleProducts([c], query, active) == (if IsVisible(c, query, active) then [c] else []);
    assert [b, c][1..] == [c];
    assert VisibleProducts([b, c], query, active) ==
           (if IsVisible(b, query, active) then [b] else []) + VisibleProducts([c], query, active);
    assert [a, b, c][1..] == [b, c];
  }

  lemma VoucherNameContainsVoucher()
    ensures ContainsIgnoreCase("Cabify Voucher", "voucher")
  {
    assert OccursAt("Cabify Voucher", "voucher", 7);
  }

  lemma VoucherNameLacksGibberish()
    ensures !ContainsIgnoreCase("Cabify Voucher", "efesfsef")
  {
    MissingCharacterNotContained("Cabify Voucher", "efesfsef", 3);
  }

  lemma TshirtNameLacksVoucher()
    ensures !ContainsIgnoreCase("Cabify T-Shirt", "voucher")
  {
    MissingCharacterNotContained("Cabify T-Shirt", "voucher", 0);
  }

  lemma TshirtNameLacksGibberish()
    ensures !ContainsIgnoreCase("Cabify T-Shirt", "efesfsef")
  {
    MissingCharacterNotContained("Cabify T-Shirt", "efesfsef", 0);
  }

  lemma MugNameLacksVoucher()
    ensures !ContainsIgnoreCase("Cabify Coffee Mug", "voucher")
  {
    MissingCharacterNotContained("Cabify Coffee Mug", "voucher", 0);
  }

  lemma MugNameLacksGibberish()
    ensures !ContainsIgnoreCase("Cabify Coffee Mug", "efesfsef")
  {
    MissingCharacterNotContained("Cabify Coffee Mug", "efesfsef", 3);
  }

  /**
   * Searching an illustrative three-product catalogue for "voucher" finds
   * only the voucher, whatever the case of its name.
   */
  lemma VoucherSearchExample(voucher: Product, tshirt: Product, mug: Product)
    requires voucher.name == "Cabify Voucher" && tshirt.name == "Cabify T-Shirt" && mug.name == "Cabify Coffee Mug"
    ensures VisibleProducts([voucher, tshirt, mug], "voucher", []) == [voucher]
  {
    assert IsVisible(voucher, "voucher", []) by { VoucherNameContainsVoucher(); }
    assert !IsVisible(tshirt, "voucher", []) by { TshirtNameLacksVoucher(); }
    assert !IsVisible(mug, "voucher", []) by { MugNameLacksVoucher(); }
    VisibleAmongThree(voucher, tshirt, mug, "voucher", []);
  }

  /** A word occurring in no name hides the whole catalogue. */
  lemma UnknownWordSearchExample(voucher: Product, tshirt: Product, mug: Product)
    requires voucher.name == "Cabify Voucher" && tshirt.name == "Cabify T-Shirt" && mug.name == "Cabify Coffee Mug"
    ensures VisibleProducts([voucher, tshirt, mug], "efesfsef", []) == []
  {
    assert !IsVisible(voucher, "efesfsef", []) by { VoucherNameLacksGibberish(); }
    assert !IsVisible(tshirt, "efesfsef", []) by { TshirtNameLacksGibberish(); }
    assert !IsVisible(mug, "efesfsef", []) by { MugNameLacksGibberish(); }
    VisibleAmongThree(voucher, tshirt, mug, "efesfsef", []);
  }

  /** Selecting only the two-for-one filter, with an empty query, shows the voucher alone. */
  lemma TwoForOneFilterExample(voucher: Product, tshirt: Product, mug: Product,
                               twoForOne: FilterPredicate, bulk: FilterPredicate, twoForOneName: string, bulkName: string)
    requires voucher.discountType.TwoForOne? && tshirt.discountType.Bulk? && mug.discountType.None?
    requires twoForOne.test(voucher) && !twoForOne.test(tshirt) && !twoForOne.test(mug)
    ensures VisibleProducts([voucher, tshirt, mug], "",
              DisplayedActiveFilters([Filter(twoForOneName, true, twoForOne), Filter(bulkName, false, bulk)])) == [voucher]
  {
    var one := [Filter(twoForOneName, true, twoForOne), Filter(bulkName, false, bulk)];
    assert DisplayedActiveFilters(one) == [one[0]] by {
      assert one[1..] == [Filter(bulkName, false, bulk)];
      assert one[1..][1..] == [];
      assert WithSelection(one[1..], true) == [];
    }
    assert AnyAccepts([one[0]], voucher) && !AnyAccepts([one[0]], tshirt) && !AnyAccepts([one[0]], mug);
    VisibleAmongThree(voucher, tshirt, mug, "", [one[0]]);
  }

  /** Selecting both filters, with an empty query, shows the voucher and the T-shirt. */
  lemma BothFiltersExample(voucher: Product, tshirt: Product, mug: Product,
                           twoForOne: FilterPredicate, bulk: FilterPredicate, twoForOneName: string, bulkName: string)
    requires voucher.discountType.TwoForOne? && tshirt.discountType.Bulk? && mug.discountType.None?
    requires twoForOne.test(voucher) && !twoForOne.test(tshirt) && !twoForOne.test(mug)
    requires !bulk.test(voucher) && bulk.test(tshirt) && !bulk.test(mug)
    ensures VisibleProducts([voucher, tshirt, mug], "",
              DisplayedActiveFilters([Filter(twoForOneName, true, twoForOne), Filter(bulkName, true, bulk)])) == [voucher, tshirt]
  {
    var both := [Filter(twoForOneName, true, twoForOne), Filter(bulkName, true, bulk)];
    assert DisplayedActiveFilters(both) == both by {
      assert both[1..] == [Filter(bulkName, true, bulk)];
      assert WithSelection(both[1..], true) == [both[1]];
      assert WithSelection(both, true) == [both[0]] + [both[1]];
    }
    assert |both| == 2 && both[0].condition == twoForOne && both[1].condition == bulk;
    assert AnyAccepts(both, voucher) && AnyAccepts(both, tshirt);
    assert !AnyAccepts(both, mug) by {
      forall i | 0 <= i < |both| ensures !both[i].condition.test(mug) { }
    }
    VisibleAmongThree(voucher, tshirt, mug, "", both);
  }


  // ---------------------------------------------------------------------
  // Cart button
  // ---------------------------------------------------------------------

  /** The badge counts distinct cart lines, capped at 99. */
  function BadgeCount(cart: map<Product, int>): (r: int)
    ensures 0 <= r <= 99
    ensures |cart| <= 99 ==> r == |cart|
    ensures |cart| > 99 ==> r == 99
  {
    if |cart| > 99 then 99 else |cart|
  }

  /** The badge shows only for a non-empty cart. */
  function ShowBadge(cart: map<Product, int>): (r: bool)
    ensures r <==> cart != map[]
  {
    |cart| != 0
  }

  /** The cart button hides while the list scrolls down and shows again once it does not. */
  class FabState {
    var showFab: bool
    var currentScrollDirection: ScrollDirection

    constructor ()
      ensures showFab && currentScrollDirection == ScrollDirection.None
    {
      showFab := true;
      currentScrollDirection := ScrollDirection.None;
    }

    /** A new scroll direction was reported. */
    method ScrollDirectionChanged(scrollDirection: ScrollDirection)
      modifies this
      ensures !showFab <==> old(currentScrollDirection) == Down || scrollDirection == Down
      ensures currentScrollDirection == scrollDirection
    {
      showFab := currentScrollDirection != Down && scrollDirection != Down;
      currentScrollDirection := scrollDirection;
    }
  }
}
