/**
 * The store page (screens/public-pages/store-details-screen.js): the
 * quick "add" on a menu card, the modal's add-to-cart callback, the
 * other-store banner guard and the menu search.
 */
module StoreDetails {
  import opened Wrappers
  import opened Text
  import opened JsValues
  import opened CartModel
  import opened Catalog
  import MenuItemModal
  import opened OrdersContext
  import OrdersContextLemmas

  /**
   * `handleAddToCart`: a priced item becomes a one-unit line without
   * add-ons, from this screen's store; an item whose price is missing, not
   * a number, zero or negative adds nothing.
   */
  function QuickAddLine(store: Store, item: MenuItem): Option<CartLine> {
    var price := OrZero(item.price);
    if price <= 0 then None
    else
      Some(CartLine(Item(item.id, OrStr(OrStr(item.name, item.nameAr), item.nameEn), price, item.image),
                    [], 1, price * 1, Some(store), None))
  }

  /** The card's add button, dispatching through the cart provider. */
  method HandleAddToCart(cart: Cart, store: Store, item: MenuItem)
    modifies cart
    ensures QuickAddLine(store, item).None? ==> cart.state == old(cart.state)
    ensures QuickAddLine(store, item).Some? ==>
      cart.state == Reduce(old(cart.state), Action.AddToCart(QuickAddLine(store, item).value))
  {
    var line := QuickAddLine(store, item);
    if line.Some? {
      cart.AddToCart(line.value);
    }
  }

  /**
   * A quick add happens exactly for a positive price; the line carries one
   * unit at that price, no add-ons, the screen's store and the item's id.
   */
  lemma QuickAddShape(store: Store, item: MenuItem)
    ensures QuickAddLine(store, item).Some? <==> item.price.Finite? && item.price.v > 0
    ensures QuickAddLine(store, item).Some? ==>
      var l := QuickAddLine(store, item).value;
      && l.quantity == 1 && l.addons == [] && l.total == item.price.v && l.item.price == item.price.v
      && l.item.id == item.id && l.store == Some(store)
  {
  }

  /** The first quick add into an empty cart sets the cart's store to this screen's store. */
  lemma QuickAddFromEmpty(store: Store, item: MenuItem)
    requires QuickAddLine(store, item).Some?
    ensures Reduce(InitialState, Action.AddToCart(QuickAddLine(store, item).value)) ==
      CartState(Some(store), [QuickAddLine(store, item).value])
  {
  }

  /**
   * Quick-adding an item not yet in the cart twice leaves one new line of
   * two units costing twice the price.
   */
  lemma QuickAddTwice(s: CartState, store: Store, item: MenuItem)
    requires QuickAddLine(store, item).Some?
    requires forall i :: 0 <= i < |s.orders| ==> !SameConfiguration(s.orders[i], QuickAddLine(store, item).value)
    ensures var l := QuickAddLine(store, item).value;
      var r := Reduce(Reduce(s, Action.AddToCart(l)), Action.AddToCart(l));
      && |r.orders| == |s.orders| + 1
      && r.orders[..|s.orders|] == s.orders
      && r.orders[|s.orders|].quantity == 2
      && r.orders[|s.orders|].total == 2 * item.price.v
  {
    var l := QuickAddLine(store, item).value;
    OrdersContextLemmas.AddTwiceMerges(s, l, l);
  }

  /**
   * The modal's `onAddToCart`: every group's options flattened into the
   * line, and a total of (price + add-ons) times the quantity. There is no
   * price guard here.
   */
  function ModalAddLine(store: Store, sub: MenuItemModal.Submission): CartLine {
    var price := OrZero(sub.item.price);
    var addons := MenuItemModal.Flatten(sub.selected);
    var total := (price + MenuItemModal.SumPrices(addons)) * sub.quantity;
    CartLine(Item(sub.item.id, OrStr(OrStr(sub.item.nameAr, sub.item.nameEn), sub.item.name), price, sub.item.image),
             addons, sub.quantity, total, Some(store), None)
  }

  /** The callback wired to the modal, dispatching through the cart provider. */
  method OnModalAdd(cart: Cart, store: Store, sub: MenuItemModal.Submission)
    modifies cart
    ensures cart.state == Reduce(old(cart.state), Action.AddToCart(ModalAddLine(store, sub)))
  {
    cart.AddToCart(ModalAddLine(store, sub));
  }

  /** The line's total is the total the modal displayed on its add button. */
  lemma ModalLineTotalIsDisplayedTotal(store: Store, it: MenuItem, quantity: int, sel: MenuItemModal.Selection)
    ensures ModalAddLine(store, MenuItemModal.Submission(it, quantity, sel)).total ==
      (MenuItemModal.BasePrice(Some(it)) + MenuItemModal.SelectionPrice(sel)) * quantity
    ensures ModalAddLine(store, MenuItemModal.Submission(it, quantity, sel)).quantity == quantity
  {
    MenuItemModal.FlattenPrice(sel);
  }

  /** Every chosen option of every group ends up among the line's add-ons. */
  lemma {:induction false} ModalLineKeepsChoices(sel: MenuItemModal.Selection, g: nat, a: Addon)
    requires g < |sel| && a in sel[g].value
    ensures a in MenuItemModal.Flatten(sel)
  {
    if g > 0 {
      ModalLineKeepsChoices(sel[1..], g - 1, a);
    }
  }

  /** Every add-on of the line is an option chosen in some group. */
  lemma {:induction false} ModalLineOnlyChoices(sel: MenuItemModal.Selection, a: Addon)
    requires a in MenuItemModal.Flatten(sel)
    ensures exists g :: 0 <= g < |sel| && a in sel[g].value
  {
    if a !in sel[0].value {
      ModalLineOnlyChoices(sel[1..], a);
      var g :| 0 <= g < |sel[1..]| && a in sel[1..][g].value;
      assert sel[g + 1] == sel[1..][g];
    }
  }

  /** `hasConflictingOrder`: the cart's first line is not from this store. */
  predicate HasConflictingOrder(orders: seq<CartLine>, store: Store) {
    |orders| > 0 && (orders[0].store.None? || orders[0].store.value.id != store.id)
  }

  /**
   * Adding a line from this store never raises the banner: the first line
   * keeps its store when a line is merged or appended, and a first line is
   * this store's own.
   */
  lemma AddFromThisStoreNoConflict(s: CartState, line: CartLine, store: Store)
    requires !HasConflictingOrder(s.orders, store)
    requires line.store == Some(store)
    ensures !HasConflictingOrder(Reduce(s, Action.AddToCart(line)).orders, store)
  {
    var r := Reduce(s, Action.AddToCart(line));
    if |s.orders| > 0 {
      assert r.orders[0].store == s.orders[0].store;
    }
  }

  /** A line from another store at the head of the cart raises the banner. */
  lemma OtherStoreConflicts(orders: seq<CartLine>, store: Store, other: Store)
    requires |orders| > 0 && orders[0].store == Some(other) && other.id != store.id
    ensures HasConflictingOrder(orders, store)
  {
  }

  // ---------------------------------------------------------------------
  // Menu search

  /** `(language === 'ar' ? item.name_ar : item.name_en) || item.name`. */
  function DisplayName(item: MenuItem, arabic: bool): Option<string> {
    OrStr(if arabic then item.nameAr else item.nameEn, item.name)
  }

  /** `name?.toLowerCase().includes(searchQuery.toLowerCase())`. */
  predicate MatchesQuery(item: MenuItem, arabic: bool, query: string) {
    var name := DisplayName(item, arabic);
    name.Some? && Contains(Lower(name.value), Lower(query))
  }

  /** `category.items.filter(...)`. */
  function FilterItems(items: seq<MenuItem>, arabic: bool, query: string): seq<MenuItem> {
    if items == [] then []
    else
      var rest := FilterItems(items[1..], arabic, query);
      if MatchesQuery(items[0], arabic, query) then [items[0]] + rest else rest
  }

  /** `menuData.map(category => ({...category, items: <its matching items>}))`. */
  function WithMatches(menu: seq<Category>, arabic: bool, query: string): seq<Category> {
    seq(|menu|, k requires 0 <= k < |menu| => menu[k].(items := FilterItems(menu[k].items, arabic, query)))
  }

  /** `.filter(category => category.items.length > 0)`. */
  function NonEmpty(cs: seq<Category>): seq<Category> {
    if cs == [] then []
    else (if |cs[0].items| > 0 then [cs[0]] else []) + NonEmpty(cs[1..])
  }

  /** `filteredMenuData`: each category's matching items; categories left empty are dropped. */
  function FilterMenu(menu: seq<Category>, arabic: bool, query: string): seq<Category> {
    NonEmpty(WithMatches(menu, arabic, query))
  }

  /**
   * An item is kept exactly when it is in the category and matches the
   * query, and then as many times as the category lists it.
   */
  lemma {:induction false} FilterItemsExact(items: seq<MenuItem>, arabic: bool, query: string, x: MenuItem)
    ensures x in FilterItems(items, arabic, query) <==> x in items && MatchesQuery(x, arabic, query)
    ensures multiset(FilterItems(items, arabic, query))[x] ==
      if MatchesQuery(x, arabic, query) then multiset(items)[x] else 0
  {
    if items != [] {
      FilterItemsExact(items[1..], arabic, query, x);
      assert items == [items[0]] + items[1..];
    }
  }

  /** The item filter keeps the kept items in the category's order. */
  lemma {:induction false} FilterItemsAppend(a: seq<MenuItem>, b: seq<MenuItem>, arabic: bool, query: string)
    ensures FilterItems(a + b, arabic, query) == FilterItems(a, arabic, query) + FilterItems(b, arabic, query)
  {
    if a != [] {
      assert (a + b)[1..] == a[1..] + b;
      FilterItemsAppend(a[1..], b, arabic, query);
    } else {
      assert a + b == b;
    }
  }

  /** The menu filter keeps the shown categories in the menu's order. */
  lemma FilterMenuAppend(a: seq<Category>, b: seq<Category>, arabic: bool, query: string)
    ensures FilterMenu(a + b, arabic, query) == FilterMenu(a, arabic, query) + FilterMenu(b, arabic, query)
  {
    assert WithMatches(a + b, arabic, query) == WithMatches(a, arabic, query) + WithMatches(b, arabic, query);
    NonEmptyAppend(WithMatches(a, arabic, query), WithMatches(b, arabic, query));
  }

  lemma {:induction false} NonEmptyAppend(a: seq<Category>, b: seq<Category>)
    ensures NonEmpty(a + b) == NonEmpty(a) + NonEmpty(b)
  {
    if a == [] {
      assert a + b == b;
    } else {
      var t := a[1..];
      var h := if |a[0].items| > 0 then [a[0]] else [];
      assert (a + b)[0] == a[0] && (a + b)[1..] == t + b;
      calc {
        NonEmpty(a + b);
        h + NonEmpty(t + b);
        { NonEmptyAppend(t, b); }
        h + (NonEmpty(t) + NonEmpty(b));
        (h + NonEmpty(t)) + NonEmpty(b);
        NonEmpty(a) + NonEmpty(b);
      }
    }
  }

  /** A category survives exactly when it is listed and has items. */
  lemma {:induction false} NonEmptyMembers(cs: seq<Category>, c: Category)
    ensures c in NonEmpty(cs) <==> c in cs && |c.items| > 0
  {
    if cs != [] {
      NonEmptyMembers(cs[1..], c);
      assert cs == [cs[0]] + cs[1..];
    }
  }

  /**
   * Every category shown is an input category, under the same id, with
   * exactly its matching items, and none is empty.
   */
  lemma FilterMenuShape(menu: seq<Category>, arabic: bool, query: string, c: Category)
    requires c in FilterMenu(menu, arabic, query)
    ensures |c.items| > 0
    ensures exists k :: 0 <= k < |menu| && menu[k].id == c.id && c.items == FilterItems(menu[k].items, arabic, query)
  {
    NonEmptyMembers(WithMatches(menu, arabic, query), c);
    var k :| 0 <= k < |menu| && WithMatches(menu, arabic, query)[k] == c;
    assert menu[k].id == c.id;
  }

  /** A category with a matching item is shown. */
  lemma FilterMenuKeepsMatches(menu: seq<Category>, arabic: bool, query: string, k: nat)
    requires k < |menu| && |FilterItems(menu[k].items, arabic, query)| > 0
    ensures menu[k].(items := FilterItems(menu[k].items, arabic, query)) in FilterMenu(menu, arabic, query)
  {
    var c := menu[k].(items := FilterItems(menu[k].items, arabic, query));
    assert WithMatches(menu, arabic, query)[k] == c;
    NonEmptyMembers(WithMatches(menu, arabic, query), c);
  }

  /** An empty query keeps every item that has a name to show. */
  lemma EmptyQueryMatchesNamed(item: MenuItem, arabic: bool)
    ensures MatchesQuery(item, arabic, "") <==> DisplayName(item, arabic).Some?
  {
    if DisplayName(item, arabic).Some? {
      ContainsEmpty(Lower(DisplayName(item, arabic).value));
    }
  }

  /** The search ignores the letter case of the query. */
  lemma QueryCaseIgnored(item: MenuItem, arabic: bool, query: string)
    ensures MatchesQuery(item, arabic, Lower(query)) == MatchesQuery(item, arabic, query)
  {
    LowerIdempotent(query);
  }
}
