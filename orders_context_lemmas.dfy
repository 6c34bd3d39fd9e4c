/** Properties of the cart reducer (context/orders-context.js:13-120). */
module OrdersContextLemmas {
  import opened Wrappers
  import opened CartModel
  import opened OrdersContext
  import AddonKeys

  // ---------------------------------------------------------------- ADD_TO_CART

  /**
   * A candidate whose configuration matches line `k`, and no earlier line,
   * is merged into line `k`: quantity and total grow, nothing else changes,
   * the cart's store included.
   */
  lemma AddMergesIntoFirstMatch(s: CartState, line: CartLine, k: nat)
    requires k < |s.orders| && SameConfiguration(s.orders[k], line)
    requires forall j :: 0 <= j < k ==> !SameConfiguration(s.orders[j], line)
    ensures |Reduce(s, AddToCart(line)).orders| == |s.orders|
    ensures Reduce(s, AddToCart(line)).store == s.store
    ensures Reduce(s, AddToCart(line)).orders[k].quantity == s.orders[k].quantity + line.quantity
    ensures Reduce(s, AddToCart(line)).orders[k].total == s.orders[k].total + line.total
    ensures Reduce(s, AddToCart(line)).orders[k].item == s.orders[k].item
    ensures Reduce(s, AddToCart(line)).orders[k].addons == s.orders[k].addons
    ensures Reduce(s, AddToCart(line)).orders[k].store == s.orders[k].store
    ensures forall j :: 0 <= j < |s.orders| && j != k ==> Reduce(s, AddToCart(line)).orders[j] == s.orders[j]
  {
    var i := FindIndex(s.orders, line);
    assert i != -1;
    assert i == k;
  }

  /** A candidate matching no line is appended; the store follows it when it names one. */
  lemma AddAppendsNewConfiguration(s: CartState, line: CartLine)
    requires forall i :: 0 <= i < |s.orders| ==> !SameConfiguration(s.orders[i], line)
    ensures Reduce(s, AddToCart(line)).orders == s.orders + [line]
    ensures Reduce(s, AddToCart(line)).store == if line.store.Some? then line.store else s.store
  {
  }

  /** Two add-on lists with the same key multiset select the same line. */
  lemma {:induction false} MatchIgnoresAddonOrder(orders: seq<CartLine>, line: CartLine, addons: seq<Addon>)
    requires multiset(AddonKeys.Keys(line.addons)) == multiset(AddonKeys.Keys(addons))
    ensures FindIndex(orders, line) == FindIndex(orders, line.(addons := addons))
  {
    var other := line.(addons := addons);
    if orders != [] {
      AddonKeys.SameAddonsIsMultisetEquality(orders[0].addons, line.addons);
      AddonKeys.SameAddonsIsMultisetEquality(orders[0].addons, addons);
      MatchIgnoresAddonOrder(orders[1..], line, addons);
    }
  }

  /**
   * Adding the same configuration twice (add-ons in any order) to a cart
   * that did not hold it yields one new line with the summed quantity and
   * total; the earlier lines are untouched.
   */
  lemma AddTwiceMerges(s: CartState, l1: CartLine, l2: CartLine)
    requires forall i :: 0 <= i < |s.orders| ==> !SameConfiguration(s.orders[i], l1)
    requires l2.item.id == l1.item.id
    requires multiset(AddonKeys.Keys(l2.addons)) == multiset(AddonKeys.Keys(l1.addons))
    ensures var r := Reduce(Reduce(s, AddToCart(l1)), AddToCart(l2));
      && |r.orders| == |s.orders| + 1
      && r.orders[..|s.orders|] == s.orders
      && r.orders[|s.orders|] == l1.(quantity := l1.quantity + l2.quantity, total := l1.total + l2.total)
  {
    var n := |s.orders|;
    AddAppendsNewConfiguration(s, l1);
    var mid := Reduce(s, AddToCart(l1));
    SecondAddFindsFirst(s.orders, l1, l2);
    AddMergesAt(mid, l2, n);
    MergeAtAppended(s.orders, l1, l2);
  }

  /** When `findIndex` finds line `k`, ADD_TO_CART grows that line and leaves the list otherwise as it was. */
  lemma AddMergesAt(s: CartState, line: CartLine, k: nat)
    requires k < |s.orders| && FindIndex(s.orders, line) == k
    ensures Reduce(s, AddToCart(line)).orders == MergeAt(s.orders, k, line)
  {
  }

  lemma MergeAtAppended(orders: seq<CartLine>, l1: CartLine, l2: CartLine)
    ensures var r := MergeAt(orders + [l1], |orders|, l2);
      && |r| == |orders| + 1
      && r[..|orders|] == orders
      && r[|orders|] == l1.(quantity := l1.quantity + l2.quantity, total := l1.total + l2.total)
  {
    assert (orders + [l1])[..|orders|] == orders;
  }

  lemma SecondAddFindsFirst(orders: seq<CartLine>, l1: CartLine, l2: CartLine)
    requires forall i :: 0 <= i < |orders| ==> !SameConfiguration(orders[i], l1)
    requires l2.item.id == l1.item.id
    requires multiset(AddonKeys.Keys(l2.addons)) == multiset(AddonKeys.Keys(l1.addons))
    ensures FindIndex(orders + [l1], l2) == |orders|
  {
    var n := |orders|;
    NoMatchTransfers(orders, l1, l2);
    assert forall i :: 0 <= i < n ==> (orders + [l1])[i] == orders[i];
    AddonKeys.SameAddonsIsMultisetEquality(l1.addons, l2.addons);
    assert SameConfiguration((orders + [l1])[n], l2);
  }

  lemma NoMatchTransfers(orders: seq<CartLine>, l1: CartLine, l2: CartLine)
    requires forall i :: 0 <= i < |orders| ==> !SameConfiguration(orders[i], l1)
    requires l2.item.id == l1.item.id
    requires multiset(AddonKeys.Keys(l2.addons)) == multiset(AddonKeys.Keys(l1.addons))
    ensures forall i :: 0 <= i < |orders| ==> !SameConfiguration(orders[i], l2)
  {
    forall i | 0 <= i < |orders| ensures !SameConfiguration(orders[i], l2) {
      AddonKeys.SameAddonsIsMultisetEquality(orders[i].addons, l1.addons);
      AddonKeys.SameAddonsIsMultisetEquality(orders[i].addons, l2.addons);
    }
  }

  /** Matching looks only at the item id and the add-ons of the candidate. */
  lemma {:induction false} FindIndexIgnoresOtherFields(orders: seq<CartLine>, a: CartLine, b: CartLine)
    requires a.item.id == b.item.id && a.addons == b.addons
    ensures FindIndex(orders, a) == FindIndex(orders, b)
  {
    if orders != [] {
      FindIndexIgnoresOtherFields(orders[1..], a, b);
    }
  }

  /** An item without extras is never merged with the same item carrying extras. */
  lemma AddDistinguishesExtras(plain: CartLine, extra: CartLine)
    requires plain.addons == [] && extra.addons != [] && plain.item.id == extra.item.id
    ensures |Reduce(Reduce(InitialState, AddToCart(plain)), AddToCart(extra)).orders| == 2
  {
    AddonKeys.SameAddonsEmpty(extra.addons);
  }

  // ----------------------------------------------------------- REMOVE_FROM_CART

  /** Removing keeps lines with other ids in their order. */
  lemma {:induction false} WithoutItemAppend(a: seq<CartLine>, b: seq<CartLine>, itemId: string)
    ensures WithoutItem(a + b, itemId) == WithoutItem(a, itemId) + WithoutItem(b, itemId)
  {
    if a != [] {
      assert (a + b)[1..] == a[1..] + b;
      WithoutItemAppend(a[1..], b, itemId);
    } else {
      assert a + b == b;
    }
  }

  /** Removing an id no line has changes nothing. */
  lemma {:induction false} WithoutAbsentItem(orders: seq<CartLine>, itemId: string)
    requires forall i :: 0 <= i < |orders| ==> orders[i].item.id != itemId
    ensures WithoutItem(orders, itemId) == orders
  {
    if orders != [] {
      WithoutAbsentItem(orders[1..], itemId);
      assert orders == [orders[0]] + orders[1..];
    }
  }

  /**
   * After REMOVE_FROM_CART no line has the id, every line with another id
   * is still there, and the store is unchanged even if the cart emptied.
   */
  lemma RemoveDropsEveryVariant(s: CartState, itemId: string)
    ensures forall i :: 0 <= i < |Reduce(s, RemoveFromCart(itemId)).orders| ==>
      Reduce(s, RemoveFromCart(itemId)).orders[i].item.id != itemId
    ensures forall i :: 0 <= i < |s.orders| && s.orders[i].item.id != itemId ==>
      s.orders[i] in Reduce(s, RemoveFromCart(itemId)).orders
    ensures Reduce(s, RemoveFromCart(itemId)).store == s.store
  {
  }

  /** Removing an absent id is a no-op, so removing twice is removing once. */
  lemma RemoveIdempotent(s: CartState, itemId: string)
    ensures Reduce(Reduce(s, RemoveFromCart(itemId)), RemoveFromCart(itemId)) == Reduce(s, RemoveFromCart(itemId))
  {
    WithoutAbsentItem(WithoutItem(s.orders, itemId), itemId);
  }

  lemma RemoveAbsentIsNoop(s: CartState, itemId: string)
    requires forall i :: 0 <= i < |s.orders| ==> s.orders[i].item.id != itemId
    ensures Reduce(s, RemoveFromCart(itemId)) == s
  {
    WithoutAbsentItem(s.orders, itemId);
  }

  // ------------------------------------------------------------ UPDATE_QUANTITY

  /** A non-positive quantity removes the item, exactly like REMOVE_FROM_CART. */
  lemma UpdateToZeroRemoves(s: CartState, itemId: string, q: int)
    requires q <= 0
    ensures Reduce(s, UpdateQuantity(itemId, q)) == Reduce(s, RemoveFromCart(itemId))
  {
  }

  lemma {:induction false} SetQuantityOfAt(orders: seq<CartLine>, itemId: string, q: int, i: nat)
    requires i < |orders|
    ensures SetQuantityOf(orders, itemId, q)[i] ==
      if orders[i].item.id == itemId then Requantified(orders[i], q) else orders[i]
  {
    if i > 0 {
      SetQuantityOfAt(orders[1..], itemId, q, i - 1);
    }
  }

  /**
   * A positive quantity is written into every line of the item, whose
   * total becomes `item.price * q` (any add-on cost is dropped); other
   * lines and the store stay as they were.
   */
  lemma UpdateSetsEveryVariant(s: CartState, itemId: string, q: int)
    requires q > 0
    ensures |Reduce(s, UpdateQuantity(itemId, q)).orders| == |s.orders|
    ensures Reduce(s, UpdateQuantity(itemId, q)).store == s.store
    ensures forall i :: 0 <= i < |s.orders| && s.orders[i].item.id == itemId ==>
      var l := Reduce(s, UpdateQuantity(itemId, q)).orders[i];
      l.quantity == q && l.total == s.orders[i].item.price * q &&
      l.item == s.orders[i].item && l.addons == s.orders[i].addons && l.store == s.orders[i].store
    ensures forall i :: 0 <= i < |s.orders| && s.orders[i].item.id != itemId ==>
      Reduce(s, UpdateQuantity(itemId, q)).orders[i] == s.orders[i]
  {
    forall i | 0 <= i < |s.orders| {
      SetQuantityOfAt(s.orders, itemId, q, i);
    }
  }

  /** The documented add-on drop: a one-line cart re-priced from the base price only. */
  lemma UpdateDropsAddonCost(store: Option<Store>, line: CartLine, q: int)
    requires q > 0
    ensures Reduce(CartState(store, [line]), UpdateQuantity(line.item.id, q)).orders ==
      [line.(quantity := q, total := line.item.price * q)]
  {
  }

  // ---------------------------------------------------------- DECREASE_QUANTITY

  lemma {:induction false} DecrementedAt(orders: seq<CartLine>, itemId: string, i: nat)
    requires i < |orders|
    ensures Decremented(orders, itemId)[i] ==
      if orders[i].item.id == itemId then Requantified(orders[i], orders[i].quantity - 1) else orders[i]
  {
    if i > 0 {
      DecrementedAt(orders[1..], itemId, i - 1);
    }
  }

  /**
   * DECREASE_QUANTITY never lengthens the cart, leaves only positive
   * quantities, keeps the store, keeps every other positive line and keeps
   * each line of the item that had more than one unit with one unit less
   * and total `price * newQty`.
   */
  lemma DecreaseEffect(s: CartState, itemId: string)
    ensures |Reduce(s, DecreaseQuantity(itemId)).orders| <= |s.orders|
    ensures forall l :: l in Reduce(s, DecreaseQuantity(itemId)).orders ==> l.quantity > 0
    ensures Reduce(s, DecreaseQuantity(itemId)).store == s.store
    ensures forall i :: 0 <= i < |s.orders| && s.orders[i].item.id != itemId && s.orders[i].quantity > 0 ==>
      s.orders[i] in Reduce(s, DecreaseQuantity(itemId)).orders
    ensures forall i :: 0 <= i < |s.orders| && s.orders[i].item.id == itemId && s.orders[i].quantity > 1 ==>
      Requantified(s.orders[i], s.orders[i].quantity - 1) in Reduce(s, DecreaseQuantity(itemId)).orders
  {
    var d := Decremented(s.orders, itemId);
    forall i | 0 <= i < |s.orders| {
      DecrementedAt(s.orders, itemId, i);
    }
    forall l | l in Reduce(s, DecreaseQuantity(itemId)).orders ensures l.quantity > 0 {
      var r := PositiveOnly(d);
      var k :| 0 <= k < |r| && r[k] == l;
    }
  }

  /** Decrementing works line by line. */
  lemma {:induction false} DecrementedAppend(a: seq<CartLine>, b: seq<CartLine>, itemId: string)
    ensures Decremented(a + b, itemId) == Decremented(a, itemId) + Decremented(b, itemId)
  {
    if a != [] {
      assert (a + b)[1..] == a[1..] + b;
      DecrementedAppend(a[1..], b, itemId);
    } else {
      assert a + b == b;
    }
  }

  /** The positive-quantity filter keeps the surviving lines in their order. */
  lemma {:induction false} PositiveOnlyAppend(a: seq<CartLine>, b: seq<CartLine>)
    ensures PositiveOnly(a + b) == PositiveOnly(a) + PositiveOnly(b)
  {
    if a != [] {
      assert (a + b)[1..] == a[1..] + b;
      PositiveOnlyAppend(a[1..], b);
    } else {
      assert a + b == b;
    }
  }

  /**
   * DECREASE_QUANTITY distributes over concatenation: the surviving lines
   * keep their order, and no line affects another.
   */
  lemma DecreaseAppend(store: Option<Store>, a: seq<CartLine>, b: seq<CartLine>, itemId: string)
    ensures Reduce(CartState(store, a + b), DecreaseQuantity(itemId)).orders ==
      Reduce(CartState(store, a), DecreaseQuantity(itemId)).orders +
      Reduce(CartState(store, b), DecreaseQuantity(itemId)).orders
  {
    DecrementedAppend(a, b, itemId);
    PositiveOnlyAppend(Decremented(a, itemId), Decremented(b, itemId));
  }

  /**
   * A line with a single unit disappears when decreased, wherever it sits:
   * the result is that of the cart without it, and so shorter than the cart.
   */
  lemma DecreaseLastUnitRemoves(store: Option<Store>, a: seq<CartLine>, line: CartLine, b: seq<CartLine>)
    requires line.quantity == 1
    ensures Reduce(CartState(store, a + [line] + b), DecreaseQuantity(line.item.id)) ==
      Reduce(CartState(store, a + b), DecreaseQuantity(line.item.id))
    ensures |Reduce(CartState(store, a + [line] + b), DecreaseQuantity(line.item.id)).orders| < |a| + 1 + |b|
  {
    var id := line.item.id;
    UnitLineDropped(a, line, b);
    DecreaseEffect(CartState(store, a + b), id);
  }

  lemma UnitLineDropped(a: seq<CartLine>, line: CartLine, b: seq<CartLine>)
    requires line.quantity == 1
    ensures PositiveOnly(Decremented(a + [line] + b, line.item.id)) == PositiveOnly(Decremented(a + b, line.item.id))
  {
    var id := line.item.id;
    var da, dl, db := Decremented(a, id), Decremented([line], id), Decremented(b, id);
    DecrementedAppend(a + [line], b, id);
    DecrementedAppend(a, [line], id);
    DecrementedAppend(a, b, id);
    UnitLineDecrementsAway(line);
    calc {
      PositiveOnly(Decremented(a + [line] + b, id));
      PositiveOnly(da + dl + db);
      { PositiveOnlyAppend(da + dl, db); }
      PositiveOnly(da + dl) + PositiveOnly(db);
      { PositiveOnlyAppend(da, dl); }
      PositiveOnly(da) + PositiveOnly(dl) + PositiveOnly(db);
      PositiveOnly(da) + PositiveOnly(db);
      { PositiveOnlyAppend(da, db); }
      PositiveOnly(da + db);
    }
  }

  lemma UnitLineDecrementsAway(line: CartLine)
    requires line.quantity == 1
    ensures PositiveOnly(Decremented([line], line.item.id)) == []
  {
    assert [line][1..] == [];
    assert Decremented([line], line.item.id) == [Requantified(line, 0)];
  }

  /** Decreasing an absent id in a cart of positive quantities changes nothing. */
  lemma {:induction false} DecreaseAbsentIsNoop(orders: seq<CartLine>, itemId: string)
    requires AllPositive(orders)
    requires forall i :: 0 <= i < |orders| ==> orders[i].item.id != itemId
    ensures PositiveOnly(Decremented(orders, itemId)) == orders
  {
    if orders != [] {
      DecreaseAbsentIsNoop(orders[1..], itemId);
      assert orders == [orders[0]] + orders[1..];
    }
  }

  // ----------------------------------------------------------------- quantities

  lemma {:induction false} SetQuantityOfPositive(orders: seq<CartLine>, itemId: string, q: int)
    requires AllPositive(orders) && q >= 1
    ensures AllPositive(SetQuantityOf(orders, itemId, q))
  {
    forall i | 0 <= i < |orders| ensures SetQuantityOf(orders, itemId, q)[i].quantity >= 1 {
      SetQuantityOfAt(orders, itemId, q, i);
    }
  }

  /**
   * When the cart and every added line have quantities of at least one,
   * every reducer step keeps it so.
   */
  lemma QuantitiesStayPositive(s: CartState, a: Action)
    requires AllPositive(s.orders)
    requires a.AddToCart? ==> a.line.quantity >= 1
    requires a.SetCartFromStorage? ==> AllPositive(a.payload.orders)
    ensures AllPositive(Reduce(s, a).orders)
  {
    match a
    case AddToCart(line) =>
      var i := FindIndex(s.orders, line);
      if i == -1 {
        assert Reduce(s, a).orders == s.orders + [line];
      }
    case RemoveFromCart(id) =>
      var r := WithoutItem(s.orders, id);
      forall k | 0 <= k < |r| ensures r[k].quantity >= 1 {
        var j :| 0 <= j < |s.orders| && s.orders[j] == r[k];
      }
    case UpdateQuantity(id, q) =>
      if q <= 0 {
        var r := WithoutItem(s.orders, id);
        forall k | 0 <= k < |r| ensures r[k].quantity >= 1 {
          var j :| 0 <= j < |s.orders| && s.orders[j] == r[k];
        }
      } else {
        SetQuantityOfPositive(s.orders, id, q);
      }
    case DecreaseQuantity(id) =>
    case SetCartFromStorage(_) =>
    case ClearCart =>
    case Other(_) =>
  }

  // ------------------------------------------------- reset, restore, other types

  /** CLEAR_CART empties the cart and forgets the store, from any state. */
  lemma ClearResets(s: CartState)
    ensures Reduce(s, ClearCart) == CartState(None, [])
    ensures !ShowsOrderBanner(Reduce(s, ClearCart))
  {
  }

  /** Restoring what the save effect wrote reproduces the state, whatever the current one. */
  lemma RestoreRoundTrip(current: CartState, saved: CartState)
    ensures Reduce(current, SetCartFromStorage(Snapshot(saved))) == saved
  {
  }

  /** Unknown action types leave the state unchanged. */
  lemma OtherIsIdentity(s: CartState, tag: string)
    ensures Reduce(s, Other(tag)) == s
  {
  }

  // ------------------------------------------------------------ a worked session

  /**
   * Burger (id "1", 20.00) with cheese (id "9", 3.00): added once, then
   * twice more, then decreased once. The decrease re-prices from the base
   * price only, so the line ends at 40.00 rather than 46.00.
   */
  lemma BurgerSession()
    ensures var burger := Item("1", Some("burger"), 2000, "");
      var cheese := Addon("9", "cheese", 300);
      var shop := Some(Store("7", "grill"));
      var s1 := Reduce(InitialState, AddToCart(CartLine(burger, [cheese], 1, 2300, shop, None)));
      var s2 := Reduce(s1, AddToCart(CartLine(burger, [cheese], 2, 4600, shop, None)));
      var s3 := Reduce(s2, DecreaseQuantity("1"));
      && s1.orders == [CartLine(burger, [cheese], 1, 2300, shop, None)]
      && s2.orders == [CartLine(burger, [cheese], 3, 6900, shop, None)]
      && s3.orders == [CartLine(burger, [cheese], 2, 4000, shop, None)]
      && s3.store == shop
  {
    var burger := Item("1", Some("burger"), 2000, "");
    var cheese := Addon("9", "cheese", 300);
    var shop := Some(Store("7", "grill"));
    var l1 := CartLine(burger, [cheese], 1, 2300, shop, None);
    var l2 := CartLine(burger, [cheese], 2, 4600, shop, None);
    AddTwiceMerges(InitialState, l1, l2);
  }
}
