/**
 * The cart screen's projections (screens/private-pages/cart-screen.js):
 * the distinct stores of the cart, the subtotal, the displayed total and
 * the "add another" guard.
 */
module CartScreen {
  import opened Wrappers
  import opened CartModel
  import opened Assoc

  /** `o.store?.id || o.restaurant?.id`: `None` stands for `undefined`. */
  function StoreKey(l: CartLine): Option<string> {
    if l.store.Some? && l.store.value.id != "" then Some(l.store.value.id)
    else if l.restaurant.Some? then Some(l.restaurant.value.id)
    else None
  }

  /** `o.store || o.restaurant`. */
  function StoreValue(l: CartLine): Option<Store> {
    if l.store.Some? then l.store else l.restaurant
  }

  /** `orders.map(o => [key, store])`. */
  function StoreEntries(orders: seq<CartLine>): (r: seq<Entry<Option<string>, Option<Store>>>)
    ensures |r| == |orders|
    ensures forall i :: 0 <= i < |orders| ==> r[i] == Entry(StoreKey(orders[i]), StoreValue(orders[i]))
  {
    if orders == [] then []
    else [Entry(StoreKey(orders[0]), StoreValue(orders[0]))] + StoreEntries(orders[1..])
  }

  /** `new Map(entries)`. */
  function StoreMap(orders: seq<CartLine>): seq<Entry<Option<string>, Option<Store>>> {
    FromEntries(StoreEntries(orders))
  }

  /** `uniqueStores`: the values of that map, in key order. */
  function UniqueStores(orders: seq<CartLine>): seq<Option<Store>> {
    ValuesOf(StoreMap(orders))
  }

  /** `orders.reduce((sum, o) => sum + parseFloat(o.total), 0)`, in cents. */
  function Subtotal(orders: seq<CartLine>): int {
    if orders == [] then 0 else Subtotal(orders[..|orders| - 1]) + orders[|orders| - 1].total
  }

  /** The fixed amount the screen adds on top of the subtotal: 2.00. */
  const DeliveryCharge := 200

  /** `total + 2`, the "Total" row. */
  function DisplayedTotal(orders: seq<CartLine>): int {
    Subtotal(orders) + DeliveryCharge
  }

  /** `uniqueStores.slice(0, 2)`: the stores shown in the header. */
  function HeaderStores(orders: seq<CartLine>): seq<Option<Store>> {
    var u := UniqueStores(orders);
    if |u| <= 2 then u else u[..2]
  }

  /** `uniqueStores.length < 2`: the "add another" button is offered. */
  predicate OffersAddAnother(orders: seq<CartLine>) {
    |UniqueStores(orders)| < 2
  }

  lemma StoreEntriesKeys(orders: seq<CartLine>)
    ensures |KeysOf(StoreEntries(orders))| == |orders|
    ensures forall i :: 0 <= i < |orders| ==> KeysOf(StoreEntries(orders))[i] == StoreKey(orders[i])
  {
  }

  /**
   * One entry per store key, an entry for every line's key, and never more
   * entries than lines.
   */
  lemma UniqueStoresOnePerKey(orders: seq<CartLine>)
    ensures DistinctKeys(StoreMap(orders))
    ensures forall i :: 0 <= i < |orders| ==> StoreKey(orders[i]) in KeysOf(StoreMap(orders))
    ensures |UniqueStores(orders)| <= |orders|
  {
    FromEntriesKeys(StoreEntries(orders));
    forall i | 0 <= i < |orders| ensures StoreKey(orders[i]) in KeysOf(StoreMap(orders)) {
      assert StoreEntries(orders)[i].key == StoreKey(orders[i]);
    }
  }

  /** The store kept for a key is the one of the last line with that key. */
  lemma UniqueStoresLastWins(orders: seq<CartLine>, i: nat)
    requires i < |orders|
    requires forall j :: i < j < |orders| ==> StoreKey(orders[j]) != StoreKey(orders[i])
    ensures Get(StoreMap(orders), StoreKey(orders[i])) == Some(StoreValue(orders[i]))
  {
    var e := StoreEntries(orders);
    forall j | i < j < |e| ensures e[j].key != e[i].key {
    }
    FromEntriesLastWins(e, i);
  }

  /** Stores are listed in the order their keys first occur in the cart. */
  lemma UniqueStoresFirstSeenOrder(orders: seq<CartLine>, a: nat, b: nat)
    requires a < b < |StoreMap(orders)|
    ensures StoreMap(orders)[a].key in KeysOf(StoreEntries(orders))
    ensures StoreMap(orders)[b].key in KeysOf(StoreEntries(orders))
    ensures FirstIndex(KeysOf(StoreEntries(orders)), StoreMap(orders)[a].key) <
            FirstIndex(KeysOf(StoreEntries(orders)), StoreMap(orders)[b].key)
  {
    FromEntriesFirstSeenOrder(StoreEntries(orders), a, b);
  }

  /** A cart whose lines all share one store key lists a single store and offers "add another". */
  lemma {:induction false} SingleStoreCart(orders: seq<CartLine>)
    requires forall i :: 0 <= i < |orders| ==> StoreKey(orders[i]) == StoreKey(orders[0])
    ensures |UniqueStores(orders)| <= 1
    ensures OffersAddAnother(orders)
  {
    var m := StoreMap(orders);
    FromEntriesKeys(StoreEntries(orders));
    StoreEntriesKeys(orders);
    if orders != [] {
      forall a | 0 <= a < |m| ensures m[a].key == StoreKey(orders[0]) {
        assert KeysOf(m)[a] == m[a].key;
        assert m[a].key in KeysOf(StoreEntries(orders));
        var i :| 0 <= i < |orders| && KeysOf(StoreEntries(orders))[i] == m[a].key;
      }
      DistinctKeysBound(m, {StoreKey(orders[0])});
    }
  }

  /** The header shows at most two stores, the first two listed. */
  lemma HeaderShowsAtMostTwo(orders: seq<CartLine>)
    ensures |HeaderStores(orders)| <= 2
    ensures HeaderStores(orders) == UniqueStores(orders)[..|HeaderStores(orders)|]
  {
  }

  lemma {:induction false} SubtotalAppend(a: seq<CartLine>, b: seq<CartLine>)
    ensures Subtotal(a + b) == Subtotal(a) + Subtotal(b)
    decreases |b|
  {
    if b == [] {
      assert a + b == a;
    } else {
      var b' := b[..|b| - 1];
      assert (a + b)[..|a + b| - 1] == a + b';
      SubtotalAppend(a, b');
    }
  }

  /** The subtotal sums the line totals; the displayed total adds 2.00 to it. */
  lemma SubtotalSumsLines(orders: seq<CartLine>, line: CartLine)
    ensures Subtotal([]) == 0 && DisplayedTotal([]) == DeliveryCharge
    ensures Subtotal(orders + [line]) == Subtotal(orders) + line.total
    ensures Subtotal([line] + orders) == line.total + Subtotal(orders)
    ensures DisplayedTotal(orders) == Subtotal(orders) + 200
  {
    assert (orders + [line])[..|orders|] == orders;
    SubtotalAppend([line], orders);
  }
}
