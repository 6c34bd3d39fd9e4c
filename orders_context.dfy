/**
 * The shopping-cart reducer and the provider that dispatches to it
 * (context/orders-context.js). `Reduce` is the single place the cart
 * changes; `Cart` holds the current state the way the provider's
 * `useReducer` does and exposes the five dispatching operations.
 */
module OrdersContext {
  import opened Wrappers
  import opened CartModel
  import AddonKeys

  /** The actions the reducer understands; `Other` is any other `type`. */
  datatype Action =
    | SetCartFromStorage(payload: Payload)
    | AddToCart(line: CartLine)
    | RemoveFromCart(itemId: string)
    | UpdateQuantity(itemId: string, quantity: int)
    | DecreaseQuantity(itemId: string)
    | ClearCart
    | Other(tag: string)

  const InitialState := CartState(None, [])

  /** The ADD_TO_CART identity: same item id and the same add-on keys. */
  predicate SameConfiguration(existing: CartLine, candidate: CartLine) {
    existing.item.id == candidate.item.id && AddonKeys.SameAddons(existing.addons, candidate.addons)
  }

  /** `findIndex`: the first line with the candidate's configuration, or -1. */
  function FindIndex(orders: seq<CartLine>, candidate: CartLine): (r: int)
    ensures -1 <= r < |orders|
    ensures r == -1 <==> forall i :: 0 <= i < |orders| ==> !SameConfiguration(orders[i], candidate)
    ensures r != -1 ==> SameConfiguration(orders[r], candidate)
    ensures r != -1 ==> forall i :: 0 <= i < r ==> !SameConfiguration(orders[i], candidate)
  {
    if orders == [] then -1
    else if SameConfiguration(orders[0], candidate) then 0
    else
      var k := FindIndex(orders[1..], candidate);
      assert forall i :: 1 <= i < |orders| ==> orders[i] == orders[1..][i - 1];
      if k == -1 then -1 else k + 1
  }

  /** The merge branch: the quantity and the total of line `i` grow by the candidate's. */
  function MergeAt(orders: seq<CartLine>, i: nat, candidate: CartLine): seq<CartLine>
    requires i < |orders|
  {
    orders[i := orders[i].(quantity := orders[i].quantity + candidate.quantity,
                           total := orders[i].total + candidate.total)]
  }

  /** `filter(order => order.item.id !== itemId)`. */
  function WithoutItem(orders: seq<CartLine>, itemId: string): (r: seq<CartLine>)
    ensures |r| <= |orders|
    ensures forall i :: 0 <= i < |r| ==> r[i].item.id != itemId && r[i] in orders
    ensures forall i :: 0 <= i < |orders| && orders[i].item.id != itemId ==> orders[i] in r
  {
    if orders == [] then []
    else (if orders[0].item.id == itemId then [] else [orders[0]]) + WithoutItem(orders[1..], itemId)
  }

  /** A line of `itemId` re-priced for quantity `q`: `total = item.price * q`. */
  function Requantified(line: CartLine, q: int): CartLine {
    line.(quantity := q, total := line.item.price * q)
  }

  /** The `map` of UPDATE_QUANTITY for a positive quantity. */
  function SetQuantityOf(orders: seq<CartLine>, itemId: string, q: int): (r: seq<CartLine>)
    ensures |r| == |orders|
  {
    if orders == [] then []
    else
      [if orders[0].item.id == itemId then Requantified(orders[0], q) else orders[0]]
      + SetQuantityOf(orders[1..], itemId, q)
  }

  /** The `map` of DECREASE_QUANTITY: every line of `itemId` loses one unit. */
  function Decremented(orders: seq<CartLine>, itemId: string): (r: seq<CartLine>)
    ensures |r| == |orders|
  {
    if orders == [] then []
    else
      [if orders[0].item.id == itemId then Requantified(orders[0], orders[0].quantity - 1) else orders[0]]
      + Decremented(orders[1..], itemId)
  }

  /** `filter(order => order.quantity > 0)`. */
  function PositiveOnly(orders: seq<CartLine>): (r: seq<CartLine>)
    ensures |r| <= |orders|
    ensures forall i :: 0 <= i < |r| ==> r[i].quantity > 0 && r[i] in orders
    ensures forall i :: 0 <= i < |orders| && orders[i].quantity > 0 ==> orders[i] in r
  {
    if orders == [] then []
    else (if orders[0].quantity > 0 then [orders[0]] else []) + PositiveOnly(orders[1..])
  }

  /** The ADD_TO_CART case. */
  function Add(s: CartState, line: CartLine): CartState {
    var i := FindIndex(s.orders, line);
    if i != -1 then s.(orders := MergeAt(s.orders, i, line))
    else CartState(if line.store.Some? then line.store else s.store, s.orders + [line])
  }

  /** The reducer. */
  function Reduce(s: CartState, a: Action): (r: CartState)
    ensures a.RemoveFromCart? || a.UpdateQuantity? || a.DecreaseQuantity? ==> r.store == s.store
    ensures a.AddToCart? ==> |r.orders| == |s.orders| || r.orders == s.orders + [a.line]
  {
    match a
    case SetCartFromStorage(p) => CartState(p.store, p.orders)
    case AddToCart(line) => Add(s, line)
    case RemoveFromCart(id) => s.(orders := WithoutItem(s.orders, id))
    case UpdateQuantity(id, q) =>
      if q <= 0 then s.(orders := WithoutItem(s.orders, id))
      else s.(orders := SetQuantityOf(s.orders, id, q))
    case DecreaseQuantity(id) => s.(orders := PositiveOnly(Decremented(s.orders, id)))
    case ClearCart => InitialState
    case Other(_) => s
  }

  /** What the save effect writes: `{store, orders}`. */
  function Snapshot(s: CartState): Payload {
    Payload(s.store, s.orders)
  }

  /** The guard of the "unfinished order" banner: a store and at least one line. */
  predicate ShowsOrderBanner(s: CartState) {
    s.store.Some? && |s.orders| > 0
  }

  /** The provider: the current cart and the operations it hands to screens. */
  class Cart {
    var state: CartState

    constructor ()
      ensures state == InitialState
    {
      state := InitialState;
    }

    method Dispatch(a: Action)
      modifies this
      ensures state == Reduce(old(state), a)
    {
      state := Reduce(state, a);
    }

    /** `addToCart(order)`: merges into the first matching line in place, or appends. */
    method AddToCart(line: CartLine)
      modifies this
      ensures state == Reduce(old(state), Action.AddToCart(line))
      ensures |state.orders| == |old(state.orders)| || |state.orders| == |old(state.orders)| + 1
    {
      var i := FindIndex(state.orders, line);
      if i != -1 {
        var existing := state.orders[i];
        var merged := existing.(quantity := existing.quantity + line.quantity,
                                total := existing.total + line.total);
        state := state.(orders := state.orders[i := merged]);
      } else {
        var store := if line.store.Some? then line.store else state.store;
        state := CartState(store, state.orders + [line]);
      }
    }

    method RemoveFromCart(itemId: string)
      modifies this
      ensures state == Reduce(old(state), Action.RemoveFromCart(itemId))
      ensures forall i :: 0 <= i < |state.orders| ==> state.orders[i].item.id != itemId
      ensures state.store == old(state.store)
    {
      Dispatch(Action.RemoveFromCart(itemId));
    }

    method UpdateQuantity(itemId: string, quantity: int)
      modifies this
      ensures state == Reduce(old(state), Action.UpdateQuantity(itemId, quantity))
      ensures state.store == old(state.store)
    {
      Dispatch(Action.UpdateQuantity(itemId, quantity));
    }

    method DecreaseQuantity(itemId: string)
      modifies this
      ensures state == Reduce(old(state), Action.DecreaseQuantity(itemId))
      ensures |state.orders| <= |old(state.orders)|
      ensures state.store == old(state.store)
    {
      Dispatch(Action.DecreaseQuantity(itemId));
    }

    method ClearCart()
      modifies this
      ensures state == InitialState
    {
      Dispatch(Action.ClearCart);
    }

    /**
     * The load effect: a saved record (absent or unreadable records are
     * `None`, the failure only being logged) is dispatched as
     * SET_CART_FROM_STORAGE.
     */
    method Hydrate(saved: Option<Payload>)
      modifies this
      ensures saved.None? ==> state == old(state)
      ensures saved.Some? ==> state.store == saved.value.store && state.orders == saved.value.orders
    {
      if saved.Some? {
        Dispatch(SetCartFromStorage(saved.value));
      }
    }
  }
}
