/**
 * The cart's data: a line is an item snapshot, its chosen add-ons, a
 * quantity, a line total and the store it was ordered from. Money is in
 * integer cents (the source keeps two-decimal strings).
 */
module CartModel {
  import opened Wrappers

  datatype Store = Store(id: string, name: string)

  /** One chosen option of a configurable group: `{id, name, price}`. */
  datatype Addon = Addon(id: string, name: string, price: int)

  /** The catalog item as copied into the line at add time. */
  datatype Item = Item(id: string, name: Option<string>, price: int, image: string)

  /**
   * A cart line. `restaurant` is the older field some persisted lines carry
   * instead of `store`; the cart screen falls back to it.
   */
  datatype CartLine = CartLine(
    item: Item,
    addons: seq<Addon>,
    quantity: int,
    total: int,
    store: Option<Store>,
    restaurant: Option<Store>)

  /** The reducer state `{store, orders}`. */
  datatype CartState = CartState(store: Option<Store>, orders: seq<CartLine>)

  /** The record the save effect writes and the load effect reads back. */
  datatype Payload = Payload(store: Option<Store>, orders: seq<CartLine>)

  /** Every line has a quantity of at least one. */
  predicate AllPositive(orders: seq<CartLine>) {
    forall i :: 0 <= i < |orders| ==> orders[i].quantity >= 1
  }
}
