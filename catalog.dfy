/**
 * Menu data as the store's menu endpoint delivers it: loosely typed
 * fields, optional arrays, and two shapes of configuration (`steps` with
 * `addons`, or add-on groups with `options`).
 */
module Catalog {
  import opened Wrappers
  import opened JsValues

  /** An option of a step or group; `price` is `Number(opt.price)`. */
  datatype RawOption = RawOption(id: JsValue, nameAr: Option<string>, name: Option<string>, price: NumberResult)

  /**
   * A step (`item.steps[i]`) or an add-on group (`item.addons[i]`). A step
   * lists its options under `addons`, a group under `options`; `None`
   * stands for a field that is not an array.
   */
  datatype RawGroup = RawGroup(
    id: JsValue,
    nameAr: Option<string>,
    name: Option<string>,
    title: Option<string>,
    multiple: JsValue,
    isMultiple: JsValue,
    multi: JsValue,
    addons: Option<seq<RawOption>>,
    options: Option<seq<RawOption>>)

  /** A menu item; `price` is `Number(item.price)`. */
  datatype MenuItem = MenuItem(
    id: string,
    name: Option<string>,
    nameAr: Option<string>,
    nameEn: Option<string>,
    price: NumberResult,
    image: string,
    steps: Option<seq<RawGroup>>,
    addonGroups: Option<seq<RawGroup>>)

  /** A menu category and its items. */
  datatype Category = Category(id: string, items: seq<MenuItem>)
}
