/**
 * The item configuration modal (components/menu-item-modal.js): the menu
 * item's steps normalised, one selection per step, a quantity, and a
 * wizard that moves between steps and finally hands the configuration to
 * the screen.
 */
module MenuItemModal {
  import opened Wrappers
  import opened Text
  import opened JsValues
  import opened CartModel
  import opened Catalog
  import opened Assoc

  // ---------------------------------------------------------------------
  // Coercions

  /** The strings `toBool` accepts once trimmed and lower-cased. */
  predicate TrueWord(t: string) {
    t == "1" || t == "true" || t == "yes" || t == "y" || t == "on"
  }

  /** `toBool`: a loosely typed flag. */
  function ToBool(v: JsValue): bool {
    match v
    case Bool(b) => b
    case Num(n) => n == 1
    case Str(s) => TrueWord(Lower(Trim(s)))
    case _ => false
  }

  /** A string flag reads the same whatever its padding and letter case. */
  lemma ToBoolIgnoresPaddingAndCase(w1: string, s: string, w2: string)
    requires AllSpace(w1) && AllSpace(w2)
    ensures ToBool(Str(w1 + s + w2)) == ToBool(Str(s))
    ensures ToBool(Str(Lower(s))) == ToBool(Str(s))
  {
    TrimIgnoresPadding(w1, s, w2);
    TrimLower(s);
    LowerIdempotent(Trim(s));
  }

  /** Only `true` and the number 1 are true among non-strings. */
  lemma ToBoolNonStrings(n: int)
    ensures ToBool(Bool(true)) && !ToBool(Bool(false))
    ensures ToBool(Num(n)) <==> n == 1
    ensures !ToBool(Undefined) && !ToBool(Null) && !ToBool(Obj)
  {
  }

  /** Each of the five accepted words, written plainly, is true. */
  lemma ToBoolTrueWord(t: string)
    requires TrueWord(t)
    ensures ToBool(Str(t))
  {
    if t == "1" {
      PlainWordReadsItself("1");
    } else if t == "true" {
      PlainWordReadsItself("true");
    } else if t == "yes" {
      PlainWordReadsItself("yes");
    } else if t == "y" {
      PlainWordReadsItself("y");
    } else {
      PlainWordReadsItself("on");
    }
  }

  /** A word of lower-case letters and digits is its own trimmed, lower-cased form. */
  lemma PlainWordReadsItself(t: string)
    requires forall i :: 0 <= i < |t| ==> 'a' <= t[i] <= 'z' || '0' <= t[i] <= '9'
    ensures Lower(Trim(t)) == t
  {
    if t != [] {
      assert !IsSpace(t[0]) && !IsSpace(t[|t| - 1]);
      assert TrimStart(t) == t;
      assert TrimEnd(t) == t;
    }
    assert Lower(t) == t;
  }

  /** An accepted word in any letter case and with any whitespace padding is true. */
  lemma ToBoolPaddedTrueWord(w1: string, t: string, w2: string)
    requires AllSpace(w1) && AllSpace(w2) && TrueWord(Lower(t))
    ensures ToBool(Str(w1 + t + w2))
  {
    ToBoolIgnoresPaddingAndCase(w1, t, w2);
    ToBoolTrueWord(Lower(t));
  }

  /** "no" and the empty string are false. */
  lemma ToBoolRejectsOtherWords()
    ensures !ToBool(Str("no")) && !ToBool(Str(""))
  {
    assert TrimStart("no") == "no";
    assert TrimEnd("no") == "no";
    assert Lower("no") == "no";
  }

  // ---------------------------------------------------------------------
  // Steps

  /** A normalised step: identifier, title, selection mode and options. */
  datatype Step = Step(id: string, name: string, multiple: bool, addons: seq<Addon>)

  /** `opt.name_ar ?? opt.name ?? `خيار ${String(opt.id || "")}``. */
  function OptionName(o: RawOption): string {
    CoalesceStr(o.nameAr, CoalesceStr(o.name, "خيار " + ToJsString(if Truthy(o.id) then o.id else Str(""))))
  }

  /** `{id: idStr(opt.id), name, price: Number(opt.price) || 0}`. */
  function NormalizeOption(o: RawOption): Addon {
    Addon(IdStr(o.id), OptionName(o), OrZero(o.price))
  }

  function NormalizeOptions(os: seq<RawOption>): (r: seq<Addon>)
    ensures |r| == |os|
    ensures forall i :: 0 <= i < |os| ==> r[i] == NormalizeOption(os[i])
  {
    if os == [] then [] else [NormalizeOption(os[0])] + NormalizeOptions(os[1..])
  }

  /** `Array.isArray(xs) ? xs.map(...) : []`. */
  function OptionsOf(os: Option<seq<RawOption>>): seq<Addon> {
    if os.Some? then NormalizeOptions(os.value) else []
  }

  /** `toBool(g.multiple ?? g.is_multiple ?? g.multi)`. */
  function MultipleFlag(g: RawGroup): bool {
    ToBool(Coalesce(Coalesce(g.multiple, g.isMultiple), g.multi))
  }

  /** An entry of `item.steps`, at position `idx`. */
  function NormalizeStep(s: RawGroup, idx: nat): Step {
    Step(IdStr(Coalesce(s.id, Str("step-" + NatToDecimal(idx)))),
         CoalesceStr(s.name, CoalesceStr(s.title, "خطوة " + NatToDecimal(idx + 1))),
         MultipleFlag(s),
         OptionsOf(s.addons))
  }

  /** An entry of `item.addons`, at position `idx`. */
  function NormalizeGroup(g: RawGroup, idx: nat): Step {
    Step(IdStr(Coalesce(g.id, Str("group-" + NatToDecimal(idx)))),
         CoalesceStr(g.nameAr, CoalesceStr(g.name, "مجموعة " + NatToDecimal(idx + 1))),
         MultipleFlag(g),
         OptionsOf(g.options))
  }

  /** The entry at position `idx`, with the step or the group shape. */
  function Normalize(g: RawGroup, idx: nat, asGroups: bool): Step {
    if asGroups then NormalizeGroup(g, idx) else NormalizeStep(g, idx)
  }

  /**
   * `raw.map((s, idx) => ...)`: one step per raw entry, in order. An entry
   * without an id gets `step-<idx>` (or `group-<idx>`), one without any name
   * gets the numbered default name, a string id is kept as it is, and the
   * options and the multiple flag are the entry's own.
   */
  function NormalizeAll(raw: seq<RawGroup>, asGroups: bool): (r: seq<Step>)
    ensures |r| == |raw|
    ensures forall i :: 0 <= i < |raw| && Nullish(raw[i].id) ==>
      r[i].id == (if asGroups then "group-" else "step-") + NatToDecimal(i)
    ensures forall i :: 0 <= i < |raw| && raw[i].id.Str? ==> r[i].id == raw[i].id.s
    ensures forall i ::
      0 <= i < |raw| && (if asGroups then raw[i].nameAr else raw[i].name).None? &&
      (if asGroups then raw[i].name else raw[i].title).None?
      ==> r[i].name == (if asGroups then "مجموعة " else "خطوة ") + NatToDecimal(i + 1)
    ensures forall i :: 0 <= i < |raw| ==> r[i].multiple == MultipleFlag(raw[i])
    ensures forall i :: 0 <= i < |raw| ==> r[i].addons == OptionsOf(if asGroups then raw[i].options else raw[i].addons)
  {
    seq(|raw|, i requires 0 <= i < |raw| => Normalize(raw[i], i, asGroups))
  }

  /** `steps`: the item's own steps when it has any, else its add-on groups, else none. */
  function StepsOf(item: Option<MenuItem>): seq<Step> {
    if item.None? then []
    else if item.value.steps.Some? && |item.value.steps.value| > 0 then NormalizeAll(item.value.steps.value, false)
    else if item.value.addonGroups.Some? && |item.value.addonGroups.value| > 0 then NormalizeAll(item.value.addonGroups.value, true)
    else []
  }

  /**
   * One step per raw step when the item has steps (its groups are then
   * ignored), else one per add-on group, and each keeps its options.
   */
  lemma StepsOfShape(it: MenuItem)
    ensures it.steps.Some? && |it.steps.value| > 0 ==>
      |StepsOf(Some(it))| == |it.steps.value| &&
      forall i :: 0 <= i < |it.steps.value| ==> StepsOf(Some(it))[i].addons == OptionsOf(it.steps.value[i].addons)
    ensures !(it.steps.Some? && |it.steps.value| > 0) && it.addonGroups.Some? ==>
      |StepsOf(Some(it))| == |it.addonGroups.value| &&
      forall i :: 0 <= i < |it.addonGroups.value| ==> StepsOf(Some(it))[i].addons == OptionsOf(it.addonGroups.value[i].options)
    ensures StepsOf(None) == []
  {
  }

  lemma PrefixedNumbersDistinct(p: string, a: nat, b: nat)
    requires a != b
    ensures p + NatToDecimal(a) != p + NatToDecimal(b)
  {
    if p + NatToDecimal(a) == p + NatToDecimal(b) {
      assert (p + NatToDecimal(a))[|p|..] == NatToDecimal(a);
      assert (p + NatToDecimal(b))[|p|..] == NatToDecimal(b);
      NatToDecimalInjective(a, b);
    }
  }

  /** Steps or groups without an id of their own still get pairwise distinct ids. */
  lemma DefaultIdsDistinct(raw: seq<RawGroup>, asGroups: bool, i: nat, j: nat)
    requires i < j < |raw|
    requires Nullish(raw[i].id) && Nullish(raw[j].id)
    ensures NormalizeAll(raw, asGroups)[i].id != NormalizeAll(raw, asGroups)[j].id
  {
    PrefixedNumbersDistinct(if asGroups then "group-" else "step-", i, j);
  }

  /** An option without a price, or with one that is not a number, costs nothing. */
  lemma UnpricedOptionIsFree(o: RawOption)
    requires o.price.NaN?
    ensures NormalizeOption(o).price == 0
  {
  }

  // ---------------------------------------------------------------------
  // Step index, quantity

  /** The step index is a position in the steps, or 0 when there are none. */
  predicate StepInRange(s: int, n: nat) {
    if n == 0 then s == 0 else 0 <= s < n
  }

  /** The clamp effect: `steps.length ? min(max(0, s), steps.length - 1) : 0`. */
  function Clamp(s: int, n: nat): (r: int)
    ensures StepInRange(r, n)
    ensures StepInRange(s, n) ==> r == s
  {
    if n > 0 then if s < 0 then 0 else if s > n - 1 then n - 1 else s else 0
  }

  /** The Next button: `min(steps.length === 0 ? 0 : steps.length - 1, s + 1)`. */
  function NextStep(s: int, n: nat): (r: int)
    requires StepInRange(s, n)
    ensures StepInRange(r, n)
    ensures s + 1 < n ==> r == s + 1
    ensures s + 1 >= n ==> r == s
  {
    var last := if n == 0 then 0 else n - 1;
    if s + 1 < last then s + 1 else last
  }

  /** The Back button: `max(0, s - 1)`. */
  function PrevStep(s: int, n: nat): (r: int)
    requires StepInRange(s, n)
    ensures StepInRange(r, n)
    ensures s > 0 ==> r == s - 1
    ensures s == 0 ==> r == 0
  {
    if s - 1 > 0 then s - 1 else 0
  }

  /** The minus button: `max(1, q - 1)`. */
  function DecrementQuantity(q: int): (r: int)
    ensures r >= 1
    ensures q > 1 ==> r == q - 1
    ensures q <= 1 ==> r == 1
  {
    if q - 1 > 1 then q - 1 else 1
  }

  /** `isLastStep`: no steps, or the index is at the last one. */
  predicate IsLast(s: int, n: nat) {
    n == 0 || s == n - 1
  }

  /** Next moves towards the last step and stops there; Back undoes a Next that moved. */
  lemma NextReachesLast(s: int, n: nat)
    requires StepInRange(s, n)
    ensures IsLast(s, n) <==> NextStep(s, n) == s
    ensures !IsLast(s, n) ==> PrevStep(NextStep(s, n), n) == s
  {
  }

  // ---------------------------------------------------------------------
  // Selection

  /** `selectedAddons`: group id to chosen options, in key insertion order. */
  type Selection = seq<Entry<string, seq<Addon>>>

  /** `Array.isArray(prev[groupKey]) ? prev[groupKey] : []`. */
  function Current(sel: Selection, key: string): seq<Addon> {
    Get(sel, key).GetOr([])
  }

  /** `findIndex` by option id. */
  function IndexOfId(current: seq<Addon>, id: string): (r: int)
    ensures -1 <= r < |current|
    ensures r >= 0 ==> current[r].id == id && forall j :: 0 <= j < r ==> current[j].id != id
    ensures r == -1 <==> forall j :: 0 <= j < |current| ==> current[j].id != id
  {
    if current == [] then -1
    else if current[0].id == id then 0
    else
      var k := IndexOfId(current[1..], id);
      assert forall j :: 1 <= j < |current| ==> current[j] == current[1..][j - 1];
      if k == -1 then -1 else k + 1
  }

  predicate HasId(current: seq<Addon>, id: string) {
    exists j :: 0 <= j < |current| && current[j].id == id
  }

  predicate DistinctIds(current: seq<Addon>) {
    forall i, j :: 0 <= i < j < |current| ==> current[i].id != current[j].id
  }

  /**
   * A multi-select group: a chosen option is removed (its first entry), a
   * new one appended. The appended entry `{id, name, price}` is the
   * normalised option itself.
   */
  function ToggleMultiple(current: seq<Addon>, option: Addon): seq<Addon> {
    var i := IndexOfId(current, option.id);
    if i >= 0 then current[..i] + current[i + 1..] else current + [option]
  }

  /** A single-select group: choosing the only chosen option clears it, anything else replaces it. */
  function ToggleSingle(current: seq<Addon>, option: Addon): seq<Addon> {
    if |current| == 1 && current[0].id == option.id then [] else [option]
  }

  /** `handleSelectAddon`: only the step's own group is rewritten. */
  function Select(sel: Selection, step: Step, option: Addon): Selection {
    var current := Current(sel, step.id);
    Put(sel, step.id, if step.multiple then ToggleMultiple(current, option) else ToggleSingle(current, option))
  }

  /**
   * In a multi-select group without repeated ids, toggling flips whether
   * the option is chosen, keeps every other choice, and keeps ids distinct.
   */
  lemma ToggleMultipleFlips(current: seq<Addon>, option: Addon)
    requires DistinctIds(current)
    ensures DistinctIds(ToggleMultiple(current, option))
    ensures HasId(ToggleMultiple(current, option), option.id) <==> !HasId(current, option.id)
    ensures forall x :: x != option.id ==> (HasId(ToggleMultiple(current, option), x) <==> HasId(current, x))
  {
    var i := IndexOfId(current, option.id);
    if i >= 0 {
      RemoveAtFlips(current, i, option.id);
    } else {
      AppendFlips(current, option);
    }
  }

  /** Dropping the one entry with id `id` removes that id and keeps the rest. */
  lemma RemoveAtFlips(current: seq<Addon>, i: nat, id: string)
    requires DistinctIds(current) && i < |current| && current[i].id == id
    ensures DistinctIds(current[..i] + current[i + 1..])
    ensures !HasId(current[..i] + current[i + 1..], id)
    ensures forall x :: x != id ==> (HasId(current[..i] + current[i + 1..], x) <==> HasId(current, x))
  {
    var r := current[..i] + current[i + 1..];
    assert forall j :: 0 <= j < |r| ==> r[j] == if j < i then current[j] else current[j + 1];
    forall x | HasId(current, x) && x != id ensures HasId(r, x) {
      var j :| 0 <= j < |current| && current[j].id == x;
      if j < i { assert r[j].id == x; } else { assert r[j - 1].id == x; }
    }
  }

  /** Appending an option whose id is absent adds that id and keeps the rest. */
  lemma AppendFlips(current: seq<Addon>, option: Addon)
    requires DistinctIds(current) && !HasId(current, option.id)
    ensures DistinctIds(current + [option])
    ensures HasId(current + [option], option.id)
    ensures forall x :: x != option.id ==> (HasId(current + [option], x) <==> HasId(current, x))
  {
    var r := current + [option];
    assert forall j :: 0 <= j < |current| ==> r[j] == current[j];
    assert r[|current|].id == option.id;
  }

  /** Choosing a new option and then choosing it again restores the group. */
  lemma ToggleMultipleTwice(current: seq<Addon>, option: Addon)
    requires !HasId(current, option.id)
    ensures ToggleMultiple(ToggleMultiple(current, option), option) == current
  {
    var once := current + [option];
    assert IndexOfId(current, option.id) == -1;
    assert forall j :: 0 <= j < |current| ==> once[j].id != option.id;
    assert once[|current|].id == option.id;
    assert IndexOfId(once, option.id) == |current|;
    assert once[..|current|] == current;
  }

  /** A single-select group never holds more than one option. */
  lemma ToggleSingleAtMostOne(current: seq<Addon>, option: Addon)
    ensures |ToggleSingle(current, option)| <= 1
    ensures ToggleSingle(current, option) == [] <==> |current| == 1 && current[0].id == option.id
    ensures ToggleSingle(current, option) != [] ==> ToggleSingle(current, option) == [option]
  {
  }

  /** Selecting rewrites the step's group and leaves every other group as it was. */
  lemma SelectTouchesOnlyItsGroup(sel: Selection, step: Step, option: Addon, key: string)
    ensures key != step.id ==> Get(Select(sel, step, option), key) == Get(sel, key)
    ensures Current(Select(sel, step, option), step.id) ==
      if step.multiple then ToggleMultiple(Current(sel, step.id), option)
      else ToggleSingle(Current(sel, step.id), option)
  {
    var v := if step.multiple then ToggleMultiple(Current(sel, step.id), option) else ToggleSingle(Current(sel, step.id), option);
    PutGet(sel, step.id, v, key);
    PutGet(sel, step.id, v, step.id);
  }

  // ---------------------------------------------------------------------
  // Prices

  /** `arr.reduce((acc, a) => acc + (a?.price ? Number(a.price) || 0 : 0), 0)`. */
  function SumPrices(arr: seq<Addon>): int {
    if arr == [] then 0 else arr[0].price + SumPrices(arr[1..])
  }

  /** The add-on price of one unit: every group's options, all added up. */
  function SelectionPrice(sel: Selection): int {
    if sel == [] then 0 else SumPrices(sel[0].value) + SelectionPrice(sel[1..])
  }

  /** `Object.values(sel).flat()`. */
  function Flatten(sel: Selection): seq<Addon> {
    if sel == [] then [] else sel[0].value + Flatten(sel[1..])
  }

  lemma {:induction false} SumPricesAppend(a: seq<Addon>, b: seq<Addon>)
    ensures SumPrices(a + b) == SumPrices(a) + SumPrices(b)
  {
    if a == [] {
      assert a + b == b;
    } else {
      assert (a + b)[1..] == a[1..] + b;
      SumPricesAppend(a[1..], b);
    }
  }

  /** The flattened selection costs what the selection costs. */
  lemma {:induction false} FlattenPrice(sel: Selection)
    ensures SumPrices(Flatten(sel)) == SelectionPrice(sel)
  {
    if sel != [] {
      FlattenPrice(sel[1..]);
      SumPricesAppend(sel[0].value, Flatten(sel[1..]));
    }
  }

  /** Rewriting one group changes the add-on price by the difference for that group alone. */
  lemma {:induction false} PutPrice(sel: Selection, key: string, v: seq<Addon>)
    ensures SelectionPrice(Put(sel, key, v)) == SelectionPrice(sel) - SumPrices(Current(sel, key)) + SumPrices(v)
  {
    if sel != [] && sel[0].key != key {
      PutPrice(sel[1..], key, v);
    }
  }

  /** Choosing a new option of a multi-select step adds exactly its price. */
  lemma SelectNewOptionAddsPrice(sel: Selection, step: Step, option: Addon)
    requires step.multiple && !HasId(Current(sel, step.id), option.id)
    ensures SelectionPrice(Select(sel, step, option)) == SelectionPrice(sel) + option.price
  {
    var current := Current(sel, step.id);
    assert IndexOfId(current, option.id) == -1;
    PutPrice(sel, step.id, current + [option]);
    SumPricesAppend(current, [option]);
  }

  /** `basePrice = Number(item?.price) || 0`. */
  function BasePrice(item: Option<MenuItem>): int {
    if item.Some? then OrZero(item.value.price) else 0
  }

  /** What the add button hands to the screen: the item, the quantity and the selection. */
  datatype Submission = Submission(item: MenuItem, quantity: int, selected: Selection)

  // ---------------------------------------------------------------------
  // The component

  /** The modal's state: the shown item, its steps, the step index, the selection and the quantity. */
  class ItemModal {
    var item: Option<MenuItem>
    var steps: seq<Step>
    var currentStep: int
    var selected: Selection
    var quantity: int

    /** The steps are derived from the item, the index is in range, the quantity is at least 1. */
    ghost predicate Valid()
      reads this
    {
      steps == StepsOf(item) && StepInRange(currentStep, |steps|) && quantity >= 1
    }

    /** The initial `useState` values, before any item is shown. */
    constructor()
      ensures Valid()
      ensures item == None && steps == [] && currentStep == 0 && selected == [] && quantity == 1
    {
      item := None;
      steps := [];
      currentStep := 0;
      selected := [];
      quantity := 1;
    }

    /** A new item: the reset effect (step 0, no selection, quantity 1), then the steps and the clamp. */
    method Open(it: MenuItem)
      modifies this
      ensures Valid()
      ensures item == Some(it) && steps == StepsOf(Some(it))
      ensures currentStep == 0 && selected == [] && quantity == 1
    {
      item := Some(it);
      currentStep := 0;
      selected := [];
      quantity := 1;
      steps := StepsOf(item);
      currentStep := Clamp(currentStep, |steps|);
    }

    /**
     * The screen drops the item: there are no steps and the clamp sets the
     * index to 0; the reset effect does not run, so the selection and the
     * quantity stay. The store page renders the modal only while an item is
     * selected, so closing unmounts it and that kept state is never shown:
     * the next `Open` starts from a fresh reset.
     */
    method Close()
      requires Valid()
      modifies this
      ensures Valid()
      ensures item == None && steps == [] && currentStep == 0
      ensures selected == old(selected) && quantity == old(quantity)
    {
      item := None;
      steps := [];
      currentStep := Clamp(currentStep, 0);
    }

    method Increment()
      requires Valid()
      modifies this
      ensures Valid()
      ensures quantity == old(quantity) + 1
      ensures item == old(item) && steps == old(steps) && currentStep == old(currentStep) && selected == old(selected)
    {
      quantity := quantity + 1;
    }

    method Decrement()
      requires Valid()
      modifies this
      ensures Valid()
      ensures quantity == DecrementQuantity(old(quantity))
      ensures item == old(item) && steps == old(steps) && currentStep == old(currentStep) && selected == old(selected)
    {
      quantity := DecrementQuantity(quantity);
    }

    method Next()
      requires Valid()
      modifies this
      ensures Valid()
      ensures item == old(item) && steps == old(steps) && selected == old(selected) && quantity == old(quantity)
      ensures currentStep == NextStep(old(currentStep), |steps|)
    {
      currentStep := NextStep(currentStep, |steps|);
    }

    method Back()
      requires Valid()
      modifies this
      ensures Valid()
      ensures item == old(item) && steps == old(steps) && selected == old(selected) && quantity == old(quantity)
      ensures currentStep == PrevStep(old(currentStep), |steps|)
    {
      currentStep := PrevStep(currentStep, |steps|);
    }

    /** An option card was pressed. */
    method SelectAddon(step: Step, option: Addon)
      requires Valid()
      modifies this
      ensures Valid()
      ensures selected == Select(old(selected), step, option)
      ensures item == old(item) && steps == old(steps) && currentStep == old(currentStep) && quantity == old(quantity)
    {
      selected := Select(selected, step, option);
    }

    /** The `forEach` over the groups that sums the chosen options' prices. */
    method AddonsPriceSingleQty() returns (sum: int)
      ensures sum == SelectionPrice(selected)
    {
      sum := 0;
      var groups := selected;
      var i := 0;
      while i < |groups|
        invariant 0 <= i <= |groups|
        invariant sum + SelectionPrice(groups[i..]) == SelectionPrice(groups)
      {
        assert groups[i..][1..] == groups[i + 1..];
        sum := sum + SumPrices(groups[i].value);
        i := i + 1;
      }
    }

    /** `totalPrice = (basePrice + addonsPriceSingleQty) * quantity`. */
    method TotalPrice() returns (total: int)
      ensures total == (BasePrice(item) + SelectionPrice(selected)) * quantity
    {
      var addons := AddonsPriceSingleQty();
      total := (BasePrice(item) + addons) * quantity;
    }

    predicate IsLastStep()
      reads this
    {
      IsLast(currentStep, |steps|)
    }

    /** The add button: present on the last step, it passes the item, quantity and selection. */
    method AddOffer() returns (offer: Option<Submission>)
      ensures offer.Some? <==> IsLastStep() && item.Some?
      ensures offer.Some? ==> offer.value == Submission(item.value, quantity, selected)
    {
      if IsLastStep() && item.Some? {
        offer := Some(Submission(item.value, quantity, selected));
      } else {
        offer := None;
      }
    }
  }
}
