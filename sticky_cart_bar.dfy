/**
 * The sticky cart bar (components/StickyCartBar.js): one pass over the
 * cart's lines adds up the number of units and the amount to pay, and the
 * bar shows only when both are positive.
 */
module StickyCartBar {
  import opened Wrappers
  import opened JsValues
  import opened CartModel
  import CartScreen

  /**
   * What the loop reads from one line: `Number(line?.quantity)`,
   * `line?.total` converted with `Number` when it is not nullish (`None`
   * when it is), and `Number(line?.item?.price)`.
   */
  datatype LineReading = LineReading(quantity: NumberResult, total: Option<NumberResult>, price: NumberResult)

  /** `Number(line?.quantity) || 0`. */
  function Units(l: LineReading): int {
    OrZero(l.quantity)
  }

  /**
   * The line's amount: its own total when present (nothing when that is not
   * a number), else price times units.
   */
  function Contribution(l: LineReading): int {
    match l.total
    case Some(Finite(v)) => v
    case Some(NaN) => 0
    case None => OrZero(l.price) * Units(l)
  }

  /** The units of a prefix of the lines, as the loop accumulates them. */
  function Count(lines: seq<LineReading>): int {
    if lines == [] then 0 else Count(lines[..|lines| - 1]) + Units(lines[|lines| - 1])
  }

  /** The amount of a prefix of the lines, as the loop accumulates it. */
  function Total(lines: seq<LineReading>): int {
    if lines == [] then 0 else Total(lines[..|lines| - 1]) + Contribution(lines[|lines| - 1])
  }

  /** The `for (const line of orders)` loop. */
  method Summarize(lines: seq<LineReading>) returns (count: int, total: int)
    ensures count == Count(lines) && total == Total(lines)
  {
    count, total := 0, 0;
    var i := 0;
    while i < |lines|
      invariant 0 <= i <= |lines|
      invariant count == Count(lines[..i]) && total == Total(lines[..i])
    {
      var line := lines[i];
      count := count + Units(line);
      total := total + Contribution(line);
      assert lines[..i + 1][..i] == lines[..i];
      i := i + 1;
    }
    assert lines[..i] == lines;
  }

  /** `isVisible = count > 0 && total > 0`. */
  predicate IsVisible(count: int, total: int) {
    count > 0 && total > 0
  }

  /** Whether the bar is drawn for these lines. */
  method Render(lines: seq<LineReading>) returns (visible: bool)
    ensures visible <==> Count(lines) > 0 && Total(lines) > 0
  {
    var count, total := Summarize(lines);
    visible := IsVisible(count, total);
  }

  lemma {:induction false} CountTotalAppend(a: seq<LineReading>, b: seq<LineReading>)
    ensures Count(a + b) == Count(a) + Count(b)
    ensures Total(a + b) == Total(a) + Total(b)
    decreases |b|
  {
    if b == [] {
      assert a + b == a;
    } else {
      var b' := b[..|b| - 1];
      assert (a + b)[..|a + b| - 1] == a + b';
      CountTotalAppend(a, b');
    }
  }

  /** An empty cart hides the bar. */
  lemma EmptyCartHidden()
    ensures !IsVisible(Count([]), Total([]))
  {
  }

  /**
   * A line whose quantity and total are not numbers adds nothing, whatever
   * its price.
   */
  lemma UnreadableLineIgnored(lines: seq<LineReading>, price: NumberResult)
    ensures Count(lines + [LineReading(NaN, Some(NaN), price)]) == Count(lines)
    ensures Total(lines + [LineReading(NaN, Some(NaN), price)]) == Total(lines)
  {
    assert (lines + [LineReading(NaN, Some(NaN), price)])[..|lines|] == lines;
  }

  /** A line without a total is charged its price times its units. */
  lemma MissingTotalUsesPrice(lines: seq<LineReading>, q: int, p: int)
    ensures Total(lines + [LineReading(Finite(q), None, Finite(p))]) == Total(lines) + p * q
    ensures Total(lines + [LineReading(Finite(q), None, NaN)]) == Total(lines)
  {
    assert (lines + [LineReading(Finite(q), None, Finite(p))])[..|lines|] == lines;
    assert (lines + [LineReading(Finite(q), None, NaN)])[..|lines|] == lines;
  }

  /** Lines that all contribute nothing keep the bar hidden. */
  lemma {:induction false} NothingToPayHidden(lines: seq<LineReading>)
    requires forall i :: 0 <= i < |lines| ==> Contribution(lines[i]) == 0
    ensures Total(lines) == 0
    ensures !IsVisible(Count(lines), Total(lines))
  {
    if lines != [] {
      NothingToPayHidden(lines[..|lines| - 1]);
    }
  }

  /** How the bar reads a line of the cart state. */
  function Reading(l: CartLine): LineReading {
    LineReading(Finite(l.quantity), Some(Finite(l.total)), Finite(l.item.price))
  }

  function Readings(orders: seq<CartLine>): (r: seq<LineReading>)
    ensures |r| == |orders|
    ensures forall i :: 0 <= i < |orders| ==> r[i] == Reading(orders[i])
  {
    if orders == [] then [] else [Reading(orders[0])] + Readings(orders[1..])
  }

  /** Units in the cart, line by line. */
  function UnitsInCart(orders: seq<CartLine>): int {
    if orders == [] then 0 else UnitsInCart(orders[..|orders| - 1]) + orders[|orders| - 1].quantity
  }

  /**
   * On the reducer's lines the bar's amount is the cart screen's subtotal
   * and its count the sum of the quantities.
   */
  lemma {:induction false} BarAgreesWithCart(orders: seq<CartLine>)
    ensures Count(Readings(orders)) == UnitsInCart(orders)
    ensures Total(Readings(orders)) == CartScreen.Subtotal(orders)
  {
    if orders != [] {
      var n := |orders| - 1;
      BarAgreesWithCart(orders[..n]);
      assert Readings(orders)[..n] == Readings(orders[..n]);
    }
  }

  lemma {:induction false} UnitsAtLeastLines(orders: seq<CartLine>)
    requires AllPositive(orders)
    ensures UnitsInCart(orders) >= |orders|
  {
    if orders != [] {
      UnitsAtLeastLines(orders[..|orders| - 1]);
    }
  }

  /**
   * Since the reducer keeps every quantity at least 1, a non-empty cart
   * shows the bar exactly when its subtotal is positive.
   */
  lemma VisibleIffSubtotalPositive(orders: seq<CartLine>)
    requires AllPositive(orders)
    ensures IsVisible(Count(Readings(orders)), Total(Readings(orders))) <==>
            orders != [] && CartScreen.Subtotal(orders) > 0
  {
    BarAgreesWithCart(orders);
    UnitsAtLeastLines(orders);
  }
}
