/**
 * The JavaScript value semantics the screens lean on: `||`, `??`,
 * truthiness, `String(v)`, and `Number(v) || 0` on money and quantities.
 * Numbers are integers here (money in cents); NaN is kept because the
 * source explicitly guards against it, infinities are not modelled.
 */
module JsValues {
  import opened Wrappers
  import Text

  /** A loosely typed field as it arrives from the API. */
  datatype JsValue = Undefined | Null | Bool(b: bool) | Num(n: int) | Str(s: string) | Obj

  /** The result of `Number(x)` on a field: a finite number or NaN. */
  datatype NumberResult = Finite(v: int) | NaN

  /** `Number(x) || 0`: NaN (and 0) become 0. */
  function OrZero(n: NumberResult): int {
    match n
    case Finite(v) => v
    case NaN => 0
  }

  predicate Nullish(v: JsValue) {
    v.Undefined? || v.Null?
  }

  /** `a ?? b`. */
  function Coalesce(a: JsValue, b: JsValue): JsValue {
    if Nullish(a) then b else a
  }

  /** `a ?? b` on an optional string field. */
  function CoalesceStr(a: Option<string>, b: string): string {
    if a.Some? then a.value else b
  }

  predicate Truthy(v: JsValue) {
    match v
    case Undefined => false
    case Null => false
    case Bool(b) => b
    case Num(n) => n != 0
    case Str(s) => s != ""
    case Obj => true
  }

  /** A string field that `||` treats as truthy: present and non-empty. */
  predicate Filled(a: Option<string>) {
    a.Some? && a.value != ""
  }

  /**
   * `a || b` on optional strings: an empty or missing `a` yields `b`. The
   * result is one of the operands, and it is filled exactly when one of
   * them is.
   */
  function OrStr(a: Option<string>, b: Option<string>): (r: Option<string>)
    ensures r == a || r == b
    ensures Filled(r) <==> Filled(a) || Filled(b)
  {
    if Filled(a) then a else b
  }

  /**
   * A chain `a || b || c` reads the same however it is grouped, so it is
   * the first filled operand, whichever way it is parenthesised.
   */
  lemma OrStrAssociative(a: Option<string>, b: Option<string>, c: Option<string>)
    ensures OrStr(OrStr(a, b), c) == OrStr(a, OrStr(b, c))
  {
  }

  /** In a chain of three, the first filled operand wins. */
  lemma OrStrFirstFilled(a: Option<string>, b: Option<string>, c: Option<string>)
    ensures Filled(a) ==> OrStr(OrStr(a, b), c) == a
    ensures !Filled(a) && Filled(b) ==> OrStr(OrStr(a, b), c) == b
    ensures !Filled(a) && !Filled(b) ==> OrStr(OrStr(a, b), c) == c
  {
  }

  /** `String(v)`. */
  function ToJsString(v: JsValue): string {
    match v
    case Undefined => "undefined"
    case Null => "null"
    case Bool(b) => if b then "true" else "false"
    case Num(n) => Text.IntToDecimal(n)
    case Str(s) => s
    case Obj => "[object Object]"
  }

  /** `idStr(v) = String(v ?? "")`, the modal's identifier normaliser. */
  function IdStr(v: JsValue): (r: string)
    ensures Nullish(v) ==> r == ""
    ensures v.Str? ==> r == v.s
  {
    ToJsString(Coalesce(v, Str("")))
  }

  /** A formatted integer starts with `-` exactly when it is negative. */
  lemma IntToDecimalSign(n: int)
    ensures |Text.IntToDecimal(n)| > 0
    ensures Text.IntToDecimal(n)[0] == '-' <==> n < 0
  {
    if n >= 0 {
      assert Text.IsDigit(Text.NatToDecimal(n)[0]);
    }
  }

  /** Two numeric ids normalise to the same string only when they are equal. */
  lemma IdStrNumInjective(a: int, b: int)
    requires IdStr(Num(a)) == IdStr(Num(b))
    ensures a == b
  {
    assert IdStr(Num(a)) == Text.IntToDecimal(a);
    assert IdStr(Num(b)) == Text.IntToDecimal(b);
    IntToDecimalInjective(a, b);
  }

  lemma IntToDecimalInjective(a: int, b: int)
    requires Text.IntToDecimal(a) == Text.IntToDecimal(b)
    ensures a == b
  {
    IntToDecimalSign(a);
    IntToDecimalSign(b);
    if a < 0 {
      NegativeDigits(a);
      NegativeDigits(b);
      Text.NatToDecimalInjective(-a, -b);
    } else {
      Text.NatToDecimalInjective(a, b);
    }
  }

  lemma NegativeDigits(n: int)
    requires n < 0
    ensures Text.IntToDecimal(n)[1..] == Text.NatToDecimal(-n)
  {
  }
}
