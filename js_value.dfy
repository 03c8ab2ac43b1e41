/**
 * The fragment of JavaScript values and operators the lookup classifier relies on:
 * values decoded from a JSON response body, optional property access (`a?.k`),
 * nullish coalescing (`a ?? b`), loose comparison with null (`a != null`),
 * `String(a)` and truthiness (`!!a`).
 */
module Js {

  /** A JavaScript value. Numbers are integral here; arrays are treated as plain objects. */
  datatype JsValue =
    | Undefined
    | Null
    | Bool(b: bool)
    | Num(n: int)
    | Str(s: string)
    | Obj(props: map<string, JsValue>)

  /** `v == null` in JavaScript: true of exactly `null` and `undefined`. */
  predicate IsNullish(v: JsValue)
    ensures IsNullish(v) ==> forall key :: Get(v, key) == Undefined
  {
    v.Undefined? || v.Null?
  }

  /**
   * `v?.[key]`: optional chaining yields `undefined` on `null` / `undefined`;
   * a primitive has none of the keys used by the model, so it yields `undefined` too.
   */
  function Get(v: JsValue, key: string): (r: JsValue)
    ensures !v.Obj? ==> r == Undefined
    ensures v.Obj? && key !in v.props ==> r == Undefined
    ensures v.Obj? && key in v.props ==> r == v.props[key]
  {
    match v
    case Obj(props) => if key in props then props[key] else Undefined
    case _ => Undefined
  }

  /** `a ?? b`: the left operand unless it is `null` or `undefined`. */
  function Coalesce(a: JsValue, b: JsValue): (r: JsValue)
    ensures !IsNullish(a) ==> r == a
    ensures IsNullish(a) ==> r == b
    ensures IsNullish(r) <==> IsNullish(a) && IsNullish(b)
  {
    if IsNullish(a) then b else a
  }

  /** `!!v`: the truthiness of a value. */
  predicate Truthy(v: JsValue)
    ensures v.Obj? ==> Truthy(v)
    ensures IsNullish(v) ==> !Truthy(v)
  {
    match v
    case Undefined => false
    case Null => false
    case Bool(b) => b
    case Num(n) => n != 0
    case Str(s) => s != ""
    case Obj(_) => true
  }

  /** The character for a decimal digit. */
  function DigitChar(d: nat): (c: char)
    requires d < 10
    ensures '0' <= c <= '9'
    ensures (c == '0') <==> d == 0
  {
    "0123456789"[d]
  }

  /** The value of a decimal digit character. */
  function DigitValue(c: char): (d: nat)
    requires '0' <= c <= '9'
    ensures d < 10
  {
    c as int - '0' as int
  }

  /** The shortest decimal numeral of a natural number, as `String(n)` writes it. */
  function Decimal(n: nat): (r: string)
    ensures |r| >= 1
    ensures forall i :: 0 <= i < |r| ==> '0' <= r[i] <= '9'
    decreases n
  {
    if n < 10 then [DigitChar(n)] else Decimal(n / 10) + [DigitChar(n % 10)]
  }

  /** The number a string of decimal digits stands for. */
  function DecimalValue(s: string): (n: nat)
    requires forall i :: 0 <= i < |s| ==> '0' <= s[i] <= '9'
    decreases |s|
  {
    if s == [] then 0 else 10 * DecimalValue(s[..|s| - 1]) + DigitValue(s[|s| - 1])
  }

  /** `String(n)` of an integral number: an optional minus sign and the shortest numeral. */
  function IntToString(n: int): (r: string)
    ensures |r| >= 1
    ensures (r[0] == '-') <==> n < 0
    ensures n < 0 ==> (forall i :: 1 <= i < |r| ==> '0' <= r[i] <= '9') && DecimalValue(r[1..]) == -n
    ensures n >= 0 ==> (forall i :: 0 <= i < |r| ==> '0' <= r[i] <= '9') && DecimalValue(r) == n
  {
    if n < 0 then
      DecimalRoundTrip(-n);
      var digits := Decimal(-n);
      assert ("-" + digits)[1..] == digits;
      "-" + digits
    else
      DecimalRoundTrip(n);
      Decimal(n)
  }

  /** `String(v)` for each kind of value. */
  function ToJsString(v: JsValue): (r: string)
    ensures v.Str? ==> r == v.s
    ensures v.Null? ==> r == "null"
    ensures v.Undefined? ==> r == "undefined"
  {
    match v
    case Undefined => "undefined"
    case Null => "null"
    case Bool(b) => if b then "true" else "false"
    case Num(n) => IntToString(n)
    case Str(s) => s
    case Obj(_) => "[object Object]"
  }

  /** Reading a numeral back gives the number it was written from. */
  lemma {:induction false} DecimalRoundTrip(n: nat)
    ensures DecimalValue(Decimal(n)) == n
    decreases n
  {
    var r := Decimal(n);
    if n < 10 {
      assert r == [DigitChar(n)];
      assert r[..0] == [];
    } else {
      DecimalRoundTrip(n / 10);
      assert r[..|r| - 1] == Decimal(n / 10);
      assert r[|r| - 1] == DigitChar(n % 10);
    }
  }

  /** A numeral has no leading zero: it starts with '0' only when it is "0". */
  lemma {:induction false} DecimalNoLeadingZero(n: nat)
    ensures Decimal(n)[0] == '0' <==> n == 0
    ensures Decimal(n)[0] == '0' ==> Decimal(n) == "0"
    decreases n
  {
    if n >= 10 {
      DecimalNoLeadingZero(n / 10);
      assert Decimal(n)[0] == Decimal(n / 10)[0];
    }
  }

  /**
   * `String(n)` of an integral number is never a two-character string starting with '0',
   * so a numeric `code` can never equal "00" or "01".
   */
  lemma NumberNeverZeroLed(n: int)
    ensures |IntToString(n)| == 2 ==> IntToString(n)[0] != '0'
    ensures IntToString(n) != "00" && IntToString(n) != "01"
  {
    if n >= 0 {
      DecimalNoLeadingZero(n);
    }
  }
}
