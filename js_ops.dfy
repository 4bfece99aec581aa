/** The few pieces of JavaScript semantics the dashboard's data shaping relies on:
    truthiness, optional chaining, `||` defaults, `parseInt` and `Array.prototype.find`. */
module JsOps {
  import opened Json

  /** Class of the exception JavaScript throws when a property of null or undefined is read
      or when a value that is not a function is called. */
  const TypeError := "TypeError"

  predicate Nullish(v: Value) {
    v.Undefined? || v.Null?
  }

  /** JavaScript truthiness: `undefined`, `null`, `false`, `0` and `""` are falsy. */
  predicate Truthy(v: Value) {
    match v
    case Undefined => false
    case Null => false
    case Bool(b) => b
    case Num(n) => n != 0
    case Str(s) => s != ""
    case Arr(_) => true
    case Obj(_) => true
  }

  /** `v?.[key]`: an own property of an object, otherwise `undefined`. Only keys that no
      built-in prototype defines are read through this function. */
  function Field(v: Value, key: string): Value {
    if v.Obj? && key in v.fields then v.fields[key] else Undefined
  }

  /** `v[key]` without optional chaining: reading a property of null or undefined throws. */
  function Prop(v: Value, key: string): Result<Value> {
    if Nullish(v) then Err(TypeError) else Ok(Field(v, key))
  }

  /** `a || fallback` */
  function Or(a: Value, fallback: Value): Value {
    if Truthy(a) then a else fallback
  }

  /** `v[0]` on a value that is not null or undefined. */
  function Index0(v: Value): Value {
    match v
    case Arr(xs) => if |xs| > 0 then xs[0] else Undefined
    case Str(s) => if |s| > 0 then Str([s[0]]) else Undefined
    case _ => Field(v, "0")
  }

  /** `Object.keys(v).length` for a value that is not null or undefined. */
  function KeyCount(v: Value): nat {
    match v
    case Obj(m) => |m|
    case Arr(xs) => |xs|
    case Str(s) => |s|
    case _ => 0
  }

  // ---------------------------------------------------------------------------------------
  // parseInt

  predicate IsDigit(c: char) {
    '0' <= c <= '9'
  }

  predicate AllDigits(s: string) {
    forall i :: 0 <= i < |s| ==> IsDigit(s[i])
  }

  function DigitsValue(s: string): nat
    requires AllDigits(s)
  {
    if |s| == 0 then 0 else DigitsValue(s[..|s| - 1]) * 10 + (s[|s| - 1] as nat - '0' as nat)
  }

  /** A whole string of decimal digits with an optional sign; `None` stands for `NaN`. */
  function ParseDecimal(s: string): Option<int> {
    if |s| > 0 && (s[0] == '-' || s[0] == '+') then
      var digits := s[1..];
      if |digits| > 0 && AllDigits(digits) then
        Some(if s[0] == '-' then -(DigitsValue(digits) as int) else DigitsValue(digits))
      else None
    else if |s| > 0 && AllDigits(s) then Some(DigitsValue(s))
    else None
  }

  /** `parseInt(v)`: a number is its own value, a string is read as a decimal integer, every
      other value (undefined, null, booleans, objects) gives `NaN`, here `None`. */
  function ParseInt(v: Value): Option<int> {
    match v
    case Num(n) => Some(n)
    case Str(s) => ParseDecimal(s)
    case _ => None
  }

  /** `parseInt(v) || 0`: `NaN` and 0 are both falsy, so a failed parse becomes 0. */
  function OrZero(parsed: Option<int>): int {
    match parsed
    case Some(n) => n
    case None => 0
  }

  /** "Parsed or 0": `count` is what `parseInt(raw) || 0` evaluates to, the parsed number when
      `raw` parses and 0 when it does not. */
  ghost predicate ParsedOrZero(raw: Value, count: int) {
    && (ParseInt(raw).Some? ==> count == ParseInt(raw).value)
    && (ParseInt(raw).None? ==> count == 0)
  }

  /** The decimal spelling of a natural number, as `String(n)` writes it. */
  function DecimalString(n: nat): (s: string)
    ensures |s| > 0 && AllDigits(s)
  {
    if n < 10 then ['0' + n as char] else DecimalString(n / 10) + ['0' + (n % 10) as char]
  }

  lemma {:induction false} DecimalStringValue(n: nat)
    ensures DigitsValue(DecimalString(n)) == n
  {
    var s := DecimalString(n);
    if n >= 10 {
      DecimalStringValue(n / 10);
      assert s[..|s| - 1] == DecimalString(n / 10);
    } else {
      assert s[..0] == [];
    }
  }

  /** Distinct indices have distinct spellings, so they are distinct object keys. */
  lemma DecimalStringInjective()
    ensures forall m: nat, n: nat :: DecimalString(m) == DecimalString(n) ==> m == n
  {
    forall m: nat, n: nat | DecimalString(m) == DecimalString(n)
      ensures m == n
    {
      DecimalStringValue(m);
      DecimalStringValue(n);
    }
  }

  /** `Object.entries(v)` as a map from key to value, for a value that is not null or undefined:
      an array's and a string's keys are their indices. */
  function Entries(v: Value): map<string, Value> {
    DecimalStringInjective();
    match v
    case Obj(m) => m
    case Arr(xs) => map i | 0 <= i < |xs| :: DecimalString(i) := xs[i]
    case Str(s) => map i | 0 <= i < |s| :: DecimalString(i) := Str([s[i]])
    case _ => map[]
  }

  // ---------------------------------------------------------------------------------------
  // Array.prototype.find(p => p.destination === 'Shopping')

  /** The predicate the shaping code hands to `find`; on a non-nullish element it cannot throw. */
  predicate IsShopping(p: Value) {
    Field(p, "destination") == Str("Shopping")
  }

  /** Element `i` is where `find` stops with a match: it is a Shopping product and every earlier
      element was inspected without throwing and did not match. */
  ghost predicate FirstShoppingAt(items: seq<Value>, i: int) {
    && 0 <= i < |items|
    && IsShopping(items[i])
    && forall j :: 0 <= j < i ==> !Nullish(items[j]) && !IsShopping(items[j])
  }

  /** `items.find(p => p.destination === 'Shopping')`: the first matching element, `undefined`
      when none matches; reading `.destination` of a null element throws. */
  function FindFirstShopping(items: seq<Value>): (r: Result<Value>)
    ensures r.Ok? && r.value != Undefined ==>
      exists i :: FirstShoppingAt(items, i) && items[i] == r.value
    ensures r == Ok(Undefined) <==>
      forall j :: 0 <= j < |items| ==> !Nullish(items[j]) && !IsShopping(items[j])
    ensures r.Err? <==>
      exists i :: 0 <= i < |items| && Nullish(items[i]) && forall j :: 0 <= j < i ==> !IsShopping(items[j])
  {
    if |items| == 0 then Ok(Undefined)
    else if Nullish(items[0]) then Err(TypeError)
    else if IsShopping(items[0]) then Ok(items[0])
    else
      var r := FindFirstShopping(items[1..]);
      assert forall j :: 1 <= j < |items| ==> items[j] == items[1..][j - 1];
      assert forall i :: FirstShoppingAt(items[1..], i) ==> FirstShoppingAt(items, i + 1);
      assert forall i :: (0 <= i < |items| - 1 && Nullish(items[1..][i]) &&
        (forall j :: 0 <= j < i ==> !IsShopping(items[1..][j]))) ==>
        forall j :: 0 <= j < i + 1 ==> !IsShopping(items[j]);
      r
  }

  /** `products?.find(p => p.destination === 'Shopping')`: `undefined` when `products` is null or
      undefined; calling `find` on anything that is not an array throws. */
  function FindShopping(products: Value): Result<Value> {
    match products
    case Arr(items) => FindFirstShopping(items)
    case _ => if Nullish(products) then Ok(Undefined) else Err(TypeError)
  }

  function UpperChar(c: char): char {
    if 'a' <= c <= 'z' then (c as int - 32) as char else c
  }

  /** `s.toUpperCase()` for ASCII letters. */
  function ToUpper(s: string): string {
    seq(|s|, i requires 0 <= i < |s| => UpperChar(s[i]))
  }
}
