/** JavaScript values as the list-opportunities tool sees them: the loosely
    typed response of the SQL endpoint, plus the few language rules the
    normaliser relies on (nullish coalescing, truthiness, property access
    with and without optional chaining, and `String(...)`). */
module JsValues {

  /** The outcome of evaluating an expression that may throw. The only
      exception the normaliser can raise is a TypeError (reading a property
      of `undefined` or `null`). */
  datatype Result<+T> = Ok(value: T) | TypeError {
    predicate IsFailure() { TypeError? }

    function PropagateFailure<U>(): Result<U>
      requires TypeError?
    {
      TypeError
    }

    function Extract(): T
      requires Ok?
    {
      value
    }
  }

  /** A JavaScript value. `Undefined` is what reading an absent key or an
      index past the end yields, distinct from `Null`. `NativeFunction`
      stands for the one function value the normaliser can meet:
      `Array.prototype.values`, read as `.values` of an array. Numbers are
      integers only. */
  datatype JsValue =
    | Undefined
    | Null
    | Bool(b: bool)
    | Num(n: int)
    | Str(s: string)
    | Arr(elems: seq<JsValue>)
    | Obj(fields: map<string, JsValue>)
    | NativeFunction

  /** `undefined` or `null`: the values `??` and `?.` fall through on. */
  predicate Nullish(v: JsValue) {
    v.Undefined? || v.Null?
  }

  /** `a ?? b`. */
  function Coalesce(a: JsValue, b: JsValue): JsValue {
    if Nullish(a) then b else a
  }

  /** JavaScript truthiness (`if (v)`, `!v`). */
  predicate Truthy(v: JsValue) {
    match v
    case Undefined => false
    case Null => false
    case Bool(b) => b
    case Num(n) => n != 0
    case Str(s) => s != ""
    case _ => true
  }

  /** `v.key` on a value that is not nullish, for the non-index property
      names the normaliser reads. Plain objects answer their own keys;
      an array answers `values` with its built-in iterator function; no
      other value has any of these properties. */
  function Prop(v: JsValue, key: string): JsValue
    requires !Nullish(v)
  {
    match v
    case Obj(m) => if key in m then m[key] else Undefined
    case Arr(_) => if key == "values" then NativeFunction else Undefined
    case _ => Undefined
  }

  /** `v?.key`: `undefined` instead of a TypeError on a nullish `v`. */
  function OptProp(v: JsValue, key: string): JsValue {
    if Nullish(v) then Undefined else Prop(v, key)
  }

  /** `v.key`: throws on a nullish `v`. */
  function Member(v: JsValue, key: string): Result<JsValue> {
    if Nullish(v) then TypeError else Ok(Prop(v, key))
  }

  /** `v[i]` on a value that is not nullish: an array element, a
      one-character string, an object's own key spelled in decimal, or
      `undefined`. */
  function At(v: JsValue, i: nat): JsValue
    requires !Nullish(v)
  {
    match v
    case Arr(s) => if i < |s| then s[i] else Undefined
    case Str(s) => if i < |s| then Str([s[i]]) else Undefined
    case Obj(m) => if Decimal(i) in m then m[Decimal(i)] else Undefined
    case _ => Undefined
  }

  /** `v[i]`: throws on a nullish `v`. */
  function Index(v: JsValue, i: nat): Result<JsValue> {
    if Nullish(v) then TypeError else Ok(At(v, i))
  }

  /** The decimal digits of `n`, most significant first, without leading zeros. */
  function Decimal(n: nat): (r: string)
    ensures |r| > 0
    ensures forall k :: 0 <= k < |r| ==> '0' <= r[k] <= '9'
  {
    if n < 10 then [Digit(n)] else Decimal(n / 10) + [Digit(n % 10)]
  }

  function Digit(d: nat): (c: char)
    requires d < 10
    ensures '0' <= c <= '9'
    ensures c as int - '0' as int == d
  {
    "0123456789"[d]
  }

  /** The number a text of decimal digits stands for, most significant first. */
  function DigitsValue(s: string): nat
    requires forall k :: 0 <= k < |s| ==> '0' <= s[k] <= '9'
  {
    if |s| == 0 then 0 else DigitsValue(s[..|s| - 1]) * 10 + (s[|s| - 1] as int - '0' as int)
  }

  /** The decimal text of `n` stands for `n`. */
  lemma {:induction false} DecimalValue(n: nat)
    ensures DigitsValue(Decimal(n)) == n
  {
    if n >= 10 {
      DecimalValue(n / 10);
      var d := Decimal(n);
      assert d[..|d| - 1] == Decimal(n / 10);
    }
  }

  /** `String(n)` for an integer. */
  function IntToString(n: int): string {
    if n < 0 then "-" + Decimal(-n) else Decimal(n)
  }

  /** `parts.join(sep)`. */
  function Join(parts: seq<string>, sep: string): string {
    if |parts| == 0 then ""
    else if |parts| == 1 then parts[0]
    else parts[0] + sep + Join(parts[1..], sep)
  }

  /** `String(v)`. An array joins its elements with commas, writing
      `undefined` and `null` elements as empty text; a plain object is
      `[object Object]`. */
  function ToStr(v: JsValue): string
    decreases v
  {
    match v
    case Undefined => "undefined"
    case Null => "null"
    case Bool(b) => if b then "true" else "false"
    case Num(n) => IntToString(n)
    case Str(s) => s
    case Arr(s) =>
      Join(seq(|s|, i requires 0 <= i < |s| => if Nullish(s[i]) then "" else ToStr(s[i])), ",")
    case Obj(_) => "[object Object]"
    case NativeFunction => "function values() { [native code] }"
  }
}
