/**
 * The slice of JavaScript value semantics the proxy's code relies on:
 * JSON-shaped values, truthiness and `||`, property reads (`v.k`, which throws
 * on null or undefined, and `v?.k`, which does not), object spread and property
 * assignment, and the string conversion applied by template literals,
 * `new Error(...)` and `URLSearchParams`.
 */
module JsValue {
  import opened Wrappers

  /** A JavaScript value as it arrives from Moodle or Google, or leaves in a JSON reply.
      Numbers are integers; an object lists its own properties in insertion order. */
  datatype Value =
    | Undefined
    | Null
    | Bool(b: bool)
    | Num(n: int)
    | Str(s: string)
    | Arr(items: seq<Value>)
    | Obj(props: seq<(string, Value)>)

  /** The own properties of an object, in insertion order. */
  type Props = seq<(string, Value)>

  /** JavaScript truthiness: `undefined`, `null`, `false`, `0` and `""` are falsy. */
  predicate Truthy(v: Value) {
    match v
    case Undefined => false
    case Null => false
    case Bool(b) => b
    case Num(n) => n != 0
    case Str(s) => s != ""
    case Arr(_) => true
    case Obj(_) => true
  }

  /** `null` or `undefined`: the values on which a property read throws. */
  predicate Nullish(v: Value) {
    v.Undefined? || v.Null?
  }

  /** `a || b` */
  function Or(a: Value, b: Value): Value {
    if Truthy(a) then a else b
  }

  // ----- objects as ordered property lists -----

  function Keys(props: Props): (ks: seq<string>)
    ensures |ks| == |props|
    ensures forall i :: 0 <= i < |props| ==> ks[i] == props[i].0
  {
    if |props| == 0 then [] else [props[0].0] + Keys(props[1..])
  }

  /** An object never holds two own properties with the same key. */
  predicate DistinctKeys(props: Props) {
    forall i, j :: 0 <= i < j < |props| ==> props[i].0 != props[j].0
  }

  /** The value of property `key`, or `undefined` when there is none. */
  function Lookup(props: Props, key: string): Value {
    if |props| == 0 then Undefined
    else if props[0].0 == key then props[0].1
    else Lookup(props[1..], key)
  }

  lemma {:induction false} LookupAt(props: Props, i: nat)
    requires DistinctKeys(props) && i < |props|
    ensures Lookup(props, props[i].0) == props[i].1
  {
    if i > 0 {
      assert DistinctKeys(props[1..]);
      LookupAt(props[1..], i - 1);
    }
  }

  lemma {:induction false} LookupMissing(props: Props, key: string)
    requires key !in Keys(props)
    ensures Lookup(props, key) == Undefined
  {
    if |props| > 0 {
      assert props[0].0 == Keys(props)[0];
      assert Keys(props[1..]) == Keys(props)[1..];
      LookupMissing(props[1..], key);
    }
  }

  /** Property assignment `o[key] = v`: an existing key keeps its place and
      takes the new value, a new key is added last (see SetPropKeys). */
  function SetProp(props: Props, key: string, v: Value): (r: Props)
    ensures Lookup(r, key) == v
    ensures forall k :: k != key ==> Lookup(r, k) == Lookup(props, k)
  {
    if |props| == 0 then [(key, v)]
    else if props[0].0 == key then [(key, v)] + props[1..]
    else [props[0]] + SetProp(props[1..], key, v)
  }

  lemma {:induction false} SetPropKeys(props: Props, key: string, v: Value)
    ensures Keys(SetProp(props, key, v)) ==
            if key in Keys(props) then Keys(props) else Keys(props) + [key]
  {
    if |props| > 0 && props[0].0 != key {
      var rest := SetProp(props[1..], key, v);
      SetPropKeys(props[1..], key, v);
      assert ([props[0]] + rest)[1..] == rest;
    }
  }

  lemma SetPropDistinct(props: Props, key: string, v: Value)
    requires DistinctKeys(props)
    ensures DistinctKeys(SetProp(props, key, v))
  {
    var r := SetProp(props, key, v);
    SetPropKeys(props, key, v);
    assert Keys(r) == if key in Keys(props) then Keys(props) else Keys(props) + [key];
    forall i, j | 0 <= i < j < |r| ensures r[i].0 != r[j].0 {
      assert r[i].0 == Keys(r)[i] && r[j].0 == Keys(r)[j];
    }
  }

  /** Object spread `{...base, ...extra}`: the properties of `extra` assigned to
      a copy of `base`, one after the other in their order. */
  function Assign(base: Props, extra: Props): Props
    decreases |extra|
  {
    if |extra| == 0 then base
    else Assign(SetProp(base, extra[0].0, extra[0].1), extra[1..])
  }

  /** After a spread, a key of `extra` reads its value from `extra` (overriding
      `base`), and every other key reads its value from `base`. */
  lemma {:induction false} AssignLookup(base: Props, extra: Props, k: string)
    requires DistinctKeys(extra)
    ensures Lookup(Assign(base, extra), k) ==
            if k in Keys(extra) then Lookup(extra, k) else Lookup(base, k)
    decreases |extra|
  {
    if |extra| > 0 {
      var b' := SetProp(base, extra[0].0, extra[0].1);
      assert DistinctKeys(extra[1..]);
      assert Keys(extra) == [extra[0].0] + Keys(extra[1..]);
      AssignLookup(b', extra[1..], k);
      if k in Keys(extra[1..]) {
        var j :| 0 <= j < |extra[1..]| && Keys(extra[1..])[j] == k;
        assert extra[j + 1].0 == k;
        assert extra[0].0 != k;
      }
    }
  }

  /** A spread keeps the keys of `base` first and in order, adds only keys of
      `extra`, and never duplicates a key. */
  lemma {:induction false} AssignKeys(base: Props, extra: Props)
    ensures |Assign(base, extra)| >= |base|
    ensures Keys(Assign(base, extra))[..|base|] == Keys(base)
    ensures forall k :: k in Keys(Assign(base, extra)) <==> k in Keys(base) || k in Keys(extra)
    ensures DistinctKeys(base) ==> DistinctKeys(Assign(base, extra))
    decreases |extra|
  {
    if |extra| > 0 {
      var b' := SetProp(base, extra[0].0, extra[0].1);
      assert Keys(extra) == [extra[0].0] + Keys(extra[1..]);
      SetPropKeys(base, extra[0].0, extra[0].1);
      if DistinctKeys(base) { SetPropDistinct(base, extra[0].0, extra[0].1); }
      AssignKeys(b', extra[1..]);
      assert Keys(b')[..|base|] == Keys(base);
    }
  }

  // ----- property reads -----

  /** `v?.key`, and `v.key` on a value that is not nullish. Arrays and strings
      answer only `length`; other primitives have no own data properties. */
  function Field(v: Value, key: string): Value {
    match v
    case Obj(props) => Lookup(props, key)
    case Arr(items) => if key == "length" then Num(|items|) else Undefined
    case Str(s) => if key == "length" then Num(|s|) else Undefined
    case _ => Undefined
  }

  /** An exception as caught by a handler: its `message`, and `response.data`
      when it is an HTTP client error carrying a response (otherwise `undefined`). */
  datatype JsError = JsError(message: string, responseData: Value)

  /** The TypeError a property read on `null`/`undefined` throws. */
  function TypeErrorReading(v: Value, key: string): JsError
    requires Nullish(v)
  {
    JsError("Cannot read properties of " + (if v.Null? then "null" else "undefined")
            + " (reading '" + key + "')", Undefined)
  }

  /** The TypeError thrown when `expr` is called but is not a function. */
  function NotAFunction(expr: string): JsError {
    JsError(expr + " is not a function", Undefined)
  }

  /** `v.key`, which throws on a nullish `v`. */
  function Get(v: Value, key: string): (r: Result<Value, JsError>)
    ensures r.Err? <==> Nullish(v)
    ensures r.Ok? ==> r.value == Field(v, key)
  {
    if Nullish(v) then Err(TypeErrorReading(v, key)) else Ok(Field(v, key))
  }

  // ----- string conversion -----

  function DigitChar(d: nat): char
    requires d < 10
  {
    "0123456789"[d]
  }

  /** Decimal digits of a natural number, most significant first. */
  function NatToDecimal(n: nat): (s: string)
    ensures |s| > 0
    ensures forall i :: 0 <= i < |s| ==> '0' <= s[i] <= '9'
    decreases n
  {
    if n < 10 then [DigitChar(n)] else NatToDecimal(n / 10) + [DigitChar(n % 10)]
  }

  function IntToDecimal(i: int): string {
    if i < 0 then "-" + NatToDecimal(-i) else NatToDecimal(i)
  }

  lemma SmallNumbers()
    ensures ToStr(Num(0)) == "0" && ToStr(Num(1)) == "1"
  {
    assert NatToDecimal(0) == [DigitChar(0)] == "0";
    assert NatToDecimal(1) == [DigitChar(1)] == "1";
  }

  /** `String(v)`: what a template literal, `URLSearchParams` and a computed
      property key make of a value. Array elements that are nullish become "". */
  function ToStr(v: Value): string
    decreases v
  {
    match v
    case Undefined => "undefined"
    case Null => "null"
    case Bool(b) => if b then "true" else "false"
    case Num(n) => IntToDecimal(n)
    case Str(s) => s
    case Arr(items) =>
      JoinWithCommas(seq(|items|, i requires 0 <= i < |items| =>
                           if Nullish(items[i]) then "" else ToStr(items[i])))
    case Obj(_) => "[object Object]"
  }

  function JoinWithCommas(parts: seq<string>): string {
    if |parts| == 0 then ""
    else if |parts| == 1 then parts[0]
    else parts[0] + "," + JoinWithCommas(parts[1..])
  }

  /** The message of `new Error(v)`: empty for `undefined`, `String(v)` otherwise. */
  function NewError(v: Value): (e: JsError)
    ensures e.responseData == Undefined
    ensures v.Str? ==> e.message == v.s
    ensures v == Undefined ==> e.message == ""
  {
    JsError(if v.Undefined? then "" else ToStr(v), Undefined)
  }
}
