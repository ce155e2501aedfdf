/**
 * The slice of JavaScript value semantics the admin application relies on:
 * parsed JSON values, truthiness, `typeof`, `||`, property reads (which throw
 * on `null` and `undefined`), object spread and `String(...)` conversion.
 * Numbers are integers here; NaN, -0 and fractions are not modelled.
 */
module JsValue {
  import opened Wrappers

  /** A JSON-like JavaScript value; objects are unordered maps of own properties. */
  datatype Value =
    | Undefined
    | Null
    | Str(s: string)
    | Num(n: int)
    | Bool(b: bool)
    | Arr(items: seq<Value>)
    | Obj(fields: map<string, Value>)

  /** What a throwing expression raises. */
  datatype Failure =
    | TypeError                  // reading a property of null/undefined, calling a non-function
    | Thrown(message: string)    // `throw new Error(message)`
    | NetworkError               // `fetch` or `response.json()` rejected

  /** JavaScript truthiness: `undefined`, `null`, `""`, `0` and `false` are falsy. */
  predicate Truthy(v: Value)
  {
    match v
    case Undefined => false
    case Null => false
    case Str(s) => s != ""
    case Num(n) => n != 0
    case Bool(b) => b
    case Arr(_) => true
    case Obj(_) => true
  }

  /** `a || b`: the first operand when it is truthy, else the second. */
  function Or(a: Value, b: Value): Value
  {
    if Truthy(a) then a else b
  }

  /** `v == null` in the loose sense: the values whose property reads throw. */
  predicate Nullish(v: Value)
  {
    v.Undefined? || v.Null?
  }

  /** The `typeof` operator (`typeof null` is "object"). */
  function TypeOf(v: Value): (r: string)
    ensures r == "object" <==> v.Null? || v.Arr? || v.Obj?
    ensures r == "undefined" <==> v.Undefined?
  {
    match v
    case Undefined => "undefined"
    case Null => "object"
    case Str(_) => "string"
    case Num(_) => "number"
    case Bool(_) => "boolean"
    case Arr(_) => "object"
    case Obj(_) => "object"
  }

  function DigitChar(d: nat): char
    requires d < 10
  {
    "0123456789"[d]
  }

  predicate IsDigit(c: char)
  {
    '0' <= c <= '9'
  }

  /** The decimal rendering of a natural number, as `String(n)` gives it. */
  function NatToString(n: nat): (r: string)
    ensures |r| > 0
    ensures forall i :: 0 <= i < |r| ==> IsDigit(r[i])
  {
    if n < 10 then [DigitChar(n)] else NatToString(n / 10) + [DigitChar(n % 10)]
  }

  /** `String(n)` for an integer `n`. */
  function IntToString(n: int): string
  {
    if n < 0 then "-" + NatToString(-n) else NatToString(n)
  }

  /**
   * `s` is a plain decimal numeral whose value is positive: what `Number(s) > 0`
   * decides for strings of digits only.
   */
  predicate IsPositiveNumeral(s: string)
  {
    && |s| > 0
    && (forall i :: 0 <= i < |s| ==> IsDigit(s[i]))
    && exists i :: 0 <= i < |s| && s[i] != '0'
  }

  /** A positive integer renders as a positive numeral. */
  lemma {:induction false} PositiveRendersPositive(n: nat)
    requires n > 0
    ensures IsPositiveNumeral(NatToString(n))
  {
    if n < 10 {
      assert NatToString(n)[0] == DigitChar(n) != '0';
    } else {
      PositiveRendersPositive(n / 10);
      var i :| 0 <= i < |NatToString(n / 10)| && NatToString(n / 10)[i] != '0';
      assert NatToString(n)[i] == NatToString(n / 10)[i];
    }
  }

  /** The own index properties `"0"`, `"1"`, ... of an array or string. */
  function IndexEntries(xs: seq<Value>): (m: map<string, Value>)
    ensures forall k :: k in m ==> |k| > 0 && forall i :: 0 <= i < |k| ==> IsDigit(k[i])
  {
    if xs == [] then map[]
    else IndexEntries(xs[..|xs| - 1])[NatToString(|xs| - 1) := xs[|xs| - 1]]
  }

  /** The one-character strings of `s`, as indexing `s[i]` yields them. */
  function Chars(s: string): (r: seq<Value>)
    ensures |r| == |s|
  {
    seq(|s|, i requires 0 <= i < |s| => Str([s[i]]))
  }

  /** The own enumerable properties that `{...v}` copies. */
  function Spread(v: Value): map<string, Value>
  {
    match v
    case Obj(m) => m
    case Arr(items) => IndexEntries(items)
    case Str(s) => IndexEntries(Chars(s))
    case _ => map[]
  }

  /** `m[key]` on an object's own properties: `undefined` when absent. */
  function Field(m: map<string, Value>, key: string): Value
  {
    if key in m then m[key] else Undefined
  }

  /**
   * The property read `v.key` on a value whose reads do not throw. Own
   * properties and the `length` of strings and arrays are modelled; inherited
   * (prototype) members are not.
   */
  function Get(v: Value, key: string): (r: Value)
    requires !Nullish(v)
    ensures v.Obj? ==> r == Field(v.fields, key)
  {
    var own := Spread(v);
    if key in own then own[key]
    else if key == "length" && v.Str? then Num(|v.s|)
    else if key == "length" && v.Arr? then Num(|v.items|)
    else Undefined
  }

  /**
   * Reading a named (non-index, non-`length`) property: an object's own
   * field, and `undefined` on every other value that does not throw.
   */
  lemma GetNamedKey(v: Value, key: string)
    requires !Nullish(v)
    requires |key| > 0 && !IsDigit(key[0]) && key != "length"
    ensures Get(v, key) == if v.Obj? then Field(v.fields, key) else Undefined
  {
    if v.Arr? || v.Str? {
      assert key !in Spread(v);
    }
  }

  /** The `length` of a string or an array is its number of elements. */
  lemma GetLength(v: Value)
    requires !Nullish(v)
    ensures v.Str? ==> Get(v, "length") == Num(|v.s|)
    ensures v.Arr? ==> Get(v, "length") == Num(|v.items|)
  {
    if v.Str? || v.Arr? {
      assert !IsDigit("length"[0]);
      assert "length" !in Spread(v);
    }
  }

  /** `v.key` in general: a TypeError on `null` and `undefined`. */
  function Member(v: Value, key: string): (r: Result<Value, Failure>)
    ensures r.Err? <==> Nullish(v)
    ensures r.Err? ==> r.error == TypeError
    ensures r.Ok? ==> r.value == Get(v, key)
  {
    if Nullish(v) then Err(TypeError) else Ok(Get(v, key))
  }

  /** `xs.join(",")`. */
  function JoinWithCommas(xs: seq<string>): string
  {
    if xs == [] then ""
    else if |xs| == 1 then xs[0]
    else xs[0] + "," + JoinWithCommas(xs[1..])
  }

  /**
   * `String(v)` (also what a template literal inserts): arrays join their
   * elements with commas, writing `null` and `undefined` elements as empty.
   */
  function ToJsString(v: Value): string
  {
    match v
    case Undefined => "undefined"
    case Null => "null"
    case Str(s) => s
    case Num(n) => IntToString(n)
    case Bool(b) => if b then "true" else "false"
    case Arr(items) =>
      JoinWithCommas(seq(|items|, i requires 0 <= i < |items| =>
        if Nullish(items[i]) then "" else ToJsString(items[i])))
    case Obj(_) => "[object Object]"
  }

  /** ASCII `toLowerCase` on one character. */
  function LowerChar(c: char): char
  {
    if 'A' <= c <= 'Z' then (c as int + 32) as char else c
  }

  /** ASCII `toUpperCase` on one character. */
  function UpperChar(c: char): char
  {
    if 'a' <= c <= 'z' then (c as int - 32) as char else c
  }

  /** ASCII `s.toLowerCase()`. */
  function Lower(s: string): (r: string)
    ensures |r| == |s|
    ensures forall i :: 0 <= i < |s| ==> r[i] == LowerChar(s[i])
  {
    seq(|s|, i requires 0 <= i < |s| => LowerChar(s[i]))
  }

  /** ASCII `s.toUpperCase()`. */
  function Upper(s: string): (r: string)
    ensures |r| == |s|
    ensures forall i :: 0 <= i < |s| ==> r[i] == UpperChar(s[i])
  {
    seq(|s|, i requires 0 <= i < |s| => UpperChar(s[i]))
  }

  predicate OccursAt(hay: string, needle: string, i: nat)
  {
    i + |needle| <= |hay| && hay[i..i + |needle|] == needle
  }

  /** `hay.includes(needle)`. */
  predicate Contains(hay: string, needle: string)
  {
    exists i: nat | i <= |hay| :: OccursAt(hay, needle, i)
  }

  /** Lower-casing twice is lower-casing once. */
  lemma LowerIdempotent(s: string)
    ensures Lower(Lower(s)) == Lower(s)
  {
  }

  /** Lower-casing forgets any earlier upper-casing. */
  lemma LowerOfUpper(s: string)
    ensures Lower(Upper(s)) == Lower(s)
  {
  }

  /** Every string includes the empty string, as `"abc".includes("")` is true. */
  lemma ContainsEmpty(hay: string)
    ensures Contains(hay, "")
  {
    assert OccursAt(hay, "", 0);
  }
}
