/**
  JavaScript values as `JSON.parse` produces them, and the handful of
  JavaScript rules the invoice code leans on: truthiness, property reads
  (which throw on `null`), the `in` operator (which throws on primitives),
  property assignment, strict equality and conversion to a string.

  Stored and streamed strings are classified by what `JSON.parse` makes of
  them (`Text`); the parser itself and number formatting are not modelled:
  number formatting is a parameter `num` wherever a number becomes text.
*/
module JsValue {

  datatype Option<+T> = None | Some(value: T) {
    function GetOr(default: T): T {
      if Some? then value else default
    }
  }

  /** The one exception the modelled code raises by itself. */
  datatype Thrown = TypeError

  /** A computation that either yields a value or throws. */
  datatype Result<+T> = Ok(value: T) | Err(error: Thrown)

  datatype Json =
    | JNull
    | JBool(b: bool)
    | JNum(n: real)
    | JStr(s: string)
    | JArr(items: seq<Json>)
    | JObj(fields: seq<Field>)

  /** One property of an object, in the order `JSON.parse` created them. */
  datatype Field = Field(key: string, value: Json)

  /**
    A string of the program, classified by `JSON.parse`: the empty string
    (falsy, and a parse error), the text of a JSON value, or any other
    non-empty text (a parse error).
  */
  datatype Text = EmptyText | JsonText(value: Json) | NotJson

  /** `JSON.parse`, with a parse error as `None`. */
  function Parse(t: Text): (r: Option<Json>)
    ensures r.Some? <==> t.JsonText?
  {
    if t.JsonText? then Some(t.value) else None
  }

  /** `JSON.stringify` of a value that came from JSON. */
  function Stringify(v: Json): (t: Text)
    ensures Parse(t) == Some(v)
    ensures t != EmptyText
  {
    JsonText(v)
  }

  /** JavaScript truthiness of a defined value. */
  predicate Truthy(v: Json) {
    match v
    case JNull => false
    case JBool(b) => b
    case JNum(n) => n != 0.0
    case JStr(s) => s != ""
    case JArr(_) => true
    case JObj(_) => true
  }

  /** Truthiness of a value that may be `undefined` (`None`). */
  predicate IsTruthy(o: Option<Json>) {
    o.Some? && Truthy(o.value)
  }

  /**
    The value of the first property named `k`. Objects are taken to have one
    property per name, as `JSON.parse` leaves them when the text repeats none.
  */
  function Lookup(fields: seq<Field>, k: string): (r: Option<Json>)
    ensures r.Some? <==> exists i :: 0 <= i < |fields| && fields[i].key == k
    ensures r.Some? ==> Field(k, r.value) in fields
  {
    if fields == [] then None
    else if fields[0].key == k then Some(fields[0].value)
    else Lookup(fields[1..], k)
  }

  /**
    `v.k` for a value that is not `null`: objects have their own properties;
    arrays, strings, numbers and booleans have none of the names the code reads.
  */
  function Prop(v: Json, k: string): Option<Json> {
    if v.JObj? then Lookup(v.fields, k) else None
  }

  /** `v.k`, which throws a TypeError when `v` is `null`. */
  function GetProp(v: Json, k: string): (r: Result<Option<Json>>)
    ensures r.Err? <==> v == JNull
    ensures r.Ok? ==> r.value == Prop(v, k)
  {
    if v == JNull then Err(TypeError) else Ok(Prop(v, k))
  }

  /** `k in v`, which throws a TypeError unless `v` is an object or an array. */
  function HasKey(v: Json, k: string): (r: Result<bool>)
    ensures r.Err? <==> !(v.JObj? || v.JArr?)
    ensures r == Ok(true) <==> Prop(v, k).Some?
  {
    match v
    case JObj(fs) => Ok(Lookup(fs, k).Some?)
    case JArr(_) => Ok(false)
    case _ => Err(TypeError)
  }

  /** Assigning property `k`: an existing property keeps its place, a new one goes last. */
  function SetField(fields: seq<Field>, k: string, x: Json): (r: seq<Field>)
    ensures Lookup(r, k) == Some(x)
    ensures forall k' :: k' != k ==> Lookup(r, k') == Lookup(fields, k')
    ensures Lookup(fields, k).Some? ==> |r| == |fields|
  {
    if fields == [] then [Field(k, x)]
    else if fields[0].key == k then [Field(k, x)] + fields[1..]
    else [fields[0]] + SetField(fields[1..], k, x)
  }

  /**
    `v.k = x` as `JSON.stringify` later sees it: an object gains or updates
    the property; a property put on an array is never serialised.
  */
  function SetProp(v: Json, k: string, x: Json): (r: Json)
    ensures v.JObj? ==> r.JObj? && Prop(r, k) == Some(x)
    ensures v.JObj? ==> forall k' :: k' != k ==> Prop(r, k') == Prop(v, k')
    ensures !v.JObj? ==> r == v
  {
    if v.JObj? then JObj(SetField(v.fields, k, x)) else v
  }

  /**
    `a === b` on possibly undefined values. Objects and arrays compare by
    reference, and values parsed separately are never the same reference.
  */
  predicate StrictEquals(a: Option<Json>, b: Option<Json>) {
    match (a, b)
    case (None, None) => true
    case (Some(x), Some(y)) => x == y && !x.JArr? && !x.JObj?
    case _ => false
  }

  /** `String(v)`, also what a template literal `${v}` inserts. */
  function Show(v: Json, num: real -> string): string
    decreases v, 1, 0
  {
    match v
    case JNull => "null"
    case JBool(b) => if b then "true" else "false"
    case JNum(n) => num(n)
    case JStr(s) => s
    case JObj(_) => "[object Object]"
    case JArr(items) => JoinFrom(v, 0, num)
  }

  /** `items.join(",")` from position `i`, where `null` elements become "". */
  function JoinFrom(arr: Json, i: nat, num: real -> string): string
    requires arr.JArr? && i <= |arr.items|
    decreases arr, 0, |arr.items| - i
  {
    if i == |arr.items| then ""
    else
      (if arr.items[i] == JNull then "" else Show(arr.items[i], num))
      + (if i + 1 == |arr.items| then "" else "," + JoinFrom(arr, i + 1, num))
  }

  /** The properties `{...v}` copies: an object's own, an array's or a string's by index, nothing otherwise. */
  function SpreadFields(v: Option<Json>): seq<Field> {
    if v.None? then []
    else match v.value
      case JObj(fs) => fs
      case JArr(xs) => seq(|xs|, i requires 0 <= i < |xs| => Field(NatToString(i), xs[i]))
      case JStr(s) => seq(|s|, i requires 0 <= i < |s| => Field(NatToString(i), JStr([s[i]])))
      case _ => []
  }

  /**
    A spread copy has the same value under every name that is not an index:
    an object's own properties are copied, and the index keys an array or a
    string contributes all start with a digit.
  */
  lemma SpreadKeepsNamedProp(v: Json, k: string)
    requires |k| >= 1 && !('0' <= k[0] <= '9')
    ensures Prop(JObj(SpreadFields(Some(v))), k) == Prop(v, k)
  {
    var fs := SpreadFields(Some(v));
    if v.JArr? || v.JStr? {
      forall i | 0 <= i < |fs| ensures fs[i].key != k {
        assert fs[i].key == NatToString(i);
        assert '0' <= NatToString(i)[0] <= '9';
      }
    }
  }

  /** `${v}` where `v` may be `undefined`. */
  function ShowOpt(o: Option<Json>, num: real -> string): string {
    if o.None? then "undefined" else Show(o.value, num)
  }

  /** ASCII lower-casing of one character. */
  function LowerChar(c: char): char {
    if 'A' <= c <= 'Z' then (c as int + 32) as char else c
  }

  /** `s.toLowerCase()` on the ASCII letters. */
  function Lower(s: string): (r: string)
    ensures |r| == |s|
    ensures forall i :: 0 <= i < |s| ==> r[i] == LowerChar(s[i])
  {
    if s == [] then [] else [LowerChar(s[0])] + Lower(s[1..])
  }

  /** The decimal digits of a natural number, as array indices print. */
  function NatToString(n: nat): (r: string)
    ensures |r| >= 1
    ensures forall i :: 0 <= i < |r| ==> '0' <= r[i] <= '9'
    decreases n
  {
    if n < 10 then [DigitChar(n)] else NatToString(n / 10) + [DigitChar(n % 10)]
  }

  function DigitChar(d: nat): char
    requires d < 10
  {
    ('0' as int + d) as char
  }
}
