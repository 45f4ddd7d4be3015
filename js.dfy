/**
 * The few JavaScript value semantics the relying party depends on:
 * JSON values as produced by `JSON.parse` and `bodyParser.json()`,
 * truthiness (`if (!x)`), and the string coercion that both a template
 * literal (`${x}`) and an object property key (`db[x]`) apply.
 */
module Js {
  import opened Wrappers

  /** A parsed JSON value. Numbers are modelled as integers. */
  datatype Json =
    | JNull
    | JBool(b: bool)
    | JNum(n: int)
    | JStr(s: string)
    | JArr(items: seq<Json>)
    | JObj(fields: map<string, Json>)

  /** A JavaScript value that may be `undefined` (`None`). */
  type Value = Option<Json>

  /** JavaScript truthiness: `undefined`, `null`, `false`, `0` and `""` are falsy. */
  predicate Truthy(v: Value)
    ensures Truthy(v) <==> v !in {None, Some(JNull), Some(JBool(false)), Some(JNum(0)), Some(JStr(""))}
  {
    match v
    case None => false
    case Some(JNull) => false
    case Some(JBool(b)) => b
    case Some(JNum(n)) => n != 0
    case Some(JStr(s)) => s != ""
    case Some(JArr(_)) => true
    case Some(JObj(_)) => true
  }

  predicate IsDigit(c: char) { '0' <= c <= '9' }

  /** Decimal digits of a natural number, most significant first. */
  function Digits(n: nat): (r: string)
    ensures |r| > 0
    ensures forall i :: 0 <= i < |r| ==> IsDigit(r[i])
    ensures n < 10 <==> |r| == 1
  {
    if n < 10 then [(('0' as int) + n) as char]
    else Digits(n / 10) + [(('0' as int) + n % 10) as char]
  }

  /** Reads a string of decimal digits back as a number: the inverse of `Digits`. */
  function ParseDigits(s: string): nat
    requires forall i :: 0 <= i < |s| ==> IsDigit(s[i])
  {
    if s == [] then 0
    else
      assert IsDigit(s[|s| - 1]);
      10 * ParseDigits(s[..|s| - 1]) + (s[|s| - 1] as int - '0' as int)
  }

  lemma {:induction false} DigitsRoundTrip(n: nat)
    ensures ParseDigits(Digits(n)) == n
  {
    var r := Digits(n);
    if n >= 10 {
      DigitsRoundTrip(n / 10);
      assert r[..|r| - 1] == Digits(n / 10);
    }
  }

  /** `Digits` never maps two numbers to the same text. */
  lemma DigitsInjective(m: nat, n: nat)
    requires Digits(m) == Digits(n)
    ensures m == n
  {
    DigitsRoundTrip(m);
    DigitsRoundTrip(n);
  }

  /** `String(n)` for an integral number. */
  function NumberString(n: int): (r: string)
    ensures |r| > 0
    ensures n >= 0 <==> IsDigit(r[0])
  {
    if n >= 0 then Digits(n) else "-" + Digits(-n)
  }

  /** Distinct integers print differently. */
  lemma NumberStringInjective(m: int, n: int)
    requires NumberString(m) == NumberString(n)
    ensures m == n
  {
    if m >= 0 && n >= 0 {
      DigitsInjective(m, n);
    } else if m < 0 && n < 0 {
      assert Digits(-m) == NumberString(m)[1..];
      DigitsInjective(-m, -n);
    }
  }

  /** Whether `String(j)` returns. An object with an own `toString` field
      cannot be converted: JSON cannot make that field callable, so the
      conversion falls back to the inherited `valueOf`, which gives back the
      object itself, and a TypeError is thrown. An array converts by
      converting its elements, so it fails when one of them does. */
  predicate Printable(j: Json)
    ensures !j.JArr? && !j.JObj? ==> Printable(j)
  {
    match j
    case JObj(fields) => "toString" !in fields
    case JArr(items) => forall i :: 0 <= i < |items| ==> Printable(items[i])
    case _ => true
  }

  /** Whether `String(v)` returns; `undefined` always converts. */
  predicate PrintableValue(v: Value) {
    v.None? || Printable(v.value)
  }

  /** `String(v)`: what `${v}` and the property key `obj[v]` turn `v` into,
      for a value whose conversion does not throw. */
  function ToJsString(v: Value): (r: string)
    requires PrintableValue(v)
    ensures v.None? ==> r == "undefined"
    ensures v.Some? && v.value.JStr? ==> r == v.value.s
    ensures v.Some? && v.value.JNum? ==> r == NumberString(v.value.n)
  {
    match v
    case None => "undefined"
    case Some(j) => JsonString(j)
  }

  /** `String(j)` for a JSON value; an array joins its elements with commas. */
  function JsonString(j: Json): (r: string)
    requires Printable(j)
    ensures j.JObj? ==> r == "[object Object]"
    ensures j.JArr? && |j.items| == 1 && !j.items[0].JNull? ==> r == JsonString(j.items[0])
    ensures j.JArr? ==> |r| >= |j.items| - 1
    decreases j, 1
  {
    match j
    case JNull => "null"
    case JBool(b) => if b then "true" else "false"
    case JNum(n) => NumberString(n)
    case JStr(s) => s
    case JArr(items) => Join(items, j)
    case JObj(_) => "[object Object]"
  }

  /** `Array.prototype.join(",")` over the elements of the array `owner`:
      a `null` element contributes the empty string. */
  function Join(items: seq<Json>, ghost owner: Json): (r: string)
    requires forall i :: 0 <= i < |items| ==> items[i] < owner && Printable(items[i])
    ensures items == [] ==> r == ""
    ensures |items| == 1 ==> r == (if items[0].JNull? then "" else JsonString(items[0]))
    ensures |r| >= |items| - 1
    decreases owner, 0, |items|
  {
    if items == [] then ""
    else
      var head := if items[0].JNull? then "" else JsonString(items[0]);
      if |items| == 1 then head else head + "," + Join(items[1..], owner)
  }

  /** An object with its own `toString` field does not convert; one without
      it converts to "[object Object]". */
  lemma ConversionThrows(fields: map<string, Json>, v: Json)
    ensures !Printable(JObj(fields["toString" := v]))
    ensures "toString" !in fields ==> ToJsString(Some(JObj(fields))) == "[object Object]"
  {
  }

  /** An array, at any position, holding an element that does not convert,
      does not convert either. */
  lemma ArrayThrows(items: seq<Json>, i: nat)
    requires i < |items| && !Printable(items[i])
    ensures !Printable(JArr(items))
  {
  }

  /** A one-element array converts like its element: the name `["alice"]`
      is the same key as `"alice"`. */
  lemma SingletonArrayKey(s: string)
    ensures ToJsString(Some(JArr([JStr(s)]))) == ToJsString(Some(JStr(s)))
  {
  }

  /** Values that are not strings collide with the string they print as:
      an absent value with "undefined", `null` with "null" and a boolean
      with its name. */
  lemma KeyCoercion(b: bool)
    ensures ToJsString(None) == ToJsString(Some(JStr("undefined")))
    ensures ToJsString(Some(JNull)) == ToJsString(Some(JStr("null")))
    ensures ToJsString(Some(JBool(b))) == ToJsString(Some(JStr(if b then "true" else "false")))
  {
  }

  /** Reads property `key` of a value that is not `null` (reading a property
      of `null` throws, so callers rule that case out first). Only an object
      has the own properties this system reads. */
  function Field(v: Json, key: string): (r: Value)
    requires !v.JNull?
    ensures r.Some? <==> v.JObj? && key in v.fields
    ensures r.Some? ==> r.value == v.fields[key]
  {
    match v
    case JObj(fields) => if key in fields then Some(fields[key]) else None
    case _ => None
  }

  /** The object literal `{key: v}`; `JSON.stringify` drops a field whose
      value is `undefined`, so an undefined `v` gives the empty object. */
  function Singleton(key: string, v: Value): (r: Json)
    ensures r.JObj? && Truthy(Some(r))
    ensures Field(r, key) == v
    ensures r.fields.Keys <= {key}
  {
    match v
    case None => JObj(map[])
    case Some(j) => JObj(map[key := j])
  }
}
