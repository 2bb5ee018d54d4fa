/**
 * The slice of JavaScript value semantics the core relies on: JSON values and
 * their truthiness, property reads with and without optional chaining, thrown
 * values, `Number(string)` and `Number.prototype.toString()` on integers.
 */
module Js {
  import opened Wrappers

  /** A parsed JSON value (numbers restricted to integers). */
  datatype Json =
    | JNull
    | JBool(b: bool)
    | JNum(n: int)
    | JStr(s: string)
    | JArr(items: seq<Json>)
    | JObj(fields: map<string, Json>)

  /** JavaScript truthiness: `null`, `false`, `0` and `""` are falsy, everything else truthy. */
  predicate Truthy(j: Json) {
    match j
    case JNull => false
    case JBool(b) => b
    case JNum(n) => n != 0
    case JStr(s) => s != ""
    case JArr(_) => true
    case JObj(_) => true
  }

  /** Truthiness of a possibly-`undefined` value (`None` is `undefined`). */
  predicate TruthyOpt(v: Option<Json>) {
    v.Some? && Truthy(v.value)
  }

  /** `v ?? d`: `d` when `v` is `null` or `undefined`. */
  function Coalesce(v: Option<Json>, d: Json): (r: Json)
    ensures v.Some? && v.value != JNull ==> r == v.value
    ensures v.None? || v.value == JNull ==> r == d
  {
    if v.Some? && v.value != JNull then v.value else d
  }

  /** The message of the `TypeError` thrown when a property of `null` is read. */
  function NullReadMessage(key: string): string {
    "Cannot read properties of null (reading '" + key + "')"
  }

  /** The message of the `TypeError` thrown by `const {key} = source` when `source` is `null`. */
  function DestructureNullMessage(key: string, source: string): string {
    "Cannot destructure property '" + key + "' of '" + source + "' as it is null."
  }

  /**
   * `j.key`: reading a property of `null` throws a TypeError; arrays, strings,
   * numbers and booleans have none of the keys the core reads, so they give `undefined`.
   */
  function Prop(j: Json, key: string): (r: Result<Option<Json>, string>)
    ensures r.Err? <==> j.JNull?
    ensures r.Err? ==> r.error == NullReadMessage(key)
    ensures r.Ok? && r.value.Some? ==> j.JObj? && key in j.fields && r.value.value == j.fields[key]
    ensures j.JObj? && key in j.fields ==> r == Ok(Some(j.fields[key]))
  {
    match j
    case JNull => Err(NullReadMessage(key))
    case JObj(m) => Ok(if key in m then Some(m[key]) else None)
    case _ => Ok(None)
  }

  /** `v?.key`: optional chaining yields `undefined` on `null`/`undefined` instead of throwing. */
  function OptProp(v: Option<Json>, key: string): (r: Option<Json>)
    ensures r.Some? ==> v.Some? && v.value.JObj? && key in v.value.fields && r.value == v.value.fields[key]
    ensures v.Some? && v.value.JObj? && key in v.value.fields ==> r == Some(v.value.fields[key])
  {
    if v.None? || v.value.JNull? then None else Prop(v.value, key).value
  }

  /** The property key of index `i`: its decimal form. */
  function IndexKey(i: nat): string {
    NatToDecimal(i)
  }

  /** Distinct indices have distinct keys. */
  lemma IndexKeyInjective()
    ensures forall i: nat, j: nat :: IndexKey(i) == IndexKey(j) ==> i == j
  {
    forall i: nat, j: nat | IndexKey(i) == IndexKey(j)
      ensures i == j
    {
      DigitsValueOfDecimal(i);
      DigitsValueOfDecimal(j);
    }
  }

  /** The keys `"0"` up to the key of `n - 1`. */
  function IndexKeys(n: nat): (ks: set<string>)
    ensures forall i: nat :: i < n ==> IndexKey(i) in ks
  {
    if n == 0 then {} else IndexKeys(n - 1) + {IndexKey(n - 1)}
  }

  /** The properties `"0"`, `"1"`, ... of an indexed value holding `items`. */
  function IndexedEntries(items: seq<Json>): (m: map<string, Json>)
    ensures m.Keys == IndexKeys(|items|)
    ensures forall i: nat :: i < |items| ==> m[IndexKey(i)] == items[i]
  {
    if |items| == 0 then map[]
    else
      IndexKeyInjective();
      IndexedEntries(items[..|items| - 1])[IndexKey(|items| - 1) := items[|items| - 1]]
  }

  /** The one-character strings that indexing a string yields. */
  function CharStrings(s: string): (r: seq<Json>)
    ensures |r| == |s| && forall i :: 0 <= i < |s| ==> r[i] == JStr([s[i]])
  {
    seq(|s|, i requires 0 <= i < |s| => JStr([s[i]]))
  }

  /**
   * The own enumerable properties `{...v}` copies: an object's fields, an
   * array's elements and a string's characters under their index keys, and
   * nothing from `null`, `undefined`, numbers and booleans.
   */
  function Spread(v: Option<Json>): (m: map<string, Json>)
    ensures v.Some? && v.value.JObj? ==> m == v.value.fields
    ensures v.Some? && v.value.JArr? ==> forall i: nat :: i < |v.value.items| ==>
      IndexKey(i) in m && m[IndexKey(i)] == v.value.items[i]
    ensures v.Some? && v.value.JStr? ==> forall i: nat :: i < |v.value.s| ==>
      IndexKey(i) in m && m[IndexKey(i)] == JStr([v.value.s[i]])
    ensures v.Some? && v.value.JArr? ==> m.Keys == IndexKeys(|v.value.items|)
    ensures v.Some? && v.value.JStr? ==> m.Keys == IndexKeys(|v.value.s|)
    ensures v.None? || v.value.JNull? || v.value.JBool? || v.value.JNum? ==> m == map[]
  {
    if v.None? then map[]
    else match v.value
      case JObj(fields) => fields
      case JArr(items) => IndexedEntries(items)
      case JStr(s) => IndexedEntries(CharStrings(s))
      case _ => map[]
  }

  /** `String(j)`, which `new Error(j)` uses for its message. */
  function JsonToString(j: Json): string
    decreases j, 1
  {
    match j
    case JNull => "null"
    case JBool(b) => if b then "true" else "false"
    case JNum(n) => IntToString(n)
    case JStr(s) => s
    case JArr(items) => JoinElements(items, j)
    case JObj(_) => "[object Object]"
  }

  /** `items.join(",")` for the elements of array `whole`, `null` printing as "". */
  function JoinElements(items: seq<Json>, ghost whole: Json): string
    requires forall i :: 0 <= i < |items| ==> items[i] < whole
    decreases whole, 0, |items|
  {
    if |items| == 0 then ""
    else
      var first := if items[0].JNull? then "" else JsonToString(items[0]);
      if |items| == 1 then first else first + "," + JoinElements(items[1..], whole)
  }

  /** A thrown value: an `Error` object, or anything else with its `String()` form. */
  datatype Thrown = ErrorValue(name: string, message: string) | OtherValue(text: string)

  /** `e instanceof Error ? e.message : fallback`. */
  function MessageOr(e: Thrown, fallback: string): (r: string)
    ensures e.ErrorValue? ==> r == e.message
    ensures e.OtherValue? ==> r == fallback
  {
    match e
    case ErrorValue(_, m) => m
    case OtherValue(_) => fallback
  }

  /** `String(e)`, which `"..." + e` uses: `Error.prototype.toString` for errors. */
  function ToJsString(e: Thrown): string {
    match e
    case ErrorValue(n, m) => if m == "" then n else if n == "" then m else n + ": " + m
    case OtherValue(t) => t
  }

  /** The result of `Number(s)`: an integer or `NaN`. */
  datatype Num = Finite(value: int) | NaN {
    /** Truthiness of a number: `0` and `NaN` are falsy. */
    predicate Truthy() { Finite? && value != 0 }
  }

  /** Subtraction with `NaN` propagation. */
  function Sub(a: Num, b: Num): (r: Num)
    ensures r.Finite? <==> a.Finite? && b.Finite?
    ensures r.Finite? ==> r.value + b.value == a.value
  {
    if a.Finite? && b.Finite? then Finite(a.value - b.value) else NaN
  }

  predicate IsDigit(c: char) { '0' <= c <= '9' }

  predicate AllDigits(s: string) { forall i :: 0 <= i < |s| ==> IsDigit(s[i]) }

  /** The value of a string of decimal digits (the last digit is the least significant). */
  function DigitsValue(s: string): nat
    requires AllDigits(s)
  {
    if s == [] then 0 else DigitsValue(s[..|s| - 1]) * 10 + (s[|s| - 1] as int - '0' as int)
  }

  /**
   * `Number(s)` for the strings the core parses: `""` is 0, an optionally signed
   * run of decimal digits is its value, anything else is `NaN`.
   */
  function Number(s: string): (r: Num)
    ensures s == "" ==> r == Finite(0)
    ensures s != "" && AllDigits(s) ==> r == Finite(DigitsValue(s))
    ensures r.NaN? <==> s != "" && !AllDigits(s) && !(|s| >= 2 && s[0] in "+-" && AllDigits(s[1..]))
  {
    if s == "" then Finite(0)
    else if AllDigits(s) then Finite(DigitsValue(s))
    else if |s| >= 2 && s[0] == '-' && AllDigits(s[1..]) then Finite(-(DigitsValue(s[1..]) as int))
    else if |s| >= 2 && s[0] == '+' && AllDigits(s[1..]) then Finite(DigitsValue(s[1..]))
    else NaN
  }

  function DigitChar(d: nat): (c: char)
    requires d < 10
    ensures IsDigit(c) && c as int - '0' as int == d
  {
    (d + '0' as int) as char
  }

  /** Decimal digits of a natural number, most significant first, no leading zeros. */
  function NatToDecimal(n: nat): (s: string)
    ensures AllDigits(s) && |s| >= 1
  {
    if n < 10 then [DigitChar(n)] else NatToDecimal(n / 10) + [DigitChar(n % 10)]
  }

  /** `n.toString()` for an integer `n`. */
  function IntToString(n: int): string {
    if n < 0 then "-" + NatToDecimal(-n) else NatToDecimal(n)
  }

  lemma {:induction false} DigitsValueOfDecimal(n: nat)
    ensures DigitsValue(NatToDecimal(n)) == n
  {
    if n >= 10 {
      DigitsValueOfDecimal(n / 10);
      var s := NatToDecimal(n);
      assert s[..|s| - 1] == NatToDecimal(n / 10);
    }
  }

  /** `Number(n.toString()) === n`: printing an integer and parsing it back is the identity. */
  lemma NumberOfIntToString(n: int)
    ensures Number(IntToString(n)) == Finite(n)
  {
    if n < 0 {
      DigitsValueOfDecimal(-n);
      var s := IntToString(n);
      assert s[1..] == NatToDecimal(-n);
      assert !AllDigits(s) by { assert !IsDigit(s[0]); }
    } else {
      DigitsValueOfDecimal(n);
    }
  }
}
