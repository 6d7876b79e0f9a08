/** The part of JavaScript's value model the display code depends on: truthiness, property
    reads, own properties and template-literal conversion. Numbers are integers here. */
module Js {
  import opened Text

  datatype Value =
    | Undefined
    | Null
    | Bool(b: bool)
    | Num(n: int)
    | Str(s: string)
    | Arr(elements: seq<Value>)
    | Obj(properties: map<string, Value>)

  /** What `if (v)` and `!v` test: everything except `undefined`, `null`, `false`, `0` and the
      empty string is truthy. */
  predicate Truthy(v: Value)
  {
    match v
    case Undefined => false
    case Null => false
    case Bool(b) => b
    case Num(n) => n != 0
    case Str(s) => s != ""
    case Arr(_) => true
    case Obj(_) => true
  }

  /** `Array.isArray(v)`. */
  predicate IsArray(v: Value)
  {
    v.Arr?
  }

  /** The index a property key names on an array or a string: the key must be the canonical
      decimal form of a natural number (no sign, no leading zero), otherwise -1. */
  function ArrayIndex(key: string): (r: int)
    ensures r >= -1
    ensures r >= 0 ==> NatToString(r) == key
  {
    if |key| >= 1 && (forall k :: 0 <= k < |key| ==> IsDigit(key[k])) && (|key| == 1 || key[0] != '0') then
      CanonicalDigits(key);
      DigitsValue(key)
    else -1
  }

  /** The decimal form of a natural number names that number as an index. */
  lemma ArrayIndexOfNatToString(i: nat)
    ensures ArrayIndex(NatToString(i)) == i
  {
    DigitsValueOfNatToString(i);
  }

  /** `v.hasOwnProperty(key)` on a value that is not `null` or `undefined`. */
  predicate HasOwn(v: Value, key: string)
    requires !v.Undefined? && !v.Null?
  {
    match v
    case Obj(props) => key in props
    case Arr(elements) => key == "length" || 0 <= ArrayIndex(key) < |elements|
    case Str(s) => key == "length" || 0 <= ArrayIndex(key) < |s|
    case _ => false
  }

  /** `v[key]` on a value that is not `null` or `undefined`: an own property, the `length` or
      an element of an array, the `length` or a one-character string of a string, and
      `undefined` for every other key (inherited methods are not read as values here). */
  function Get(v: Value, key: string): (r: Value)
    requires !v.Undefined? && !v.Null?
    ensures v.Obj? ==> r == if key in v.properties then v.properties[key] else Undefined
    ensures v.Arr? ==> r == if key == "length" then Num(|v.elements|)
                            else if 0 <= ArrayIndex(key) < |v.elements| then v.elements[ArrayIndex(key)]
                            else Undefined
    ensures v.Str? ==> r == if key == "length" then Num(|v.s|)
                            else if 0 <= ArrayIndex(key) < |v.s| then Str([v.s[ArrayIndex(key)]])
                            else Undefined
    ensures v.Bool? || v.Num? ==> r == Undefined
  {
    match v
    case Obj(props) => if key in props then props[key] else Undefined
    case Arr(elements) =>
      var i := ArrayIndex(key);
      if key == "length" then Num(|elements|) else if 0 <= i < |elements| then elements[i] else Undefined
    case Str(s) =>
      var i := ArrayIndex(key);
      if key == "length" then Num(|s|) else if 0 <= i < |s| then Str([s[i]]) else Undefined
    case _ => Undefined
  }

  /** A read gives something other than `undefined` only for an own property. */
  lemma GetOnlyOwn(v: Value, key: string)
    requires !v.Undefined? && !v.Null? && !v.Obj?
    ensures !HasOwn(v, key) ==> Get(v, key) == Undefined
    ensures v.Str? && HasOwn(v, key) ==> Get(v, key) != Undefined
  {
  }

  predicate Nullish(v: Value)
  {
    v.Undefined? || v.Null?
  }

  /** The message of the TypeError V8 raises for `v[key]` when `v` is `null` or `undefined`. */
  function ReadError(v: Value, key: string): string
  {
    "Cannot read properties of " + (if v.Null? then "null" else "undefined") + " (reading '" + key + "')"
  }

  /** JavaScript's `a % n`: the remainder takes the sign of the dividend. */
  function Remainder(a: int, n: int): (r: int)
    requires n > 0
    ensures a >= 0 ==> r == a % n
    ensures -n < r < n
    ensures a < 0 ==> r <= 0
  {
    if a >= 0 then a % n else -((-a) % n)
  }

  /** `${v}` in a template literal. */
  function ToText(v: Value): string
  {
    match v
    case Undefined => "undefined"
    case Null => "null"
    case Bool(b) => if b then "true" else "false"
    case Num(n) => IntToString(n)
    case Str(s) => s
    case Arr(elements) => Join(ElementTexts(elements), ",")
    case Obj(_) => "[object Object]"
  }

  /** Array-to-string conversion: `null` and `undefined` elements become empty strings. */
  function ElementTexts(elements: seq<Value>): (texts: seq<string>)
    ensures |texts| == |elements|
  {
    if |elements| == 0 then []
    else
      var head := if elements[0].Undefined? || elements[0].Null? then "" else ToText(elements[0]);
      [head] + ElementTexts(elements[1..])
  }
}
