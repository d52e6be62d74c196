/**
 * JavaScript values as the handlers in main.js see them: IPC payloads, the
 * result of JSON.parse and the objects written with JSON.stringify.
 * JSON.parse never produces Undefined; it appears only as the value of a
 * missing property.
 */
module Js {

  datatype Value =
    | Undefined
    | Null
    | Bool(b: bool)
    | Num(n: int)
    | Str(s: string)
    | Arr(items: seq<Value>)
    | Obj(fields: map<string, Value>)

  /** The `typeof` operator. */
  function TypeOf(v: Value): string
  {
    match v
    case Undefined => "undefined"
    case Null => "object"
    case Bool(_) => "boolean"
    case Num(_) => "number"
    case Str(_) => "string"
    case Arr(_) => "object"
    case Obj(_) => "object"
  }

  /** JavaScript truthiness (`if (v)`, `v && ...`). */
  predicate Truthy(v: Value)
  {
    match v
    case Undefined => false
    case Null => false
    case Bool(b) => b
    case Num(n) => n != 0
    case Str(s) => s != ""
    case Arr(_) => true
    case Obj(_) => true
  }

  /**
   * The guard `v && typeof v === 'object'`, used on parsed JSON and before
   * Object.assign: it lets arrays through as well as plain objects.
   */
  predicate IsObjectLike(v: Value)
    ensures IsObjectLike(v) <==> v.Obj? || v.Arr?
  {
    Truthy(v) && TypeOf(v) == "object"
  }

  /**
   * Reading property `key` of `payload || {}` (destructuring): only a plain
   * object can carry the handlers' own property names; anything else yields
   * undefined.
   */
  function Field(v: Value, key: string): Value
  {
    if v.Obj? && key in v.fields then v.fields[key] else Undefined
  }

  predicate IsDigit(c: char)
  {
    '0' <= c <= '9'
  }

  predicate AllDigits(s: string)
  {
    forall i :: 0 <= i < |s| ==> IsDigit(s[i])
  }

  function DigitChar(d: nat): (c: char)
    requires d < 10
    ensures IsDigit(c) && c as int - '0' as int == d
  {
    ('0' as int + d) as char
  }

  /**
   * The canonical decimal spelling of array index `n`: the property key under
   * which an array element is enumerated (and copied by Object.assign).
   */
  function IndexKey(n: nat): (s: string)
    ensures |s| > 0 && AllDigits(s)
    ensures n == 0 ==> s == "0"
    ensures n == 0 || s[0] != '0'
    decreases n
  {
    if n < 10 then [DigitChar(n)] else IndexKey(n / 10) + [DigitChar(n % 10)]
  }

  /** The number a string of decimal digits denotes. */
  function DecimalValue(s: string): nat
    requires AllDigits(s)
    decreases |s|
  {
    if s == [] then 0 else DecimalValue(s[..|s| - 1]) * 10 + (s[|s| - 1] as int - '0' as int)
  }

  /** Reading an index key back as a decimal number gives the index. */
  lemma {:induction false} DecimalValueOfIndexKey(n: nat)
    ensures DecimalValue(IndexKey(n)) == n
    decreases n
  {
    if n >= 10 {
      var s := IndexKey(n);
      assert s[..|s| - 1] == IndexKey(n / 10);
      DecimalValueOfIndexKey(n / 10);
    }
  }

  lemma DecimalValueOfIndexKeys()
    ensures forall n: nat {:trigger IndexKey(n)} :: DecimalValue(IndexKey(n)) == n
  {
    forall n: nat
      ensures DecimalValue(IndexKey(n)) == n
    {
      DecimalValueOfIndexKey(n);
    }
  }

  /** The own enumerable properties of an array: element i under key IndexKey(i), and nothing else. */
  function IndexProps(items: seq<Value>): (m: map<string, Value>)
    ensures forall i :: 0 <= i < |items| ==> IndexKey(i) in m && m[IndexKey(i)] == items[i]
    ensures forall k :: k in m ==> AllDigits(k) && DecimalValue(k) < |items| && k == IndexKey(DecimalValue(k))
    decreases |items|
  {
    if items == [] then map[]
    else
      var n := |items| - 1;
      DecimalValueOfIndexKeys();
      IndexProps(items[..n])[IndexKey(n) := items[n]]
  }
}
