/**
 * JavaScript values as they come out of `JSON.parse` (plus `undefined`):
 * the bodies of API responses and the inputs of the structural comparison.
 */
module JsonValue {
  import opened Js

  datatype Value =
    | Undefined
    | Null
    | Bool(b: bool)
    | Num(n: real)
    | Str(s: string)
    | Arr(items: seq<Value>)
    | Obj(props: map<string, Value>)

  /** `typeof v === 'object' && v !== null`. */
  predicate IsObject(v: Value)
  {
    v.Arr? || v.Obj?
  }

  /** The array index a property name denotes: its canonical decimal spelling. */
  function ArrayIndex(k: string): (r: Option<nat>)
    ensures r.Some? ==> k == NatToString(r.value)
  {
    if k != [] && AllDigits(k) && NatToString(DigitsValue(k)) == k then Some(DigitsValue(k)) else None
  }

  lemma ArrayIndexOfNat(i: nat)
    ensures ArrayIndex(NatToString(i)) == Some(i)
  {
    NatToStringValue(i);
  }

  /** The elements of `Object.keys(v)` for an object or array. */
  function Keys(v: Value): set<string>
  {
    match v
    case Obj(props) => props.Keys
    case Arr(items) => set i | 0 <= i < |items| :: NatToString(i)
    case _ => {}
  }

  lemma ArrayKeys(items: seq<Value>, k: string)
    ensures k in Keys(Arr(items)) <==> ArrayIndex(k).Some? && ArrayIndex(k).value < |items|
  {
    if k in Keys(Arr(items)) {
      var i :| 0 <= i < |items| && k == NatToString(i);
      ArrayIndexOfNat(i);
    }
  }

  /** The property access `v[k]`; a missing property reads as `undefined`. */
  function Get(v: Value, k: string): (r: Value)
    ensures k in Keys(v) ==> r < v
  {
    match v
    case Obj(props) => if k in props then props[k] else Undefined
    case Arr(items) =>
      ArrayKeys(items, k);
      (match ArrayIndex(k)
       case Some(i) =>
         if i < |items| then ArrayIndexOfNat(i); items[i] else Undefined
       case None => Undefined)
    case _ => Undefined
  }
}
