/** The values the cache holds: a JSON tree, plus JavaScript's `undefined`. */
module JsonValue {

  /** `Undefined` is what a missing key reads as and what a dotted removeItem
      stores at its leaf; it is not a JSON value and JSON.stringify drops it. */
  datatype Json =
    | Undefined
    | Null
    | Bool(b: bool)
    | Num(n: int)
    | Str(s: string)
    | Arr(items: seq<Json>)
    | Obj(fields: seq<Field>)

  /** One own property of an object. An object keeps its fields in insertion
      order, which is the order Object.keys enumerates them in. */
  datatype Field = Field(key: string, value: Json)

  /** Object.keys: the keys of the fields, in order. */
  function Keys(fs: seq<Field>): (ks: seq<string>)
    ensures |ks| == |fs|
    ensures forall i :: 0 <= i < |fs| ==> ks[i] == fs[i].key
  {
    if fs == [] then [] else [fs[0].key] + Keys(fs[1..])
  }

  /** A JavaScript object never has two own properties with the same key. */
  predicate DistinctKeys(fs: seq<Field>) {
    forall i, j :: 0 <= i < j < |fs| ==> fs[i].key != fs[j].key
  }

  /** Every object in the tree, at any depth, has distinct keys. */
  predicate WellFormed(t: Json) {
    match t
    case Arr(items) => forall i :: 0 <= i < |items| ==> WellFormed(items[i])
    case Obj(fs) => DistinctKeys(fs) && forall i :: 0 <= i < |fs| ==> WellFormed(fs[i].value)
    case _ => true
  }

  /** No `undefined` anywhere in the tree: what JSON can represent. */
  predicate NoUndefined(t: Json) {
    match t
    case Undefined => false
    case Arr(items) => forall i :: 0 <= i < |items| ==> NoUndefined(items[i])
    case Obj(fs) => forall i :: 0 <= i < |fs| ==> NoUndefined(fs[i].value)
    case _ => true
  }
}
