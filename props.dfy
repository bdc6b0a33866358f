/**
 * Property values as the component receives them: a JavaScript object is a map from keys to
 * values, where `undefined` and `null` are values of their own.
 */
module Props {
  import opened Engine

  /** The shapes of value the component's props take (numbers are the non-negative integers). */
  datatype Value =
    | Undefined
    | Null
    | Bool(b: bool)
    | Num(n: nat)
    | Str(s: string)
    | Elem(node: Node)
    | Style(css: map<string, string>)
    | Exts(list: seq<Extension>)
    | Sel(selection: Selection)
    | Fn(id: nat)
    | Root(id: nat)

  /** `undefined` or `null`: the two values `??` falls through. */
  predicate IsNullish(v: Value) {
    v.Undefined? || v.Null?
  }

  /** Reading a key of an object: an absent key reads as `undefined`. */
  function Get(m: map<string, Value>, key: string): Value {
    if key in m then m[key] else Undefined
  }

  /** a ?? b */
  function Coalesce(a: Value, b: Value): Value {
    if IsNullish(a) then b else a
  }

  /** No value of the object is `null`. */
  predicate NoNull(m: map<string, Value>) {
    forall k :: k in m ==> !m[k].Null?
  }
}
