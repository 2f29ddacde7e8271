/** Untyped, dynamically shaped data: the nested mappings and lists a parsed
    wire document consists of, with scalar leaves. `Null` is Python's `None`. */
module Values {

  datatype Value =
    | Null
    | Bool(b: bool)
    | Int(i: int)
    | Str(s: string)
    | List(elems: seq<Value>)
    | Dict(m: map<string, Value>)

  /** Neither a mapping nor a list: the values the mapper stores verbatim. */
  predicate IsScalar(v: Value) {
    !v.List? && !v.Dict?
  }

  /** No list occurs anywhere inside `v`. */
  predicate ListFree(v: Value)
    decreases v
  {
    match v
    case List(_) => false
    case Dict(m) => forall k :: k in m ==> ListFree(m[k])
    case _ => true
  }
}
