/** The coercion helpers `to_2tuple`, `to_tuple` and `to_set`, which turn a
    value that may be a single item or a collection into a pair, a tuple or a
    set. */
module Coerce {
  import opened Results

  /** A Python value as far as the helpers look at it: a tuple, a set, some
      other iterable (a list, say), or anything else. A set is represented by
      the order in which iterating over it yields its elements. */
  datatype Value<T> =
    | Atom(x: T)
    | Tuple(items: seq<Value<T>>)
    | Set(order: seq<Value<T>>)
    | Iterable(items: seq<Value<T>>)

  /** The elements an iteration over an iterable value yields, in order. */
  function Elements<T>(v: Value<T>): seq<Value<T>>
    requires !v.Atom?
  {
    match v
    case Tuple(items) => items
    case Set(order) => order
    case Iterable(items) => items
  }

  /** `to_2tuple` raises this for a tuple whose length is not 2. */
  datatype CoerceError = NotATwoTuple(length: nat)

  /** `to_2tuple`: a 2-tuple is returned as it is, any other tuple is an
      error, and every other value is paired with itself. */
  function ToTwoTuple<T>(v: Value<T>): (r: Result<(Value<T>, Value<T>), CoerceError>)
    ensures v.Tuple? ==> (r.Ok? <==> |v.items| == 2)
    ensures v.Tuple? && r.Ok? ==> v == Tuple([r.value.0, r.value.1])
    ensures v.Tuple? && r.Err? ==> r.error.length == |v.items| != 2
    ensures !v.Tuple? ==> r == Ok((v, v))
  {
    if v.Tuple? then
      if |v.items| != 2 then Err(NotATwoTuple(|v.items|))
      else Ok((v.items[0], v.items[1]))
    else
      Ok((v, v))
  }

  /** `to_tuple`: a tuple is returned as it is, any other iterable gives its
      elements in iteration order, and any other value v gives (v,). */
  function ToTuple<T>(v: Value<T>): (r: seq<Value<T>>)
    ensures v.Tuple? ==> Tuple(r) == v
    ensures !v.Atom? ==> r == Elements(v)
    ensures v.Atom? ==> r == [v]
  {
    match v
    case Atom(_) => [v]
    case Tuple(items) => items
    case Set(order) => order
    case Iterable(items) => items
  }

  /** `to_set`: a set is returned as it is (the same elements), any other
      iterable gives the set of its elements, and any other value v gives
      {v}. */
  function ToSet<T(==,!new)>(v: Value<T>): (r: set<Value<T>>)
    ensures v.Atom? ==> r == {v}
    ensures !v.Atom? ==> forall e :: e in r <==> e in Elements(v)
  {
    match v
    case Atom(_) => {v}
    case Tuple(items) => set e | e in items
    case Set(order) => set e | e in order
    case Iterable(items) => set e | e in items
  }
}
