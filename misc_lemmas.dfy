/** Properties of the coercion helpers. */
module CoerceLemmas {
  import opened Results
  import opened Coerce

  /** `to_set` gives exactly the elements `to_tuple` lists. */
  lemma ToSetOfToTuple<T(!new)>(v: Value<T>)
    ensures ToSet(v) == set e | e in ToTuple(v)
  {
  }

  /** Coercing an already-coerced tuple changes nothing. */
  lemma ToTupleIdempotent<T>(v: Value<T>)
    ensures ToTuple(Tuple(ToTuple(v))) == ToTuple(v)
  {
  }

  /** Coercing an already-coerced set, iterated in any order, changes
      nothing. */
  lemma ToSetIdempotent<T(!new)>(v: Value<T>, order: seq<Value<T>>)
    requires (set e | e in order) == ToSet(v)
    ensures ToSet(Set(order)) == ToSet(v)
  {
  }

  /** Coercing an already-coerced pair gives the same pair back. */
  lemma ToTwoTupleIdempotent<T>(v: Value<T>)
    requires ToTwoTuple(v).Ok?
    ensures ToTwoTuple(Tuple([ToTwoTuple(v).value.0, ToTwoTuple(v).value.1])) == ToTwoTuple(v)
  {
  }

  /** (1, 2) is kept, (1, 2, 3) is rejected, 7 becomes (7, 7), and a list
      [1, 2] is not unpacked: it is paired with itself. */
  lemma ToTwoTupleExamples()
    ensures ToTwoTuple(Tuple([Atom(1), Atom(2)])) == Ok((Atom(1), Atom(2)))
    ensures ToTwoTuple(Tuple([Atom(1), Atom(2), Atom(3)])) == Err(NotATwoTuple(3))
    ensures ToTwoTuple(Atom(7)) == Ok((Atom(7), Atom(7)))
    ensures ToTwoTuple(Iterable([Atom(1), Atom(2)]))
         == Ok((Iterable([Atom(1), Atom(2)]), Iterable([Atom(1), Atom(2)])))
  {
  }

  /** A list keeps its order and its repetitions as a tuple and loses both as
      a set. */
  lemma ListExample()
    ensures ToTuple(Iterable([Atom(2), Atom(1), Atom(2)])) == [Atom(2), Atom(1), Atom(2)]
    ensures ToSet(Iterable([Atom(2), Atom(1), Atom(2)])) == {Atom(1), Atom(2)}
  {
  }
}
