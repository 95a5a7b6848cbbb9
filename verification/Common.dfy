/** Vocabulary shared by every component: identifiers, instants and the two result shapes. */
module Common {
  /** A UUID. `uuid4` is modelled as an arbitrary value that was never used before. */
  type Id = nat

  /** An instant in UTC, in microseconds since the epoch. */
  type Time = int

  datatype Option<+T> = None | Some(value: T)

  datatype Result<+T, +E> = Ok(value: T) | Err(error: E)

  datatype Channel = Web | Email

  /** There is always a UUID that was never used. */
  lemma FreshId(used: set<Id>)
    ensures exists x: Id :: x !in used
  {
    var k := Beyond(used);
    assert k !in used;
  }

  ghost function Beyond(used: set<Id>): (k: Id)
    ensures forall x :: x in used ==> x < k
  {
    if used == {} then 0
    else
      var x :| x in used;
      var k := Beyond(used - {x});
      assert forall y :: y in used ==> y == x || y in used - {x};
      if x < k then k else x + 1
  }
}
