/** Small types shared by every part of the model. */
module Basics {

  datatype Option<+T> = None | Some(value: T)

  /** An opaque identifier: a UUID, a work id, a URL, a digest. */
  type Id = nat

  /** A wall-clock instant. Only order and presence matter to the model. */
  type Time = nat

  function Min(a: int, b: int): int {
    if a <= b then a else b
  }

  function Max(a: int, b: int): int {
    if a >= b then a else b
  }

  /** A finite set of identifiers leaves one unused. */
  lemma {:induction false} UnusedId(ids: set<Id>)
    ensures exists id: Id :: id !in ids
  {
    var bound := UpperBound(ids);
    assert bound !in ids;
  }

  lemma {:induction false} UpperBound(ids: set<Id>) returns (bound: nat)
    ensures forall id :: id in ids ==> id < bound
  {
    if ids == {} {
      bound := 0;
    } else {
      var id :| id in ids;
      var rest := ids - {id};
      var below := UpperBound(rest);
      bound := if id < below then below else id + 1;
      assert ids == rest + {id};
    }
  }
}
