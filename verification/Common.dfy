/** What several modules share. */
module Common {
  /** An identity hash and a normalised room name; only equality matters. */
  datatype Identity = Identity(hash: nat)
  datatype Room = Room(name: nat)
  /** A row number in the people table. */
  datatype PersonId = PersonId(row: nat)

  datatype Option<+T> = None | Some(value: T)

  predicate NoRepeats<T(==)>(xs: seq<T>) {
    forall i, j :: 0 <= i < j < |xs| ==> xs[i] != xs[j]
  }

  function Min(a: int, b: int): int {
    if a < b then a else b
  }

  function Max(a: int, b: int): int {
    if a < b then b else a
  }
}
