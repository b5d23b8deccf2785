/** Small vocabulary shared by every part of the model. */
module Common {

  /** A row's position in its table. */
  type Id = nat

  datatype Option<+T> = None | Some(value: T)

  predicate Distinct<T(==)>(s: seq<T>) {
    forall i, j :: 0 <= i < j < |s| ==> s[i] != s[j]
  }

  function Elements(s: seq<Id>): set<Id> { set i | 0 <= i < |s| :: s[i] }

  function Max(a: int, b: int): int { if a < b then b else a }

  function Min(a: int, b: int): int { if a < b then a else b }
}
