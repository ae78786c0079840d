/** Shared result types, clock units and identifiers. */
module Base {

  datatype Option<+T> = None | Some(value: T)

  datatype Result<+T, +E> = Success(value: T) | Failure(error: E)

  /** Instants and durations are microseconds; 0 is the zero time, which the source rejects. */
  type Time = nat

  const MINUTE: Time := 60_000_000

  /** Finitely many identifiers leave one unused. */
  lemma {:induction false} Unused(used: set<nat>) returns (c: nat)
    ensures forall i :: i in used ==> i < c
    decreases |used|
  {
    if i :| i in used {
      var d := Unused(used - {i});
      c := if i < d then d else i + 1;
      forall j | j in used ensures j < c { if j != i { assert j in used - {i}; } }
    } else {
      c := 0;
    }
  }
}
