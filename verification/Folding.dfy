/**
 A definition of the form `forall o {:trigger Unfold(o)} :: Unfold(o) ==> P`
 means P, but the solver looks inside only where a proof says
 `assert Unfold(0)`.
 */
module Folding {

  predicate Unfold(o: int) { true }
}
