/** Units and small facts shared by the models. */
module Arithmetic {

  /** Times are in nanoseconds. */
  const SECOND := 1_000_000_000

  lemma MulMonotone(i: nat, j: nat, m: nat)
    requires i <= j
    ensures i * m <= j * m
  {
    assert j * m == i * m + (j - i) * m;
  }
}
