/** Remote commands. */
module Faults {

  /** How a remote command ends; an error may come after it has taken effect. */
  datatype Net = Works | Fails(applied: bool)

  predicate TakesEffect(n: Net) {
    n.Works? || n.applied
  }
}
