/** Types shared by all components. */
module Basics {
  datatype Option<+T> = None | Some(value: T)

  /** Ids, tokens, names and digests: only their identity matters. */
  type Id = nat

  /** Milliseconds on the clock of the database and the services. */
  type Time = int
}
