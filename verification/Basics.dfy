/** What several modules share. */
module Basics {

  datatype Option<+T> = None | Some(value: T)

  /** The subject key identifier of a SHIP node, normalised. */
  type Ski = string
}
