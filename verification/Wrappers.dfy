/** Small types used throughout. */
module Wrappers {
  /** A nullable or absent value. */
  datatype Option<+T> = None | Some(value: T)

  /** How a command to MySQL or Redis ends: done, refused before taking effect, or done
      with the reply lost. */
  datatype Fate = Done | NotApplied | ReplyLost
}
