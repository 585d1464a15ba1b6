/** The optional value used for the host's nullable results (a missing store key,
    a post that returned null, a message without data). */
module Wrappers {
  datatype Option<+T> = None | Some(value: T)
}
