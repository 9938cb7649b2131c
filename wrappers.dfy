/** Kotlin's nullable values (`String?`, `User?`) as an Option. */
module Wrappers {
  datatype Option<+T> = None | Some(value: T)
}
