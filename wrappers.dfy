/** The optional value used for Kotlin's nullable types (`String?`, `Uri?`, `Intent?`). */
module Wrappers {

  datatype Option<+T> = None | Some(value: T)
}
