/** The optional value used for Kotlin `lateinit` fields and nullable strings. */
module Optional {

  datatype Option<+T> = None | Some(value: T)
}
