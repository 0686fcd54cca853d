/** Small shared datatypes. */
module Common {

  /** An optional value: JavaScript's `null`/`undefined` and Java's `null` where the code tests for them. */
  datatype Option<+T> = None | Some(value: T)
}
