/** The optional value used throughout the project for nil pointers, absent
    columns and missing rows, and the answer of a query that may also fail. */
module Options {
  datatype Option<+T> = None | Some(value: T)

  datatype Lookup<+T> = Found(value: T) | Missing | Unreadable
}
