/** The optional values the database columns and query results need. */
module Options {
  datatype Option<+T> = None | Some(value: T)
}
