/** The answer of a query that may find nothing: `None` stands for "no row" (or a NULL column). */
module Optional {
  datatype Option<+T> = None | Some(value: T)
}
