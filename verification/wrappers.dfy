/** A value that may be missing: a field JavaScript leaves `undefined`, or a lookup that finds nothing. */
module Options {

  datatype Option<T> = None | Some(value: T)
}
