/** Values that may be missing: unset fields, zero times, lookups that find nothing. */
module Options {
  datatype Option<T> = None | Some(value: T)
}
