/** An optional value, for lookups that may find nothing and for state
    that may be unset. */
module Optional {
  datatype Option<T> = None | Some(value: T)
}
