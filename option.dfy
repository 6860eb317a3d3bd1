/** The optional value used for dictionary lookups that may miss
    (`dict.get`) and for values that may be `None`. */
module Optional {
  datatype Option<T> = None | Some(value: T)
}
