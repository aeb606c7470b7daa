/** Python's `None`-or-value globals (`pending_plate`, `reset_at`, ...). */
module Options {

  datatype Option<+T> = None | Some(value: T)

  /** Python truthiness of an optional string: `None` and `""` are false. */
  predicate Truthy(o: Option<string>)
  {
    o.Some? && o.value != ""
  }
}
